/** The Celery task `analyze_consultation` of backend/coaching/tasks.py: the model
    name, the quota retry loop around each Gemini call, the dispatch on the
    file type, and how the row's status and result fields end up. The Gemini
    SDK is an oracle that answers the n-th call of the task; file reads, the
    MIME guess, the clock and the Supabase upload are inputs. */
module AnalysisTask {
  import opened Wrappers
  import opened TextUtil
  import opened ConsultationRecord

  // ---------------------------------------------------------------- model name

  const ModelsPrefix: string := "models/"

  /** `GEMINI_MODEL` with `models/` put in front unless it is already there. */
  function NormaliseModelName(name: string): (r: string)
    ensures StartsWith(r, ModelsPrefix)
    ensures |r| >= |name| && r[|r| - |name|..] == name
    ensures StartsWith(name, ModelsPrefix) <==> r == name
  {
    if StartsWith(name, ModelsPrefix) then name else ModelsPrefix + name
  }

  /** Normalising twice is normalising once. */
  lemma NormaliseIdempotent(name: string)
    ensures NormaliseModelName(NormaliseModelName(name)) == NormaliseModelName(name)
  {
  }

  // ---------------------------------------------------------- one Gemini call

  /** What one `model.generate_content` call does: return text, raise
      `ResourceExhausted` (with the `Please retry in <s>s` delay when its message
      carries one), or raise anything else. */
  datatype GeminiOutcome =
    | Ok(text: string)
    | Quota(message: string, retryAfter: Option<real>)
    | OtherErr(message: string)

  /** The answer to the n-th call the task makes. */
  type Oracle = nat -> GeminiOutcome

  const QuotaExceeded: string := "할당량 초과"
  const ExhaustedTail: string :=
    ": 무료 티어 할당량을 모두 사용했습니다.\n\n해결 방법:\n1. 잠시 후 다시 시도하세요 (보통 몇 분 후 재사용 가능)\n2. Google AI Studio에서 할당량 확인: https://ai.dev/usage?tab=rate-limit\n3. 유료 플랜으로 업그레이드 고려\n4. 더 작은 모델 사용 (gemini-2.0-flash-lite 등)\n\n원본 에러: "

  /** The message raised after the last `ResourceExhausted`. */
  function ExhaustedMessage(error: string): (m: string)
    ensures Contains(m, QuotaExceeded)
  {
    var m := "Gemini API " + QuotaExceeded + ExhaustedTail + error;
    assert m == "Gemini API " + QuotaExceeded + (ExhaustedTail + error);
    ContainsInfix("Gemini API ", QuotaExceeded, ExhaustedTail + error);
    m
  }

  /** The message of the trailing raise, reached only when no attempt is made. */
  const NoAttemptsMessage: string := "최대 재시도 횟수 초과"

  function Pow2(k: nat): (r: nat)
    ensures r >= 1
  {
    if k == 0 then 1 else 2 * Pow2(k - 1)
  }

  /** The sleep before the retry that follows attempt `attempt` (0-based): the
      parsed delay when there is one and it is not zero, else exponential
      backoff from `initialDelay`. */
  function WaitTime(retryAfter: Option<real>, initialDelay: real, attempt: nat): (w: real)
    ensures retryAfter.Some? && retryAfter.value != 0.0 ==> w == retryAfter.value
    ensures retryAfter.None? || retryAfter.value == 0.0 ==> w == initialDelay * Pow2(attempt) as real
  {
    if retryAfter.Some? && retryAfter.value != 0.0 then retryAfter.value
    else initialDelay * Pow2(attempt) as real
  }

  /** Everything one `call_gemini_with_retry` does: its return value or the
      message of the exception it raises, the index of the next call, and the
      sleeps in between. */
  datatype CallTrace = CallTrace(result: Result<string, string>, next: nat, waits: seq<real>)

  /** `call_gemini_with_retry` from attempt `attempt` on, with calls numbered
      from `next`. */
  function Retry(oracle: Oracle, next: nat, attempt: nat, maxRetries: int, initialDelay: real): CallTrace
    decreases maxRetries - attempt
  {
    if attempt >= maxRetries then CallTrace(Failure(NoAttemptsMessage), next, [])
    else
      match oracle(next)
      case Ok(text) => CallTrace(Success(text), next + 1, [])
      case OtherErr(message) => CallTrace(Failure(message), next + 1, [])
      case Quota(message, retryAfter) =>
        if attempt < maxRetries - 1 then
          var rest := Retry(oracle, next + 1, attempt + 1, maxRetries, initialDelay);
          CallTrace(rest.result, rest.next, [WaitTime(retryAfter, initialDelay, attempt)] + rest.waits)
        else CallTrace(Failure(ExhaustedMessage(message)), next + 1, [])
  }

  /** The number of calls: at least one and at most the attempts left, none
      when no attempt is left; one sleep between consecutive calls and none
      after the last; every call but the last hit the quota. */
  lemma {:induction false} RetryCalls(oracle: Oracle, next: nat, attempt: nat, maxRetries: int, d: real)
    ensures var t := Retry(oracle, next, attempt, maxRetries, d);
            (attempt >= maxRetries <==> t.next == next) &&
            (attempt < maxRetries ==> t.next <= next + (maxRetries - attempt) && |t.waits| == t.next - next - 1) &&
            (attempt >= maxRetries ==> t.waits == [] && t.result == Failure(NoAttemptsMessage)) &&
            (forall j :: next <= j < t.next - 1 ==> oracle(j).Quota?)
    decreases maxRetries - attempt
  {
    if attempt < maxRetries && oracle(next).Quota? && attempt < maxRetries - 1 {
      RetryCalls(oracle, next + 1, attempt + 1, maxRetries, d);
    }
  }

  /** The last call decides: text is returned, any other error propagates
      unchanged, and a quota error is turned into the exhaustion message, which
      happens only when every attempt was used. */
  lemma {:induction false} RetryLastCall(oracle: Oracle, next: nat, attempt: nat, maxRetries: int, d: real)
    requires attempt < maxRetries
    ensures var t := Retry(oracle, next, attempt, maxRetries, d);
            t.next > next &&
            match oracle(t.next - 1)
            case Ok(text) => t.result == Success(text)
            case OtherErr(message) => t.result == Failure(message)
            case Quota(message, _) =>
              t.result == Failure(ExhaustedMessage(message)) && t.next == next + (maxRetries - attempt)
    decreases maxRetries - attempt
  {
    if oracle(next).Quota? && attempt < maxRetries - 1 {
      RetryLastCall(oracle, next + 1, attempt + 1, maxRetries, d);
    }
  }

  /** The k-th sleep follows the k-th call, a quota error, and lasts its
      `WaitTime`. */
  lemma {:induction false} RetryWaits(oracle: Oracle, next: nat, attempt: nat, maxRetries: int, d: real, k: nat)
    requires k < |Retry(oracle, next, attempt, maxRetries, d).waits|
    ensures oracle(next + k).Quota?
    ensures Retry(oracle, next, attempt, maxRetries, d).waits[k] ==
            WaitTime(oracle(next + k).retryAfter, d, attempt + k)
    decreases maxRetries - attempt
  {
    if k > 0 {
      RetryWaits(oracle, next + 1, attempt + 1, maxRetries, d, k - 1);
    }
  }

  /** With no delay in the quota messages, each sleep doubles the one before. */
  lemma BackoffDoubles(oracle: Oracle, next: nat, maxRetries: int, d: real, k: nat)
    requires k + 1 < |Retry(oracle, next, 0, maxRetries, d).waits|
    requires oracle(next + k).Quota? && oracle(next + k).retryAfter.None?
    requires oracle(next + k + 1).Quota? && oracle(next + k + 1).retryAfter.None?
    ensures var w := Retry(oracle, next, 0, maxRetries, d).waits;
            w[k + 1] == 2.0 * w[k]
  {
    RetryWaits(oracle, next, 0, maxRetries, d, k);
    RetryWaits(oracle, next, 0, maxRetries, d, k + 1);
  }

  /** Places the sleeps already taken in front of a trace. */
  function AfterWaits(waits: seq<real>, t: CallTrace): CallTrace {
    CallTrace(t.result, t.next, waits + t.waits)
  }

  /** `call_gemini_with_retry(content, max_retries, initial_delay)`. */
  method CallWithRetry(oracle: Oracle, next: nat, maxRetries: int, initialDelay: real)
    returns (result: Result<string, string>, after: nat, waits: seq<real>)
    ensures CallTrace(result, after, waits) == Retry(oracle, next, 0, maxRetries, initialDelay)
  {
    var attempt := 0;
    var n := next;
    waits := [];
    while attempt < maxRetries
      invariant 0 <= attempt && n == next + attempt
      invariant Retry(oracle, next, 0, maxRetries, initialDelay) ==
                AfterWaits(waits, Retry(oracle, n, attempt, maxRetries, initialDelay))
      decreases maxRetries - attempt
    {
      var outcome := oracle(n);
      match outcome {
        case Ok(text) =>
          assert waits + [] == waits;
          return Success(text), n + 1, waits;
        case OtherErr(message) =>
          assert waits + [] == waits;
          return Failure(message), n + 1, waits;
        case Quota(message, retryAfter) =>
          if attempt < maxRetries - 1 {
            var w := WaitTime(retryAfter, initialDelay, attempt);
            ghost var rest := Retry(oracle, n + 1, attempt + 1, maxRetries, initialDelay);
            assert waits + ([w] + rest.waits) == (waits + [w]) + rest.waits;
            waits := waits + [w];
          } else {
            assert waits + [] == waits;
            return Failure(ExhaustedMessage(message)), n + 1, waits;
          }
      }
      attempt := attempt + 1;
      n := n + 1;
    }
    assert waits + [] == waits;
    return Failure(NoAttemptsMessage), n, waits;
  }

  /** The task's own retry settings: three attempts, one second to start. */
  const MaxRetries: int := 3
  const InitialDelay: real := 1.0

  /** A call that only ever hits the quota makes three attempts, sleeps twice,
      and raises the exhaustion message of the last one. */
  lemma QuotaEverywhere(oracle: Oracle, next: nat)
    requires forall i :: oracle(i).Quota?
    ensures var t := Retry(oracle, next, 0, MaxRetries, InitialDelay);
            t.next == next + 3 && |t.waits| == 2 &&
            t.result == Failure(ExhaustedMessage(oracle(next + 2).message))
  {
    RetryCalls(oracle, next, 0, MaxRetries, InitialDelay);
    RetryLastCall(oracle, next, 0, MaxRetries, InitialDelay);
  }

  // ------------------------------------------------------------- the pipeline

  const AnalysisInstructions: string :=
    "다음 상담 내용을 분석하여 개선이 필요한 사항들을 도출해주세요.\n\n다음 항목들을 중심으로 분석해주세요:\n1. 고객 응대 태도\n2. 문제 해결 능력\n3. 커뮤니케이션 스킬\n4. 개선이 필요한 구체적인 사항\n\n분석 결과를 구조화된 형태로 제공해주세요."
  const TranscriptionInstructions: string :=
    "이 오디오/비디오 파일의 대화 내용을 정확하게 텍스트로 전사해주세요. 분석은 하지 말고 전사만 해주세요."

  /** The analysis prompt around a text file's content. */
  function TextPrompt(content: string): (p: string)
    ensures Contains(p, content)
  {
    var head := AnalysisInstructions + "\n\n상담 내용:\n";
    ContainsInfix(head, content, "");
    assert head + content + "" == head + content;
    head + content
  }

  /** The analysis prompt around a transcript. */
  function TranscriptPrompt(transcript: string): (p: string)
    ensures Contains(p, transcript)
  {
    var head := AnalysisInstructions + "\n\n상담 내용 (전사본):\n";
    ContainsInfix(head, transcript, "");
    assert head + transcript + "" == head + transcript;
    head + transcript
  }

  /** The MIME type sent with a media file: the guess when there is one, else
      `audio/mpeg` for audio and `video/mp4` for video. */
  function MimeType(fileType: string, guess: Option<string>): (m: Option<string>)
    ensures guess.Some? && guess.value != "" ==> m == guess
    ensures (guess.None? || guess.value == "") && fileType == "audio" ==> m == Some("audio/mpeg")
    ensures (guess.None? || guess.value == "") && fileType == "video" ==> m == Some("video/mp4")
    ensures fileType in {"audio", "video"} ==> m.Some? && m.value != ""
  {
    if guess.Some? && guess.value != "" then guess
    else if fileType == "audio" then Some("audio/mpeg")
    else if fileType == "video" then Some("video/mp4")
    else None
  }

  /** What is handed to `call_gemini_with_retry`: a prompt, with the media
      file's MIME type when the file is attached. */
  datatype Request = Request(prompt: string, media: Option<string>)

  /** What the analysis computes before anything is saved. */
  datatype Analysed = Analysed(originalContent: string, analysis: string)

  /** The outcome of the dispatch on the file type, the requests made, in
      order, and how many model calls they took. */
  datatype Pipeline = Pipeline(outcome: Result<Analysed, string>, requests: seq<Request>, calls: nat)

  function UnsupportedTypeMessage(fileType: string): string {
    "지원하지 않는 파일 형식: " + fileType
  }

  /** The dispatch on `file_type`, from call number 0. */
  function Analysis(fileType: string, fileContent: string, mimeGuess: Option<string>, oracle: Oracle): Pipeline {
    if fileType == "text" then
      var t := Retry(oracle, 0, 0, MaxRetries, InitialDelay);
      var requests := [Request(TextPrompt(fileContent), None)];
      match t.result
      case Success(a) => Pipeline(Success(Analysed(fileContent, a)), requests, t.next)
      case Failure(m) => Pipeline(Failure(m), requests, t.next)
    else if fileType == "audio" || fileType == "video" then
      var first := Request(TranscriptionInstructions, MimeType(fileType, mimeGuess));
      var t1 := Retry(oracle, 0, 0, MaxRetries, InitialDelay);
      match t1.result
      case Failure(m) => Pipeline(Failure(m), [first], t1.next)
      case Success(transcript) =>
        var t2 := Retry(oracle, t1.next, 0, MaxRetries, InitialDelay);
        var requests := [first, Request(TranscriptPrompt(transcript), None)];
        match t2.result
        case Success(a) => Pipeline(Success(Analysed(transcript, a)), requests, t2.next)
        case Failure(m) => Pipeline(Failure(m), requests, t2.next)
    else Pipeline(Failure(UnsupportedTypeMessage(fileType)), [], 0)
  }

  /** A text file is analysed with one request whose prompt holds the file,
      taking one to three calls, and its content becomes `original_content`. */
  lemma TextOneRequest(fileContent: string, mimeGuess: Option<string>, oracle: Oracle)
    ensures var p := Analysis("text", fileContent, mimeGuess, oracle);
            |p.requests| == 1 && p.requests[0].media.None? && Contains(p.requests[0].prompt, fileContent) &&
            1 <= p.calls <= 3 &&
            (p.outcome.Success? ==> p.outcome.value.originalContent == fileContent)
  {
    RetryCalls(oracle, 0, 0, MaxRetries, InitialDelay);
  }

  /** An audio or video file is first transcribed, with the file attached, and
      then the transcript is analysed; the transcript becomes
      `original_content`. */
  lemma MediaTranscribeThenAnalyse(fileType: string, fileContent: string, mimeGuess: Option<string>, oracle: Oracle)
    requires fileType == "audio" || fileType == "video"
    ensures var p := Analysis(fileType, fileContent, mimeGuess, oracle);
            1 <= |p.requests| <= 2 && 1 <= p.calls <= 6 &&
            p.requests[0] == Request(TranscriptionInstructions, MimeType(fileType, mimeGuess)) &&
            p.requests[0].media.Some? &&
            (p.outcome.Success? ==>
               |p.requests| == 2 && p.requests[1].media.None? &&
               Contains(p.requests[1].prompt, p.outcome.value.originalContent))
  {
    var t1 := Retry(oracle, 0, 0, MaxRetries, InitialDelay);
    RetryCalls(oracle, 0, 0, MaxRetries, InitialDelay);
    RetryCalls(oracle, t1.next, 0, MaxRetries, InitialDelay);
  }

  /** Any other file type raises `ValueError` before any call is made. */
  lemma UnsupportedTypeNoCall(fileType: string, fileContent: string, mimeGuess: Option<string>, oracle: Oracle)
    requires fileType !in {"text", "audio", "video"}
    ensures Analysis(fileType, fileContent, mimeGuess, oracle) ==
            Pipeline(Failure("지원하지 않는 파일 형식: " + fileType), [], 0)
  {
  }

  /** `analyze_consultation`'s dispatch, step by step. */
  method RunAnalysis(fileType: string, fileContent: string, mimeGuess: Option<string>, oracle: Oracle)
    returns (p: Pipeline)
    ensures p == Analysis(fileType, fileContent, mimeGuess, oracle)
  {
    if fileType == "text" {
      var requests := [Request(TextPrompt(fileContent), None)];
      var result, next, _ := CallWithRetry(oracle, 0, MaxRetries, InitialDelay);
      match result {
        case Success(a) => p := Pipeline(Success(Analysed(fileContent, a)), requests, next);
        case Failure(m) => p := Pipeline(Failure(m), requests, next);
      }
    } else if fileType == "audio" || fileType == "video" {
      var mime := MimeType(fileType, mimeGuess);
      var first := Request(TranscriptionInstructions, mime);
      var r1, next1, _ := CallWithRetry(oracle, 0, MaxRetries, InitialDelay);
      match r1 {
        case Failure(m) =>
          p := Pipeline(Failure(m), [first], next1);
        case Success(transcript) =>
          var requests := [first, Request(TranscriptPrompt(transcript), None)];
          var r2, next2, _ := CallWithRetry(oracle, next1, MaxRetries, InitialDelay);
          match r2 {
            case Success(a) => p := Pipeline(Success(Analysed(transcript, a)), requests, next2);
            case Failure(m) => p := Pipeline(Failure(m), requests, next2);
          }
      }
    } else {
      p := Pipeline(Failure(UnsupportedTypeMessage(fileType)), [], 0);
    }
  }

  // ----------------------------------------------------------- failure report

  /** The failure handler's classification of an exception message. */
  predicate IsQuotaError(message: string) {
    Contains(message, QuotaExceeded) || Contains(AsciiLower(message), "quota") ||
    Contains(message, "ResourceExhausted")
  }

  const FailureMark: string := "❌"
  const QuotaReport: string :=
    FailureMark + " **Gemini API 할당량 초과**\n\n무료 티어 할당량을 모두 사용했습니다.\n\n**해결 방법:**\n1. 잠시 후 다시 시도하세요 (보통 몇 분 후 재사용 가능)\n2. Google AI Studio에서 할당량 확인: https://ai.dev/usage?tab=rate-limit\n3. 유료 플랜으로 업그레이드 고려\n4. 더 작은 모델 사용 (gemini-2.0-flash-lite 등)\n\n상세 에러: "
  const FailureReport: string := FailureMark + " **분석 실패**\n\n에러: "

  /** The `analysis_result` written for a failure: the quota explanation or
      the generic one, each followed by the message, each starting with ❌. */
  function FailureText(message: string): (r: string)
    ensures StartsWith(r, FailureMark)
    ensures IsQuotaError(message) ==> r == QuotaReport + message
    ensures !IsQuotaError(message) ==> r == FailureReport + message
  {
    var r := if IsQuotaError(message) then QuotaReport + message else FailureReport + message;
    assert r[..|FailureMark|] == FailureMark;
    r
  }

  /** Running out of quota attempts is reported as a quota failure. */
  lemma ExhaustionReportedAsQuota(error: string)
    ensures IsQuotaError(ExhaustedMessage(error))
    ensures FailureText(ExhaustedMessage(error)) == QuotaReport + ExhaustedMessage(error)
  {
  }

  // --------------------------------------------------------------- the task

  /** `upload_to_supabase` as the task sees it. */
  datatype StorageOutcome = Stored(url: string) | ReturnedNone | Raised

  /** The URL saved with the row: none when Supabase is not configured, and
      none when the upload returns nothing or raises. */
  function StoredUrl(configured: bool, storage: StorageOutcome): (url: Option<string>)
    ensures url.Some? <==> configured && storage.Stored?
    ensures url.Some? ==> url.value == storage.url
  {
    if configured && storage.Stored? then Some(storage.url) else None
  }

  function NotFoundReport(id: nat): string {
    "Consultation " + DecimalString(id) + " not found"
  }

  function CompletedReport(id: nat): string {
    "Analysis completed for consultation " + DecimalString(id)
  }

  function FailedReport(id: nat, message: string): string {
    "Analysis failed for consultation " + DecimalString(id) + ": " + message
  }

  /** `analyze_consultation(consultation_id)`. `db` is the consultation table,
      `fileContent` the text file's content, `mimeGuess` what
      `mimetypes.guess_type` says, `storageConfigured` whether both Supabase
      settings are set and `now` the clock. Returns the task's return string and
      the columns written by each `save()`, in order. */
  method AnalyzeConsultation(db: map<nat, Consultation>, id: nat, oracle: Oracle, fileContent: string,
                             mimeGuess: Option<string>, storageConfigured: bool,
                             storage: StorageOutcome, now: int)
    returns (report: string, saves: seq<Columns>)
    modifies if id in db then {db[id]} else {}
    ensures id !in db ==> report == NotFoundReport(id) && saves == []
    ensures id in db ==>
              var c := db[id];
              var p := Analysis(c.fileType, fileContent, mimeGuess, oracle);
              |saves| == 2 && saves[0] == old(c.stored).(status := Processing) && c.stored == saves[1] &&
              match p.outcome
              case Success(a) =>
                saves[1] == Columns(Completed, Some(a.analysis), Some(now)) &&
                c.originalContent == Some(a.originalContent) &&
                c.supabaseFileUrl == StoredUrl(storageConfigured, storage) &&
                report == CompletedReport(id)
              case Failure(m) =>
                saves[1] == Columns(Failed, Some(FailureText(m)), old(c.stored).completedAt) &&
                c.originalContent == None && c.supabaseFileUrl == None &&
                report == FailedReport(id, m)
  {
    if id !in db {
      return NotFoundReport(id), [];
    }
    var c := db[id];
    c.Load();
    c.status := Processing;
    c.Save();
    saves := [c.stored];
    var p := RunAnalysis(c.fileType, fileContent, mimeGuess, oracle);
    match p.outcome {
      case Success(a) =>
        var url := StoredUrl(storageConfigured, storage);
        c.originalContent := Some(a.originalContent);
        c.analysisResult := Some(a.analysis);
        c.supabaseFileUrl := url;
        c.status := Completed;
        c.completedAt := Some(now);
        c.Save();
        saves := saves + [c.stored];
        report := CompletedReport(id);
      case Failure(m) =>
        c.Load();
        c.status := Failed;
        c.analysisResult := Some(FailureText(m));
        c.Save();
        saves := saves + [c.stored];
        report := FailedReport(id, m);
    }
  }
}
