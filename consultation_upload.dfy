/** The upload form of frontend/src/components/ConsultationUpload.js: the file
    type guessed from the file name, the submit validation, and how each stream
    event changes the form's state. React state is modelled as the fields of one
    object; the upload request's outcome and the stream's events are inputs. */
module ConsultationUpload {
  import opened Wrappers
  import opened TextUtil
  import opened StreamClient

  datatype FileKind = TextFile | AudioFile | VideoFile {
    /** The `file_type` value sent with the upload. */
    function Wire(): string {
      match this
      case TextFile => "text"
      case AudioFile => "audio"
      case VideoFile => "video"
    }
  }

  const AudioExtensions: seq<string> := ["mp3", "wav", "m4a", "ogg"]
  const VideoExtensions: seq<string> := ["mp4", "avi", "mov", "webm"]

  /** `name.split('.').pop().toLowerCase()`: the text after the last `.`, or the
      whole name when it has no `.`, lower-cased. */
  function Extension(name: string): (ext: string)
    ensures '.' !in ext
    ensures '.' !in name ==> ext == AsciiLower(name)
  {
    var parts := Split(name, '.');
    SplitJoin(name, '.');
    assert '.' !in name ==> parts == [name] by {
      if '.' !in name { SplitNoSeparator(name, '.'); }
    }
    var last := parts[|parts| - 1];
    assert forall i :: 0 <= i < |last| ==> AsciiLower(last)[i] == AsciiLowerChar(last[i]);
    AsciiLower(last)
  }

  /** The type chosen by `handleFileChange` for a selected file. */
  function InferFileType(name: string): (k: FileKind)
    ensures k == AudioFile <==> Extension(name) in AudioExtensions
    ensures k == VideoFile <==> Extension(name) in VideoExtensions
    ensures k == TextFile <==> Extension(name) !in AudioExtensions + VideoExtensions
  {
    var ext := Extension(name);
    if ext in AudioExtensions then AudioFile
    else if ext in VideoExtensions then VideoFile
    else TextFile
  }

  /** Only the part after the last `.` decides: `stem.ext` has extension
      `ext` lower-cased, whatever the stem holds. */
  lemma ExtensionAfterLastDot(stem: string, ext: string)
    requires '.' !in ext
    ensures Extension(stem + "." + ext) == AsciiLower(ext)
  {
    var withDot := stem + ".";
    SplitEndsWithSeparator(stem, '.');
    SplitAppend(withDot, ext, '.');
    var p := Split(withDot, '.');
    assert p[|p| - 1] + ext == ext;
    SplitNoSeparator(ext, '.');
    var q := Split(withDot + ext, '.');
    assert q[|q| - 1] == ext;
  }

  /** A file called `talk.MP3` is audio and `clip.final.WebM` is video; the
      case of the extension does not matter. */
  lemma UpperCaseExtensions(stem: string)
    ensures InferFileType(stem + "." + "MP3") == AudioFile
    ensures InferFileType(stem + "." + "WebM") == VideoFile
    ensures InferFileType(stem + "." + "txt") == TextFile
  {
    assert Extension(stem + "." + "MP3") == "mp3" by {
      ExtensionAfterLastDot(stem, "MP3");
      assert AsciiLower("MP3") == "mp3";
    }
    assert Extension(stem + "." + "WebM") == "webm" by {
      ExtensionAfterLastDot(stem, "WebM");
      assert AsciiLower("WebM") == "webm";
    }
    assert Extension(stem + "." + "txt") == "txt" by {
      ExtensionAfterLastDot(stem, "txt");
      assert AsciiLower("txt") == "txt";
    }
  }

  const MissingInputMessage: string := "제목과 파일을 모두 입력해주세요."
  const AnalysisFailedMessage: string := "분석 중 오류가 발생했습니다."
  const UploadFailedMessage: string := "업로드 실패"

  /** What `uploadConsultation` does: the created consultation's id, or the
      message of the Error it throws. */
  datatype UploadOutcome = Uploaded(id: int) | UploadFailed(message: string)

  class UploadForm {
    var title: string
    var file: Option<string>          // the selected file's name
    var fileType: FileKind
    var uploading: bool
    var uploadStatus: Option<string>
    var analysisResult: Option<string>
    var error: Option<string>
    var subscribedTo: Option<int>     // the consultation whose stream is open
    var subscriptionClosed: bool
    var successCalls: nat             // how often `onUploadSuccess` was called

    constructor ()
      ensures title == "" && file == None && fileType == TextFile
      ensures !uploading && uploadStatus == None && analysisResult == None && error == None
      ensures subscribedTo == None && !subscriptionClosed && successCalls == 0
    {
      title := "";
      file := None;
      fileType := TextFile;
      uploading := false;
      uploadStatus := None;
      analysisResult := None;
      error := None;
      subscribedTo := None;
      subscriptionClosed := false;
      successCalls := 0;
    }

    /** `handleFileChange`: a selected file is stored and its type inferred; an
        empty selection changes nothing. */
    method HandleFileChange(selected: Option<string>)
      modifies this`file, this`fileType
      ensures selected.Some? ==> file == selected && fileType == InferFileType(selected.value)
      ensures selected.None? ==> file == old(file) && fileType == old(fileType)
    {
      if selected.Some? {
        file := selected;
        fileType := InferFileType(selected.value);
      }
    }

    /** `handleSubmit`. A missing title or file only sets the validation error
        and uploads nothing. Otherwise the upload runs: on success the stream of
        the new consultation is subscribed, on failure the status is cleared,
        the error shown and `uploading` reset. */
    method HandleSubmit(outcome: UploadOutcome)
      modifies this
      ensures old(file).None? || old(title) == "" ==>
                error == Some(MissingInputMessage) &&
                uploading == old(uploading) && uploadStatus == old(uploadStatus) &&
                analysisResult == old(analysisResult) && subscribedTo == old(subscribedTo) &&
                subscriptionClosed == old(subscriptionClosed)
      ensures old(file).Some? && old(title) != "" ==>
                analysisResult == None &&
                match outcome
                case Uploaded(id) =>
                  uploading && uploadStatus == Some("분석 중...") && error == None &&
                  subscribedTo == Some(id) && !subscriptionClosed
                case UploadFailed(message) =>
                  !uploading && uploadStatus == None &&
                  error == Some(if message != "" then message else UploadFailedMessage) &&
                  subscribedTo == old(subscribedTo) && subscriptionClosed == old(subscriptionClosed)
      ensures title == old(title) && file == old(file) && fileType == old(fileType)
      ensures successCalls == old(successCalls)
    {
      error := None;
      if file.None? || title == "" {
        error := Some(MissingInputMessage);
        return;
      }
      uploading := true;
      uploadStatus := Some("업로드 중...");
      analysisResult := None;
      match outcome {
        case Uploaded(id) =>
          uploadStatus := Some("분석 중...");
          subscribedTo := Some(id);
          subscriptionClosed := false;
        case UploadFailed(message) =>
          uploadStatus := None;
          error := Some(if message != "" then message else UploadFailedMessage);
          uploading := false;
      }
    }

    /** The `onMessage` callback given to the subscription. */
    method OnEvent(e: Event)
      modifies this
      ensures e.kind == "completed" ==>
                uploadStatus == Some("분석 완료!") && analysisResult == e.analysisResult &&
                subscriptionClosed && !uploading && successCalls == old(successCalls) + 1 &&
                title == "" && file == None && error == old(error)
      ensures e.kind == "failed" ==>
                uploadStatus == Some("분석 실패") && error == Some(AnalysisFailedMessage) &&
                subscriptionClosed && !uploading && successCalls == old(successCalls) &&
                title == old(title) && file == old(file) && analysisResult == old(analysisResult)
      ensures e.kind == "processing" ==>
                uploadStatus == Some("분석 중...") && error == old(error) &&
                subscriptionClosed == old(subscriptionClosed) && uploading == old(uploading) &&
                successCalls == old(successCalls) && title == old(title) && file == old(file) &&
                analysisResult == old(analysisResult)
      ensures e.kind !in {"completed", "failed", "processing"} ==>
                uploadStatus == old(uploadStatus) && error == old(error) &&
                subscriptionClosed == old(subscriptionClosed) && uploading == old(uploading) &&
                successCalls == old(successCalls) && title == old(title) && file == old(file) &&
                analysisResult == old(analysisResult)
      ensures fileType == old(fileType) && subscribedTo == old(subscribedTo)
    {
      if e.kind == "completed" {
        uploadStatus := Some("분석 완료!");
        analysisResult := e.analysisResult;
        subscriptionClosed := true;
        uploading := false;
        successCalls := successCalls + 1;
        title := "";
        file := None;
      } else if e.kind == "failed" {
        uploadStatus := Some("분석 실패");
        error := Some(AnalysisFailedMessage);
        subscriptionClosed := true;
        uploading := false;
      } else if e.kind == "processing" {
        uploadStatus := Some("분석 중...");
      }
    }

    /** Feeding the form every event of one subscription, in order. */
    method Watch(events: seq<Event>)
      requires forall i :: 0 <= i < |events| - 1 ==> !IsTerminal(events[i])
      modifies this
      ensures successCalls <= old(successCalls) + 1
      ensures successCalls == old(successCalls) + 1 <==>
                |events| > 0 && events[|events| - 1].kind == "completed"
      ensures (exists i :: 0 <= i < |events| && IsTerminal(events[i])) ==> subscriptionClosed && !uploading
    {
      var i := 0;
      while i < |events|
        invariant 0 <= i <= |events|
        invariant successCalls == old(successCalls) + (if i > 0 && events[i - 1].kind == "completed" then 1 else 0)
        invariant i > 0 && IsTerminal(events[i - 1]) ==> subscriptionClosed && !uploading
      {
        OnEvent(events[i]);
        i := i + 1;
      }
    }
  }

  /** The events one subscription delivers never carry a terminal event before
      the last one, so watching them calls `onUploadSuccess` at most once. */
  lemma SubscriptionTerminalLast(parse: Parser, t: Transport, closedAfter: Option<nat>)
    ensures var es := SubscriptionEvents(parse, t, closedAfter);
            forall i :: 0 <= i < |es| - 1 ==> !IsTerminal(es[i])
  {
    if closedAfter != Some(0) && t.Responded? && IsOk(t.status) {
      var chunks := t.chunks;
      DispatchShape(parse, CompleteLines(Concat(chunks[..ChunksRead(chunks, closedAfter)])));
    }
  }
}
