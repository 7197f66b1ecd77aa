/** The line-buffered stream reader behind `subscribeToConsultation`
    (frontend/src/api.js): text chunks are appended to a buffer, the buffer is split
    on LF, every complete line that starts with `data: ` is parsed as JSON and handed
    to the caller in order, and the reader stops after a `completed` or `failed`
    event. HTTP and transport failures become one synthetic `error` event; aborts
    are silent. */
module StreamClient {
  import opened Wrappers
  import opened TextUtil

  /** One decoded JSON event object. `kind` is its `type` field; the other fields
      are `consultation_id`, `status`, `analysis_result` and `error`, with JSON
      `null` or an absent field as None. */
  datatype Event = Event(
    kind: string,
    consultationId: Option<int>,
    status: Option<string>,
    analysisResult: Option<string>,
    error: Option<string>)

  /** An event after which the reader aborts and delivers nothing more. */
  predicate IsTerminal(e: Event) {
    e.kind == "completed" || e.kind == "failed"
  }

  /** The synthetic event every HTTP or transport failure is turned into. */
  function ErrorEvent(message: string): (e: Event)
    ensures e.kind == "error" && !IsTerminal(e) && e.error == Some(message)
  {
    Event("error", None, None, None, Some(message))
  }

  /** `JSON.parse` of a payload: None when it throws. */
  type Parser = string -> Option<Event>

  const DataPrefix: string := "data: "

  /** The event one complete line carries, if any: only a line starting with
      exactly `data: ` is examined, and its payload is the rest of the line. */
  function LineEvent(parse: Parser, line: string): (r: Option<Event>)
    ensures r.Some? ==> StartsWith(line, DataPrefix)
    ensures StartsWith(line, DataPrefix) ==> r == parse(line[|DataPrefix|..])
  {
    if StartsWith(line, DataPrefix) then parse(line[6..]) else None
  }

  /** Every event the lines carry, in line order, ignoring termination. */
  function AllParsed(parse: Parser, lines: seq<string>): seq<Event> {
    if lines == [] then []
    else
      match LineEvent(parse, lines[0])
      case Some(e) => [e] + AllParsed(parse, lines[1..])
      case None => AllParsed(parse, lines[1..])
  }

  /** What a batch of complete lines delivers, and whether it ended on a terminal
      event. */
  datatype Delivery = Delivery(events: seq<Event>, stopped: bool)

  /** The dispatch loop over complete lines: deliver each parsed event in order
      and stop right after the first terminal one. */
  function Dispatch(parse: Parser, lines: seq<string>): Delivery {
    if lines == [] then Delivery([], false)
    else
      match LineEvent(parse, lines[0])
      case None => Dispatch(parse, lines[1..])
      case Some(e) =>
        if IsTerminal(e) then Delivery([e], true)
        else
          var rest := Dispatch(parse, lines[1..]);
          Delivery([e] + rest.events, rest.stopped)
  }

  /** The delivered events are a prefix of all parsed events, and without a
      stop they are every parsed event. */
  lemma {:induction false} DispatchParsed(parse: Parser, lines: seq<string>)
    ensures var r := Dispatch(parse, lines);
            r.events <= AllParsed(parse, lines)
    ensures var r := Dispatch(parse, lines);
            !r.stopped ==> r.events == AllParsed(parse, lines)
    decreases |lines|
  {
    if lines != [] {
      DispatchParsed(parse, lines[1..]);
    }
  }

  /** The dispatch stops exactly after a terminal event, no event before the
      last is terminal, and without a stop none is. */
  lemma {:induction false} DispatchShape(parse: Parser, lines: seq<string>)
    ensures var r := Dispatch(parse, lines);
            r.stopped ==> |r.events| > 0 && IsTerminal(r.events[|r.events| - 1])
    ensures var r := Dispatch(parse, lines);
            forall i :: 0 <= i < |r.events| - 1 ==> !IsTerminal(r.events[i])
    ensures var r := Dispatch(parse, lines);
            !r.stopped ==> forall i :: 0 <= i < |r.events| ==> !IsTerminal(r.events[i])
    decreases |lines|
  {
    if lines != [] {
      DispatchShape(parse, lines[1..]);
      match LineEvent(parse, lines[0])
      case None =>
      case Some(e) =>
        if !IsTerminal(e) {
          var rest := Dispatch(parse, lines[1..]);
          var events := [e] + rest.events;
          assert forall i :: 1 <= i < |events| ==> events[i] == rest.events[i - 1];
        }
    }
  }

  /** The LF-terminated lines of a text. */
  function CompleteLines(text: string): seq<string> {
    var parts := Split(text, '\n');
    parts[..|parts| - 1]
  }

  /** What is left after the last LF: the unfinished line kept in the buffer. */
  function Fragment(text: string): (f: string)
    ensures '\n' !in f
  {
    var parts := Split(text, '\n');
    SplitJoin(text, '\n');
    parts[|parts| - 1]
  }

  /** The events the whole stream text delivers when read in one piece. */
  function StreamEvents(parse: Parser, text: string): Delivery {
    Dispatch(parse, CompleteLines(text))
  }

  /** Dispatching two batches of lines one after the other is dispatching their
      concatenation, unless the first batch already stopped. */
  lemma {:induction false} DispatchAppend(parse: Parser, a: seq<string>, b: seq<string>)
    ensures Dispatch(parse, a + b) ==
            if Dispatch(parse, a).stopped then Dispatch(parse, a)
            else Delivery(Dispatch(parse, a).events + Dispatch(parse, b).events, Dispatch(parse, b).stopped)
    decreases |a|
  {
    if a != [] {
      assert (a + b)[0] == a[0];
      assert (a + b)[1..] == a[1..] + b;
      DispatchAppend(parse, a[1..], b);
    } else {
      assert a + b == b;
    }
  }

  /** Dispatching one more line after a batch that has not stopped. */
  lemma DispatchStep(parse: Parser, lines: seq<string>, i: nat)
    requires i < |lines| && !Dispatch(parse, lines[..i]).stopped
    ensures Dispatch(parse, lines[..i + 1]) ==
            match LineEvent(parse, lines[i])
            case None => Dispatch(parse, lines[..i])
            case Some(e) => Delivery(Dispatch(parse, lines[..i]).events + [e], IsTerminal(e))
  {
    assert lines[..i + 1] == lines[..i] + [lines[i]];
    DispatchAppend(parse, lines[..i], [lines[i]]);
    assert [lines[i]][1..] == [];
  }

  /** Once a prefix of the lines has stopped, the longer prefixes deliver the same. */
  lemma DispatchStopped(parse: Parser, lines: seq<string>, i: nat, n: nat)
    requires i <= n <= |lines| && Dispatch(parse, lines[..i]).stopped
    ensures Dispatch(parse, lines[..n]) == Dispatch(parse, lines[..i])
  {
    assert lines[..n] == lines[..i] + lines[i..n];
    DispatchAppend(parse, lines[..i], lines[i..n]);
  }

  /** Reading `t` and then `u` examines the complete lines of `t` and then the
      complete lines of the fragment of `t` continued by `u`. */
  lemma StreamAppend(parse: Parser, t: string, u: string)
    ensures StreamEvents(parse, t + u) ==
            if StreamEvents(parse, t).stopped then StreamEvents(parse, t)
            else
              var more := Dispatch(parse, CompleteLines(Fragment(t) + u));
              Delivery(StreamEvents(parse, t).events + more.events, more.stopped)
  {
    SplitAppend(t, u, '\n');
    var pt := Split(t, '\n');
    var pr := Split(Fragment(t) + u, '\n');
    assert CompleteLines(t + u) == CompleteLines(t) + CompleteLines(Fragment(t) + u) by {
      assert Split(t + u, '\n') == pt[..|pt| - 1] + pr;
    }
    DispatchAppend(parse, CompleteLines(t), CompleteLines(Fragment(t) + u));
  }

  /** Nothing that arrives after a terminal event changes what was delivered. */
  lemma StoppedPrefix(parse: Parser, t: string, u: string)
    requires StreamEvents(parse, t).stopped
    ensures StreamEvents(parse, t + u) == StreamEvents(parse, t)
  {
    StreamAppend(parse, t, u);
  }

  /** A text that ends on LF leaves an empty fragment. */
  lemma FragmentAfterLineFeed(t: string)
    requires t == [] || t[|t| - 1] == '\n'
    ensures Fragment(t) == []
  {
    if t != [] {
      var s := t[..|t| - 1];
      assert s + ['\n'] == t;
      SplitSeparatorAppended(s, '\n');
    }
  }

  /** An unterminated last line yields nothing: a text ending on LF followed by a
      piece without LF delivers exactly what the text alone delivers. */
  lemma UnterminatedTailIgnored(parse: Parser, t: string, tail: string)
    requires t == [] || t[|t| - 1] == '\n'
    requires '\n' !in tail
    ensures StreamEvents(parse, t + tail) == StreamEvents(parse, t)
  {
    StreamAppend(parse, t, tail);
    FragmentAfterLineFeed(t);
    assert Fragment(t) + tail == tail;
    SplitNoSeparator(tail, '\n');
    assert CompleteLines(tail) == [];
  }

  /** The reading state of one subscription: the unfinished line, the events
      handed to `onMessage` so far, and whether the transfer has been aborted.
      `received` is the text the read loop has consumed (a proof-only record). */
  class StreamReader {
    const parse: Parser
    var buffer: string
    var delivered: seq<Event>
    var aborted: bool
    ghost var received: string

    ghost predicate Valid()
      reads this
    {
      && buffer == Fragment(received)
      && delivered == StreamEvents(parse, received).events
      && (StreamEvents(parse, received).stopped ==> aborted)
    }

    constructor (parse: Parser)
      ensures Valid() && this.parse == parse
      ensures buffer == [] && delivered == [] && !aborted && received == []
    {
      this.parse := parse;
      buffer := [];
      delivered := [];
      aborted := false;
      received := [];
      new;
      assert CompleteLines([]) == [];
    }

    /** One `reader.read()` that resolved with a chunk. Once aborted, the read
        rejects with an AbortError and nothing changes. Otherwise the chunk is
        consumed and exactly the events of the text so far have been delivered. */
    method Receive(chunk: string)
      requires Valid()
      modifies this
      ensures Valid()
      ensures old(aborted) ==> received == old(received) && delivered == old(delivered) && buffer == old(buffer)
      ensures !old(aborted) ==> received == old(received) + chunk
      ensures aborted == (old(aborted) || StreamEvents(parse, received).stopped)
    {
      if aborted {
        return;
      }
      received := received + chunk;
      StreamAppend(parse, old(received), chunk);
      SplitAppend(old(received), chunk, '\n');
      buffer := buffer + chunk;
      var lines := Split(buffer, '\n');
      buffer := lines[|lines| - 1];
      DeliverLines(lines[..|lines| - 1]);
    }

    /** The `for (const line of lines)` loop: hand each parsed `data: ` line to
        `onMessage` in order, and abort right after a terminal event. */
    method DeliverLines(lines: seq<string>)
      requires !aborted
      modifies this`delivered, this`aborted
      ensures delivered == old(delivered) + Dispatch(parse, lines).events
      ensures aborted == Dispatch(parse, lines).stopped
    {
      var i := 0;
      while i < |lines|
        invariant 0 <= i <= |lines|
        invariant delivered == old(delivered) + Dispatch(parse, lines[..i]).events
        invariant !Dispatch(parse, lines[..i]).stopped
        invariant !aborted
      {
        var line := lines[i];
        DispatchStep(parse, lines, i);
        if StartsWith(line, DataPrefix) {
          var data := parse(line[6..]);
          if data.Some? {
            delivered := delivered + [data.value];
            if IsTerminal(data.value) {
              aborted := true;
              DispatchStopped(parse, lines, i + 1, |lines|);
              assert lines[..|lines|] == lines;
              return;
            }
          }
        }
        i := i + 1;
      }
      assert lines[..i] == lines;
    }

    /** `close()`: abort the transfer; closing twice is the same as once. */
    method Close()
      requires Valid()
      modifies this
      ensures Valid() && aborted
      ensures received == old(received) && delivered == old(delivered) && buffer == old(buffer)
    {
      aborted := true;
    }
  }

  /** How the response body ends after its chunks: `done`, or a failing read. */
  datatype StreamEnd = EndOfStream | Fault(message: string)

  /** What `fetch` yields: a rejection, or a response with its status, the chunks
      its body delivers and how the body ends. */
  datatype Transport =
    | Unreachable(message: string)
    | Responded(status: nat, chunks: seq<string>, end: StreamEnd)

  const UnauthorizedMessage: string := "인증이 필요합니다. 다시 로그인해주세요."

  predicate IsOk(status: nat) {
    200 <= status <= 299
  }

  /** The message of the error thrown for a non-ok response. */
  function HttpErrorMessage(status: nat): (m: string)
    ensures status == 401 ==> m == UnauthorizedMessage
    ensures status != 401 ==> m == "서버 오류: " + DecimalString(status)
  {
    if status == 401 then UnauthorizedMessage else "서버 오류: " + DecimalString(status)
  }

  /** The number of body chunks read when the caller's `close()` (taking effect
      after `closedAfter` reads, if ever) cuts the stream short. */
  function ChunksRead(chunks: seq<string>, closedAfter: Option<nat>): (n: nat)
    ensures n <= |chunks|
  {
    if closedAfter.Some? && closedAfter.value < |chunks| then closedAfter.value else |chunks|
  }

  /** Everything one subscription hands to `onMessage`, as a function of what the
      network does and of when the caller closes it (`Some(0)`: before anything
      arrives). */
  function SubscriptionEvents(parse: Parser, t: Transport, closedAfter: Option<nat>): seq<Event> {
    if closedAfter == Some(0) then []
    else
      match t
      case Unreachable(message) => [ErrorEvent(message)]
      case Responded(status, chunks, end) =>
        if !IsOk(status) then [ErrorEvent(HttpErrorMessage(status))]
        else
          var d := StreamEvents(parse, Concat(chunks[..ChunksRead(chunks, closedAfter)]));
          if d.stopped || (closedAfter.Some? && closedAfter.value <= |chunks|) then d.events
          else
            match end
            case EndOfStream => d.events
            case Fault(message) => d.events + [ErrorEvent(message)]
  }

  lemma {:induction false} ConcatSplit(chunks: seq<string>, i: nat, n: nat)
    requires i <= n <= |chunks|
    ensures Concat(chunks[..n]) == Concat(chunks[..i]) + Concat(chunks[i..n])
    decreases n
  {
    if n > i {
      ConcatSplit(chunks, i, n - 1);
      assert chunks[..n][..n - 1] == chunks[..n - 1];
      assert chunks[i..n][..n - 1 - i] == chunks[i..n - 1];
    } else {
      assert chunks[i..n] == [];
    }
  }

  /** `fetchStream`: the whole subscription, driving a StreamReader over the
      response body. The events delivered are exactly SubscriptionEvents. */
  method Subscribe(parse: Parser, t: Transport, closedAfter: Option<nat>) returns (events: seq<Event>)
    ensures events == SubscriptionEvents(parse, t, closedAfter)
  {
    if closedAfter == Some(0) {
      return [];
    }
    if t.Unreachable? {
      return [ErrorEvent(t.message)];
    }
    if !IsOk(t.status) {
      return [ErrorEvent(HttpErrorMessage(t.status))];
    }
    var chunks := t.chunks;
    var n := ChunksRead(chunks, closedAfter);
    var reader := new StreamReader(parse);
    var i := 0;
    while i < n && !reader.aborted
      invariant 0 <= i <= n
      invariant reader.Valid() && reader.parse == parse
      invariant reader.received == Concat(chunks[..i])
      invariant reader.aborted == StreamEvents(parse, reader.received).stopped
    {
      assert chunks[..i + 1][..i] == chunks[..i];
      reader.Receive(chunks[i]);
      i := i + 1;
    }
    ConcatSplit(chunks, i, n);
    if reader.aborted {
      StoppedPrefix(parse, Concat(chunks[..i]), Concat(chunks[i..n]));
    } else {
      assert i == n;
    }
    events := reader.delivered;
    if !reader.aborted && !(closedAfter.Some? && closedAfter.value <= |chunks|) && t.end.Fault? {
      events := events + [ErrorEvent(t.end.message)];
    }
  }

  /** Chunk-invariance: however the body text is cut into chunks, the subscription
      delivers the same events as when the text arrives in one chunk. On
      `SubscriptionEvents` this is immediate, since it reads the concatenated
      text; the chunk-by-chunk argument is carried by `Subscribe`'s `ensures`,
      proved through `Receive` and `StreamAppend`. */
  lemma ChunkInvariance(parse: Parser, status: nat, chunks: seq<string>, end: StreamEnd)
    ensures SubscriptionEvents(parse, Responded(status, chunks, end), None)
         == SubscriptionEvents(parse, Responded(status, [Concat(chunks)], end), None)
  {
    assert chunks[..|chunks|] == chunks;
    var whole := [Concat(chunks)];
    assert whole[..1] == whole;
    assert whole[..0] == [];
    assert Concat(whole) == Concat(chunks);
  }

  /** A response with a non-ok status yields exactly one event, of type `error`,
      unless the caller closed before it arrived. */
  lemma NonOkYieldsOneError(parse: Parser, status: nat, chunks: seq<string>, end: StreamEnd, closedAfter: Option<nat>)
    requires !IsOk(status) && closedAfter != Some(0)
    ensures SubscriptionEvents(parse, Responded(status, chunks, end), closedAfter)
         == [ErrorEvent(HttpErrorMessage(status))]
  {
  }

  /** Closing before anything arrives delivers nothing, not even an error. */
  lemma CloseFirstIsSilent(parse: Parser, t: Transport)
    ensures SubscriptionEvents(parse, t, Some(0)) == []
  {
  }
}
