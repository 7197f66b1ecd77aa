/** The consultation endpoints of backend/coaching/views.py: the serializer choice,
    `create` (save and enqueue the analysis), and the `stream` action's polling
    loop that writes `data: <json>\n\n` frames, together with the proof that the
    client's stream reader turns those frames back into the same events. */
module ConsultationViews {
  import opened Wrappers
  import opened TextUtil
  import opened StreamClient
  import opened ConsultationRecord

  datatype SerializerClass = ConsultationSerializer | ConsultationCreateSerializer

  /** `get_serializer_class`: the create serializer for `create` and for nothing
      else. */
  function SerializerFor(action: string): (s: SerializerClass)
    ensures s == ConsultationCreateSerializer <==> action == "create"
  {
    if action == "create" then ConsultationCreateSerializer else ConsultationSerializer
  }

  /** The Celery queue, seen as the ids `analyze_consultation.delay` was given. */
  class TaskQueue {
    var enqueued: seq<nat>

    constructor ()
      ensures enqueued == []
    {
      enqueued := [];
    }
  }

  /** The answer of `create`: 201 with the new row, or the 400 DRF sends when
      validation raises. */
  datatype CreateResponse = Created(status: nat, consultation: Consultation) | BadRequest(status: nat)

  /** `create`: validate, save a new `pending` row with the id the database
      assigns, enqueue its analysis once, and answer 201. An invalid request
      enqueues nothing. */
  method Create(queue: TaskQueue, valid: bool, newId: nat, fileType: string) returns (r: CreateResponse)
    modifies queue
    ensures valid ==> r.Created? && r.status == 201 && fresh(r.consultation) &&
                      r.consultation.id == newId && r.consultation.status == Pending &&
                      queue.enqueued == old(queue.enqueued) + [newId]
    ensures !valid ==> r == BadRequest(400) && queue.enqueued == old(queue.enqueued)
  {
    if !valid {
      return BadRequest(400);
    }
    var c := new Consultation(newId, fileType);
    queue.enqueued := queue.enqueued + [newId];
    r := Created(201, c);
  }

  /** One refresh of the row as the polling loop sees it. */
  datatype Snapshot = Snapshot(status: Status, analysisResult: Option<string>)

  /** `_format_event`: the event record; an empty or absent result is sent as
      `null`. */
  function FormatEvent(eventType: string, id: nat, snap: Snapshot): (e: Event)
    ensures e.kind == eventType && e.consultationId == Some(id)
    ensures e.status == Some(snap.status.Wire()) && e.error == None
    ensures e.analysisResult.Some? <==> snap.analysisResult.Some? && snap.analysisResult.value != ""
    ensures e.analysisResult.Some? ==> e.analysisResult == snap.analysisResult
  {
    Event(eventType, Some(id), Some(snap.status.Wire()),
          if snap.analysisResult.Some? && snap.analysisResult.value != "" then snap.analysisResult else None,
          None)
  }

  /** `json.dumps` of an event record. */
  type Encoder = Event -> string

  /** One frame on the wire. */
  function Frame(encode: Encoder, e: Event): (f: string)
    ensures StartsWith(f, DataPrefix)
    ensures |f| >= 8 && f[|f| - 2..] == "\n\n"
  {
    "data: " + encode(e) + "\n\n"
  }

  /** The event one poll emits, if any: nothing while `pending`. */
  function PollEvent(id: nat, snap: Snapshot): (r: Option<Event>)
    ensures r.None? <==> snap.status == Pending
    ensures r.Some? ==> r.value.kind == snap.status.Wire()
    ensures r.Some? ==> (IsTerminal(r.value) <==> snap.status.IsTerminal())
  {
    match snap.status
    case Pending => None
    case Processing => Some(FormatEvent("processing", id, snap))
    case Completed => Some(FormatEvent("completed", id, snap))
    case Failed => Some(FormatEvent("failed", id, snap))
  }

  /** The events the generator yields for a sequence of polls, and whether it
      broke out of its loop: only the last event can be terminal, and the loop
      has stopped exactly when it is. */
  function Emitted(id: nat, polls: seq<Snapshot>): Delivery {
    if polls == [] then Delivery([], false)
    else
      var prev := Emitted(id, polls[..|polls| - 1]);
      if prev.stopped then prev
      else
        match PollEvent(id, polls[|polls| - 1])
        case None => prev
        case Some(e) => Delivery(prev.events + [e], IsTerminal(e))
  }

  /** Only the last emitted event can be terminal, the loop has stopped
      exactly when it is, and every event names the polled row. */
  lemma {:induction false} EmittedShape(id: nat, polls: seq<Snapshot>)
    ensures var d := Emitted(id, polls);
            forall i :: 0 <= i < |d.events| - 1 ==> !IsTerminal(d.events[i])
    ensures var d := Emitted(id, polls);
            d.stopped <==> |d.events| > 0 && IsTerminal(d.events[|d.events| - 1])
    ensures var d := Emitted(id, polls);
            forall i :: 0 <= i < |d.events| ==> d.events[i].consultationId == Some(id)
    decreases |polls|
  {
    if polls != [] {
      var init := polls[..|polls| - 1];
      EmittedShape(id, init);
      var prev := Emitted(id, init);
      if !prev.stopped {
        match PollEvent(id, polls[|polls| - 1])
        case None =>
        case Some(e) =>
          var events := prev.events + [e];
          assert forall i :: 0 <= i < |prev.events| ==> events[i] == prev.events[i];
      }
    }
  }

  /** The loop breaks out exactly when some poll saw `completed` or `failed`. */
  lemma {:induction false} EmittedStopsOnTerminal(id: nat, polls: seq<Snapshot>)
    ensures Emitted(id, polls).stopped <==> exists i :: 0 <= i < |polls| && polls[i].status.IsTerminal()
    decreases |polls|
  {
    if polls != [] {
      var init := polls[..|polls| - 1];
      EmittedStopsOnTerminal(id, init);
      if exists i :: 0 <= i < |init| && init[i].status.IsTerminal() {
        var i :| 0 <= i < |init| && init[i].status.IsTerminal();
        assert polls[i] == init[i];
      }
      if exists i :: 0 <= i < |polls| && polls[i].status.IsTerminal() {
        var i :| 0 <= i < |polls| && polls[i].status.IsTerminal();
        if i < |init| {
          assert init[i] == polls[i];
        }
      }
    }
  }

  /** Every frame of a list of events, in order. */
  function FramesOf(encode: Encoder, events: seq<Event>): (frames: seq<string>)
    ensures |frames| == |events|
  {
    if events == [] then []
    else FramesOf(encode, events[..|events| - 1]) + [Frame(encode, events[|events| - 1])]
  }

  /** The frame at each position is the frame of the event at that position. */
  lemma {:induction false} FramesOfEach(encode: Encoder, events: seq<Event>)
    ensures forall i :: 0 <= i < |events| ==> FramesOf(encode, events)[i] == Frame(encode, events[i])
    decreases |events|
  {
    if events != [] {
      var init := events[..|events| - 1];
      FramesOfEach(encode, init);
      assert forall i :: 0 <= i < |init| ==> events[i] == init[i];
    }
  }

  lemma FramesOfAppend(encode: Encoder, events: seq<Event>, e: Event)
    ensures FramesOf(encode, events + [e]) == FramesOf(encode, events) + [Frame(encode, e)]
  {
    assert (events + [e])[..|events|] == events;
  }

  /** One more poll while the loop is still running. */
  lemma EmittedStep(id: nat, polls: seq<Snapshot>, i: nat)
    requires i < |polls| && !Emitted(id, polls[..i]).stopped
    ensures Emitted(id, polls[..i + 1]) ==
              match PollEvent(id, polls[i])
              case None => Emitted(id, polls[..i])
              case Some(e) => Delivery(Emitted(id, polls[..i]).events + [e], IsTerminal(e))
  {
    assert polls[..i + 1][..i] == polls[..i];
  }

  /** One more poll while the loop is still running, seen on the frames: a
      poll without an event changes nothing, one with an event adds its frame
      and stops exactly on a terminal event. */
  lemma EmittedFrameStep(encode: Encoder, id: nat, polls: seq<Snapshot>, i: nat)
    requires i < |polls| && !Emitted(id, polls[..i]).stopped
    ensures var before := Emitted(id, polls[..i]);
            var after := Emitted(id, polls[..i + 1]);
            match PollEvent(id, polls[i])
            case None => after == before
            case Some(e) =>
              FramesOf(encode, after.events) == FramesOf(encode, before.events) + [Frame(encode, e)] &&
              after.stopped == IsTerminal(e)
  {
    EmittedStep(id, polls, i);
    match PollEvent(id, polls[i])
    case None =>
    case Some(e) => FramesOfAppend(encode, Emitted(id, polls[..i]).events, e);
  }

  /** `event_stream`: poll, and yield a frame for `processing` and for the
      terminal status, breaking out after the terminal one. */
  method EventStream(encode: Encoder, id: nat, polls: seq<Snapshot>) returns (frames: seq<string>, ended: bool)
    ensures frames == FramesOf(encode, Emitted(id, polls).events)
    ensures ended == Emitted(id, polls).stopped
  {
    frames := [];
    ended := false;
    var i := 0;
    while i < |polls|
      invariant 0 <= i <= |polls|
      invariant frames == FramesOf(encode, Emitted(id, polls[..i]).events)
      invariant !Emitted(id, polls[..i]).stopped && !ended
    {
      var snap := polls[i];
      EmittedFrameStep(encode, id, polls, i);
      if snap.status == Completed {
        frames := frames + [Frame(encode, FormatEvent("completed", id, snap))];
        ended := true;
        EmittedStopped(id, polls, i + 1);
        return;
      } else if snap.status == Failed {
        frames := frames + [Frame(encode, FormatEvent("failed", id, snap))];
        ended := true;
        EmittedStopped(id, polls, i + 1);
        return;
      } else if snap.status == Processing {
        frames := frames + [Frame(encode, FormatEvent("processing", id, snap))];
      }
      i := i + 1;
    }
    assert polls[..i] == polls;
  }

  /** Polls after the loop has broken out change nothing. */
  lemma {:induction false} EmittedStopped(id: nat, polls: seq<Snapshot>, k: nat)
    requires k <= |polls| && Emitted(id, polls[..k]).stopped
    ensures Emitted(id, polls) == Emitted(id, polls[..k])
    decreases |polls| - k
  {
    if k < |polls| {
      assert polls[..|polls| - 1][..k] == polls[..k];
      EmittedStopped(id, polls[..|polls| - 1], k);
    } else {
      assert polls[..k] == polls;
    }
  }

  /** The lines of one frame: the `data:` line and the empty line of `\n\n`,
      with nothing left over. */
  lemma FrameLines(encode: Encoder, e: Event)
    requires '\n' !in encode(e)
    ensures CompleteLines(Frame(encode, e)) == ["data: " + encode(e), ""]
    ensures Fragment(Frame(encode, e)) == []
  {
    var line := "data: " + encode(e);
    assert '\n' !in line;
    SplitNoSeparator(line, '\n');
    SplitSeparatorAppended(line, '\n');
    SplitSeparatorAppended(line + "\n", '\n');
    assert Frame(encode, e) == line + ['\n'] + ['\n'];
    assert Split(Frame(encode, e), '\n') == [line, [], []];
  }

  /** One more frame after a text that ends on a line boundary: the reader
      delivers its event, and is again at a line boundary. */
  lemma AppendFrame(parse: Parser, encode: Encoder, t: string, e: Event)
    requires Fragment(t) == []
    requires '\n' !in encode(e) && parse(encode(e)) == Some(e)
    ensures !StreamEvents(parse, t).stopped ==>
              StreamEvents(parse, t + Frame(encode, e)) ==
              Delivery(StreamEvents(parse, t).events + [e], IsTerminal(e))
    ensures Fragment(t + Frame(encode, e)) == []
  {
    var f := Frame(encode, e);
    StreamAppend(parse, t, f);
    FrameLines(encode, e);
    assert Fragment(t) + f == f;
    var line := "data: " + encode(e);
    assert LineEvent(parse, line) == Some(e) by {
      assert line[6..] == encode(e);
    }
    assert LineEvent(parse, "") == None;
    assert Dispatch(parse, [line, ""]) == Delivery([e], IsTerminal(e)) by {
      assert [line, ""][1..] == [""];
      assert [""][1..] == [];
    }
    FragmentAfterLineFeed(t + f);
  }

  /** What the client reader makes of a sequence of frames: every event, in
      order, provided `JSON.parse` undoes `json.dumps` on them and the encoding
      puts no raw LF inside a frame (json.dumps escapes newlines). */
  lemma {:induction false} FramesRoundTrip(parse: Parser, encode: Encoder, events: seq<Event>)
    requires forall i :: 0 <= i < |events| ==> '\n' !in encode(events[i]) && parse(encode(events[i])) == Some(events[i])
    requires forall i :: 0 <= i < |events| - 1 ==> !IsTerminal(events[i])
    ensures StreamEvents(parse, Concat(FramesOf(encode, events))) ==
            Delivery(events, |events| > 0 && IsTerminal(events[|events| - 1]))
    ensures Fragment(Concat(FramesOf(encode, events))) == []
    decreases |events|
  {
    var frames := FramesOf(encode, events);
    if events == [] {
      assert Split([], '\n') == [[]];
    } else {
      var n := |events|;
      var init := events[..n - 1];
      var e := events[n - 1];
      assert forall i :: 0 <= i < |init| ==> init[i] == events[i];
      FramesRoundTrip(parse, encode, init);
      var t := Concat(FramesOf(encode, init));
      assert frames == FramesOf(encode, init) + [Frame(encode, e)];
      assert frames[..n - 1] == FramesOf(encode, init);
      assert Concat(frames) == Concat(frames[..n - 1]) + frames[n - 1];
      AppendFrame(parse, encode, t, e);
      assert init + [e] == events;
    }
  }

  /** End to end: whatever the status history of the row, the client's stream
      reader delivers exactly the events the server loop emitted, in order, and
      stops exactly when the server loop ended on a terminal status. */
  lemma EndToEnd(parse: Parser, encode: Encoder, id: nat, polls: seq<Snapshot>)
    requires forall e :: '\n' !in encode(e) && parse(encode(e)) == Some(e)
    ensures var d := Emitted(id, polls);
            StreamEvents(parse, Concat(FramesOf(encode, d.events))) == d
  {
    var d := Emitted(id, polls);
    EmittedShape(id, polls);
    FramesRoundTrip(parse, encode, d.events);
  }
}
