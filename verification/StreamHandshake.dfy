/** Streaming over an unbuffered channel: the producer readSSE (internal/infrastructure/llm/litellm/client.go:101-182)
    and the consumer handleStreamingChat (internal/infrastructure/http/handler/chat_handler.go:91-102). */
module StreamHandshake {
  import opened Wrappers
  import opened ChatTypes
  import opened SseFraming

  datatype StreamEvent =
    | Piece(kind: string, delta: string, call: Option<ToolCall>, usage: Option<int>)
    | Failure(error: string)
    | Finished

  /** One round of the producer's loop: the context is done, or the reader gives a line, the end or an error. */
  datatype Poll = Cancelled(error: string) | Read(line: string) | Eof | ReadError(error: string)

  datatype Delta = Delta(content: string, calls: seq<ToolCall>, finishReason: string)

  datatype Chunk = Chunk(choices: seq<Delta>, usage: Option<int>)

  /** JSON decoding of a payload is an oracle. */
  type Decoder = string -> Option<Chunk>

  // ----- what the producer sends -----

  function CallPieces(calls: seq<ToolCall>): seq<StreamEvent> {
    if calls == [] then [] else [Piece("tool_call", "", Some(calls[0]), None)] + CallPieces(calls[1..])
  }

  function Pieces(chunk: Chunk): seq<StreamEvent> {
    if chunk.choices == [] then []
    else
      var d := chunk.choices[0];
      (if d.content != "" then [Piece("content", d.content, None, None)] else [])
      + CallPieces(d.calls)
      + (if d.finishReason != "" then [Piece("finish", d.finishReason, None, chunk.usage)] else [])
  }

  /** The first choice of a chunk, event by event: its content, its calls in order, its finish reason with the usage;
      nothing for what is empty, and nothing without a choice. */
  predicate Carries(events: seq<StreamEvent>, chunk: Chunk) {
    if chunk.choices == [] then events == []
    else
      var d := chunk.choices[0];
      var first, n := if d.content != "" then 1 else 0, |d.calls|;
      && |events| == first + n + (if d.finishReason != "" then 1 else 0)
      && (d.content != "" ==> events[0] == Piece("content", d.content, None, None))
      && (forall i :: 0 <= i < n ==> events[first + i] == Piece("tool_call", "", Some(d.calls[i]), None))
      && (d.finishReason != "" ==> events[first + n] == Piece("finish", d.finishReason, None, chunk.usage))
  }

  lemma {:induction false} CallPiecesAt(calls: seq<ToolCall>)
    ensures |CallPieces(calls)| == |calls|
    ensures forall i :: 0 <= i < |calls| ==> CallPieces(calls)[i] == Piece("tool_call", "", Some(calls[i]), None)
  {
    if calls != [] {
      CallPiecesAt(calls[1..]);
    }
  }

  lemma PiecesCarry(chunk: Chunk)
    ensures Carries(Pieces(chunk), chunk)
  {
    if chunk.choices != [] {
      CallPiecesAt(chunk.choices[0].calls);
      hide CallPieces;
    }
  }

  function EventsOf(decode: Decoder, poll: Poll): seq<StreamEvent> {
    match poll
    case Cancelled(error) => [Failure(error)]
    case Eof => [Finished]
    case ReadError(error) => [Failure(error), Finished]
    case Read(line) =>
      match Classify(line)
      case Skip => []
      case Finish => [Finished]
      case Payload(data) => if decode(data).Some? then Pieces(decode(data).value) else []
  }

  /** The producer returns after this round. */
  predicate Ends(poll: Poll) {
    !poll.Read? || Classify(poll.line).Finish?
  }

  function Emitted(decode: Decoder, polls: seq<Poll>): seq<StreamEvent> {
    if polls == [] then []
    else EventsOf(decode, polls[0]) + if Ends(polls[0]) then [] else Emitted(decode, polls[1..])
  }

  lemma EmittedFirst(decode: Decoder, polls: seq<Poll>)
    requires polls != []
    ensures Emitted(decode, polls)
         == EventsOf(decode, polls[0]) + if Ends(polls[0]) then [] else Emitted(decode, polls[1..])
  {
  }

  /** One round of the producer's loop. */
  method SendRound(decode: Decoder, poll: Poll) returns (sent: seq<StreamEvent>, ended: bool)
    ensures sent == EventsOf(decode, poll) && ended == Ends(poll)
  {
    match poll
    case Cancelled(error) => return [Failure(error)], true;
    case Eof => return [Finished], true;
    case ReadError(error) =>
      sent := [Failure(error)];
      return sent + [Finished], true;
    case Read(line) =>
      match Classify(line)
      case Skip => return [], false;
      case Finish => return [Finished], true;
      case Payload(data) =>
        sent, ended := [], false;
        if decode(data).Some? {
          sent := SendPieces(decode(data).value);
        }
  }

  /** The producer's loop. */
  method ReadSSE(decode: Decoder, polls: seq<Poll>) returns (events: seq<StreamEvent>)
    ensures events == Emitted(decode, polls)
  {
    hide Emitted, EventsOf, Ends;
    events := [];
    var i := 0;
    ghost var left := polls;
    while i < |polls|
      invariant 0 <= i <= |polls| && left == polls[i..]
      invariant Emitted(decode, polls) == events + Emitted(decode, left)
    {
      EmittedFirst(decode, left);
      var sent, ended := SendRound(decode, polls[i]);
      events := events + sent;
      if ended {
        return;
      }
      i := i + 1;
      left := left[1..];
    }
    NothingEmitted(decode);
  }

  lemma NothingEmitted(decode: Decoder)
    ensures Emitted(decode, []) == []
  {
  }

  method SendPieces(chunk: Chunk) returns (events: seq<StreamEvent>)
    ensures events == Pieces(chunk)
    ensures Carries(events, chunk)
  {
    PiecesCarry(chunk);
    hide Carries;
    events := [];
    if |chunk.choices| > 0 {
      var d := chunk.choices[0];
      if d.content != "" {
        events := events + [Piece("content", d.content, None, None)];
      }
      var calls := SendCalls(d.calls);
      events := events + calls;
      if d.finishReason != "" {
        events := events + [Piece("finish", d.finishReason, None, chunk.usage)];
      }
    }
  }

  method SendCalls(calls: seq<ToolCall>) returns (events: seq<StreamEvent>)
    ensures events == CallPieces(calls)
  {
    events := [];
    ghost var left := calls;
    for i := 0 to |calls|
      invariant left == calls[i..] && CallPieces(calls) == events + CallPieces(left)
    {
      events := events + [Piece("tool_call", "", Some(calls[i]), None)];
      left := left[1..];
    }
  }

  // ----- what the consumer writes -----

  datatype Write = Data(event: StreamEvent) | ErrorData(error: string) | Sentinel

  /** The consumer breaks out of its loop on these. */
  predicate Stops(e: StreamEvent) {
    !e.Piece?
  }

  function WriteOf(e: StreamEvent): Write {
    if e.Failure? then ErrorData(e.error) else Data(e)
  }

  /** The responses to a channel that delivers `events` and is then closed. */
  function Writes(events: seq<StreamEvent>): seq<Write> {
    if events == [] then [Sentinel]
    else [WriteOf(events[0])] + if Stops(events[0]) then [Sentinel] else Writes(events[1..])
  }

  lemma WritesFirst(events: seq<StreamEvent>)
    requires events != []
    ensures Writes(events) == [WriteOf(events[0])] + if Stops(events[0]) then [Sentinel] else Writes(events[1..])
  {
  }

  /** The consumer's loop over a closed channel. */
  method HandleStream(events: seq<StreamEvent>) returns (written: seq<Write>)
    ensures written == Writes(events)
  {
    written := [];
    var i := 0;
    ghost var left := events;
    ghost var toWrite := Writes(events);
    while i < |events|
      invariant 0 <= i <= |events| && left == events[i..]
      invariant Writes(events) == written + toWrite && toWrite == Writes(left)
    {
      hide Writes;
      WritesFirst(left);
      var event := events[i];
      if event.Failure? {
        written := written + [ErrorData(event.error)];
        toWrite := [Sentinel];
        break;
      }
      written := written + [Data(event)];
      toWrite := toWrite[1..];
      if event.Finished? {
        break;
      }
      i := i + 1;
      left := left[1..];
    }
    assert toWrite == [Sentinel];
    written := written + [Sentinel];
  }

  // ----- producer and consumer together -----

  datatype Consumer = Receiving | Stopped | Returned

  /** `outbox` is what the producer has yet to send of its current round; `ended` says it is about to return. */
  datatype System = System(polls: seq<Poll>, outbox: seq<StreamEvent>, ended: bool, closed: bool,
                           consumer: Consumer, written: seq<Write>)

  datatype Action =
    | Next          // the producer takes its next round
    | Meet          // send and receive happen together: the channel has no buffer
    | CloseChannel  // the producer's deferred close
    | SeeClose      // the consumer's range ends
    | WriteEnd      // the consumer writes the end marker and returns

  function Begin(polls: seq<Poll>): System {
    System(polls, [], false, false, Receiving, [])
  }

  predicate Enabled(s: System, a: Action) {
    match a
    case Next => !s.ended && s.outbox == [] && s.polls != []
    case Meet => s.outbox != [] && s.consumer.Receiving?
    case CloseChannel => s.ended && s.outbox == [] && !s.closed
    case SeeClose => s.closed && s.consumer.Receiving?
    case WriteEnd => s.consumer.Stopped?
  }

  function Apply(decode: Decoder, s: System, a: Action): System
    requires Enabled(s, a)
  {
    match a
    case Next =>
      s.(outbox := EventsOf(decode, s.polls[0]), ended := Ends(s.polls[0]),
         polls := if Ends(s.polls[0]) then [] else s.polls[1..])
    case Meet =>
      s.(outbox := s.outbox[1..], written := s.written + [WriteOf(s.outbox[0])],
         consumer := if Stops(s.outbox[0]) then Stopped else Receiving)
    case CloseChannel => s.(closed := true)
    case SeeClose => s.(consumer := Stopped)
    case WriteEnd => s.(written := s.written + [Sentinel], consumer := Returned)
  }

  /** The round that ends the stream, if the reader ever gets there. */
  function Ending(polls: seq<Poll>): Option<Poll> {
    if polls == [] then None else if Ends(polls[0]) then Some(polls[0]) else Ending(polls[1..])
  }

  /** What is emitted after the event the consumer stops at. */
  function Unwanted(events: seq<StreamEvent>): Option<seq<StreamEvent>> {
    if events == [] then None else if Stops(events[0]) then Some(events[1..]) else Unwanted(events[1..])
  }

  function UnwantedBy(ending: Poll): seq<StreamEvent> {
    if ending.ReadError? then [Finished] else []
  }

  lemma {:induction false} PiecesStopNothing(calls: seq<ToolCall>)
    ensures forall e :: e in CallPieces(calls) ==> !Stops(e)
  {
    if calls != [] {
      PiecesStopNothing(calls[1..]);
    }
  }

  lemma {:induction false} UnwantedAppend(a: seq<StreamEvent>, b: seq<StreamEvent>)
    requires forall e :: e in a ==> !Stops(e)
    ensures Unwanted(a + b) == Unwanted(b)
  {
    if a == [] {
      assert a + b == b;
    } else {
      assert (a + b)[1..] == a[1..] + b;
      UnwantedAppend(a[1..], b);
    }
  }

  lemma OnlyEndingStops(decode: Decoder, poll: Poll)
    requires !Ends(poll)
    ensures forall e :: e in EventsOf(decode, poll) ==> !Stops(e)
  {
    match Classify(poll.line)
    case Payload(data) =>
      if decode(data).Some? && decode(data).value.choices != [] {
        PiecesStopNothing(decode(data).value.choices[0].calls);
      }
    case _ =>
  }

  /** One event at most follows the stopping one, and only after a read error. */
  lemma {:induction false} EmittedStops(decode: Decoder, polls: seq<Poll>)
    requires Ending(polls).Some?
    ensures Unwanted(Emitted(decode, polls)) == Some(UnwantedBy(Ending(polls).value))
  {
    hide Classify, Pieces;
    if Ends(polls[0]) {
      EndingStops(decode, polls[0]);
      assert EventsOf(decode, polls[0]) + [] == EventsOf(decode, polls[0]);
    } else {
      EmittedStops(decode, polls[1..]);
      OnlyEndingStops(decode, polls[0]);
      UnwantedAppend(EventsOf(decode, polls[0]), Emitted(decode, polls[1..]));
    }
  }

  lemma EndingStops(decode: Decoder, poll: Poll)
    requires Ends(poll)
    ensures Unwanted(EventsOf(decode, poll)) == Some(UnwantedBy(poll))
  {
    hide Classify, Pieces;
    var events := EventsOf(decode, poll);
    assert events != [] && Stops(events[0]) && events[1..] == UnwantedBy(poll);
  }

  // ----- the invariant -----

  function ToCome(decode: Decoder, s: System): seq<StreamEvent> {
    s.outbox + if s.ended then [] else Emitted(decode, s.polls)
  }

  function StillToWrite(decode: Decoder, s: System): seq<Write> {
    match s.consumer
    case Receiving => Writes(ToCome(decode, s))
    case Stopped => [Sentinel]
    case Returned => []
  }

  predicate Inv(decode: Decoder, all: seq<Write>, unwanted: seq<StreamEvent>, s: System) {
    && s.written + StillToWrite(decode, s) == all
    && (if s.consumer.Receiving? then Unwanted(ToCome(decode, s)) == Some(unwanted)
        else ToCome(decode, s) == unwanted)
    && (s.closed ==> s.ended && s.outbox == [])
    && (!s.ended ==> s.consumer.Receiving? && Ending(s.polls).Some? && forall e :: e in s.outbox ==> !Stops(e))
  }

  lemma NextKeepsInv(decode: Decoder, all: seq<Write>, unwanted: seq<StreamEvent>, s: System)
    requires Inv(decode, all, unwanted, s) && Enabled(s, Next)
    ensures Inv(decode, all, unwanted, Apply(decode, s, Next))
    ensures ToCome(decode, Apply(decode, s, Next)) == ToCome(decode, s)
  {
    hide EventsOf, Unwanted, Writes, Classify;
    if !Ends(s.polls[0]) {
      OnlyEndingStops(decode, s.polls[0]);
    }
    assert ToCome(decode, Apply(decode, s, Next)) == ToCome(decode, s);
  }

  lemma MeetKeepsInv(decode: Decoder, all: seq<Write>, unwanted: seq<StreamEvent>, s: System)
    requires Inv(decode, all, unwanted, s) && Enabled(s, Meet)
    ensures Inv(decode, all, unwanted, Apply(decode, s, Meet))
    ensures |ToCome(decode, Apply(decode, s, Meet))| < |ToCome(decode, s)|
  {
    hide EventsOf, Ends, Emitted, Writes;
    var t := Apply(decode, s, Meet);
    var events := ToCome(decode, s);
    assert events[0] == s.outbox[0] && events[1..] == ToCome(decode, t);
    WritesFirst(events);
    assert s.written + Writes(events) == t.written + if Stops(events[0]) then [Sentinel] else Writes(events[1..]);
  }

  lemma StepKeepsInv(decode: Decoder, all: seq<Write>, unwanted: seq<StreamEvent>, s: System, a: Action)
    requires Inv(decode, all, unwanted, s) && Enabled(s, a)
    ensures Inv(decode, all, unwanted, Apply(decode, s, a))
    ensures Work(decode, Apply(decode, s, a)) < Work(decode, s)
  {
    hide EventsOf, Ends, Emitted;
    match a
    case Next => NextKeepsInv(decode, all, unwanted, s);
    case Meet => MeetKeepsInv(decode, all, unwanted, s);
    case _ =>
  }

  /** Steps that are left at most. */
  function Work(decode: Decoder, s: System): nat {
    |s.polls| + |ToCome(decode, s)| + (if s.closed then 0 else 1)
    + match s.consumer
      case Receiving => 2
      case Stopped => 1
      case Returned => 0
  }

  predicate ValidRun(decode: Decoder, s: System, run: seq<Action>)
    decreases run
  {
    run == [] || (Enabled(s, run[0]) && ValidRun(decode, Apply(decode, s, run[0]), run[1..]))
  }

  function After(decode: Decoder, s: System, run: seq<Action>): System
    requires ValidRun(decode, s, run)
    decreases run
  {
    if run == [] then s else After(decode, Apply(decode, s, run[0]), run[1..])
  }

  lemma {:induction false} RunKeepsInv(decode: Decoder, all: seq<Write>, unwanted: seq<StreamEvent>,
                                       s: System, run: seq<Action>)
    requires Inv(decode, all, unwanted, s) && ValidRun(decode, s, run)
    ensures var t := After(decode, s, run);
            Inv(decode, all, unwanted, t) && |run| + Work(decode, t) <= Work(decode, s)
    decreases run
  {
    hide Inv, Work, Apply, Enabled;
    if run != [] {
      StepKeepsInv(decode, all, unwanted, s, run[0]);
      RunKeepsInv(decode, all, unwanted, Apply(decode, s, run[0]), run[1..]);
    }
  }

  lemma BeginInv(decode: Decoder, polls: seq<Poll>)
    requires Ending(polls).Some?
    ensures Inv(decode, Writes(Emitted(decode, polls)), UnwantedBy(Ending(polls).value), Begin(polls))
  {
    hide EventsOf, Ends, Classify;
    EmittedStops(decode, polls);
    assert [] + Emitted(decode, polls) == Emitted(decode, polls);
    assert [] + Writes(Emitted(decode, polls)) == Writes(Emitted(decode, polls));
  }

  /** Both sides are done. */
  predicate BothDone(s: System) {
    s.closed && s.consumer.Returned?
  }

  /** The producer waits for ever to hand over its last event to a consumer that has returned. */
  predicate Leaked(s: System) {
    s.outbox == [Finished] && !s.closed && s.consumer.Returned?
  }

  lemma WhereItStops(decode: Decoder, all: seq<Write>, unwanted: seq<StreamEvent>, s: System)
    requires Inv(decode, all, unwanted, s) && forall a :: !Enabled(s, a)
    requires unwanted == [] || unwanted == [Finished]
    ensures s.written == all
    ensures if unwanted == [] then BothDone(s) else Leaked(s)
  {
    assert !Enabled(s, Next) && !Enabled(s, Meet) && !Enabled(s, CloseChannel);
    assert !Enabled(s, SeeClose) && !Enabled(s, WriteEnd);
    hide Emitted, Writes;
    assert s.consumer.Returned?;
    assert s.ended;
    assert ToCome(decode, s) == s.outbox;
  }

  /** Every run over a stream that ends is finite. Where it cannot go on the consumer has written what it writes to all
      events in order, and both sides are done, unless the stream ended in a read error: then the producer is stuck. */
  lemma EveryRunEnds(decode: Decoder, polls: seq<Poll>, run: seq<Action>)
    requires Ending(polls).Some? && ValidRun(decode, Begin(polls), run)
    ensures var t := After(decode, Begin(polls), run);
            && |run| <= Work(decode, Begin(polls))
            && ((forall a :: !Enabled(t, a)) ==>
                  && t.written == Writes(Emitted(decode, polls))
                  && if Ending(polls).value.ReadError? then Leaked(t) else BothDone(t))
  {
    hide Emitted, Ends, Work, Inv, Enabled, Writes;
    var unwanted := UnwantedBy(Ending(polls).value);
    var all := Writes(Emitted(decode, polls));
    BeginInv(decode, polls);
    RunKeepsInv(decode, all, unwanted, Begin(polls), run);
    var t := After(decode, Begin(polls), run);
    if forall a :: !Enabled(t, a) {
      WhereItStops(decode, all, unwanted, t);
    }
  }

  /** A run that leaks: one read error, taken, handed over, and answered with the end marker. */
  lemma ReadErrorLeaks(decode: Decoder, error: string)
    ensures var polls, run := [ReadError(error)], [Next, Meet, WriteEnd];
            && ValidRun(decode, Begin(polls), run)
            && Leaked(After(decode, Begin(polls), run))
            && forall a :: !Enabled(After(decode, Begin(polls), run), a)
  {
    var s0 := Begin([ReadError(error)]);
    var s1 := Apply(decode, s0, Next);
    var s2 := Apply(decode, s1, Meet);
    var s3 := Apply(decode, s2, WriteEnd);
    var run := [Next, Meet, WriteEnd];
    assert run[1..] == [Meet, WriteEnd] && run[1..][1..] == [WriteEnd] && run[1..][1..][1..] == [];
    assert After(decode, s0, run) == s3;
  }

  // ----- nothing is lost -----

  function DataOf(events: seq<StreamEvent>): seq<Write> {
    seq(|events|, i requires 0 <= i < |events| => Data(events[i]))
  }

  lemma {:induction false} AllWritten(events: seq<StreamEvent>)
    requires Unwanted(events) == Some([]) && forall e :: e in events ==> !e.Failure?
    ensures Writes(events) == DataOf(events) + [Sentinel]
  {
    if Stops(events[0]) {
      assert events == [events[0]] + events[1..];
    } else {
      AllWritten(events[1..]);
      assert DataOf(events) == [Data(events[0])] + DataOf(events[1..]);
    }
  }

  lemma {:induction false} NoFailure(decode: Decoder, polls: seq<Poll>)
    requires Ending(polls).Some? && (Ending(polls).value.Eof? || Ending(polls).value.Read?)
    ensures forall e :: e in Emitted(decode, polls) ==> !e.Failure?
  {
    hide Classify, Pieces;
    if Ends(polls[0]) {
      if polls[0].Read? {
        assert EventsOf(decode, polls[0]) == [Finished];
      }
    } else {
      OnlyEndingStops(decode, polls[0]);
      NoFailure(decode, polls[1..]);
    }
  }

  /** A stream ended by [DONE] or by the end of the input is forwarded whole: one write for each event, in order. */
  lemma WholeStreamForwarded(decode: Decoder, polls: seq<Poll>)
    requires Ending(polls).Some? && (Ending(polls).value.Eof? || Ending(polls).value.Read?)
    ensures Writes(Emitted(decode, polls)) == DataOf(Emitted(decode, polls)) + [Sentinel]
  {
    EmittedStops(decode, polls);
    NoFailure(decode, polls);
    AllWritten(Emitted(decode, polls));
  }

  // ----- from the wire -----

  /** The rounds of a reader over lines that end in end-of-input. */
  function PollsOf(lines: seq<string>): seq<Poll> {
    if lines == [] then [Eof] else [Read(lines[0])] + PollsOf(lines[1..])
  }

  function PayloadEvents(decode: Decoder, payloads: seq<string>): seq<StreamEvent> {
    if payloads == [] then []
    else (if decode(payloads[0]).Some? then Pieces(decode(payloads[0]).value) else [])
         + PayloadEvents(decode, payloads[1..])
  }

  lemma {:induction false} LinesEmit(decode: Decoder, lines: seq<string>)
    ensures Emitted(decode, PollsOf(lines)) == PayloadEvents(decode, PayloadsOf(lines)) + [Finished]
  {
    hide Pieces, Classify;
    if lines != [] {
      LinesEmit(decode, lines[1..]);
      var rest := PollsOf(lines[1..]);
      assert PollsOf(lines)[1..] == rest;
      EmittedFirst(decode, PollsOf(lines));
      var payloads := PayloadsOf(lines);
      if Classify(lines[0]).Payload? {
        assert payloads[1..] == PayloadsOf(lines[1..]);
      }
    } else {
      assert [Finished] + [] == [Finished];
    }
  }

  /** Clean payloads written with SSEData framing reach the consumer as the events they decode to, and nothing else. */
  lemma FramedStreamEmits(decode: Decoder, payloads: seq<string>)
    requires forall p :: p in payloads ==> Clean(p)
    ensures Emitted(decode, PollsOf(Lines(Frame(payloads)))) == PayloadEvents(decode, payloads) + [Finished]
  {
    RoundTripIff(payloads);
    LinesEmit(decode, Lines(Frame(payloads)));
  }
}
