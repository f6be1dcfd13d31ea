/** What a stream carries from end to end: text, tool calls and finish reasons, and how its end is told. */
module StreamContents {
  import opened Wrappers
  import opened ChatTypes
  import opened SseFraming
  import opened StreamHandshake

  // ----- read off the events -----

  function TextOf(events: seq<StreamEvent>): string {
    if events == [] then ""
    else (if events[0].Piece? && events[0].kind == "content" then events[0].delta else "") + TextOf(events[1..])
  }

  function CallsOf(events: seq<StreamEvent>): seq<ToolCall> {
    if events == [] then []
    else
      var e := events[0];
      (if e.Piece? && e.kind == "tool_call" && e.call.Some? then [e.call.value] else []) + CallsOf(events[1..])
  }

  datatype Ended = Ended(reason: string, usage: Option<int>)

  function FinishesOf(events: seq<StreamEvent>): seq<Ended> {
    if events == [] then []
    else (if events[0].Piece? && events[0].kind == "finish" then [Ended(events[0].delta, events[0].usage)] else [])
         + FinishesOf(events[1..])
  }

  // ----- read off the decoded payloads -----

  /** The first choices of the payloads that decode to a chunk with one. */
  function Choices(decode: Decoder, payloads: seq<string>): seq<(Delta, Option<int>)> {
    if payloads == [] then []
    else
      var rest := Choices(decode, payloads[1..]);
      match decode(payloads[0])
      case Some(chunk) => if chunk.choices == [] then rest else [(chunk.choices[0], chunk.usage)] + rest
      case None => rest
  }

  function Contents(choices: seq<(Delta, Option<int>)>): string {
    if choices == [] then "" else choices[0].0.content + Contents(choices[1..])
  }

  function Calls(choices: seq<(Delta, Option<int>)>): seq<ToolCall> {
    if choices == [] then [] else choices[0].0.calls + Calls(choices[1..])
  }

  function Finishes(choices: seq<(Delta, Option<int>)>): seq<Ended> {
    if choices == [] then []
    else
      (if choices[0].0.finishReason != "" then [Ended(choices[0].0.finishReason, choices[0].1)] else [])
      + Finishes(choices[1..])
  }

  // ----- the events carry the payloads -----

  lemma {:induction false} TextJoins(a: seq<StreamEvent>, b: seq<StreamEvent>)
    ensures TextOf(a + b) == TextOf(a) + TextOf(b)
    decreases a
  {
    if a == [] {
      assert a + b == b;
    } else {
      assert (a + b)[1..] == a[1..] + b;
      TextJoins(a[1..], b);
    }
  }

  lemma {:induction false} CallsJoin(a: seq<StreamEvent>, b: seq<StreamEvent>)
    ensures CallsOf(a + b) == CallsOf(a) + CallsOf(b)
    decreases a
  {
    if a == [] {
      assert a + b == b;
    } else {
      assert (a + b)[1..] == a[1..] + b;
      CallsJoin(a[1..], b);
    }
  }

  lemma {:induction false} FinishesJoin(a: seq<StreamEvent>, b: seq<StreamEvent>)
    ensures FinishesOf(a + b) == FinishesOf(a) + FinishesOf(b)
    decreases a
  {
    if a == [] {
      assert a + b == b;
    } else {
      assert (a + b)[1..] == a[1..] + b;
      FinishesJoin(a[1..], b);
    }
  }

  /** What a sequence of events carries. */
  predicate Conveys(events: seq<StreamEvent>, text: string, calls: seq<ToolCall>, finishes: seq<Ended>) {
    TextOf(events) == text && CallsOf(events) == calls && FinishesOf(events) == finishes
  }

  lemma ConveysJoin(a: seq<StreamEvent>, b: seq<StreamEvent>)
    ensures Conveys(a + b, TextOf(a) + TextOf(b), CallsOf(a) + CallsOf(b), FinishesOf(a) + FinishesOf(b))
  {
    TextJoins(a, b);
    CallsJoin(a, b);
    FinishesJoin(a, b);
  }

  lemma OneConveys(e: StreamEvent)
    ensures TextOf([e]) == if e.Piece? && e.kind == "content" then e.delta else ""
    ensures CallsOf([e]) == if e.Piece? && e.kind == "tool_call" && e.call.Some? then [e.call.value] else []
    ensures FinishesOf([e]) == if e.Piece? && e.kind == "finish" then [Ended(e.delta, e.usage)] else []
  {
    assert [e][1..] == [];
  }

  lemma {:induction false} CallEventsConvey(events: seq<StreamEvent>, calls: seq<ToolCall>)
    requires |events| == |calls|
    requires forall i :: 0 <= i < |calls| ==> events[i] == Piece("tool_call", "", Some(calls[i]), None)
    ensures Conveys(events, "", calls, [])
    decreases calls
  {
    if calls != [] {
      CallEventsConvey(events[1..], calls[1..]);
      assert calls == [calls[0]] + calls[1..];
    }
  }

  lemma ThreeConvey(head: seq<StreamEvent>, middle: seq<StreamEvent>, tail: seq<StreamEvent>,
                    text: string, calls: seq<ToolCall>, finishes: seq<Ended>)
    requires Conveys(head, text, [], []) && Conveys(middle, "", calls, []) && Conveys(tail, "", [], finishes)
    ensures Conveys(head + middle + tail, text, calls, finishes)
  {
    hide TextOf, CallsOf, FinishesOf;
    ConveysJoin(head, middle);
    ConveysJoin(head + middle, tail);
  }

  lemma ChunkSplits(events: seq<StreamEvent>, chunk: Chunk) returns
      (head: seq<StreamEvent>, middle: seq<StreamEvent>, tail: seq<StreamEvent>)
    requires Carries(events, chunk) && chunk.choices != []
    ensures var d := chunk.choices[0];
            && events == head + middle + tail
            && head == (if d.content != "" then [Piece("content", d.content, None, None)] else [])
            && |middle| == |d.calls|
            && (forall i :: 0 <= i < |d.calls| ==> middle[i] == Piece("tool_call", "", Some(d.calls[i]), None))
            && tail == (if d.finishReason != "" then [Piece("finish", d.finishReason, None, chunk.usage)] else [])
  {
    var d := chunk.choices[0];
    var first := if d.content != "" then 1 else 0;
    head, middle, tail := events[..first], events[first..first + |d.calls|], events[first + |d.calls|..];
    assert forall i :: 0 <= i < |d.calls| ==> middle[i] == events[first + i];
  }

  /** A chunk's events carry its first choice. */
  lemma ChunkConveys(events: seq<StreamEvent>, chunk: Chunk)
    requires Carries(events, chunk)
    ensures chunk.choices == [] ==> Conveys(events, "", [], [])
    ensures chunk.choices != [] ==>
              var d := chunk.choices[0];
              Conveys(events, d.content, d.calls,
                      if d.finishReason != "" then [Ended(d.finishReason, chunk.usage)] else [])
  {
    if chunk.choices == [] {
      NothingConveyed();
    } else {
      hide TextOf, CallsOf, FinishesOf, Conveys;
      var d := chunk.choices[0];
      var head, middle, tail := ChunkSplits(events, chunk);
      HeadConveys(head, d.content);
      CallEventsConvey(middle, d.calls);
      TailConveys(tail, d.finishReason, chunk.usage);
      ThreeConvey(head, middle, tail, d.content, d.calls,
                  if d.finishReason != "" then [Ended(d.finishReason, chunk.usage)] else []);
    }
  }

  lemma HeadConveys(events: seq<StreamEvent>, content: string)
    requires events == if content != "" then [Piece("content", content, None, None)] else []
    ensures Conveys(events, content, [], [])
  {
    if content != "" {
      OneConveys(events[0]);
    }
  }

  lemma TailConveys(events: seq<StreamEvent>, reason: string, usage: Option<int>)
    requires events == if reason != "" then [Piece("finish", reason, None, usage)] else []
    ensures Conveys(events, "", [], if reason != "" then [Ended(reason, usage)] else [])
  {
    if reason != "" {
      OneConveys(events[0]);
    }
  }

  lemma {:induction false} PayloadsConvey(decode: Decoder, payloads: seq<string>)
    ensures var choices := Choices(decode, payloads);
            Conveys(PayloadEvents(decode, payloads), Contents(choices), Calls(choices), Finishes(choices))
    decreases payloads
  {
    if payloads != [] {
      hide Pieces, TextOf, CallsOf, FinishesOf, Carries;
      PayloadsConvey(decode, payloads[1..]);
      var events := if decode(payloads[0]).Some? then Pieces(decode(payloads[0]).value) else [];
      ConveysJoin(events, PayloadEvents(decode, payloads[1..]));
      if decode(payloads[0]).Some? {
        PiecesCarry(decode(payloads[0]).value);
        ChunkConveys(events, decode(payloads[0]).value);
      } else {
        NothingConveyed();
      }
    }
  }

  lemma NothingConveyed()
    ensures Conveys([], "", [], [])
  {
  }

  /** Whatever the lines are: the content events spell the contents of the first choices of the payloads in them, the
      tool-call events carry their calls and the finish events their reasons and usage, in order; one end follows. */
  lemma StreamConveys(decode: Decoder, lines: seq<string>)
    ensures var events := Emitted(decode, PollsOf(lines));
            var choices := Choices(decode, PayloadsOf(lines));
            && Conveys(events, Contents(choices), Calls(choices), Finishes(choices))
            && events != [] && events[|events| - 1] == Finished
            && forall i :: 0 <= i < |events| - 1 ==> events[i].Piece?
  {
    LinesEmit(decode, lines);
    var pieces := PayloadEvents(decode, PayloadsOf(lines));
    PayloadsConvey(decode, PayloadsOf(lines));
    AllPieces(decode, PayloadsOf(lines));
    ConveysJoin(pieces, [Finished]);
    OneConveys(Finished);
    hide TextOf, CallsOf, FinishesOf, Emitted, PayloadEvents;
  }

  lemma {:induction false} AllPieces(decode: Decoder, payloads: seq<string>)
    ensures forall e :: e in PayloadEvents(decode, payloads) ==> e.Piece?
    decreases payloads
  {
    if payloads != [] {
      AllPieces(decode, payloads[1..]);
      if decode(payloads[0]).Some? {
        CarriedArePieces(decode(payloads[0]).value);
      }
    }
  }

  lemma CarriedArePieces(chunk: Chunk)
    ensures forall e :: e in Pieces(chunk) ==> e.Piece?
  {
    if chunk.choices != [] {
      PiecesStopNothing(chunk.choices[0].calls);
    }
  }

  /** From the wire: clean payloads that were framed arrive with their text, calls and finish reasons. */
  lemma FramedStreamConveys(decode: Decoder, payloads: seq<string>)
    requires forall p :: p in payloads ==> Clean(p)
    ensures var choices := Choices(decode, payloads);
            Conveys(Emitted(decode, PollsOf(Lines(Frame(payloads)))),
                    Contents(choices), Calls(choices), Finishes(choices))
  {
    RoundTripIff(payloads);
    StreamConveys(decode, Lines(Frame(payloads)));
  }

  // ----- streams that end in an error -----

  /** The events of the rounds before the one that ends the stream. */
  function BeforeEnd(decode: Decoder, polls: seq<Poll>): seq<StreamEvent> {
    if polls == [] || Ends(polls[0]) then [] else EventsOf(decode, polls[0]) + BeforeEnd(decode, polls[1..])
  }

  lemma {:induction false} EmittedToEnd(decode: Decoder, polls: seq<Poll>)
    requires Ending(polls).Some?
    ensures Emitted(decode, polls) == BeforeEnd(decode, polls) + EventsOf(decode, Ending(polls).value)
    decreases polls
  {
    EmittedFirst(decode, polls);
    BeforeEndFirst(decode, polls);
    var now := EventsOf(decode, polls[0]);
    if Ends(polls[0]) {
      hide Emitted, BeforeEnd, EventsOf, Ends;
      assert now + [] == now && [] + now == now;
    } else {
      EmittedToEnd(decode, polls[1..]);
      var before, end := BeforeEnd(decode, polls[1..]), EventsOf(decode, Ending(polls[1..]).value);
      assert Ending(polls) == Ending(polls[1..]);
      hide Emitted, BeforeEnd, EventsOf, Ends, Ending;
      Regroup(now, before, end);
    }
  }

  lemma BeforeEndFirst(decode: Decoder, polls: seq<Poll>)
    requires polls != []
    ensures BeforeEnd(decode, polls)
         == if Ends(polls[0]) then [] else EventsOf(decode, polls[0]) + BeforeEnd(decode, polls[1..])
  {
  }

  lemma Regroup(a: seq<StreamEvent>, b: seq<StreamEvent>, c: seq<StreamEvent>)
    ensures a + (b + c) == (a + b) + c
  {
  }

  lemma {:induction false} PiecesBeforeEnd(decode: Decoder, polls: seq<Poll>)
    ensures forall e :: e in BeforeEnd(decode, polls) ==> e.Piece?
    decreases polls
  {
    hide EventsOf, Ends;
    if polls != [] && !Ends(polls[0]) {
      PiecesBeforeEnd(decode, polls[1..]);
      OnlyEndingStops(decode, polls[0]);
    }
  }

  lemma {:induction false} PiecesThenStop(pieces: seq<StreamEvent>, stop: StreamEvent, rest: seq<StreamEvent>)
    requires forall e :: e in pieces ==> e.Piece?
    requires stop.Failure? || stop.Finished?
    ensures Writes(pieces + ([stop] + rest))
         == DataOf(pieces) + [if stop.Failure? then ErrorData(stop.error) else Data(Finished), Sentinel]
    decreases pieces
  {
    var all := pieces + ([stop] + rest);
    if pieces == [] {
      assert all == [stop] + rest;
      assert DataOf(pieces) == [];
    } else {
      assert all[0] == pieces[0] && all[1..] == pieces[1..] + ([stop] + rest);
      PiecesThenStop(pieces[1..], stop, rest);
      assert DataOf(pieces) == [Data(pieces[0])] + DataOf(pieces[1..]);
    }
  }

  /** A stream cut by an error or by cancellation: the client gets every event before it, the error and the end marker;
      one that ends well gets them all, the end event and the marker. */
  lemma EndIsTold(decode: Decoder, polls: seq<Poll>)
    requires Ending(polls).Some?
    ensures Writes(Emitted(decode, polls))
         == DataOf(BeforeEnd(decode, polls))
            + [match Ending(polls).value
               case ReadError(error) => ErrorData(error)
               case Cancelled(error) => ErrorData(error)
               case _ => Data(Finished),
               Sentinel]
  {
    EmittedToEnd(decode, polls);
    PiecesBeforeEnd(decode, polls);
    var ending := Ending(polls).value;
    EndingEnds(polls);
    var last := EventsOf(decode, ending);
    assert last == [last[0]] + last[1..];
    PiecesThenStop(BeforeEnd(decode, polls), last[0], last[1..]);
  }

  lemma {:induction false} EndingEnds(polls: seq<Poll>)
    requires Ending(polls).Some?
    ensures Ends(Ending(polls).value)
  {
    if !Ends(polls[0]) {
      EndingEnds(polls[1..]);
    }
  }
}
