/** The stored messages: what the counters mean in terms of them, and what the engine is shown. */
module ChatTranscripts {
  import opened Workflow
  import opened Engine
  import opened Reachability
  import opened Ledger
  import opened Requests
  import opened Conversations
  import opened ConversationStore
  import opened ChatUseCases
  import opened ChatHistories

  // ----- one assistant message per counted turn -----

  function Spoken(messages: seq<Message>, id: string): nat {
    if messages == [] then 0
    else
      var last := messages[|messages| - 1];
      Spoken(messages[..|messages| - 1], id) + (if last.author == Assistant && last.conversationID == id then 1 else 0)
  }

  /** Decisions that were counted although the engine had nothing to say. */
  function Silences(outcomes: seq<Outcome>, id: string): nat {
    if outcomes == [] then 0
    else Silences(outcomes[..|outcomes| - 1], id) + SilentIn(outcomes[|outcomes| - 1], id)
  }

  function SilentIn(o: Outcome, id: string): nat {
    if o.Decided? && o.id == id && o.out.response == "" then 1 else 0
  }

  lemma SpokenLonger(messages: seq<Message>, m: Message, id: string)
    ensures Spoken(messages + [m], id)
         == Spoken(messages, id) + (if m.author == Assistant && m.conversationID == id then 1 else 0)
  {
    assert (messages + [m])[..|messages|] == messages;
  }

  lemma SilencesLonger(outcomes: seq<Outcome>, o: Outcome, id: string)
    ensures Silences(outcomes + [o], id) == Silences(outcomes, id) + SilentIn(o, id)
  {
    assert (outcomes + [o])[..|outcomes|] == outcomes;
  }

  lemma TurnSpeaks(variant: Variant, session: Session, input: SendInput, model: string, engine: ChatEngine, now: nat,
                   id: string)
    ensures var r := Turned(variant, session, input, model, engine, now);
            && Spoken(r.store.messages, id) == Spoken(session.store.messages, id) + ReportedBy(r.outcome, id).turns
            && !r.outcome.Decided?
  {
    hide TurnInput, Spoken, WithStats, Titled, Overwritten, AwaitingApproval, StateWritten;
    var result := engine.run(TurnInput(session, input, model));
    SpokenLonger(session.store.messages, Message(session.id, User, input.content, ""), id);
    if result.Ok? {
      SpokenLonger(Asked(session, input).messages, Message(session.id, Assistant, result.value.response, model), id);
    }
  }

  lemma DecisionSpeaks(variant: Variant, s: Store, input: ApproveInput, engine: ChatEngine, now: nat, id: string)
    ensures var r := ApproveAction(variant, s, input, engine, now);
            Spoken(r.store.messages, id) + SilentIn(r.outcome, id)
            == Spoken(s.messages, id) + ReportedBy(r.outcome, id).turns
  {
    hide Spoken, WithStats, Overwritten, AwaitingApproval, StateWritten, AfterApproval, AfterRejection;
    var found := Found(s.rows, input.conversationID);
    if found.Some? && PausedState in found.value.workflowState && found.value.workflowState[PausedState].Checkpoint? {
      var result := engine.resume(found.value.workflowState[PausedState].text, input.approved);
      if result.Ok? {
        SpokenLonger(s.messages, Message(input.conversationID, Assistant, result.value.response, ""), id);
      }
    }
  }

  lemma StepSpeaks(variant: Variant, s: Store, op: Op, id: string)
    ensures var r := Perform(variant, s, op);
            Spoken(r.store.messages, id) + SilentIn(r.outcome, id)
            == Spoken(s.messages, id) + ReportedBy(r.outcome, id).turns
  {
    hide Spoken, Turned, ApproveAction;
    match op
    case Send(input, newID, defaultModel, engine, now) =>
      var session := SessionFor(s, input, newID, now);
      if session.Ok? {
        TurnSpeaks(variant, session.value, input, ModelFor(input, defaultModel), engine, now, id);
      }
    case Decide(input, engine, now) => DecisionSpeaks(variant, s, input, engine, now, id);
    case Delete(_, _) =>
  }

  /** A conversation's message count is the number of its stored assistant messages
      and of the decisions that had no response to store: user messages are not counted. */
  lemma {:induction false} MessageCountIsSpoken(variant: Variant, ops: seq<Op>, id: string)
    ensures var past := After(variant, ops);
            Counters(past.store.rows, id).turns == Spoken(past.store.messages, id) + Silences(past.outcomes, id)
    decreases |ops|
  {
    hide Perform, Counters, Spoken, Silences, ReportedBy, SilentIn;
    if ops == [] {
      NothingSpoken(id);
    } else {
      var front, op := ops[..|ops| - 1], ops[|ops| - 1];
      var before := After(variant, front);
      var effect := Perform(variant, before.store, op);
      MessageCountIsSpoken(variant, front, id);
      StepSpeaks(variant, before.store, op, id);
      StepCounts(variant, before.store, op, id);
      SilencesLonger(before.outcomes, effect.outcome, id);
    }
  }

  lemma NothingSpoken(id: string)
    ensures Counters(EMPTY.rows, id).turns == Spoken([], id) + Silences([], id)
  {
  }

  // ----- what the engine is shown -----

  /** The user's message is stored before the history is read, so the history given to the engine ends with it. */
  lemma HistoryEndsWithInput(session: Session, input: SendInput, model: string, requestID: string, clock: string)
    ensures var turn := TurnInput(session, input, model);
            var s := RunState(turn, requestID, clock);
            && turn.messages == History(MessagesOf(session.store.messages, session.id)) + [UserMessage(input.content)]
            && s.messages == turn.messages && s.turn.userInput == input.content && Fresh(s) && EndsWithInput(s)
  {
    MessagesOfLonger(session.store.messages, Message(session.id, User, input.content, ""), session.id);
  }

  /** So the first request of a sent turn says it once, although the engine is given it twice ... */
  lemma FirstRequestSaysItOnce(env: Env, session: Session, input: SendInput, model: string, requestID: string,
                               clock: string, log: seq<Event>)
    ensures var turn := TurnInput(session, input, model);
            var s := RunState(turn, requestID, clock);
            var final := Invoke(env, s, log);
            log < final.log && final.log[|log|].Chat?
            && final.log[|log|].request.messages == Prompt(env, s) + turn.messages
  {
    hide Invoke, Prompt, TurnInput, Transcript, Fresh, Chats;
    var s := RunState(TurnInput(session, input, model), requestID, clock);
    HistoryEndsWithInput(session, input, model, requestID, clock);
    RequestsAreTranscripts(env, s, log);
    var added := Invoke(env, s, log).log[|log|..];
    assert AsksAt(env, s, added, 0);
    assert added[..0] == [];
    assert Transcript(env, []) == [] by { NothingSaid(env); }
    assert s.messages + [] == s.messages;
  }

  lemma NothingSaid(env: Env)
    ensures Transcript(env, []) == []
  {
  }

  /** ... and all its requests do if and only if every later one follows a tool message that is the same text:
      otherwise the user's message is said again after the tools have answered. */
  lemma SentTurnSaysItOnceIff(env: Env, session: Session, input: SendInput, model: string, requestID: string,
                              clock: string, log: seq<Event>)
    ensures var s := RunState(TurnInput(session, input, model), requestID, clock);
            var final := Invoke(env, s, log);
            && log <= final.log
            && var added := final.log[|log|..];
            (forall i :: 0 <= i < |added| && added[i].Chat? ==> SaysOnce(env, s, added, i))
            <==> input.content == ""
                 || forall i :: 0 <= i < |added| && added[i].Chat? ==>
                      Chats(added[..i]) == 0 || Echoed(env, s, added, i)
  {
    hide Invoke, TurnInput, SaysOnce, Echoed, Fresh, EndsWithInput, Chats;
    HistoryEndsWithInput(session, input, model, requestID, clock);
    SaidOnceIff(env, RunState(TurnInput(session, input, model), requestID, clock), log);
  }
}
