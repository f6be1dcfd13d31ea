/** Sequential histories of use-case calls from empty tables: what survives in a row, and what the counters say. */
module ChatHistories {
  import opened Wrappers
  import opened JsonValues
  import opened ChatTypes
  import opened Conversations
  import opened ConversationStore
  import opened ChatUseCases

  /** One call; the engine may be another one each time. Delete is the repository's soft delete. */
  datatype Op =
    | Send(input: SendInput, newID: string, defaultModel: string, engine: ChatEngine, now: nat)
    | Decide(decision: ApproveInput, engine: ChatEngine, now: nat)
    | Delete(id: string, now: nat)

  function Perform(variant: Variant, s: Store, op: Op): Effect {
    match op
    case Send(input, newID, defaultModel, engine, now) =>
      SendMessage(variant, s, input, newID, defaultModel, engine, now)
    case Decide(input, engine, now) => ApproveAction(variant, s, input, engine, now)
    case Delete(id, now) => Effect(s.(rows := Marked(s.rows, id, now)), Removed(id))
  }

  datatype Past = Past(store: Store, outcomes: seq<Outcome>)

  function After(variant: Variant, ops: seq<Op>): Past
    decreases |ops|
  {
    if ops == [] then Past(EMPTY, [])
    else
      var before := After(variant, ops[..|ops| - 1]);
      var effect := Perform(variant, before.store, ops[|ops| - 1]);
      Past(effect.store, before.outcomes + [effect.outcome])
  }

  ghost predicate InRow(session: Session) {
    session.id in session.store.rows && session.store.rows[session.id].conv == session.conv
  }

  // ----- as written: no checkpoint survives -----

  ghost predicate Bare(s: Store) {
    forall id :: id in s.rows ==> s.rows[id].conv.workflowState == map[]
  }

  lemma TurnStaysBare(session: Session, input: SendInput, model: string, engine: ChatEngine, now: nat)
    requires Bare(session.store) && session.id in session.store.rows && session.conv.workflowState == map[]
    ensures Bare(Turned(AsWritten, session, input, model, engine, now).store)
  {
    hide TurnInput;
  }

  lemma StepStaysBare(s: Store, op: Op)
    requires Bare(s)
    ensures Bare(Perform(AsWritten, s, op).store)
  {
    hide Turned, Resumed;
    match op
    case Send(input, newID, defaultModel, engine, now) =>
      var session := SessionFor(s, input, newID, now);
      if session.Ok? {
        TurnStaysBare(session.value, input, ModelFor(input, defaultModel), engine, now);
      }
    case _ =>
  }

  /** The checkpoint of a paused send never survives that send: the row keeps the workflow state the entity was loaded
      with. Set on the entity first, it does. */
  lemma PauseLosesItsCheckpoint(session: Session, input: SendInput, model: string, engine: ChatEngine, now: nat)
    requires InRow(session)
    ensures var r := Turned(AsWritten, session, input, model, engine, now);
            r.outcome.Waiting? ==>
              && session.id in r.store.rows
              && r.store.rows[session.id].conv.workflowState == session.conv.workflowState
    ensures var r := Turned(CheckpointKept, session, input, model, engine, now);
            r.outcome.Waiting? ==>
              && session.id in r.store.rows
              && r.store.rows[session.id].conv.workflowState == CheckpointOf(r.outcome.out)
  {
    hide TurnInput;
  }

  /** A history in which it is missed: one new conversation, whose only turn pauses. */
  lemma LostCheckpoint(checkpoint: JsonText)
    ensures var out := WorkflowOutput("", 0, 0, "general", true, "approval", Some(checkpoint));
            var engine := ChatEngine(_ => Ok(out), (_, _) => Ok(out));
            var op := Send(SendInput(None, "user", "hello", "", ""), "id", "model", engine, 0);
            var s := Perform(AsWritten, EMPTY, op).store;
            && PendingIn(s, "id")
            && ApproveAction(AsWritten, s, ApproveInput("id", "user", true, ""), engine, 1)
               == Effect(s, Refused(NoPausedState))
            && ApproveAction(CheckpointKept, Perform(CheckpointKept, EMPTY, op).store,
                             ApproveInput("id", "user", true, ""), engine, 1).outcome
               == Decided("id", out, "pending_approval")
  {
    hide TurnInput;
  }

  /** Between calls no row ever holds a checkpoint, whatever the engine reports. */
  lemma {:induction false} NoCheckpointSurvives(ops: seq<Op>)
    ensures Bare(After(AsWritten, ops).store)
    decreases |ops|
  {
    hide Perform;
    if ops != [] {
      NoCheckpointSurvives(ops[..|ops| - 1]);
      StepStaysBare(After(AsWritten, ops[..|ops| - 1]).store, ops[|ops| - 1]);
    }
  }

  lemma RefusedForWantOfCheckpoint(s: Store, input: ApproveInput, engine: ChatEngine, now: nat)
    requires Bare(s)
    ensures var r := ApproveAction(AsWritten, s, input, engine, now);
            var found := Found(s.rows, input.conversationID);
            && r.store == s && r.outcome.Refused?
            && (r.outcome.why == NoPausedState
                <==> found.Some? && found.value.userID == input.userID && found.value.status == Pending)
  {
  }

  /** So every decision is refused and changes nothing; on the owner's pending conversation,
      and only there, for want of the checkpoint. */
  lemma DecisionsNeverSucceed(ops: seq<Op>, input: ApproveInput, engine: ChatEngine, now: nat)
    ensures var s := After(AsWritten, ops).store;
            var r := ApproveAction(AsWritten, s, input, engine, now);
            var found := Found(s.rows, input.conversationID);
            && r.store == s && r.outcome.Refused?
            && (r.outcome.why == NoPausedState
                <==> found.Some? && found.value.userID == input.userID && found.value.status == Pending)
  {
    hide After, ApproveAction, Bare;
    NoCheckpointSurvives(ops);
    RefusedForWantOfCheckpoint(After(AsWritten, ops).store, input, engine, now);
  }

  ghost predicate PendingIn(s: Store, id: string) {
    id in s.rows && s.rows[id].conv.status == Pending
  }

  ghost predicate EverPaused(outcomes: seq<Outcome>, id: string) {
    exists i :: 0 <= i < |outcomes| && outcomes[i].Waiting? && outcomes[i].id == id
  }

  lemma EverPausedLonger(outcomes: seq<Outcome>, o: Outcome, id: string)
    ensures EverPaused(outcomes + [o], id) <==> EverPaused(outcomes, id) || (o.Waiting? && o.id == id)
  {
    var longer := outcomes + [o];
    if EverPaused(outcomes, id) {
      var i :| 0 <= i < |outcomes| && outcomes[i].Waiting? && outcomes[i].id == id;
      assert longer[i] == outcomes[i];
    }
    assert longer[|outcomes|] == o;
  }

  lemma StepPends(s: Store, op: Op, id: string)
    requires Bare(s)
    ensures var r := Perform(AsWritten, s, op);
            PendingIn(r.store, id) <==> PendingIn(s, id) || (r.outcome.Waiting? && r.outcome.id == id)
  {
    hide SendMessage, Bare;
    match op
    case Send(input, newID, defaultModel, engine, now) => SendPends(s, input, newID, defaultModel, engine, now, id);
    case Decide(input, engine, now) => RefusedForWantOfCheckpoint(s, input, engine, now);
    case Delete(_, _) =>
  }

  lemma SendPends(s: Store, input: SendInput, newID: string, defaultModel: string, engine: ChatEngine, now: nat,
                  id: string)
    ensures var r := SendMessage(AsWritten, s, input, newID, defaultModel, engine, now);
            PendingIn(r.store, id) <==> PendingIn(s, id) || (r.outcome.Waiting? && r.outcome.id == id)
  {
    hide TurnInput;
  }

  /** A conversation is pending exactly if some send on it paused: nothing ever takes it back. */
  lemma {:induction false} PendingIffEverPaused(ops: seq<Op>, id: string)
    ensures var past := After(AsWritten, ops);
            PendingIn(past.store, id) <==> EverPaused(past.outcomes, id)
    decreases |ops|
  {
    hide Perform, EverPaused, PendingIn;
    if ops == [] {
      NothingPends(id);
    } else {
      var front, op := ops[..|ops| - 1], ops[|ops| - 1];
      var before := After(AsWritten, front);
      PendingIffEverPaused(front, id);
      NoCheckpointSurvives(front);
      StepPends(before.store, op, id);
      EverPausedLonger(before.outcomes, Perform(AsWritten, before.store, op).outcome, id);
    }
  }

  lemma NothingPends(id: string)
    ensures !PendingIn(EMPTY, id) && !EverPaused([], id)
  {
  }

  // ----- with the checkpoint kept: pending implies resumable -----

  /** Every pause the engine reports comes with a checkpoint that is `good`. */
  ghost predicate Serves(engine: ChatEngine, good: JsonText -> bool) {
    && (forall input :: Sound(engine.run(input), good))
    && (forall text, approved :: Sound(engine.resume(text, approved), good))
  }

  predicate Sound(r: Result<WorkflowOutput, string>, good: JsonText -> bool) {
    r.Ok? && r.value.requiresApproval ==> r.value.pausedStateJSON.Some? && good(r.value.pausedStateJSON.value)
  }

  predicate HoldsCheckpoint(c: Conv, good: JsonText -> bool) {
    && PausedState in c.workflowState
    && c.workflowState[PausedState].Checkpoint?
    && good(c.workflowState[PausedState].text)
  }

  ghost predicate Backed(s: Store, good: JsonText -> bool) {
    forall id :: id in s.rows && s.rows[id].conv.status == Pending ==> HoldsCheckpoint(s.rows[id].conv, good)
  }

  ghost predicate OpServes(op: Op, good: JsonText -> bool) {
    !op.Delete? ==> Serves(op.engine, good)
  }

  lemma TurnKeepsBacked(session: Session, input: SendInput, model: string, engine: ChatEngine, now: nat,
                        good: JsonText -> bool)
    requires Backed(session.store, good) && Serves(engine, good) && InRow(session)
    ensures Backed(Turned(CheckpointKept, session, input, model, engine, now).store, good)
  {
    hide TurnInput;
    assert Sound(engine.run(TurnInput(session, input, model)), good);
  }

  lemma DecisionKeepsBacked(s: Store, input: ApproveInput, engine: ChatEngine, now: nat, good: JsonText -> bool)
    requires Backed(s, good) && Serves(engine, good)
    ensures Backed(ApproveAction(CheckpointKept, s, input, engine, now).store, good)
  {
    var found := Found(s.rows, input.conversationID);
    if found.Some? && found.value.status == Pending {
      assert HoldsCheckpoint(found.value, good);
      assert Sound(engine.resume(found.value.workflowState[PausedState].text, input.approved), good);
    }
  }

  lemma StepKeepsBacked(s: Store, op: Op, good: JsonText -> bool)
    requires Backed(s, good) && OpServes(op, good)
    ensures Backed(Perform(CheckpointKept, s, op).store, good)
  {
    hide Turned, ApproveAction, Serves;
    match op
    case Send(input, newID, defaultModel, engine, now) =>
      var session := SessionFor(s, input, newID, now);
      if session.Ok? {
        TurnKeepsBacked(session.value, input, ModelFor(input, defaultModel), engine, now, good);
      }
    case Decide(input, engine, now) => DecisionKeepsBacked(s, input, engine, now, good);
    case Delete(_, _) =>
  }

  /** With the checkpoint set on the entity first, every pending row holds a good checkpoint. */
  lemma {:induction false} PendingIsBacked(ops: seq<Op>, good: JsonText -> bool)
    requires forall op :: op in ops ==> OpServes(op, good)
    ensures Backed(After(CheckpointKept, ops).store, good)
    decreases |ops|
  {
    hide Perform, OpServes;
    if ops != [] {
      PendingIsBacked(ops[..|ops| - 1], good);
      StepKeepsBacked(After(CheckpointKept, ops[..|ops| - 1]).store, ops[|ops| - 1], good);
    }
  }

  /** Then the owner's decision on a pending conversation always reaches the engine with a good checkpoint, and leaves
      the conversation pending exactly if the engine failed or paused again. */
  lemma DecisionsReachTheEngine(ops: seq<Op>, input: ApproveInput, engine: ChatEngine, now: nat, good: JsonText -> bool)
    requires forall op :: op in ops ==> OpServes(op, good)
    requires var found := Found(After(CheckpointKept, ops).store.rows, input.conversationID);
             found.Some? && found.value.userID == input.userID && found.value.status == Pending
    ensures var s := After(CheckpointKept, ops).store;
            var r := ApproveAction(CheckpointKept, s, input, engine, now);
            var c := Found(s.rows, input.conversationID).value;
            && HoldsCheckpoint(c, good)
            && match engine.resume(c.workflowState[PausedState].text, input.approved)
               case Err(e) => r == Effect(s, Refused(EngineFailed(e)))
               case Ok(out) =>
                 && r.outcome.Decided? && r.outcome.out == out
                 && (PendingIn(r.store, input.conversationID) <==> out.requiresApproval)
  {
    hide After, OpServes;
    PendingIsBacked(ops, good);
  }

  // ----- status and metadata -----

  /** Only two statuses occur; a pending row says so in its metadata, and an active row whose metadata still does has
      been rejected; the time of the last message is set once a message counts. */
  predicate Tidy(c: Conv) {
    && (c.status == Active || c.status == Pending)
    && (c.status == Pending ==> PendingApproval in c.metadata)
    && (c.status == Active && PendingApproval in c.metadata ==> LastRejection in c.metadata)
    && c.messageCount >= 0 && (c.lastMessageAt.Some? <==> c.messageCount > 0)
  }

  ghost predicate AllTidy(s: Store) {
    forall id :: id in s.rows ==> Tidy(s.rows[id].conv)
  }

  lemma EntityTidy(c: Conv, tokens: int, calls: int, text: string, reason: string, now: nat)
    requires Tidy(c)
    ensures Tidy(WithStats(c, tokens, calls, now)) && Tidy(Titled(c, text, now))
    ensures Tidy(AwaitingApproval(c, text, reason, now)) && Tidy(AfterApproval(c, now))
    ensures c.status == Pending ==> Tidy(AfterRejection(c, reason, now))
  {
  }

  lemma WritesTidy(variant: Variant, s: Store, id: string, c: Conv, out: WorkflowOutput, now: nat)
    requires AllTidy(s) && Tidy(c)
    ensures AllTidy(Saved(s, id, c, now)) && AllTidy(HeldOver(variant, s, id, c, out, now))
  {
    EntityTidy(c, 0, 0, out.agentType, out.approvalReason, now);
  }

  lemma TurnTidy(variant: Variant, session: Session, input: SendInput, model: string, engine: ChatEngine, now: nat)
    requires AllTidy(session.store) && Tidy(session.conv)
    ensures AllTidy(Turned(variant, session, input, model, engine, now).store)
  {
    hide TurnInput, Tidy, Saved, HeldOver, WithStats, Titled;
    var Session(_, id, c) := session;
    var result := engine.run(TurnInput(session, input, model));
    if result.Ok? {
      var out := result.value;
      var counted := WithStats(c, out.tokensUsed, out.toolCallsCount, now);
      EntityTidy(c, out.tokensUsed, out.toolCallsCount, input.content, "", now);
      EntityTidy(counted, 0, 0, input.content, "", now);
      WritesTidy(variant, Asked(session, input), id, c, out, now);
      WritesTidy(variant, Stored(Asked(session, input), Message(id, Assistant, out.response, model)), id,
                 Titled(counted, input.content, now), out, now);
    }
  }

  lemma ResumedTidy(variant: Variant, s: Store, c: Conv, input: ApproveInput, out: WorkflowOutput, now: nat)
    requires AllTidy(s) && Tidy(c) && c.status == Pending
    ensures AllTidy(Resumed(variant, s, c, input, out, now).store)
  {
    hide Tidy, Saved, HeldOver, AfterApproval, AfterRejection;
    var id := input.conversationID;
    var told := if out.response != "" then Stored(s, Message(id, Assistant, out.response, "")) else s;
    var counted := WithStats(c, out.tokensUsed, out.toolCallsCount, now);
    EntityTidy(c, out.tokensUsed, out.toolCallsCount, "", "", now);
    EntityTidy(counted, 0, 0, "", input.reason, now);
    WritesTidy(variant, told, id, counted, out, now);
    WritesTidy(variant, told, id, AfterApproval(counted, now), out, now);
    WritesTidy(variant, told, id, AfterRejection(counted, input.reason, now), out, now);
  }

  lemma StepTidy(variant: Variant, s: Store, op: Op)
    requires AllTidy(s)
    ensures AllTidy(Perform(variant, s, op).store)
  {
    hide Turned, Resumed;
    match op
    case Send(input, newID, defaultModel, engine, now) =>
      var session := SessionFor(s, input, newID, now);
      if session.Ok? {
        TurnTidy(variant, session.value, input, ModelFor(input, defaultModel), engine, now);
      }
    case Decide(input, engine, now) =>
      var found := Found(s.rows, input.conversationID);
      if found.Some? && found.value.status == Pending
         && PausedState in found.value.workflowState && found.value.workflowState[PausedState].Checkpoint? {
        var result := engine.resume(found.value.workflowState[PausedState].text, input.approved);
        if result.Ok? {
          ResumedTidy(variant, s, found.value, input, result.value, now);
        }
      }
    case Delete(_, _) =>
  }

  lemma {:induction false} RowsAreTidy(variant: Variant, ops: seq<Op>)
    ensures AllTidy(After(variant, ops).store)
    decreases |ops|
  {
    hide Perform, Tidy;
    if ops != [] {
      RowsAreTidy(variant, ops[..|ops| - 1]);
      StepTidy(variant, After(variant, ops[..|ops| - 1]).store, ops[|ops| - 1]);
    }
  }

  // ----- counters -----

  datatype Tally = Tally(turns: int, tokens: int, calls: int)

  function Plus(a: Tally, b: Tally): Tally {
    Tally(a.turns + b.turns, a.tokens + b.tokens, a.calls + b.calls)
  }

  /** What a row says it has counted; a missing row has counted nothing. */
  function Counters(rows: map<string, Row>, id: string): Tally {
    if id in rows then TallyOf(rows[id].conv) else Tally(0, 0, 0)
  }

  function TallyOf(c: Conv): Tally {
    Tally(c.messageCount, c.totalTokens, c.toolCallCount)
  }

  /** What one outcome reported for a conversation: unpaused sends and decisions count, paused sends do not. */
  function ReportedBy(o: Outcome, id: string): Tally {
    if (o.Answered? || o.Decided?) && o.id == id then Tally(1, o.out.tokensUsed, o.out.toolCallsCount)
    else Tally(0, 0, 0)
  }

  function Reported(outcomes: seq<Outcome>, id: string): Tally {
    if outcomes == [] then Tally(0, 0, 0)
    else Plus(Reported(outcomes[..|outcomes| - 1], id), ReportedBy(outcomes[|outcomes| - 1], id))
  }

  lemma ReportedLonger(outcomes: seq<Outcome>, o: Outcome, id: string)
    ensures Reported(outcomes + [o], id) == Plus(Reported(outcomes, id), ReportedBy(o, id))
  {
    assert (outcomes + [o])[..|outcomes|] == outcomes;
  }

  lemma NothingAdded(t: Tally)
    ensures Plus(t, Tally(0, 0, 0)) == t
  {
  }

  lemma SessionCounts(s: Store, input: SendInput, newID: string, now: nat, id: string)
    ensures var session := SessionFor(s, input, newID, now);
            session.Ok? ==> InRow(session.value) && Counters(session.value.store.rows, id) == Counters(s.rows, id)
  {
  }

  // Each way of changing an entity, and each way of writing it to its row.

  lemma EntityCounts(c: Conv, tokens: int, calls: int, text: string, reason: string, now: nat)
    ensures TallyOf(WithStats(c, tokens, calls, now)) == Plus(TallyOf(c), Tally(1, tokens, calls))
    ensures TallyOf(Titled(c, text, now)) == TallyOf(c)
    ensures TallyOf(AwaitingApproval(c, text, reason, now)) == TallyOf(c)
    ensures TallyOf(AfterApproval(c, now)) == TallyOf(AfterRejection(c, reason, now)) == TallyOf(c)
  {
  }

  lemma SavedCounts(s: Store, at: string, c: Conv, now: nat, id: string)
    requires at in s.rows
    ensures Counters(Saved(s, at, c, now).rows, id) == if id == at then TallyOf(c) else Counters(s.rows, id)
  {
  }

  lemma HeldOverCounts(variant: Variant, s: Store, at: string, c: Conv, out: WorkflowOutput, now: nat, id: string)
    requires at in s.rows
    ensures Counters(HeldOver(variant, s, at, c, out, now).rows, id)
         == if id == at then TallyOf(c) else Counters(s.rows, id)
  {
  }

  lemma TurnCounts(variant: Variant, session: Session, input: SendInput, model: string, engine: ChatEngine, now: nat,
                   id: string)
    requires InRow(session)
    ensures var r := Turned(variant, session, input, model, engine, now);
            Counters(r.store.rows, id) == Plus(Counters(session.store.rows, id), ReportedBy(r.outcome, id))
  {
    hide TurnInput, Saved, HeldOver, WithStats, Titled, TallyOf, Plus;
    var Session(s, at, c) := session;
    NothingAdded(Counters(s.rows, id));
    var asked := Asked(session, input);
    var result := engine.run(TurnInput(session, input, model));
    if result.Ok? {
      var out := result.value;
      var answered := Stored(asked, Message(at, Assistant, out.response, model));
      var counted := WithStats(c, out.tokensUsed, out.toolCallsCount, now);
      EntityCounts(c, out.tokensUsed, out.toolCallsCount, input.content, "", now);
      EntityCounts(counted, 0, 0, input.content, "", now);
      SavedCounts(answered, at, Titled(counted, input.content, now), now, id);
      HeldOverCounts(variant, asked, at, c, out, now, id);
    }
  }

  lemma ResumedCounts(variant: Variant, s: Store, c: Conv, input: ApproveInput, out: WorkflowOutput, now: nat,
                      id: string)
    requires InRow(Session(s, input.conversationID, c))
    ensures var r := Resumed(variant, s, c, input, out, now);
            Counters(r.store.rows, id) == Plus(Counters(s.rows, id), ReportedBy(r.outcome, id))
  {
    hide Saved, HeldOver, WithStats, AfterApproval, AfterRejection, TallyOf, Plus;
    var at := input.conversationID;
    NothingAdded(Counters(s.rows, id));
    var told := if out.response != "" then Stored(s, Message(at, Assistant, out.response, "")) else s;
    var counted := WithStats(c, out.tokensUsed, out.toolCallsCount, now);
    EntityCounts(c, out.tokensUsed, out.toolCallsCount, "", "", now);
    EntityCounts(counted, 0, 0, "", input.reason, now);
    if out.requiresApproval {
      HeldOverCounts(variant, told, at, counted, out, now, id);
    } else if input.approved {
      SavedCounts(told, at, AfterApproval(counted, now), now, id);
    } else {
      SavedCounts(told, at, AfterRejection(counted, input.reason, now), now, id);
    }
  }

  lemma StepCounts(variant: Variant, s: Store, op: Op, id: string)
    ensures var r := Perform(variant, s, op);
            Counters(r.store.rows, id) == Plus(Counters(s.rows, id), ReportedBy(r.outcome, id))
  {
    hide SendMessage, ApproveAction, Plus;
    NothingAdded(Counters(s.rows, id));
    match op
    case Send(input, newID, defaultModel, engine, now) => SendCounts(variant, s, op, id);
    case Decide(input, engine, now) => DecideCounts(variant, s, op, id);
    case Delete(_, _) =>
  }

  lemma SendCounts(variant: Variant, s: Store, op: Op, id: string)
    requires op.Send?
    ensures var r := Perform(variant, s, op);
            Counters(r.store.rows, id) == Plus(Counters(s.rows, id), ReportedBy(r.outcome, id))
  {
    hide Turned, SessionFor, Counters, Plus, InRow;
    var session := SessionFor(s, op.input, op.newID, op.now);
    SessionCounts(s, op.input, op.newID, op.now, id);
    NothingAdded(Counters(s.rows, id));
    if session.Ok? {
      TurnCounts(variant, session.value, op.input, ModelFor(op.input, op.defaultModel), op.engine, op.now, id);
    }
  }

  lemma DecideCounts(variant: Variant, s: Store, op: Op, id: string)
    requires op.Decide?
    ensures var r := Perform(variant, s, op);
            Counters(r.store.rows, id) == Plus(Counters(s.rows, id), ReportedBy(r.outcome, id))
  {
    hide Resumed, Counters, Plus;
    NothingAdded(Counters(s.rows, id));
    var found := Found(s.rows, op.decision.conversationID);
    if found.Some? && PausedState in found.value.workflowState && found.value.workflowState[PausedState].Checkpoint? {
      var result := op.engine.resume(found.value.workflowState[PausedState].text, op.decision.approved);
      if result.Ok? {
        ResumedCounts(variant, s, found.value, op.decision, result.value, op.now, id);
      }
    }
  }

  /** The stored counters are the number of unpaused sends and successful decisions,
      and the sums of what the engine reported for those. */
  lemma {:induction false} CountersAreReports(variant: Variant, ops: seq<Op>, id: string)
    ensures var past := After(variant, ops);
            Counters(past.store.rows, id) == Reported(past.outcomes, id)
    decreases |ops|
  {
    hide Perform, Reported, Counters, ReportedBy;
    if ops == [] {
      NothingCounted(id);
    } else {
      var front, op := ops[..|ops| - 1], ops[|ops| - 1];
      var before := After(variant, front);
      CountersAreReports(variant, front, id);
      StepCounts(variant, before.store, op, id);
      ReportedLonger(before.outcomes, Perform(variant, before.store, op).outcome, id);
    }
  }

  lemma NothingCounted(id: string)
    ensures Counters(EMPTY.rows, id) == Reported([], id)
  {
  }

  // ----- as written: paused turns are not counted -----

  lemma {:induction false} NothingDecided(ops: seq<Op>)
    ensures forall o :: o in After(AsWritten, ops).outcomes ==> !o.Decided?
    decreases |ops|
  {
    hide Perform;
    if ops != [] {
      var front, op := ops[..|ops| - 1], ops[|ops| - 1];
      NothingDecided(front);
      NoCheckpointSurvives(front);
      StepDecidesNothing(After(AsWritten, front).store, op);
    }
  }

  lemma StepDecidesNothing(s: Store, op: Op)
    requires Bare(s)
    ensures !Perform(AsWritten, s, op).outcome.Decided?
  {
    hide Bare, Inserted;
    if op.Decide? {
      RefusedForWantOfCheckpoint(s, op.decision, op.engine, op.now);
    }
  }

  /** What the unpaused sends on a conversation reported. */
  function Sent(outcomes: seq<Outcome>, id: string): Tally {
    if outcomes == [] then Tally(0, 0, 0)
    else
      var o := outcomes[|outcomes| - 1];
      Plus(Sent(outcomes[..|outcomes| - 1], id),
           if o.Answered? && o.id == id then Tally(1, o.out.tokensUsed, o.out.toolCallsCount) else Tally(0, 0, 0))
  }

  lemma {:induction false} OnlySendsReport(outcomes: seq<Outcome>, id: string)
    requires forall o :: o in outcomes ==> !o.Decided?
    ensures Reported(outcomes, id) == Sent(outcomes, id)
    decreases |outcomes|
  {
    hide Plus;
    if outcomes != [] {
      OnlySendsReport(outcomes[..|outcomes| - 1], id);
    }
  }

  /** As written, the stored totals are those of the unpaused sends: what a turn that pauses used is never counted. */
  lemma PausedTurnsAreLost(ops: seq<Op>, id: string)
    ensures var past := After(AsWritten, ops); Counters(past.store.rows, id) == Sent(past.outcomes, id)
  {
    hide After, Counters, Reported, Sent;
    CountersAreReports(AsWritten, ops, id);
    NothingDecided(ops);
    OnlySendsReport(After(AsWritten, ops).outcomes, id);
  }
}
