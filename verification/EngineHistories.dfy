/** Histories of use-case calls whose engine is the chatbot graph itself. */
module EngineHistories {
  import opened JsonValues
  import opened ChatTypes
  import opened AgentStates
  import opened StateJson
  import opened RoundTrips
  import opened Workflow
  import opened Engine
  import opened Reachability
  import Ledger
  import Turns
  import Checkpoints
  import Reports
  import opened Conversations
  import opened ConversationStore
  import opened ChatUseCases
  import opened ChatHistories

  /** The graph as the port sees it once the outside world has gone through `log`. */
  function EngineAt(env: Env, requestID: string, clock: string, log: seq<Event>): ChatEngine {
    ChatEngine(input => Run(env, input, requestID, clock, log).out,
               (text, approved) => Resume(env, text, approved, log).out)
  }

  // ----- every checkpoint the engine hands out can be resumed -----

  /** It decodes to a state that stopped at a held call. */
  predicate Resumable(env: Env, text: JsonText) {
    FromJSON(text).Some? && Turns.Paused(env, FromJSON(text).value)
  }

  lemma CheckpointResumable(env: Env, s: State)
    requires Turns.Paused(env, s) && Writable(s)
    ensures Resumable(env, ToJSON(s, {}))
  {
    hide ToJSON, FromJSON;
    StateRoundTrip(s, {});
  }

  lemma EndsSoundly(env: Env, s: State, log: seq<Event>)
    requires Fresh(s) && Writable(s)
    ensures Sound(ResultOf(Invoke(env, s, log)).out, text => Resumable(env, text))
  {
    hide Finish, ToJSON, Resumable, Writable, Fresh;
    var final := Invoke(env, s, log);
    if final.node == End && final.s.requiresApproval {
      Turns.PauseShape(env, s, log);
      Checkpoints.EndWritable(env, s, log);
      CheckpointResumable(env, final.s);
    }
  }

  lemma DecodedIsWritable(text: JsonText)
    requires FromJSON(text).Some?
    ensures Writable(FromJSON(text).value)
  {
    hide HasSlices, HasIdentity, HasTurn, HasRouting, HasNumbers;
  }

  lemma ReentryIsWritable(env: Env, s: State, log: seq<Event>)
    requires Writable(s)
    ensures Writable(Reentry(env, s, log))
  {
    hide ActOn;
  }

  lemma ResumesSoundly(env: Env, text: JsonText, approved: bool, log: seq<Event>)
    ensures Sound(Resume(env, text, approved, log).out, t => Resumable(env, t))
  {
    hide FromJSON, Invoke, Reentry, Replay, Resumable, Writable, Fresh;
    if FromJSON(text).Some? && approved {
      var s := FromJSON(text).value;
      DecodedIsWritable(text);
      ReentryIsWritable(env, s, log);
      Turns.ReentryIsFresh(env, s, log);
      EndsSoundly(env, Reentry(env, s, log), Replay(env, s, log).log);
    }
  }

  /** Whatever it is given, the graph reports no pause without a checkpoint that can be resumed. */
  lemma EngineServes(env: Env, requestID: string, clock: string, log: seq<Event>)
    ensures Serves(EngineAt(env, requestID, clock, log), text => Resumable(env, text))
  {
    hide Run, Resume, Resumable, Sound;
    var engine := EngineAt(env, requestID, clock, log);
    forall input ensures Sound(engine.run(input), text => Resumable(env, text)) {
      RunsSoundly(env, input, requestID, clock, log);
    }
    forall text, approved ensures Sound(engine.resume(text, approved), t => Resumable(env, t)) {
      ResumesSoundly(env, text, approved, log);
    }
  }

  lemma RunsSoundly(env: Env, input: WorkflowInput, requestID: string, clock: string, log: seq<Event>)
    ensures Sound(Run(env, input, requestID, clock, log).out, text => Resumable(env, text))
  {
    hide Invoke, Resumable;
    EndsSoundly(env, RunState(input, requestID, clock), log);
  }

  ghost predicate ByGraph(env: Env, op: Op) {
    op.Delete? || exists requestID, clock, log :: op.engine == EngineAt(env, requestID, clock, log)
  }

  /** With the checkpoint kept, every pending conversation can be resumed: whatever its history,
      its row holds a checkpoint that decodes to a state that stopped at a held call. */
  lemma PendingIsResumable(env: Env, ops: seq<Op>, id: string)
    requires forall op :: op in ops ==> ByGraph(env, op)
    ensures var s := After(CheckpointKept, ops).store;
            PendingIn(s, id) ==>
              && PausedState in s.rows[id].conv.workflowState
              && s.rows[id].conv.workflowState[PausedState].Checkpoint?
              && Resumable(env, s.rows[id].conv.workflowState[PausedState].text)
  {
    hide After, Resumable, EngineAt, Serves;
    forall op | op in ops ensures OpServes(op, text => Resumable(env, text)) {
      if !op.Delete? {
        assert ByGraph(env, op);
        var requestID, clock, log :| op.engine == EngineAt(env, requestID, clock, log);
        EngineServes(env, requestID, clock, log);
      }
    }
    PendingIsBacked(ops, text => Resumable(env, text));
  }

  // ----- what a turn costs in the store, with the checkpoint kept -----

  /** The caller's row, pending on the checkpoint of `out`. */
  ghost predicate WaitsOn(s: Store, input: ApproveInput, out: WorkflowOutput) {
    var found := Found(s.rows, input.conversationID);
    && found.Some? && found.value.userID == input.userID && found.value.status == Pending
    && out.pausedStateJSON.Some? && found.value.workflowState == CheckpointOf(out)
  }

  ghost predicate WaitsAfter(s: Store, input: ApproveInput, r: EngineResult) {
    Reports.Pauses(r) && WaitsOn(s, input, r.out.value)
  }

  lemma TurnWaits(session: Session, input: SendInput, model: string, engine: ChatEngine, now: nat,
                  decision: ApproveInput)
    requires InRow(session) && Found(session.store.rows, session.id).Some? && session.conv.userID == input.userID
    requires decision.conversationID == session.id && decision.userID == input.userID
    requires var r := Turned(CheckpointKept, session, input, model, engine, now);
             r.outcome.Waiting? && r.outcome.out.pausedStateJSON.Some?
    ensures var r := Turned(CheckpointKept, session, input, model, engine, now);
            WaitsOn(r.store, decision, r.outcome.out)
  {
    hide TurnInput;
  }

  /** A send that pauses leaves the sender's conversation waiting on the checkpoint of that very run. */
  lemma PausedSendWaits(env: Env, s: Store, input: SendInput, newID: string, defaultModel: string, requestID: string,
                        clock: string, log: seq<Event>, now: nat, decision: ApproveInput)
    requires var engine := EngineAt(env, requestID, clock, log);
             var r := SendMessage(CheckpointKept, s, input, newID, defaultModel, engine, now);
             r.outcome.Waiting? && decision.conversationID == r.outcome.id && decision.userID == input.userID
    ensures var session := SessionFor(s, input, newID, now);
            var engine := EngineAt(env, requestID, clock, log);
            var r := SendMessage(CheckpointKept, s, input, newID, defaultModel, engine, now);
            && session.Ok?
            && var turn := TurnInput(session.value, input, ModelFor(input, defaultModel));
            && WaitsAfter(r.store, decision, Run(env, turn, requestID, clock, log))
  {
    var engine := EngineAt(env, requestID, clock, log);
    var session := SessionFor(s, input, newID, now).value;
    SessionIsOpen(s, input, newID, now);
    RunsSoundly(env, TurnInput(session, input, ModelFor(input, defaultModel)), requestID, clock, log);
    hide Run, TurnInput, Resumable, WaitsOn, SessionFor, HeldOver;
    TurnWaits(session, input, ModelFor(input, defaultModel), engine, now, decision);
  }

  lemma SessionIsOpen(s: Store, input: SendInput, newID: string, now: nat)
    ensures var session := SessionFor(s, input, newID, now);
            session.Ok? ==>
              && InRow(session.value) && Found(session.value.store.rows, session.value.id).Some?
              && session.value.conv.userID == input.userID
  {
  }

  /** One decision on a waiting row, by the engine at `log`. */
  function DecideAt(env: Env, s: Store, input: ApproveInput, log: seq<Event>, now: nat): Store {
    ApproveAction(CheckpointKept, s, input, EngineAt(env, "", "", log), now).store
  }

  lemma OneDecision(env: Env, s: Store, input: ApproveInput, out: WorkflowOutput, log: seq<Event>, now: nat)
    requires WaitsOn(s, input, out)
    requires Resume(env, out.pausedStateJSON.value, input.approved, log).out.Ok?
    ensures var next := Resume(env, out.pausedStateJSON.value, input.approved, log).out.value;
            var after := DecideAt(env, s, input, log, now);
            && Counters(after.rows, input.conversationID)
               == Plus(Counters(s.rows, input.conversationID), Tally(1, next.tokensUsed, next.toolCallsCount))
            && (next.requiresApproval && next.pausedStateJSON.Some? ==> WaitsOn(after, input, next))
  {
    hide Resume, Plus, Counters;
    var op := Decide(input, EngineAt(env, "", "", log), now);
    StepCounts(CheckpointKept, s, op, input.conversationID);
  }

  function Approving(input: ApproveInput): ApproveInput {
    input.(approved := true)
  }

  /** n approvals of one conversation, each resuming at the log the call before it left. */
  function ApprovedTimes(env: Env, s: Store, first: EngineResult, input: ApproveInput, now: nat, n: nat): Store
    decreases n
  {
    if n == 0 then s
    else DecideAt(env, ApprovedTimes(env, s, first, input, now, n - 1), Approving(input),
                  Checkpoints.Approvals(env, first, n - 1).log, now)
  }

  /** n decisions: n - 1 approvals and then the one that `input` says. */
  function DecidedTimes(env: Env, s: Store, first: EngineResult, input: ApproveInput, now: nat, n: nat): Store
    requires n > 0
  {
    DecideAt(env, ApprovedTimes(env, s, first, input, now, n - 1), input,
             Checkpoints.Approvals(env, first, n - 1).log, now)
  }

  /** The first n approvals all pause again. */
  predicate PausesThrough(env: Env, first: EngineResult, n: nat)
    decreases n
  {
    && Reports.Pauses(Checkpoints.Approvals(env, first, n))
    && (n > 0 ==> PausesThrough(env, first, n - 1))
  }

  /** A row that waits on `first`, whose first n - 1 approvals all pause again and whose last decision goes through. */
  ghost predicate Decidable(env: Env, s: Store, first: EngineResult, input: ApproveInput, n: nat)
    requires n > 0
  {
    && WaitsAfter(s, input, first) && PausesThrough(env, first, n - 1)
    && Reports.LastDecision(env, first, n, input.approved).out.Ok?
  }

  lemma WaitingForAnyone(s: Store, input: ApproveInput, r: EngineResult)
    ensures WaitsAfter(s, Approving(input), r) <==> WaitsAfter(s, input, r)
  {
  }

  lemma {:induction false} ApprovalsCharge(env: Env, s: Store, first: EngineResult, input: ApproveInput, now: nat,
                                           n: nat)
    ensures WaitsAfter(s, input, first) && PausesThrough(env, first, n) ==>
              var after := ApprovedTimes(env, s, first, input, now, n);
              var before, charged := Counters(s.rows, input.conversationID), Counters(after.rows, input.conversationID);
              && charged.tokens == before.tokens + Reports.Charged(env, first, n)
              && charged.turns == before.turns + n
              && WaitsAfter(after, input, Checkpoints.Approvals(env, first, n))
    decreases n
  {
    hide DecideAt, Resume, Counters, WaitsOn, Checkpoints.Approvals;
    if n == 0 {
      NoApprovalYet(env, first);
    } else if WaitsAfter(s, input, first) && PausesThrough(env, first, n) {
      var before := Checkpoints.Approvals(env, first, n - 1);
      var store := ApprovedTimes(env, s, first, input, now, n - 1);
      ApprovalsCharge(env, s, first, input, now, n - 1);
      Reports.ApprovalFollows(env, first, n);
      WaitingForAnyone(store, input, before);
      OneDecision(env, store, Approving(input), before.out.value, before.log, now);
      WaitingForAnyone(ApprovedTimes(env, s, first, input, now, n), input, Checkpoints.Approvals(env, first, n));
    }
  }

  lemma NoApprovalYet(env: Env, first: EngineResult)
    ensures Checkpoints.Approvals(env, first, 0) == first
  {
  }

  /** The stored counters grow by what each of the n decisions reported, the last of which may be a rejection. */
  lemma DecisionsCharge(env: Env, s: Store, first: EngineResult, input: ApproveInput, now: nat, n: nat)
    requires n > 0
    ensures Decidable(env, s, first, input, n) ==>
              var after := DecidedTimes(env, s, first, input, now, n);
              var before, charged := Counters(s.rows, input.conversationID), Counters(after.rows, input.conversationID);
              && charged.tokens == before.tokens + Reports.ChargedBy(env, first, n, input.approved)
              && charged.turns == before.turns + n
  {
    hide DecideAt, ApprovedTimes, Resume, Counters, WaitsOn, Reports.Charged, Checkpoints.Approvals;
    if Decidable(env, s, first, input, n) {
      var before := Checkpoints.Approvals(env, first, n - 1);
      ApprovalsCharge(env, s, first, input, now, n - 1);
      OneDecision(env, ApprovedTimes(env, s, first, input, now, n - 1), input, before.out.value, before.log, now);
    }
  }

  /** With the checkpoint kept and an LLM whose answers all report usage, the decisions on a paused turn add to the
      stored total exactly the tokens the turn used if and only if it paused once; otherwise they add more. */
  lemma TurnChargedOnce(env: Env, s: Store, turn: WorkflowInput, requestID: string, clock: string, log: seq<Event>,
                        input: ApproveInput, now: nat, n: nat)
    requires n > 0
    ensures var first := Run(env, turn, requestID, clock, log);
            Reports.PositiveUsage(env) && Decidable(env, s, first, input, n) ==>
              var after := DecidedTimes(env, s, first, input, now, n);
              var end := Reports.LastDecision(env, first, n, input.approved).log;
              var before, charged := Counters(s.rows, input.conversationID), Counters(after.rows, input.conversationID);
              && log <= end
              && (charged.tokens == before.tokens + Ledger.Tokens(end[|log|..]) <==> n == 1)
              && charged.tokens >= before.tokens + Ledger.Tokens(end[|log|..])
  {
    hide Run, DecidedTimes, Counters, WaitsAfter, Ledger.Tokens, Reports.PositiveUsage, Reports.ChargedBy,
      Checkpoints.Approvals, Resume;
    var first := Run(env, turn, requestID, clock, log);
    if Reports.PositiveUsage(env) && Decidable(env, s, first, input, n) {
      DecisionsCharge(env, s, first, input, now, n);
      Reports.ChargedOnceIff(env, turn, requestID, clock, log, n, input.approved);
    }
  }
}
