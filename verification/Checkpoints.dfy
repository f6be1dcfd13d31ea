/** Resuming from a checkpoint that went through JSON is the same as resuming from the state itself. */
module Checkpoints {
  import opened Wrappers
  import opened JsonValues
  import opened ChatTypes
  import opened AgentStates
  import opened StateJson
  import opened RoundTrips
  import opened Workflow
  import opened Engine
  import opened Reachability
  import opened Ledger
  import opened Turns

  /** Equal but for the approval data, and equal altogether while approval is asked for. */
  ghost predicate Alike(s: State, t: State) {
    && t == s.(approvalData := t.approvalData)
    && (s.requiresApproval ==> s == t)
  }

  ghost predicate InStep(c: Config, d: Config) {
    d.node == c.node && d.path == c.path && d.log == c.log && Alike(c.s, d.s)
  }

  lemma StepIgnoresApprovalData(env: Env, c: Config, d: Config)
    requires InStep(c, d) && !Terminal(c)
    ensures InStep(Step(env, c), Step(env, d))
  {
    hide ActOn, AgentFor, LastAnswer;
    match c.node
    case Think => AskAlike(env, c, d);
    case _ =>
  }

  lemma AskAlike(env: Env, c: Config, d: Config)
    requires InStep(c, d) && c.node == Think
    ensures InStep(Step(env, c), Step(env, d))
  {
    assert RequestOf(env, c.s, c.log) == RequestOf(env, d.s, d.log);
    hide BuildMessages;
  }

  lemma {:induction false} FinishIgnoresApprovalData(env: Env, c: Config, d: Config)
    requires InStep(c, d)
    ensures InStep(Finish(env, c), Finish(env, d))
    decreases Fuel(c)
  {
    hide Step, InStep;
    assert d.node == c.node by { SameNode(c, d); }
    if !Terminal(c) {
      StepIgnoresApprovalData(env, c, d);
      StepBurnsFuel(env, c);
      FinishIgnoresApprovalData(env, Step(env, c), Step(env, d));
    }
  }

  lemma SameNode(c: Config, d: Config)
    requires InStep(c, d)
    ensures d.node == c.node
  {
  }

  lemma ReentryIgnoresApprovalData(env: Env, s: State, t: State, log: seq<Event>)
    requires t == s.(approvalData := t.approvalData)
    ensures Replay(env, t, log) == Replay(env, s, log)
    ensures Alike(Reentry(env, s, log), Reentry(env, t, log))
  {
    hide ActOn;
  }

  lemma SameResult(c: Config, d: Config)
    requires InStep(c, d) && Terminal(c)
    ensures Terminal(d) && ResultOf(c) == ResultOf(d)
  {
  }

  lemma ResumeIgnoresApprovalData(env: Env, s: State, t: State, log: seq<Event>)
    requires t == s.(approvalData := t.approvalData)
    ensures ResultOf(ResumeApproved(env, t, log)) == ResultOf(ResumeApproved(env, s, log))
  {
    hide Finish, Reentry, Replay, Alike;
    ReentryIgnoresApprovalData(env, s, t, log);
    var c := Start(Reentry(env, s, log), Replay(env, s, log).log);
    var d := Start(Reentry(env, t, log), Replay(env, s, log).log);
    assert InStep(c, d);
    FinishIgnoresApprovalData(env, c, d);
    SameResult(Finish(env, c), Finish(env, d));
  }

  /** Checkpoint transparency: the same LLM requests, the same tool executions and the same output, whichever
      empty slices were nil, although the approval data does not come back as it was. */
  lemma CheckpointTransparent(env: Env, s: State, nils: set<Key>, approved: bool, log: seq<Event>)
    requires Writable(s)
    ensures Resume(env, ToJSON(s, nils), approved, log)
         == if approved then ResultOf(ResumeApproved(env, s, log)) else EngineResult(Ok(Rejection(s)), log)
  {
    hide ToJSON, FromJSON, ResumeApproved, ResultOf;
    StateRoundTrip(s, nils);
    var t := s.(approvalData := Decoded(ApprovalJson(s.approvalData)));
    if approved {
      ResumeIgnoresApprovalData(env, s, t, log);
    }
  }

  /** The approval data of a held call comes back as a plain object: the round trip is not the identity. */
  lemma ApprovalDataIsNotRestored(s: State, nils: set<Key>)
    requires s.approvalData.Held?
    ensures FromJSON(ToJSON(s, nils)).Some? && FromJSON(ToJSON(s, nils)).value != s
  {
    hide ToJSON, FromJSON;
    StateRoundTrip(s, nils);
  }

  // ----- turns as the callers see them -----

  /** A Run and n approvals, each passing on the checkpoint the output before it reported. */
  function Approvals(env: Env, first: EngineResult, n: nat): EngineResult
    decreases n
  {
    if n == 0 then first
    else
      var before := Approvals(env, first, n - 1);
      match before.out
      case Ok(out) =>
        if out.pausedStateJSON.Some? then Resume(env, out.pausedStateJSON.value, true, before.log) else before
      case Err(_) => before
  }

  lemma EndWritable(env: Env, s: State, log: seq<Event>)
    requires Writable(s)
    ensures Writable(Invoke(env, s, log).s)
  {
    hide Step;
    var start := Start(s, log);
    forall x: Config | Writable(x.s) && !Terminal(x) ensures Writable(Step(env, x).s) {
      StepWritable(env, x);
    }
    Invariance(env, start, Fuel(start), (x: Config) => Writable(x.s));
    FuelSuffices(env, start, Fuel(start));
  }

  lemma StepWritable(env: Env, c: Config)
    requires Writable(c.s) && !Terminal(c)
    ensures Writable(Step(env, c).s)
  {
    hide ActOn, AgentFor, LastAnswer, BuildMessages;
  }

  lemma ResumeWritable(env: Env, s: State, log: seq<Event>)
    requires Writable(s)
    ensures Writable(ResumeApproved(env, s, log).s)
  {
    hide ActOn, Finish;
    EndWritable(env, Reentry(env, s, log), Replay(env, s, log).log);
  }

  /** The outputs of a turn are those of the states it goes through: JSON in between changes nothing. */
  lemma {:induction false} ApprovalsFollowTurn(env: Env, s: State, log: seq<Event>, n: nat)
    requires Writable(s)
    ensures var c := TurnAfter(env, s, log, n);
            Terminal(c) && Writable(c.s) && Approvals(env, ResultOf(Invoke(env, s, log)), n) == ResultOf(c)
    decreases n
  {
    hide Finish, Writable, ToJSON, Resume, ResumeApproved;
    if n == 0 {
      EndWritable(env, s, log);
    } else {
      ApprovalsFollowTurn(env, s, log, n - 1);
      var before := TurnAfter(env, s, log, n - 1);
      if before.node == End && before.s.requiresApproval {
        CheckpointTransparent(env, before.s, {}, true, before.log);
        ResumeWritable(env, before.s, before.log);
        TerminalResume(env, before.s, before.log);
      }
    }
  }

  lemma TerminalResume(env: Env, s: State, log: seq<Event>)
    ensures Terminal(ResumeApproved(env, s, log))
  {
    hide Finish, Reentry, Replay;
  }

  /** Run followed by n approvals through JSON checkpoints: at most 10 + n LLM calls. */
  lemma ApprovalsBudget(env: Env, input: WorkflowInput, requestID: string, now: string, log: seq<Event>, n: nat)
    ensures var r := Approvals(env, Run(env, input, requestID, now, log), n);
            log <= r.log && Chats(r.log[|log|..]) <= MAX_ITERATIONS + n
  {
    hide TurnAfter, Chats, Approvals, Invoke;
    RunBudget(env, input, requestID, now, log, n);
    ApprovalsFollowTurn(env, RunState(input, requestID, now), log, n);
  }
}
