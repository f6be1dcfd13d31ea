/** Turns that pause again and again, and what the store makes of them. */
module PausingTurns {
  import opened Wrappers
  import opened JsonValues
  import opened ChatTypes
  import opened AgentStates
  import opened Workflow
  import opened Engine
  import opened Reachability
  import opened Conversations
  import opened ConversationStore
  import opened ChatUseCases
  import opened ChatHistories
  import opened EngineHistories

  /** The LLM answers everything with one call that needs approval. */
  ghost predicate Insistent(env: Env, call: ToolCall, tokens: int) {
    && NeedsApproval(env, call)
    && forall log: seq<Event>, request: ChatRequest :: env.chat(log, request) == ChatReply("", [call], tokens)
  }

  /** Router, think, act. */
  lemma AsksAndHolds(env: Env, call: ToolCall, tokens: int, s: State, log: seq<Event>)
    requires Insistent(env, call, tokens) && Fresh(s)
    ensures var c1 := Step(env, Start(s, log));
            && c1.node == Think
            && var c2 := Step(env, c1);
            && c2.node == Act
            && var c3 := Step(env, c2);
            && c3.node == Observe && c3.s.requiresApproval && c3.s.isApproved == None
            && c3.s.tokensUsed == s.tokensUsed + tokens
  {
    hide AgentFor, BuildMessages;
    var c2 := Step(env, Step(env, Start(s, log)));
    assert c2.s.pendingTools == [call];
    ActOnHeld(env, [call], c2.log);
  }

  /** Observe, then human_approval, or response when the iterations are used up. */
  lemma ObserveStops(env: Env, c: Config)
    requires c.node == Observe && c.s.requiresApproval && c.s.isApproved == None
    ensures var c4 := Step(env, c);
            && !Terminal(c4)
            && var c5 := Step(env, c4);
            && c5.node == End && c5.s.requiresApproval && c5.s.tokensUsed == c.s.tokensUsed
  {
    hide LastAnswer;
  }

  lemma InsistentPauses(env: Env, call: ToolCall, tokens: int, s: State, log: seq<Event>)
    requires Insistent(env, call, tokens) && Fresh(s)
    ensures var final := Invoke(env, s, log);
            final.node == End && final.s.requiresApproval && final.s.tokensUsed == s.tokensUsed + tokens
  {
    hide Step, Finish, Fresh, Insistent;
    var c0 := Start(s, log);
    AsksAndHolds(env, call, tokens, s, log);
    var c1 := Step(env, c0);
    var c2 := Step(env, c1);
    var c3 := Step(env, c2);
    ObserveStops(env, c3);
    var c4 := Step(env, c3);
    FinishStep(env, c0);
    FinishStep(env, c1);
    FinishStep(env, c2);
    FinishStep(env, c3);
    FinishStep(env, c4);
    FinishStep(env, Step(env, c4));
  }

  /** However often such a turn is approved, it pauses again. */
  lemma {:induction false} TurnKeepsPausing(env: Env, call: ToolCall, tokens: int, s: State, log: seq<Event>, n: nat)
    requires Insistent(env, call, tokens) && Fresh(s)
    ensures var c := Turns.TurnAfter(env, s, log, n);
            c.node == End && c.s.requiresApproval && c.s.tokensUsed == s.tokensUsed + (n + 1) * tokens
    decreases n
  {
    hide Invoke, Reentry, Replay, Fresh, Insistent;
    if n == 0 {
      InsistentPauses(env, call, tokens, s, log);
    } else {
      TurnKeepsPausing(env, call, tokens, s, log, n - 1);
      var before := Turns.TurnAfter(env, s, log, n - 1);
      Turns.ReentryIsFresh(env, before.s, before.log);
      Turns.ReentryBooks(env, before.s, before.log);
      InsistentPauses(env, call, tokens, Reentry(env, before.s, before.log), Replay(env, before.s, before.log).log);
      assert n * tokens + tokens == (n + 1) * tokens;
    }
  }

  lemma ReportsAreMultiples(env: Env, call: ToolCall, tokens: int, input: WorkflowInput, requestID: string, now: string,
                            log: seq<Event>, n: nat)
    requires Insistent(env, call, tokens)
    ensures var r := Checkpoints.Approvals(env, Run(env, input, requestID, now, log), n);
            Reports.Pauses(r) && r.out.value.tokensUsed == (n + 1) * tokens
  {
    hide Turns.TurnAfter, Checkpoints.Approvals, Invoke, StateJson.Writable, Insistent, StateJson.ToJSON;
    var s := RunState(input, requestID, now);
    TurnKeepsPausing(env, call, tokens, s, log, n);
    assert StateJson.Writable(s) by { Reports.StartsWritable(input, requestID, now); }
    Checkpoints.ApprovalsFollowTurn(env, s, log, n);
  }

  lemma {:induction false} PausesForEver(env: Env, call: ToolCall, tokens: int, input: WorkflowInput, requestID: string,
                                         now: string, log: seq<Event>, n: nat)
    requires Insistent(env, call, tokens)
    ensures PausesThrough(env, Run(env, input, requestID, now, log), n)
    decreases n
  {
    hide Run, Insistent, Checkpoints.Approvals;
    ReportsAreMultiples(env, call, tokens, input, requestID, now, log, n);
    if n > 0 {
      PausesForEver(env, call, tokens, input, requestID, now, log, n - 1);
    }
  }

  // ----- one such turn, paused twice -----

  const CALL := ToolCall("1", "function", "deploy", "{}")

  /** One registered tool, which asks for approval, and an LLM that insists on it at one token an answer. */
  function OneTool(): Env {
    Env(map[CALL.name := true], (_, _) => ChatReply("", [CALL], 1), (_, _, _) => Faulted(""), _ => [], _ => Ok(JNull),
        e => e, s => s, map[], map[])
  }

  const HELLO := SendInput(None, "user", "hello", "", "")
  const YES := ApproveInput("id", "user", true, "")

  function HelloTurn(): WorkflowInput {
    var c := NewConv("user", "general", 0);
    TurnInput(Session(Store(Inserted(map[], "id", c), []), "id", c), HELLO, "model")
  }

  function HelloRun(): EngineResult {
    Run(OneTool(), HelloTurn(), "", "", [])
  }

  function HelloSent(variant: Variant): Effect {
    SendMessage(variant, EMPTY, HELLO, "id", "model", EngineAt(OneTool(), "", "", []), 0)
  }

  lemma HelloWaits(variant: Variant)
    ensures var r := HelloSent(variant);
            r.outcome.Waiting? && r.outcome.id == "id" && Counters(r.store.rows, "id") == Tally(0, 0, 0)
  {
    hide Run, TurnInput, Plus, Counters, Checkpoints.Approvals;
    ReportsAreMultiples(OneTool(), CALL, 1, HelloTurn(), "", "", [], 0);
    NoApprovalYet(OneTool(), HelloRun());
    assert HelloSent(variant).outcome.Waiting?;
    StepCounts(variant, EMPTY, Send(HELLO, "id", "model", EngineAt(OneTool(), "", "", []), 0), "id");
    NothingCounted("id");
    NothingAdded(Tally(0, 0, 0));
  }

  lemma HelloIsDecidable()
    ensures Decidable(OneTool(), HelloSent(CheckpointKept).store, HelloRun(), YES, 2)
  {
    hide Run, TurnInput, WaitsAfter, Checkpoints.Approvals, Reports.Pauses, SendMessage;
    HelloWaits(CheckpointKept);
    var c := NewConv("user", "general", 0);
    assert SessionFor(EMPTY, HELLO, "id", 0) == Ok(Session(Store(Inserted(map[], "id", c), []), "id", c));
    assert ModelFor(HELLO, "model") == "model";
    PausedSendWaits(OneTool(), EMPTY, HELLO, "id", "model", "", "", [], 0, YES);
    assert WaitsAfter(HelloSent(CheckpointKept).store, YES, HelloRun());
    HelloReports();
  }

  lemma HelloReports()
    ensures PausesThrough(OneTool(), HelloRun(), 1)
    ensures var r := Reports.LastDecision(OneTool(), HelloRun(), 2, true);
            r.out.Ok? && r.out.value.tokensUsed == 3 && Ledger.Tokens(r.log) == 3
    ensures Reports.ChargedBy(OneTool(), HelloRun(), 2, true) == 5
  {
    hide Run, HelloTurn, Checkpoints.Approvals, Ledger.Tokens;
    PausesForEver(OneTool(), CALL, 1, HelloTurn(), "", "", [], 1);
    ReportsAreMultiples(OneTool(), CALL, 1, HelloTurn(), "", "", [], 1);
    ReportsAreMultiples(OneTool(), CALL, 1, HelloTurn(), "", "", [], 2);
    Reports.ApprovalFollows(OneTool(), HelloRun(), 2);
    Reports.LastReportIsCumulative(OneTool(), HelloTurn(), "", "", [], 2, true);
    var r := Reports.LastDecision(OneTool(), HelloRun(), 2, true);
    assert r.log[0..] == r.log;
    assert Reports.Charged(OneTool(), HelloRun(), 0) == 0;
  }

  /** The turn uses three tokens. With the checkpoint kept, its two approvals are charged two and three;
      as written nothing is, and it can never be approved. */
  lemma Overcharged()
    ensures PausesThrough(OneTool(), HelloRun(), 1)
    ensures Ledger.Tokens(Reports.LastDecision(OneTool(), HelloRun(), 2, true).log) == 3
    ensures var after := DecidedTimes(OneTool(), HelloSent(CheckpointKept).store, HelloRun(), YES, 0, 2);
            Counters(after.rows, "id").tokens == 5
    ensures Counters(HelloSent(AsWritten).store.rows, "id").tokens == 0
  {
    hide HelloRun, HelloSent, DecidedTimes, Counters, Decidable, Ledger.Tokens, Reports.LastDecision, Reports.ChargedBy;
    HelloReports();
    HelloWaits(AsWritten);
    HelloWaits(CheckpointKept);
    HelloIsDecidable();
    DecisionsCharge(OneTool(), HelloSent(CheckpointKept).store, HelloRun(), YES, 0, 2);
  }
}
