/** What a turn reports: the final answer, and totals that grow over the whole turn. */
module Reports {
  import opened Wrappers
  import opened ChatTypes
  import opened AgentStates
  import opened StateJson
  import opened Workflow
  import opened Engine
  import opened Reachability
  import opened Ledger
  import opened Turns
  import opened Checkpoints

  // ----- the final answer -----

  lemma {:induction false} ToolsGiveNoAnswer(ms: seq<ChatMessage>, results: seq<ChatMessage>)
    requires forall i :: 0 <= i < |results| ==> results[i].role == "tool"
    ensures LastAnswer(ms + results) == LastAnswer(ms)
    decreases results
  {
    if results == [] {
      assert ms + results == ms;
    } else {
      var front := results[..|results| - 1];
      assert (ms + results)[..|ms + results| - 1] == ms + front;
      ToolsGiveNoAnswer(ms, front);
    }
  }

  /** From the first think on, a non-empty current output is the last answer of the transcript. */
  predicate OutputIsAnswer(c: Config) {
    match c.node
    case Router => c.path == []
    case Think => c.path == [] || c.path[|c.path| - 1] != Response
    case End =>
      && c.path != []
      && (c.path[|c.path| - 1] == Response || c.s.currentOutput != "" ==> c.s.currentOutput == LastAnswer(c.s.messages))
    case Failed => true
    case _ => c.s.currentOutput != "" ==> c.s.currentOutput == LastAnswer(c.s.messages)
  }

  lemma ThinkSetsAnswer(env: Env, c: Config)
    requires c.node == Think && OutputIsAnswer(c)
    ensures OutputIsAnswer(Step(env, c))
  {
    hide BuildMessages;
    var d := Step(env, c);
    if d.node != Failed {
      assert d.s.messages[..|d.s.messages| - 1] == c.s.messages;
    }
  }

  lemma ObserveKeepsAnswer(env: Env, s0: State, c: Config)
    requires c.node == Observe && OutputIsAnswer(c) && Local(env, s0, c)
    ensures OutputIsAnswer(Step(env, c))
  {
    hide LastAnswer, Blocks;
    ToolsGiveNoAnswer(c.s.messages, c.s.toolResults);
  }

  lemma OthersKeepAnswer(env: Env, c: Config)
    requires !Terminal(c) && c.node != Think && c.node != Observe && OutputIsAnswer(c)
    requires c.s.isApproved == None
    ensures OutputIsAnswer(Step(env, c))
  {
    hide ActOn, AgentFor, LastAnswer;
  }

  /** Whenever an invocation ends in the response node, its output is the content of the last assistant message with
      content, or empty if there is none; a pause may also report nothing although there is an answer. */
  lemma FinalAnswer(env: Env, s: State, log: seq<Event>)
    requires Fresh(s)
    ensures var final := Invoke(env, s, log);
            final.node == End ==>
              && final.path != []
              && (final.path[|final.path| - 1] == Response || final.s.currentOutput != "" ==>
                    final.s.currentOutput == LastAnswer(final.s.messages))
  {
    hide Step, Inv, Local, LastAnswer;
    var start := Start(s, log);
    Reachable(env, s, log, 0);
    forall x | Inv(env, s, x) && OutputIsAnswer(x) && !Terminal(x)
      ensures Inv(env, s, Step(env, x)) && OutputIsAnswer(Step(env, x))
    {
      StepKeepsInv(env, s, x);
      InvParts(env, s, x);
      match x.node
      case Think => ThinkSetsAnswer(env, x);
      case Observe => ObserveKeepsAnswer(env, s, x);
      case _ => OthersKeepAnswer(env, x);
    }
    Invariance(env, start, Fuel(start), (x: Config) => Inv(env, s, x) && OutputIsAnswer(x));
    FuelSuffices(env, start, Fuel(start));
  }

  lemma InvParts(env: Env, s0: State, c: Config)
    requires Inv(env, s0, c)
    ensures Local(env, s0, c) && c.s.isApproved == None
  {
    hide Phase;
  }

  // ----- totals over a turn -----

  /** However often a turn pauses, its books are those of its whole log. */
  lemma {:induction false} TurnGrown(env: Env, s: State, log: seq<Event>, n: nat)
    requires Fresh(s)
    ensures Grown(env, s, log, TurnAfter(env, s, log, n))
    decreases n
  {
    hide Invoke, ResumeApproved, Fresh, Transcript, Tokens, Executed, Conforming;
    if n == 0 {
      RunAccounting(env, s, log);
    } else {
      TurnGrown(env, s, log, n - 1);
      var before := TurnAfter(env, s, log, n - 1);
      if before.node == End && before.s.requiresApproval {
        ResumeAccounting(env, before.s, before.log);
        GrowthChains(env, s, log, before.s, before.log, ResumeApproved(env, before.s, before.log));
      }
    }
  }

  /** The model the caller chose, or the default, is asked throughout: the graph's model per agent is never used. */
  lemma ModelPerAgentIsNeverUsed(env: Env, input: WorkflowInput, requestID: string, now: string, log: seq<Event>,
                                 n: nat, i: nat)
    requires var c := TurnAfter(env, RunState(input, requestID, now), log, n);
             |log| <= i < |c.log| && c.log[i].Chat?
    ensures TurnAfter(env, RunState(input, requestID, now), log, n).log[i].request.model
         == if input.model != "" then input.model else "gpt-4o-mini"
  {
    hide TurnAfter, Transcript, Tokens, Executed;
    var s := RunState(input, requestID, now);
    var c := TurnAfter(env, s, log, n);
    TurnGrown(env, s, log, n);
    assert ConformingEvent(env, s.model, c.log[|log|..][i - |log|]);
  }

  /** Every output of a turn reports the usage of the whole turn so far. */
  lemma ReportsAreCumulative(env: Env, input: WorkflowInput, requestID: string, now: string, log: seq<Event>, n: nat)
    ensures var r := Approvals(env, Run(env, input, requestID, now, log), n);
            && log <= r.log
            && (r.out.Ok? ==> r.out.value.tokensUsed == Tokens(r.log[|log|..])
                              && r.out.value.toolCallsCount == Executions(r.log[|log|..]))
  {
    hide TurnAfter, Transcript, Tokens, Executed, Conforming, Approvals, Invoke;
    var s := RunState(input, requestID, now);
    TurnGrown(env, s, log, n);
    ApprovalsFollowTurn(env, s, log, n);
  }

  function TokensReported(r: EngineResult): int {
    match r.out
    case Ok(out) => out.tokensUsed
    case Err(_) => 0
  }

  function Reported(env: Env, first: EngineResult, i: nat): int {
    TokensReported(Approvals(env, first, i))
  }

  /** What the approvals of a turn add to a running total, when each adds what it was reported. */
  function Charged(env: Env, first: EngineResult, n: nat): int
    decreases n
  {
    if n == 0 then 0 else Charged(env, first, n - 1) + Reported(env, first, n)
  }

  predicate Pauses(r: EngineResult) {
    r.out.Ok? && r.out.value.requiresApproval && r.out.value.pausedStateJSON.Some?
  }

  /** The n-th decision of a turn, after n - 1 approvals: another approval, or a rejection. */
  function LastDecision(env: Env, first: EngineResult, n: nat, approved: bool): EngineResult
    requires n > 0 && Pauses(Approvals(env, first, n - 1))
  {
    var before := Approvals(env, first, n - 1);
    Resume(env, before.out.value.pausedStateJSON.value, approved, before.log)
  }

  /** What all n decisions of a turn add to the running total. */
  function ChargedBy(env: Env, first: EngineResult, n: nat, approved: bool): int
    requires n > 0 && Pauses(Approvals(env, first, n - 1))
  {
    Charged(env, first, n - 1) + TokensReported(LastDecision(env, first, n, approved))
  }

  lemma ApprovalFollows(env: Env, first: EngineResult, n: nat)
    requires n > 0 && Pauses(Approvals(env, first, n - 1))
    ensures Approvals(env, first, n) == LastDecision(env, first, n, true)
  {
    hide Resume;
  }

  /** Approval or rejection, the last decision too reports the usage of the whole turn. */
  lemma LastReportIsCumulative(env: Env, input: WorkflowInput, requestID: string, now: string, log: seq<Event>, n: nat,
                               approved: bool)
    requires n > 0
    ensures var first := Run(env, input, requestID, now, log);
            Pauses(Approvals(env, first, n - 1)) ==>
              var r := LastDecision(env, first, n, approved);
              log <= r.log && (r.out.Ok? ==> r.out.value.tokensUsed == Tokens(r.log[|log|..]))
  {
    hide Tokens, Executed, Approvals, Resume, Invoke;
    var first := Run(env, input, requestID, now, log);
    if Pauses(Approvals(env, first, n - 1)) {
      if approved {
        ApprovalFollows(env, first, n);
        ReportsAreCumulative(env, input, requestID, now, log, n);
      } else {
        ReportsAreCumulative(env, input, requestID, now, log, n - 1);
        RejectionRepeatsTheReport(env, input, requestID, now, log, n);
      }
    }
  }

  /** A rejection asks nothing and reports what the pause before it did. */
  lemma RejectionRepeatsTheReport(env: Env, input: WorkflowInput, requestID: string, now: string, log: seq<Event>,
                                  n: nat)
    requires n > 0 && Pauses(Approvals(env, Run(env, input, requestID, now, log), n - 1))
    ensures var before := Approvals(env, Run(env, input, requestID, now, log), n - 1);
            var r := LastDecision(env, Run(env, input, requestID, now, log), n, false);
            r.log == before.log && r.out.Ok? && r.out.value.tokensUsed == before.out.value.tokensUsed
  {
    hide TurnAfter, Approvals, Invoke, ToJSON, Resume, Writable, ResumeApproved;
    var s := RunState(input, requestID, now);
    var c := TurnAfter(env, s, log, n - 1);
    assert Writable(s) by { StartsWritable(input, requestID, now); }
    ApprovalsFollowTurn(env, s, log, n - 1);
    CheckpointTransparent(env, c.s, {}, false, c.log);
  }

  lemma StartsWritable(input: WorkflowInput, requestID: string, now: string)
    ensures Writable(RunState(input, requestID, now))
  {
  }

  // ----- when a turn is charged once -----

  /** Every answer of the LLM reports some usage. */
  ghost predicate PositiveUsage(env: Env) {
    forall log: seq<Event>, request: ChatRequest ::
      env.chat(log, request).ChatReply? ==> env.chat(log, request).tokens > 0
  }

  /** Usage only grows, and has grown once think has been left. */
  predicate UsageGrown(s0: State, c: Config) {
    match c.node
    case Router => c.s.tokensUsed >= s0.tokensUsed
    case Think => c.s.tokensUsed >= s0.tokensUsed
    case Failed => true
    case _ => c.s.tokensUsed > s0.tokensUsed
  }

  /** With positive usage, an invocation that reaches the end has used more tokens than it started with. */
  lemma EndsHavingUsed(env: Env, s: State, log: seq<Event>)
    requires PositiveUsage(env)
    ensures var final := Invoke(env, s, log); final.node == End ==> final.s.tokensUsed > s.tokensUsed
  {
    hide Step;
    var start := Start(s, log);
    forall x | UsageGrown(s, x) && !Terminal(x) ensures UsageGrown(s, Step(env, x)) {
      StepKeepsUsage(env, s, x);
    }
    Invariance(env, start, Fuel(start), (x: Config) => UsageGrown(s, x));
    FuelSuffices(env, start, Fuel(start));
  }

  lemma StepKeepsUsage(env: Env, s0: State, c: Config)
    requires PositiveUsage(env) && UsageGrown(s0, c) && !Terminal(c)
    ensures UsageGrown(s0, Step(env, c))
  {
    hide ActOn, AgentFor, LastAnswer, BuildMessages;
  }

  lemma {:induction false} TurnUses(env: Env, s: State, log: seq<Event>, n: nat)
    requires PositiveUsage(env) && s.tokensUsed >= 0
    ensures var c := TurnAfter(env, s, log, n); c.node == End ==> c.s.tokensUsed > 0
    decreases n
  {
    hide Invoke, Reentry, Replay;
    if n == 0 {
      EndsHavingUsed(env, s, log);
    } else {
      TurnUses(env, s, log, n - 1);
      var before := TurnAfter(env, s, log, n - 1);
      if before.node == End && before.s.requiresApproval {
        ReentryBooks(env, before.s, before.log);
        EndsHavingUsed(env, Reentry(env, before.s, before.log), Replay(env, before.s, before.log).log);
      }
    }
  }

  lemma ReportsArePositive(env: Env, input: WorkflowInput, requestID: string, now: string, log: seq<Event>, i: nat)
    requires PositiveUsage(env) && Approvals(env, Run(env, input, requestID, now, log), i).out.Ok?
    ensures Reported(env, Run(env, input, requestID, now, log), i) > 0
  {
    hide TurnAfter, Approvals, Invoke, Writable;
    var s := RunState(input, requestID, now);
    assert Writable(s) by { StartsWritable(input, requestID, now); }
    TurnUses(env, s, log, i);
    ApprovalsFollowTurn(env, s, log, i);
  }

  /** A failed call stays the last word of its turn. */
  lemma {:induction false} FineSoFar(env: Env, first: EngineResult, i: nat, n: nat)
    requires i <= n && Approvals(env, first, n).out.Ok?
    ensures Approvals(env, first, i).out.Ok?
    decreases n
  {
    hide Resume;
    if i < n {
      FineSoFar(env, first, i, n - 1);
    }
  }

  lemma {:induction false} ChargedNothingIff(env: Env, first: EngineResult, n: nat)
    requires forall i :: 0 < i <= n ==> Reported(env, first, i) > 0
    ensures Charged(env, first, n) >= 0 && (Charged(env, first, n) == 0 <==> n == 0)
    decreases n
  {
    hide Reported;
    if n > 0 {
      ChargedNothingIff(env, first, n - 1);
    }
  }

  /** Where every LLM answer reports usage, n decisions, the last of which may be a rejection, charge the usage
      of the turn once if and only if the turn paused once; every further pause overcharges it. */
  lemma ChargedOnceIff(env: Env, input: WorkflowInput, requestID: string, now: string, log: seq<Event>, n: nat,
                       approved: bool)
    requires n > 0
    ensures var first := Run(env, input, requestID, now, log);
            PositiveUsage(env) && Pauses(Approvals(env, first, n - 1)) ==>
              var r := LastDecision(env, first, n, approved);
              && log <= r.log
              && (r.out.Ok? ==>
                    && (ChargedBy(env, first, n, approved) == Tokens(r.log[|log|..]) <==> n == 1)
                    && ChargedBy(env, first, n, approved) >= Tokens(r.log[|log|..]))
  {
    var first := Run(env, input, requestID, now, log);
    hide Run, Approvals, Tokens, Reported, Charged, Resume, PositiveUsage;
    if PositiveUsage(env) && Pauses(Approvals(env, first, n - 1)) {
      LastReportIsCumulative(env, input, requestID, now, log, n, approved);
      forall i | 0 < i <= n - 1 ensures Reported(env, first, i) > 0 {
        FineSoFar(env, first, i, n - 1);
        ReportsArePositive(env, input, requestID, now, log, i);
      }
      ChargedNothingIff(env, first, n - 1);
    }
  }
}
