/** Whole turns: a Run and the approved Resumes that follow it. Gate safety over every history of calls,
    the shape of a pause, what a replay repeats, the books, and the LLM budget. */
module Turns {
  import opened JsonValues
  import opened ChatTypes
  import opened AgentStates
  import opened StateJson
  import opened Workflow
  import opened Engine
  import opened Reachability
  import opened Ledger

  // ----- the pause -----

  /** What a reported pause looks like: the calls of the last assistant message are still pending,
      the first k are answered at the end of the transcript, call k parses, is registered and waits for approval. */
  predicate Paused(env: Env, s: State) {
    var k := FirstHeld(env, s.pendingTools);
    var b := |s.messages| - 1 - k;
    && k < |s.pendingTools|
    && s.toolResults == []
    && 0 <= b
    && Asks(s.messages[b]) && s.messages[b].toolCalls == s.pendingTools
    && AnswersAll(s.messages[b + 1..], s.pendingTools[..k])
  }

  lemma CutIsPaused(env: Env, m0: seq<ChatMessage>, s: State)
    requires m0 <= s.messages && s.toolResults == [] && CutAt(env, s.messages[|m0|..], s.pendingTools)
    ensures Paused(env, s)
  {
    hide Blocks, Asks, AnswersAll;
    var added := s.messages[|m0|..];
    var k := FirstHeld(env, s.pendingTools);
    var b := |added| - 1 - k;
    assert s.messages[|m0| + b] == added[b];
    assert s.messages[|m0| + b + 1..] == added[b + 1..];
  }

  lemma PauseShape(env: Env, s: State, log: seq<Event>)
    requires Fresh(s)
    ensures var final := Invoke(env, s, log);
            final.node == End && final.s.requiresApproval ==> Paused(env, final.s)
  {
    hide Step, CutAt, Paused;
    TranscriptGrammar(env, s, log);
    var final := Invoke(env, s, log);
    if final.node == End && final.s.requiresApproval {
      CutIsPaused(env, s.messages, final.s);
    }
  }

  // ----- the replay -----

  lemma ReentryIsFresh(env: Env, s: State, log: seq<Event>)
    ensures Fresh(Reentry(env, s, log))
  {
    hide ActOn;
  }

  /** Resume(true) of a pause processes the answered prefix a second time: k more results with the same IDs and names,
      the same tools executed again, and still not the held call. */
  lemma ReplayRepeatsThePrefix(env: Env, s: State, log: seq<Event>)
    requires Paused(env, s)
    ensures var k := FirstHeld(env, s.pendingTools);
            var after := Reentry(env, s, log);
            var replayed := Replay(env, s, log).log;
            && |after.messages| == |s.messages| + k
            && s.messages <= after.messages
            && AnswersAll(s.messages[|s.messages| - k..], s.pendingTools[..k])
            && AnswersAll(after.messages[|s.messages|..], s.pendingTools[..k])
            && log <= replayed
            && Executed(replayed[|log|..]) == Runnable(env, s.pendingTools)
            && after.iteration == s.iteration + 1
            && Fresh(after)
  {
    hide ActOn, Runnable, Executed;
    var acted := Replay(env, s, log);
    ActAnswers(env, s.pendingTools, log);
    ActLogged(env, s.pendingTools, log);
    ReentryIsFresh(env, s, log);
    assert (s.messages + acted.results)[|s.messages|..] == acted.results;
  }

  // ----- the same tools twice -----

  ghost predicate EndsWith<T>(all: seq<T>, tail: seq<T>) {
    |tail| <= |all| && all[|all| - |tail|..] == tail
  }

  /** Once approval is asked for, the last executions are those of the pending calls before the held one. */
  ghost predicate RanThePrefix(env: Env, log0: seq<Event>, c: Config) {
    && log0 <= c.log
    && (c.s.requiresApproval ==> EndsWith(Executed(c.log[|log0|..]), Runnable(env, c.s.pendingTools)))
  }

  lemma ActRanThePrefix(env: Env, s0: State, log0: seq<Event>, c: Config)
    requires c.node == Act && Local(env, s0, c) && RanThePrefix(env, log0, c)
    ensures RanThePrefix(env, log0, Step(env, c))
  {
    ActLogged(env, c.s.pendingTools, c.log);
    hide ActOn, Blocks, Transcript, Tokens, Executed, Conforming, AnswersAll, Runnable, Asks;
    var d := Step(env, c);
    var added, entries := c.log[|log0|..], d.log[|c.log|..];
    assert d.log[|log0|..] == added + entries;
    ExecutedAppend(added, entries);
  }

  lemma OthersKeepThePrefix(env: Env, s0: State, log0: seq<Event>, c: Config)
    requires !Terminal(c) && c.node != Act && Local(env, s0, c) && RanThePrefix(env, log0, c)
    ensures RanThePrefix(env, log0, Step(env, c))
  {
    hide AgentFor, LastAnswer, BuildMessages, Blocks, CutAt, Answered, AnswersAll, Executed, Runnable;
  }

  /** An invocation that pauses has executed the allowed calls before the held one, last of all. */
  lemma PauseRanThePrefix(env: Env, s: State, log: seq<Event>)
    requires Fresh(s)
    ensures RanThePrefix(env, log, Invoke(env, s, log))
  {
    hide Step, Local, RanThePrefix;
    var start := Start(s, log);
    Reachable(env, s, log, 0);
    assert RanThePrefix(env, log, start) by { NothingRanYet(env, s, log); }
    forall x | Inv(env, s, x) && RanThePrefix(env, log, x) && !Terminal(x)
      ensures Inv(env, s, Step(env, x)) && RanThePrefix(env, log, Step(env, x))
    {
      StepKeepsInv(env, s, x);
      match x.node
      case Act => ActRanThePrefix(env, s, log, x);
      case _ => OthersKeepThePrefix(env, s, log, x);
    }
    Invariance(env, start, Fuel(start), (x: Config) => Inv(env, s, x) && RanThePrefix(env, log, x));
    FuelSuffices(env, start, Fuel(start));
  }

  lemma NothingRanYet(env: Env, s: State, log: seq<Event>)
    requires Fresh(s)
    ensures RanThePrefix(env, log, Start(s, log))
  {
  }

  /** Approving a turn that paused executes the same allowed calls a second time, right after the first. */
  lemma ApprovalRunsThePrefixAgain(env: Env, s: State, log: seq<Event>)
    requires Fresh(s)
    ensures var pause := Invoke(env, s, log);
            var replayed := Replay(env, pause.s, pause.log).log;
            var again := Runnable(env, pause.s.pendingTools);
            pause.node == End && pause.s.requiresApproval ==>
              log <= replayed && EndsWith(Executed(replayed[|log|..]), again + again)
  {
    hide Step, Invoke, Executed, Runnable, Paused, FirstHeld, Fresh;
    var pause := Invoke(env, s, log);
    if pause.node == End && pause.s.requiresApproval {
      PauseShape(env, s, log);
      PauseRanThePrefix(env, s, log);
      ReplayRepeatsThePrefix(env, pause.s, pause.log);
      var replayed := Replay(env, pause.s, pause.log).log;
      var first, second := pause.log[|log|..], replayed[|pause.log|..];
      assert replayed[|log|..] == first + second;
      ExecutedAppend(first, second);
      EndsWithTwice(Executed(first), Runnable(env, pause.s.pendingTools));
    }
  }

  lemma EndsWithTwice<T>(all: seq<T>, tail: seq<T>)
    requires EndsWith(all, tail)
    ensures EndsWith(all + tail, tail + tail)
  {
    assert all == all[..|all| - |tail|] + tail;
  }

  // ----- books across a Resume -----

  lemma ReentryBooks(env: Env, s: State, log: seq<Event>)
    ensures var replayed := Replay(env, s, log).log;
            var after := Reentry(env, s, log);
            && log <= replayed
            && var added := replayed[|log|..];
            && after.messages == s.messages + Transcript(env, added)
            && after.tokensUsed == s.tokensUsed
            && Tokens(added) == 0 && Chats(added) == 0
            && after.toolCallsCount == s.toolCallsCount + Executions(added)
            && after.model == s.model && after.turn == s.turn && after.iteration == s.iteration + 1
            && Conforming(env, s.model, added)
  {
    ActLogged(env, s.pendingTools, log);
    hide ActOn, Transcript, Tokens, Chats, Executed, Conforming, Runnable;
  }

  /** Growth of an approved Resume over the checkpoint: the books hold across replay and graph together. */
  ghost predicate Grown(env: Env, s: State, log: seq<Event>, final: Config) {
    && log <= final.log
    && var added := final.log[|log|..];
    && final.s.tokensUsed == s.tokensUsed + Tokens(added)
    && final.s.toolCallsCount == s.toolCallsCount + Executions(added)
    && (s.model != "" ==> final.s.model == s.model)
    && Conforming(env, s.model, added)
    && (final.node == End ==>
          && final.s.messages == s.messages + Transcript(env, added)
          && final.s.toolResults == [])
  }

  lemma BooksAreGrowth(env: Env, s: State, log: seq<Event>, c: Config)
    requires Books(env, s, log, c)
    ensures Grown(env, s, log, c)
  {
    hide Transcript, Tokens, Chats, Executed, Conforming;
    if c.node == End {
      assert c.s.messages + [] == c.s.messages;
    }
  }

  lemma GrowthChains(env: Env, s: State, log: seq<Event>, mid: State, midLog: seq<Event>, final: Config)
    requires log <= midLog && mid.messages == s.messages + Transcript(env, midLog[|log|..])
    requires mid.tokensUsed == s.tokensUsed + Tokens(midLog[|log|..])
    requires mid.toolCallsCount == s.toolCallsCount + Executions(midLog[|log|..])
    requires s.model != "" ==> mid.model == s.model
    requires Conforming(env, s.model, midLog[|log|..])
    requires Grown(env, mid, midLog, final)
    ensures Grown(env, s, log, final)
  {
    hide Transcript, Tokens, Chats, Executed, Conforming;
    var first := midLog[|log|..];
    var second := final.log[|midLog|..];
    assert final.log[|log|..] == first + second;
    LedgersAppend(env, first, second);
    ConformingTo(env, mid.model, s.model, second);
    ConformingAppend(env, s.model, first, second);
  }

  lemma ConformingTo(env: Env, model: string, wanted: string, log: seq<Event>)
    requires Conforming(env, model, log) && (wanted == "" || wanted == model)
    ensures Conforming(env, wanted, log)
  {
    forall i | 0 <= i < |log| ensures ConformingEvent(env, wanted, log[i]) {
      assert ConformingEvent(env, model, log[i]);
    }
  }

  lemma RunAccounting(env: Env, s: State, log: seq<Event>)
    requires Fresh(s)
    ensures Grown(env, s, log, Invoke(env, s, log))
  {
    hide Step, Books, Grown;
    InvocationBooks(env, s, log);
    BooksAreGrowth(env, s, log, Invoke(env, s, log));
  }

  lemma ResumeAccounting(env: Env, s: State, log: seq<Event>)
    ensures Grown(env, s, log, ResumeApproved(env, s, log))
  {
    hide Grown, Reentry, Replay, Invoke, Transcript, Tokens, Executed, Conforming, Fresh;
    var after := Reentry(env, s, log);
    var replayed := Replay(env, s, log).log;
    ReentryBooks(env, s, log);
    ReentryIsFresh(env, s, log);
    RunAccounting(env, after, replayed);
    GrowthChains(env, s, log, after, replayed, Invoke(env, after, replayed));
  }

  /** No tool message is anything but an execution or a refusal. */
  lemma AccountedToolMessages(env: Env, s: State, log: seq<Event>, final: Config)
    requires Grown(env, s, log, final) && final.node == End
    ensures var added := final.log[|log|..];
            && s.messages <= final.s.messages
            && ToolMessages(final.s.messages[|s.messages|..]) == Executions(added) + Refusals(added)
  {
    hide Transcript, Tokens, Executed, Refusals, Conforming;
    var added := final.log[|log|..];
    ToolMessagesCounted(env, added);
    assert (s.messages + Transcript(env, added))[|s.messages|..] == Transcript(env, added);
  }

  // ----- the gate over whole histories -----

  /** A call of the engine: any input, any checkpoint text, any decision. */
  datatype EngineCall =
    | CallRun(input: WorkflowInput, requestID: string, now: string)
    | CallResume(checkpoint: JsonText, approved: bool)

  function After(env: Env, call: EngineCall, log: seq<Event>): EngineResult {
    match call
    case CallRun(input, requestID, now) => Run(env, input, requestID, now, log)
    case CallResume(checkpoint, approved) => Resume(env, checkpoint, approved, log)
  }

  /** The log after a history of calls. */
  function Play(env: Env, calls: seq<EngineCall>, log: seq<Event>): seq<Event> {
    if calls == [] then log else Play(env, calls[1..], After(env, calls[0], log).log)
  }

  predicate GateKept(env: Env, log: seq<Event>) {
    forall i :: 0 <= i < |log| && log[i].Execute? ==> Allowed(env, log[i].call)
  }

  lemma GateKeptBy(env: Env, model: string, log: seq<Event>, longer: seq<Event>)
    requires GateKept(env, log) && log <= longer && Conforming(env, model, longer[|log|..])
    ensures GateKept(env, longer)
  {
    forall i | 0 <= i < |longer| && longer[i].Execute? ensures Allowed(env, longer[i].call) {
      if i >= |log| {
        assert ConformingEvent(env, model, longer[|log|..][i - |log|]);
      }
    }
  }

  lemma OneCallKeepsTheGate(env: Env, call: EngineCall, log: seq<Event>)
    requires GateKept(env, log)
    ensures GateKept(env, After(env, call, log).log)
  {
    hide Invoke, ResumeApproved, GateKept, Conforming, FromJSON, Rejection, OutputOf;
    match call
    case CallRun(input, requestID, now) =>
      var s := RunState(input, requestID, now);
      RunAccounting(env, s, log);
      GateKeptBy(env, s.model, log, Invoke(env, s, log).log);
    case CallResume(checkpoint, approved) =>
      if FromJSON(checkpoint).Some? && approved {
        var s := FromJSON(checkpoint).value;
        ResumeAccounting(env, s, log);
        GateKeptBy(env, s.model, log, ResumeApproved(env, s, log).log);
      }
  }

  /** No history of Runs and Resumes, with any inputs and any checkpoints, ever executes a tool
      that asks for approval: not even once it has been approved. */
  lemma {:induction false} GateSafety(env: Env, calls: seq<EngineCall>, log: seq<Event>)
    requires GateKept(env, log)
    ensures GateKept(env, Play(env, calls, log))
    decreases calls
  {
    hide GateKept, After;
    if calls != [] {
      OneCallKeepsTheGate(env, calls[0], log);
      GateSafety(env, calls[1..], After(env, calls[0], log).log);
    }
  }

  // ----- the LLM budget -----

  /** LLM calls an invocation may still make, plus what is left for later if it pauses. */
  function Potential(node: Node, s: State): nat {
    match node
    case Router => if Remaining(s) > 1 then Remaining(s) else 1
    case Think => if Remaining(s) > 1 then Remaining(s) else 1
    case Act => if Remaining(s) > 1 then Remaining(s) - 1 else 0
    case Observe => if Remaining(s) > 1 then Remaining(s) - 1 else 0
    case _ => if s.requiresApproval then Remaining(s) else 0
  }

  ghost predicate WithinBudget(log0: seq<Event>, budget: nat, c: Config) {
    log0 <= c.log && Chats(c.log[|log0|..]) + Potential(c.node, c.s) <= budget
  }

  lemma OneMoreChat(env: Env, log0: seq<Event>, log: seq<Event>, entry: Event)
    requires log0 <= log && entry.Chat?
    ensures log0 <= log + [entry] && Chats((log + [entry])[|log0|..]) == Chats(log[|log0|..]) + 1
  {
    hide Chats;
    assert (log + [entry])[|log0|..] == log[|log0|..] + [entry];
    CountsAppend(log[|log0|..], [entry]);
    SingleEntry(env, entry);
  }

  lemma ThinkSpends(env: Env, s0: State, log0: seq<Event>, budget: nat, c: Config)
    requires c.node == Think && Local(env, s0, c) && WithinBudget(log0, budget, c)
    ensures WithinBudget(log0, budget, Step(env, c))
  {
    hide BuildMessages, Chats, Blocks, CutAt, Answered, AnswersAll;
    var request := RequestOf(env, c.s, c.log);
    OneMoreChat(env, log0, c.log, Chat(request, env.chat(c.log, request)));
  }

  lemma ActSpendsNothing(env: Env, s0: State, log0: seq<Event>, budget: nat, c: Config)
    requires c.node == Act && Local(env, s0, c) && WithinBudget(log0, budget, c)
    ensures WithinBudget(log0, budget, Step(env, c))
  {
    ActLogged(env, c.s.pendingTools, c.log);
    hide ActOn, Chats, Blocks, Transcript, Tokens, Executed, Conforming, AnswersAll, Runnable;
    var d := Step(env, c);
    var added := c.log[|log0|..];
    var entries := d.log[|c.log|..];
    assert d.log[|log0|..] == added + entries;
    CountsAppend(added, entries);
  }

  lemma ObserveSpendsNothing(env: Env, s0: State, log0: seq<Event>, budget: nat, c: Config)
    requires c.node == Observe && Local(env, s0, c) && WithinBudget(log0, budget, c)
    ensures WithinBudget(log0, budget, Step(env, c))
  {
    hide Chats, Local;
  }

  lemma OthersSpendNothing(env: Env, s0: State, log0: seq<Event>, budget: nat, c: Config)
    requires c.node == Router || c.node == HumanApproval || c.node == Response
    requires Local(env, s0, c) && WithinBudget(log0, budget, c)
    ensures WithinBudget(log0, budget, Step(env, c))
  {
    hide Chats, Blocks, AgentFor, LastAnswer, CutAt, Answered, AnswersAll;
  }

  /** LLM calls of one invocation, counted together with the iterations a pause leaves. */
  lemma InvocationBudget(env: Env, s: State, log: seq<Event>)
    requires Fresh(s)
    ensures WithinBudget(log, Potential(Router, s), Invoke(env, s, log))
  {
    hide Step, Local, WithinBudget, Potential;
    var start := Start(s, log);
    var budget := Potential(Router, s);
    Reachable(env, s, log, 0);
    BudgetOpen(s, log);
    forall x | Inv(env, s, x) && WithinBudget(log, budget, x) && !Terminal(x)
      ensures Inv(env, s, Step(env, x)) && WithinBudget(log, budget, Step(env, x))
    {
      StepKeepsInv(env, s, x);
      match x.node
      case Think => ThinkSpends(env, s, log, budget, x);
      case Act => ActSpendsNothing(env, s, log, budget, x);
      case Observe => ObserveSpendsNothing(env, s, log, budget, x);
      case _ => OthersSpendNothing(env, s, log, budget, x);
    }
    Invariance(env, start, Fuel(start), (x: Config) => Inv(env, s, x) && WithinBudget(log, budget, x));
    FuelSuffices(env, start, Fuel(start));
  }

  lemma BudgetOpen(s: State, log: seq<Event>)
    ensures WithinBudget(log, Potential(Router, s), Start(s, log))
  {
    assert log[|log|..] == [];
  }

  /** A turn after n approved resumes: each starts from the state the pause before it left. */
  function TurnAfter(env: Env, s: State, log: seq<Event>, n: nat): Config
    decreases n
  {
    if n == 0 then Invoke(env, s, log)
    else
      var before := TurnAfter(env, s, log, n - 1);
      if before.node == End && before.s.requiresApproval then ResumeApproved(env, before.s, before.log) else before
  }

  predicate TurnWithin(log: seq<Event>, budget: nat, c: Config) {
    |log| <= |c.log| && Chats(c.log[|log|..]) + (if c.s.requiresApproval then Remaining(c.s) else 0) <= budget
  }

  lemma ResumeSpends(env: Env, log: seq<Event>, budget: nat, before: Config)
    requires log <= before.log && TurnWithin(log, budget, before) && before.s.requiresApproval
    ensures var after := ResumeApproved(env, before.s, before.log);
            log <= after.log && TurnWithin(log, budget + 1, after) && Terminal(after)
  {
    hide Chats, Finish, Reentry, Replay, Transcript, Tokens, Executed, Conforming, Fresh;
    var s := Reentry(env, before.s, before.log);
    var replayed := Replay(env, before.s, before.log).log;
    ReentryBooks(env, before.s, before.log);
    ReentryIsFresh(env, before.s, before.log);
    InvocationBudget(env, s, replayed);
    var final := Invoke(env, s, replayed);
    var one, two, three := before.log[|log|..], replayed[|before.log|..], final.log[|replayed|..];
    assert final.log[|log|..] == one + two + three;
    CountsAppend(one + two, three);
    CountsAppend(one, two);
  }

  /** A turn with n approved resumes makes at most max(1, iterations) + n LLM calls. */
  lemma {:induction false} TurnBudget(env: Env, s: State, log: seq<Event>, n: nat)
    requires Fresh(s)
    ensures var c := TurnAfter(env, s, log, n);
            log <= c.log && TurnWithin(log, Potential(Router, s) + n, c) && Terminal(c)
    decreases n
  {
    hide Finish, ResumeApproved, Chats, Potential, WithinBudget, Fresh;
    if n == 0 {
      InvocationBudget(env, s, log);
      BudgetClosed(log, Potential(Router, s), Invoke(env, s, log));
    } else {
      TurnBudget(env, s, log, n - 1);
      var before := TurnAfter(env, s, log, n - 1);
      if before.node == End && before.s.requiresApproval {
        ResumeSpends(env, log, Potential(Router, s) + n - 1, before);
      }
    }
  }

  lemma BudgetClosed(log: seq<Event>, budget: nat, c: Config)
    requires WithinBudget(log, budget, c) && Terminal(c)
    ensures log <= c.log && TurnWithin(log, budget, c)
  {
  }

  /** Run's limit is ten iterations, so a Run and n approved Resumes make at most 10 + n LLM calls. */
  lemma RunBudget(env: Env, input: WorkflowInput, requestID: string, now: string, log: seq<Event>, n: nat)
    ensures var c := TurnAfter(env, RunState(input, requestID, now), log, n);
            log <= c.log && Chats(c.log[|log|..]) <= MAX_ITERATIONS + n
  {
    hide TurnAfter, Chats;
    TurnBudget(env, RunState(input, requestID, now), log, n);
  }
}
