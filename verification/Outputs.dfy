/** What Run and Resume report, said of the log they leave and of nothing inside the engine. */
module Outputs {
  import opened Wrappers
  import opened JsonValues
  import opened ChatTypes
  import opened AgentStates
  import opened StateJson
  import opened Workflow
  import opened Engine
  import opened Reachability
  import opened Ledger
  import opened Routing
  import Checkpoints
  import Evidence
  import Reports
  import RoundTrips
  import Turns

  // ----- the last answer -----

  predicate IsAnswer(m: ChatMessage) {
    m.role == "assistant" && m.content != ""
  }

  /** The text of an answer that no later one follows, or the empty text where there is no answer. */
  predicate IsLastAnswer(ms: seq<ChatMessage>, text: string) {
    if text == "" then forall i :: 0 <= i < |ms| ==> !IsAnswer(ms[i])
    else
      exists i :: 0 <= i < |ms| && IsAnswer(ms[i]) && ms[i].content == text
                  && forall j :: i < j < |ms| ==> !IsAnswer(ms[j])
  }

  lemma {:induction false} LastAnswerIsLast(ms: seq<ChatMessage>)
    ensures IsLastAnswer(ms, LastAnswer(ms))
    decreases |ms|
  {
    if ms != [] {
      var front := ms[..|ms| - 1];
      if IsAnswer(ms[|ms| - 1]) {
        assert LastAnswer(ms) == ms[|ms| - 1].content;
      } else {
        LastAnswerIsLast(front);
        var text := LastAnswer(front);
        if text != "" {
          var i :| 0 <= i < |front| && IsAnswer(front[i]) && front[i].content == text
                   && forall j :: i < j < |front| ==> !IsAnswer(front[j]);
          assert ms[i] == front[i];
          forall j | i < j < |ms| ensures !IsAnswer(ms[j]) {
            assert j < |front| ==> ms[j] == front[j];
          }
        } else {
          forall i | 0 <= i < |ms| ensures !IsAnswer(ms[i]) {
            assert i < |front| ==> ms[i] == front[i];
          }
        }
      }
    }
  }

  /** What the LLM said last. */
  function LastContent(log: seq<Event>): string {
    if log == [] then ""
    else
      match log[|log| - 1]
      case Chat(_, ChatReply(content, _, _)) => content
      case Chat(_, ChatError(_)) => ""
      case _ => LastContent(log[..|log| - 1])
  }

  lemma {:induction false} LastContentStays(log: seq<Event>, longer: seq<Event>)
    requires log <= longer && forall i :: |log| <= i < |longer| ==> !longer[i].Chat?
    ensures LastContent(longer) == LastContent(log)
    decreases |longer|
  {
    if |longer| > |log| {
      LastContentStays(log, longer[..|longer| - 1]);
    } else {
      assert longer == log;
    }
  }

  // ----- the invariant -----

  /** Approval is asked for the call that the log says was held, for the reason that names its tool. */
  ghost predicate HeldFor(env: Env, s: State, log: seq<Event>) {
    && log != [] && log[|log| - 1].Withheld?
    && var call := log[|log| - 1].call;
    && s.approvalReason == "Tool '" + call.name + "' requires approval"
    && env.parseArguments(call.arguments).Ok?
    && s.approvalData == Held(call, env.parseArguments(call.arguments).value)
  }

  /** The agent of the turn, once it is routed. */
  ghost predicate Routed(env: Env, s0: State, s: State) {
    && s.currentAgent == AgentFor(env, s0.turn.userInput)
    && s.agentHistory == s0.agentHistory + [s.currentAgent]
  }

  /** A pause with iterations left stops in human_approval; everything else that ends stops in response. */
  ghost predicate StopsAt(s0: State, c: Config) {
    match c.node
    case HumanApproval => c.s.requiresApproval && !s0.shouldStop && c.s.iteration < c.s.turn.maxIterations
    case Response => c.s.requiresApproval ==> s0.shouldStop || c.s.iteration >= c.s.turn.maxIterations
    case End =>
      && c.path != []
      && (c.path[|c.path| - 1] == Response || c.path[|c.path| - 1] == HumanApproval)
      && (c.path[|c.path| - 1] == HumanApproval
          <==> c.s.requiresApproval && !s0.shouldStop && c.s.iteration < c.s.turn.maxIterations)
    case _ => true
  }

  ghost predicate Speaks(c: Config) {
    match c.node
    case Router => true
    case Think => true
    case Failed => c.log != [] && c.log[|c.log| - 1].Chat? && c.log[|c.log| - 1].reply == ChatError(c.s.error)
    case End => c.path != [] && c.path[|c.path| - 1] == HumanApproval ==> c.s.currentOutput == LastContent(c.log)
    case _ => c.s.currentOutput == LastContent(c.log)
  }

  ghost predicate Truthful(env: Env, s0: State, c: Config) {
    && c.s.turn == s0.turn
    && (if c.node == Router then c.s == s0 else Routed(env, s0, c.s))
    && (c.s.requiresApproval ==> HeldFor(env, c.s, c.log))
    && (s0.shouldStop ==> c.s.shouldStop)
    && StopsAt(s0, c) && Speaks(c)
  }

  lemma {:induction false} ActHolds(env: Env, calls: seq<ToolCall>, log: seq<Event>)
    ensures var acted := ActOn(env, calls, log);
            acted.held.Some? ==>
              && acted.log != [] && acted.log[|acted.log| - 1] == Withheld(acted.held.value.call)
              && env.parseArguments(acted.held.value.call.arguments) == Ok(acted.held.value.args)
    decreases calls
  {
    if calls == [] {
      ActOnNothing(env, log);
    } else if Judge(env, calls[0]).Hold? {
      ActOnHeld(env, calls, log);
    } else {
      ActOnFirst(env, calls, log);
      ActHolds(env, calls[1..], ActOn(env, [calls[0]], log).log);
      hide ActOn, Judge;
    }
  }

  lemma RouterTruthful(env: Env, s0: State, c: Config)
    requires c.node == Router && Truthful(env, s0, c) && Local(env, s0, c)
    ensures Truthful(env, s0, Step(env, c))
  {
    hide AgentFor;
  }

  lemma ThinkTruthful(env: Env, s0: State, c: Config)
    requires c.node == Think && Truthful(env, s0, c) && Local(env, s0, c)
    ensures Truthful(env, s0, Step(env, c))
  {
    hide BuildMessages, AgentFor, Blocks;
  }

  lemma ActTruthful(env: Env, s0: State, c: Config)
    requires c.node == Act && Truthful(env, s0, c) && Local(env, s0, c)
    ensures Truthful(env, s0, Step(env, c))
  {
    ActHolds(env, c.s.pendingTools, c.log);
    Evidence.ActIsGenuine(env, s0.turn, c.s.pendingTools, c.log);
    LastContentStays(c.log, ActOn(env, c.s.pendingTools, c.log).log);
    hide ActOn, AgentFor, Blocks, LastContent, Evidence.GenuineFrom;
  }

  lemma ObserveTruthful(env: Env, s0: State, c: Config)
    requires c.node == Observe && Truthful(env, s0, c) && Local(env, s0, c)
    ensures Truthful(env, s0, Step(env, c))
  {
    hide AgentFor, Blocks, LastContent, AnswersAll;
  }

  lemma EndsTruthful(env: Env, s0: State, c: Config)
    requires (c.node == HumanApproval || c.node == Response) && Truthful(env, s0, c) && Local(env, s0, c)
    ensures Truthful(env, s0, Step(env, c))
  {
    hide AgentFor, Blocks, LastContent, LastAnswer, CutAt, Answered;
  }

  lemma StepTruthful(env: Env, s0: State, c: Config)
    requires Inv(env, s0, c) && Truthful(env, s0, c) && !Terminal(c)
    ensures Inv(env, s0, Step(env, c)) && Truthful(env, s0, Step(env, c))
  {
    hide Step, Inv, Local, Truthful;
    StepKeepsInv(env, s0, c);
    Reports.InvParts(env, s0, c);
    match c.node
    case Router => RouterTruthful(env, s0, c);
    case Think => ThinkTruthful(env, s0, c);
    case Act => ActTruthful(env, s0, c);
    case Observe => ObserveTruthful(env, s0, c);
    case _ => EndsTruthful(env, s0, c);
  }

  lemma InvocationTruthful(env: Env, s: State, log: seq<Event>)
    requires Fresh(s)
    ensures Truthful(env, s, Invoke(env, s, log))
  {
    hide Step, Inv, Truthful;
    var start := Start(s, log);
    Reachable(env, s, log, 0);
    assert Truthful(env, s, start) by { StartsTruthful(env, s, log); }
    forall x | Inv(env, s, x) && Truthful(env, s, x) && !Terminal(x)
      ensures Inv(env, s, Step(env, x)) && Truthful(env, s, Step(env, x))
    {
      StepTruthful(env, s, x);
    }
    Invariance(env, start, Fuel(start), (x: Config) => Inv(env, s, x) && Truthful(env, s, x));
    FuelSuffices(env, start, Fuel(start));
  }

  lemma StartsTruthful(env: Env, s: State, log: seq<Event>)
    requires Fresh(s)
    ensures Truthful(env, s, Start(s, log))
  {
  }

  // ----- rounds -----

  /** Every answer but the last has had its round, and at a pause the last one too. */
  ghost predicate RoundsCounted(s0: State, log0: seq<Event>, c: Config) {
    && log0 <= c.log
    && var rounds := c.s.iteration - s0.iteration;
    var chats := Chats(c.log[|log0|..]);
    match c.node
    case Router => rounds == chats
    case Think => rounds == chats
    case Act => rounds == chats - 1
    case Observe => rounds == chats - 1
    case Failed => true
    case _ => c.s.requiresApproval ==> rounds == chats
  }

  lemma StepCountsRounds(env: Env, s0: State, log0: seq<Event>, c: Config)
    requires Local(env, s0, c) && RoundsCounted(s0, log0, c) && !Terminal(c)
    ensures RoundsCounted(s0, log0, Step(env, c))
  {
    match c.node
    case Think =>
      var request := RequestOf(env, c.s, c.log);
      Turns.OneMoreChat(env, log0, c.log, Chat(request, env.chat(c.log, request)));
      hide BuildMessages, Chats, Blocks, AnswersAll;
    case Act => ActCountsRounds(env, s0, log0, c);
    case _ => hide Chats, Blocks, AgentFor, LastAnswer, CutAt, Reachability.Answered, AnswersAll;
  }

  lemma ActCountsRounds(env: Env, s0: State, log0: seq<Event>, c: Config)
    requires c.node == Act && RoundsCounted(s0, log0, c)
    ensures RoundsCounted(s0, log0, Step(env, c))
  {
    ActLogged(env, c.s.pendingTools, c.log);
    hide ActOn, Chats, Transcript, Tokens, Executed, Conforming, Runnable;
    var d := Step(env, c);
    var added, entries := c.log[|log0|..], d.log[|c.log|..];
    assert d.log[|log0|..] == added + entries;
    CountsAppend(added, entries);
  }

  lemma InvocationRounds(env: Env, s: State, log: seq<Event>)
    requires Fresh(s)
    ensures RoundsCounted(s, log, Invoke(env, s, log))
  {
    hide Step, Inv, Local, RoundsCounted;
    var start := Start(s, log);
    Reachable(env, s, log, 0);
    assert RoundsCounted(s, log, start) by { NoRoundYet(s, log); }
    forall x | Inv(env, s, x) && RoundsCounted(s, log, x) && !Terminal(x)
      ensures Inv(env, s, Step(env, x)) && RoundsCounted(s, log, Step(env, x))
    {
      StepKeepsInv(env, s, x);
      Reports.InvParts(env, s, x);
      StepCountsRounds(env, s, log, x);
    }
    Invariance(env, start, Fuel(start), (x: Config) => Inv(env, s, x) && RoundsCounted(s, log, x));
    FuelSuffices(env, start, Fuel(start));
  }

  lemma NoRoundYet(s: State, log: seq<Event>)
    ensures RoundsCounted(s, log, Start(s, log))
  {
    assert log[|log|..] == [];
  }

  // ----- outputs -----

  /** What an output says, in terms of the user's input, the transcript and the log it goes with.
      `suspended`: a call was held and iterations were left. */
  ghost predicate TellsOf(env: Env, userInput: string, suspended: bool, ms: seq<ChatMessage>, log: seq<Event>,
                          out: WorkflowOutput) {
    && (!suspended || out.response != "" ==> IsLastAnswer(ms, out.response))
    && (suspended ==> out.response == LastContent(log))
    && out.agentType == RoutedTo(env, userInput)
    && (out.requiresApproval ==>
          && log != [] && log[|log| - 1].Withheld?
          && out.approvalReason == "Tool '" + log[|log| - 1].call.name + "' requires approval"
          && out.pausedStateJSON.Some?)
    && (!out.requiresApproval ==> out.approvalReason == "" && out.pausedStateJSON == None)
  }

  lemma ResponseTold(env: Env, s0: State, final: Config, out: WorkflowOutput, suspended: bool)
    requires Truthful(env, s0, final) && final.node == End && out == OutputOf(final.s)
    requires (final.path != [] && final.path[|final.path| - 1] == Response) || final.s.currentOutput != "" ==>
               final.s.currentOutput == LastAnswer(final.s.messages)
    requires suspended
        <==> final.s.requiresApproval && !s0.shouldStop && final.s.iteration < final.s.turn.maxIterations
    ensures TellsOf(env, s0.turn.userInput, suspended, final.s.messages, final.log, out)
  {
    RoutedByKeywords(env, s0.turn.userInput);
    LastAnswerIsLast(final.s.messages);
    hide LastAnswer, IsLastAnswer, AgentFor, RoutedTo, LastContent, ToJSON;
  }

  ghost predicate FailedOf(log: seq<Event>, error: string) {
    log != [] && log[|log| - 1].Chat? && log[|log| - 1].reply == ChatError(error)
  }

  /** An invocation's result, in terms of what it was started with and what it logged. */
  lemma InvocationTells(env: Env, s: State, log: seq<Event>)
    requires Fresh(s)
    ensures var r := ResultOf(Invoke(env, s, log));
            && log <= r.log
            && var added := r.log[|log|..];
            match r.out
            case Ok(out) =>
              var suspended := out.requiresApproval && !s.shouldStop
                               && s.iteration + Chats(added) < s.turn.maxIterations;
              && TellsOf(env, s.turn.userInput, suspended, s.messages + Transcript(env, added), r.log, out)
              && out.tokensUsed == s.tokensUsed + Tokens(added)
              && out.toolCallsCount == s.toolCallsCount + Executions(added)
            case Err(error) => FailedOf(r.log, error)
  {
    hide Finish, Fresh, IsLastAnswer, LastAnswer, LastContent, TellsOf, Routed, HeldFor, Chats, Tokens, Transcript,
      Executed, Conforming, ToJSON;
    var final := Invoke(env, s, log);
    InvocationTruthful(env, s, log);
    InvocationRounds(env, s, log);
    Reports.FinalAnswer(env, s, log);
    Turns.RunAccounting(env, s, log);
    if final.node == End {
      var out := OutputOf(final.s);
      var suspended := out.requiresApproval && !s.shouldStop && final.s.iteration < s.turn.maxIterations;
      ResponseTold(env, s, final, out, suspended);
    }
  }

  /** Run: the response is the last answer of the transcript, or what the LLM said last if a call was held before the
      tenth request; the agent is the one the keywords choose; a pause names the tool of the call that was held. */
  lemma RunTells(env: Env, input: WorkflowInput, requestID: string, now: string, log: seq<Event>)
    ensures var r := Run(env, input, requestID, now, log);
            && log <= r.log
            && var added := r.log[|log|..];
            match r.out
            case Ok(out) =>
              && TellsOf(env, input.content, out.requiresApproval && Chats(added) < 10,
                         input.messages + Transcript(env, added), r.log, out)
              && out.tokensUsed == Tokens(added) && out.toolCallsCount == Executions(added)
            case Err(error) => FailedOf(r.log, error)
  {
    var s := RunState(input, requestID, now);
    assert Fresh(s) && s.messages == input.messages && s.turn.userInput == input.content;
    assert s.iteration == 0 && s.turn.maxIterations == 10 && !s.shouldStop;
    assert s.tokensUsed == 0 && s.toolCallsCount == 0;
    hide Invoke, TellsOf, FailedOf, Chats, Tokens, Transcript, Executed, RunState, ResultOf;
    InvocationTells(env, s, log);
  }

  lemma LedgersChain(env: Env, ms: seq<ChatMessage>, log: seq<Event>, mid: seq<Event>, end: seq<Event>)
    requires log <= mid <= end
    ensures var one, two, all := mid[|log|..], end[|mid|..], end[|log|..];
            && ms + Transcript(env, all) == (ms + Transcript(env, one)) + Transcript(env, two)
            && Tokens(all) == Tokens(one) + Tokens(two) && Chats(all) == Chats(one) + Chats(two)
            && Executions(all) == Executions(one) + Executions(two)
  {
    hide Transcript, Tokens, Chats, Executed;
    var one, two := mid[|log|..], end[|mid|..];
    assert end[|log|..] == one + two;
    LedgersAppend(env, one, two);
  }

  ghost predicate ContinuationTold(env: Env, s: State, log: seq<Event>, r: EngineResult) {
    && log <= r.log
    && var added := r.log[|log|..];
    match r.out
    case Ok(out) =>
      var suspended := out.requiresApproval && !s.shouldStop && s.iteration + 1 + Chats(added) < s.turn.maxIterations;
      && TellsOf(env, s.turn.userInput, suspended, s.messages + Transcript(env, added), r.log, out)
      && out.tokensUsed == s.tokensUsed + Tokens(added)
      && out.toolCallsCount == s.toolCallsCount + Executions(added)
    case Err(error) => FailedOf(r.log, error)
  }

  lemma ApprovedTells(env: Env, s: State, log: seq<Event>)
    ensures ContinuationTold(env, s, log, ResultOf(ResumeApproved(env, s, log)))
  {
    hide Finish, TellsOf, FailedOf, Chats, Tokens, Transcript, Executed, Conforming, ResultOf, Replay, Reentry, Fresh;
    var replayed, after := Replay(env, s, log).log, Reentry(env, s, log);
    ReentryStops(env, s, log);
    Turns.ReentryBooks(env, s, log);
    Turns.ReentryIsFresh(env, s, log);
    InvocationTells(env, after, replayed);
    LedgersChain(env, s.messages, log, replayed, ResultOf(Invoke(env, after, replayed)).log);
  }

  /** An approved Resume: the same, over the checkpoint's transcript and what the replay and the graph add to it. */
  lemma ResumeTells(env: Env, text: JsonText, log: seq<Event>)
    ensures FromJSON(text).Some? ==> ContinuationTold(env, FromJSON(text).value, log, Resume(env, text, true, log))
    ensures FromJSON(text).None? ==> Resume(env, text, true, log).out.Err? && Resume(env, text, true, log).log == log
  {
    hide FromJSON, ResumeApproved, ResultOf, ContinuationTold;
    if FromJSON(text).Some? {
      ApprovedTells(env, FromJSON(text).value, log);
    }
  }

  lemma ReentryStops(env: Env, s: State, log: seq<Event>)
    ensures var after := Reentry(env, s, log);
            after.shouldStop <==> s.shouldStop || s.iteration + 1 >= s.turn.maxIterations
  {
    hide ActOn;
  }

  // ----- rejections -----

  /** A rejected Resume asks nothing; its response is the checkpoint's output, or the fixed text where that is empty. */
  lemma RejectionTells(env: Env, text: JsonText, log: seq<Event>)
    ensures var r := Resume(env, text, false, log);
            && r.log == log
            && (r.out.Ok? <==> FromJSON(text).Some?)
            && (FromJSON(text).Some? ==>
                  var s := FromJSON(text).value;
                  && r.out.value.response
                     == (if s.currentOutput == "" then "The requested action was rejected." else s.currentOutput)
                  && r.out.value.agentType == s.currentAgent
                  && r.out.value.tokensUsed == s.tokensUsed && r.out.value.toolCallsCount == s.toolCallsCount
                  && !r.out.value.requiresApproval && r.out.value.approvalReason == ""
                  && r.out.value.pausedStateJSON == None)
  {
    hide FromJSON;
  }

  /** In a turn: rejecting a pause repeats its response, or gives the fixed text where that was empty, and its agent. */
  lemma RejectionRepeatsThePause(env: Env, input: WorkflowInput, requestID: string, now: string, log: seq<Event>,
                                 n: nat)
    requires n > 0
    ensures var first := Run(env, input, requestID, now, log);
            var before := Checkpoints.Approvals(env, first, n - 1);
            Reports.Pauses(before) ==>
              var r := Reports.LastDecision(env, first, n, false);
              && r.log == before.log && r.out.Ok?
              && r.out.value.response
                 == (if before.out.value.response == "" then "The requested action was rejected."
                     else before.out.value.response)
              && r.out.value.agentType == before.out.value.agentType
              && !r.out.value.requiresApproval
  {
    hide Turns.TurnAfter, Checkpoints.Approvals, Invoke, ToJSON, Resume, Writable, ResumeApproved;
    var s := RunState(input, requestID, now);
    if Reports.Pauses(Checkpoints.Approvals(env, Run(env, input, requestID, now, log), n - 1)) {
      var c := Turns.TurnAfter(env, s, log, n - 1);
      assert Writable(s) by { Reports.StartsWritable(input, requestID, now); }
      Checkpoints.ApprovalsFollowTurn(env, s, log, n - 1);
      Checkpoints.CheckpointTransparent(env, c.s, {}, false, c.log);
    }
  }

  // ----- checkpoints -----

  /** The approval data of a decoded checkpoint names the held call, its tool and its parsed arguments. */
  ghost predicate NamesHeldCall(env: Env, data: ApprovalData, call: ToolCall) {
    && data.Decoded?
    && var m := MembersOf(data.data);
    && m(ToolName) == JStr(call.name)
    && env.parseArguments(call.arguments) == Ok(m(Arguments))
    && CallOf(m(ToolCallKey)) == call
  }

  lemma HeldIsNamed(env: Env, s: State, log: seq<Event>)
    requires HeldFor(env, s, log)
    ensures NamesHeldCall(env, Decoded(ApprovalJson(s.approvalData)), log[|log| - 1].call)
  {
    var call := log[|log| - 1].call;
    var args := env.parseArguments(call.arguments).value;
    RoundTrips.CallRoundTrip(call);
    HeldMembers(call, args);
    hide CallJson, CallOf, ApprovalJson, MembersOf;
  }

  lemma HeldMembers(call: ToolCall, args: Json)
    ensures var m := MembersOf(ApprovalJson(Held(call, args)));
            m(ToolName) == JStr(call.name) && m(Arguments) == args && m(ToolCallKey) == CallJson(call)
  {
    hide CallJson;
  }

  /** The checkpoint an output carries holds what the output and the log say. */
  ghost predicate CheckpointTells(env: Env, ms: seq<ChatMessage>, log: seq<Event>, out: WorkflowOutput) {
    && out.pausedStateJSON.Some? && log != [] && log[|log| - 1].Withheld?
    && FromJSON(out.pausedStateJSON.value).Some?
    && var s := FromJSON(out.pausedStateJSON.value).value;
    && s.messages == ms && s.currentOutput == out.response && s.currentAgent == out.agentType
    && s.tokensUsed == out.tokensUsed && s.toolCallsCount == out.toolCallsCount
    && s.requiresApproval && s.approvalReason == out.approvalReason
    && NamesHeldCall(env, s.approvalData, log[|log| - 1].call)
  }

  lemma InvocationCheckpoints(env: Env, s: State, log: seq<Event>)
    requires Fresh(s) && Writable(s)
    ensures var final := Invoke(env, s, log);
            final.node == End && final.s.requiresApproval ==>
              CheckpointTells(env, final.s.messages, final.log, OutputOf(final.s))
  {
    hide Finish, Fresh, Writable, ToJSON, FromJSON, Routed, StopsAt, Speaks, HeldFor, NamesHeldCall;
    var final := Invoke(env, s, log);
    InvocationTruthful(env, s, log);
    Checkpoints.EndWritable(env, s, log);
    if final.node == End && final.s.requiresApproval {
      RoundTrips.StateRoundTrip(final.s, {});
      HeldIsNamed(env, final.s, final.log);
      assert final.log != [] && final.log[|final.log| - 1].Withheld? by { HeldIsLogged(env, final.s, final.log); }
    }
  }

  lemma HeldIsLogged(env: Env, s: State, log: seq<Event>)
    requires HeldFor(env, s, log)
    ensures log != [] && log[|log| - 1].Withheld?
  {
  }

  /** A Run that pauses hands out a checkpoint that decodes to what it reported, with the held call
      and its parsed arguments as approval data. */
  lemma RunCheckpoint(env: Env, input: WorkflowInput, requestID: string, now: string, log: seq<Event>)
    ensures var r := Run(env, input, requestID, now, log);
            && log <= r.log
            && (r.out.Ok? && r.out.value.requiresApproval ==>
                  CheckpointTells(env, input.messages + Transcript(env, r.log[|log|..]), r.log, r.out.value))
  {
    var s := RunState(input, requestID, now);
    assert Fresh(s) && Writable(s) && s.messages == input.messages;
    hide Finish, CheckpointTells, Transcript, RunState, Tokens, Executed, Conforming, Fresh, ToJSON;
    InvocationCheckpoints(env, s, log);
    Turns.RunAccounting(env, s, log);
  }
}
