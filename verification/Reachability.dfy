/** Every configuration a graph invocation can reach: termination, the transcript grammar,
    and the edges that are never taken. */
module Reachability {
  import opened Wrappers
  import opened ChatTypes
  import opened AgentStates
  import opened Workflow

  // ----- runs -----

  function Steps(env: Env, c: Config, n: nat): Config
    decreases n
  {
    if n == 0 || Terminal(c) then c else Steps(env, Step(env, c), n - 1)
  }

  /** Termination from every state: Fuel(c) steps always suffice, and more change nothing. */
  lemma {:induction false} FuelSuffices(env: Env, c: Config, n: nat)
    requires n >= Fuel(c)
    ensures Steps(env, c, n) == Finish(env, c) && Terminal(Steps(env, c, n))
    decreases n
  {
    hide Step, Fuel;
    if !Terminal(c) {
      StepBurnsFuel(env, c);
      FuelSuffices(env, Step(env, c), n - 1);
    }
  }

  /** Whatever every step keeps holds in every reachable configuration. */
  lemma {:induction false} Invariance(env: Env, c: Config, n: nat, inv: Config -> bool)
    requires inv(c)
    requires forall x :: inv(x) && !Terminal(x) ==> inv(Step(env, x))
    ensures inv(Steps(env, c, n))
    decreases n
  {
    hide Step;
    if n != 0 && !Terminal(c) {
      Invariance(env, Step(env, c), n - 1, inv);
    }
  }

  lemma FinishStep(env: Env, c: Config)
    ensures Finish(env, c) == if Terminal(c) then c else Finish(env, Step(env, c))
  {
    hide Step;
  }

  // ----- the grammar of transcripts -----

  predicate Answers(m: ChatMessage, call: ToolCall) {
    m.role == "tool" && m.toolCallID == call.id && m.name == call.name && m.toolCalls == []
  }

  /** One tool message for each call, in order. */
  predicate AnswersAll(ms: seq<ChatMessage>, calls: seq<ToolCall>) {
    |ms| == |calls| && forall i :: 0 <= i < |ms| ==> Answers(ms[i], calls[i])
  }

  predicate Asks(m: ChatMessage) {
    m.role == "assistant" && m.toolCalls != []
  }

  /** Complete blocks: an assistant message with calls, then exactly its answers. */
  predicate Blocks(ms: seq<ChatMessage>) {
    ms == [] ||
    (&& Asks(ms[0])
     && var n := |ms[0].toolCalls|;
     && n < |ms|
     && AnswersAll(ms[1..n + 1], ms[0].toolCalls)
     && Blocks(ms[n + 1..]))
  }

  lemma {:induction false} BlocksJoin(ms: seq<ChatMessage>, more: seq<ChatMessage>)
    requires Blocks(ms) && Blocks(more)
    ensures Blocks(ms + more)
  {
    hide AnswersAll, Asks;
    if ms == [] {
      assert ms + more == more;
    } else {
      var n := |ms[0].toolCalls|;
      BlocksJoin(ms[n + 1..], more);
      assert (ms + more)[1..n + 1] == ms[1..n + 1];
      assert (ms + more)[n + 1..] == ms[n + 1..] + more;
    }
  }

  lemma BlocksAppend(ms: seq<ChatMessage>, ask: ChatMessage, answers: seq<ChatMessage>)
    requires Blocks(ms) && Asks(ask) && AnswersAll(answers, ask.toolCalls)
    ensures Blocks(ms + [ask] + answers)
  {
    hide Blocks, AnswersAll, Asks;
    OneBlock(ask, answers);
    BlocksJoin(ms, [ask] + answers);
    assert ms + [ask] + answers == ms + ([ask] + answers);
  }

  lemma OneBlock(ask: ChatMessage, answers: seq<ChatMessage>)
    requires Asks(ask) && AnswersAll(answers, ask.toolCalls)
    ensures Blocks([ask] + answers)
  {
    assert |answers| == |ask.toolCalls|;
    hide AnswersAll, Asks;
    assert ([ask] + answers)[1..|answers| + 1] == answers;
  }

  /** The first call that must wait for a human. */
  function FirstHeld(env: Env, calls: seq<ToolCall>): (k: nat)
    ensures k <= |calls|
    ensures forall i :: 0 <= i < k ==> !NeedsApproval(env, calls[i])
    ensures k < |calls| ==> NeedsApproval(env, calls[k])
  {
    if calls == [] || NeedsApproval(env, calls[0]) then 0 else 1 + FirstHeld(env, calls[1..])
  }

  /** A block whose answers stop at the first held call. */
  predicate CutAt(env: Env, ms: seq<ChatMessage>, calls: seq<ToolCall>) {
    var k := FirstHeld(env, calls);
    var b := |ms| - 1 - k;
    && k < |calls|
    && 0 <= b
    && Blocks(ms[..b])
    && Asks(ms[b]) && ms[b].toolCalls == calls
    && AnswersAll(ms[b + 1..], calls[..k])
  }

  /** Complete blocks, then an assistant message without calls. */
  predicate Answered(ms: seq<ChatMessage>) {
    && ms != []
    && Blocks(ms[..|ms| - 1])
    && ms[|ms| - 1].role == "assistant" && ms[|ms| - 1].toolCalls == []
  }

  /** What an invocation that has stopped added to the transcript: one block cut short when it asks for approval;
      otherwise an answer, or whole blocks only when the iterations are used up. */
  predicate Stopped(env: Env, stopping: bool, added: seq<ChatMessage>, s: State) {
    if s.requiresApproval then CutAt(env, added, s.pendingTools)
    else
      && s.pendingTools == []
      && (Answered(added) || (Blocks(added) && (stopping || s.iteration >= s.turn.maxIterations)))
  }

  // ----- act -----

  lemma {:induction false} ActAnswers(env: Env, calls: seq<ToolCall>, log: seq<Event>)
    ensures var acted := ActOn(env, calls, log);
            var k := FirstHeld(env, calls);
            && AnswersAll(acted.results, calls[..k])
            && acted.held.Some? == (k < |calls|)
            && (acted.held.Some? ==> acted.held.value.call == calls[k])
  {
    if calls != [] {
      if Judge(env, calls[0]).Hold? {
        ActOnHeld(env, calls, log);
      } else {
        var one := ActOn(env, [calls[0]], log);
        ActOnFirst(env, calls, log);
        ActOneAnswers(env, calls[0], log);
        ActAnswers(env, calls[1..], one.log);
        FirstHeldNext(env, calls);
        hide ActOn, Judge, FirstHeld, AnswersAll, Answers;
        var rest := ActOn(env, calls[1..], one.log);
        AnswersFirst(one.results[0], calls[0], rest.results, calls[1..][..FirstHeld(env, calls[1..])]);
        assert one.results == [one.results[0]];
      }
    }
  }

  lemma FirstHeldNext(env: Env, calls: seq<ToolCall>)
    requires calls != [] && !NeedsApproval(env, calls[0])
    ensures var k := FirstHeld(env, calls[1..]);
            FirstHeld(env, calls) == k + 1 && calls[..k + 1] == [calls[0]] + calls[1..][..k]
  {
    hide NeedsApproval;
  }

  lemma AnswersFirst(m: ChatMessage, call: ToolCall, ms: seq<ChatMessage>, calls: seq<ToolCall>)
    requires Answers(m, call) && AnswersAll(ms, calls)
    ensures AnswersAll([m] + ms, [call] + calls)
  {
    hide Answers;
  }

  lemma ActOneAnswers(env: Env, call: ToolCall, log: seq<Event>)
    requires !Judge(env, call).Hold?
    ensures !NeedsApproval(env, call)
    ensures var one := ActOn(env, [call], log); |one.results| == 1 && Answers(one.results[0], call)
  {
  }

  // ----- the invariant of an invocation -----

  /** The states Run and Resume enter the graph with. */
  predicate Fresh(s: State) {
    s.isApproved == None && !s.requiresApproval && s.toolResults == []
  }

  /** A whole transcript whose last block waits for its answers. */
  predicate Open(added: seq<ChatMessage>) {
    added != [] && Blocks(added[..|added| - 1]) && Asks(added[|added| - 1])
  }

  function LastCalls(added: seq<ChatMessage>): seq<ToolCall> {
    if added == [] then [] else added[|added| - 1].toolCalls
  }

  predicate Entering(added: seq<ChatMessage>, s: State) {
    !s.requiresApproval && s.toolResults == [] && Blocks(added)
  }

  predicate Acting(added: seq<ChatMessage>, s: State) {
    !s.requiresApproval && s.toolResults == [] && Open(added) && LastCalls(added) == s.pendingTools
  }

  predicate Observing(env: Env, added: seq<ChatMessage>, s: State) {
    var calls := LastCalls(added);
    var k := FirstHeld(env, calls);
    && Open(added)
    && AnswersAll(s.toolResults, calls[..k])
    && s.requiresApproval == (k < |calls|)
    && s.pendingTools == if k < |calls| then calls else []
  }

  predicate Stopping(env: Env, stopping: bool, added: seq<ChatMessage>, s: State) {
    s.toolResults == [] && Stopped(env, stopping, added, s)
  }

  /** `stopping` says that the invocation was entered with ShouldStop already set. */
  predicate Phase(env: Env, stopping: bool, node: Node, added: seq<ChatMessage>, s: State) {
    match node
    case Router => Entering(added, s) && (s.shouldStop ==> stopping)
    case Think => Entering(added, s) && (s.shouldStop ==> stopping)
    case Act => Acting(added, s) && (s.shouldStop ==> stopping)
    case Observe => Observing(env, added, s) && (s.shouldStop ==> stopping)
    case HumanApproval => s.requiresApproval && Stopping(env, stopping, added, s)
    case Response => Stopping(env, stopping, added, s)
    case End => Stopping(env, stopping, added, s)
    case Failed => true
  }

  /** Edges of the graph that wait for a decision made inside the graph. */
  predicate DecisionEdge(from: Node, to: Node) {
    || (from == HumanApproval && (to == Act || to == Response))
    || (from == Think && to == HumanApproval)
  }

  function Trail(c: Config): seq<Node> {
    c.path + [c.node]
  }

  predicate NoDecisionEdge(trail: seq<Node>) {
    forall i :: 0 <= i < |trail| - 1 ==> !DecisionEdge(trail[i], trail[i + 1])
  }

  /** The invariant of one configuration, relative to the fresh state s0 the invocation started from. */
  predicate Local(env: Env, s0: State, c: Config) {
    && c.s.isApproved == None
    && s0.messages <= c.s.messages
    && Phase(env, s0.shouldStop, c.node, c.s.messages[|s0.messages|..], c.s)
  }

  predicate Inv(env: Env, s0: State, c: Config) {
    Local(env, s0, c) && NoDecisionEdge(Trail(c))
  }

  lemma ThinkKeeps(env: Env, s0: State, c: Config)
    requires Local(env, s0, c) && c.node == Think
    ensures Local(env, s0, Step(env, c)) && Step(env, c).node != HumanApproval
  {
    hide Blocks, BuildMessages, CutAt;
    var d := Step(env, c);
    if d.node != Failed {
      var added := c.s.messages[|s0.messages|..];
      var after := d.s.messages[|s0.messages|..];
      assert after[..|after| - 1] == added;
    }
  }

  lemma ActKeeps(env: Env, s0: State, c: Config)
    requires Local(env, s0, c) && c.node == Act
    ensures Local(env, s0, Step(env, c))
  {
    hide Blocks, ActOn, AnswersAll;
    ActAnswers(env, c.s.pendingTools, c.log);
  }

  /** The open block is closed, or cut where a call is held. */
  lemma Flushed(env: Env, added: seq<ChatMessage>, results: seq<ChatMessage>)
    requires Open(added)
    requires AnswersAll(results, LastCalls(added)[..FirstHeld(env, LastCalls(added))])
    ensures var calls := LastCalls(added);
            if FirstHeld(env, calls) < |calls| then CutAt(env, added + results, calls) else Blocks(added + results)
  {
    hide Blocks;
    var ask := added[|added| - 1];
    var calls := ask.toolCalls;
    var k := FirstHeld(env, calls);
    var after := added + results;
    assert after == added[..|added| - 1] + [ask] + results;
    if k < |calls| {
      var b := |after| - 1 - k;
      assert after[..b] == added[..|added| - 1] && after[b] == ask && after[b + 1..] == results;
    } else {
      assert calls[..k] == calls;
      BlocksAppend(added[..|added| - 1], ask, results);
    }
  }

  lemma ObserveKeeps(env: Env, s0: State, c: Config)
    requires Local(env, s0, c) && c.node == Observe
    ensures Local(env, s0, Step(env, c))
  {
    hide Blocks, CutAt, AnswersAll, Open, LastCalls;
    var added := c.s.messages[|s0.messages|..];
    assert (c.s.messages + c.s.toolResults)[|s0.messages|..] == added + c.s.toolResults;
    Flushed(env, added, c.s.toolResults);
  }

  lemma ResponseKeeps(env: Env, s0: State, c: Config)
    requires Local(env, s0, c) && (c.node == Response || c.node == HumanApproval || c.node == Router)
    ensures Local(env, s0, Step(env, c)) && (c.node == HumanApproval ==> Step(env, c).node == End)
  {
    hide Blocks, CutAt, Answered, AgentFor, LastAnswer;
  }

  lemma TrailGrows(env: Env, c: Config)
    requires !Terminal(c) && NoDecisionEdge(Trail(c)) && !DecisionEdge(c.node, Step(env, c).node)
    ensures NoDecisionEdge(Trail(Step(env, c)))
  {
    hide AgentFor, ActOn, BuildMessages;
    assert Step(env, c).path == Trail(c);
  }

  lemma StepKeepsInv(env: Env, s0: State, c: Config)
    requires Inv(env, s0, c) && !Terminal(c)
    ensures Inv(env, s0, Step(env, c))
  {
    hide Local, Step, NoDecisionEdge;
    match c.node {
      case Think => ThinkKeeps(env, s0, c);
      case Act => ActKeeps(env, s0, c);
      case Observe => ObserveKeeps(env, s0, c);
      case _ => ResponseKeeps(env, s0, c);
    }
    TrailGrows(env, c);
  }

  /** In every reachable configuration of every invocation. */
  lemma Reachable(env: Env, s: State, log: seq<Event>, n: nat)
    requires Fresh(s)
    ensures Inv(env, s, Steps(env, Start(s, log), n))
  {
    hide Step;
    var start := Start(s, log);
    assert s.messages[|s.messages|..] == [];
    forall x | Inv(env, s, x) && !Terminal(x) ensures Inv(env, s, Step(env, x)) {
      StepKeepsInv(env, s, x);
    }
    Invariance(env, start, n, (x: Config) => Inv(env, s, x));
  }

  // ----- main results -----

  /** The human decision is never looked at inside the graph: no reachable configuration has one,
      and the edges that act on it are never taken. */
  lemma GraphNeverDecides(env: Env, s: State, log: seq<Event>, n: nat)
    requires Fresh(s)
    ensures var c := Steps(env, Start(s, log), n);
            c.s.isApproved == None && NoDecisionEdge(Trail(c))
  {
    Reachable(env, s, log, n);
  }

  /** The transcript of an invocation without errors is its input followed by blocks and one of three tails;
      nothing stays queued. */
  lemma TranscriptGrammar(env: Env, s: State, log: seq<Event>)
    requires Fresh(s)
    ensures var final := Invoke(env, s, log);
            final.node == End ==>
              && s.messages <= final.s.messages
              && Stopped(env, s.shouldStop, final.s.messages[|s.messages|..], final.s)
              && final.s.toolResults == []
  {
    hide Step, Stopped;
    var start := Start(s, log);
    Reachable(env, s, log, Fuel(start));
    FuelSuffices(env, start, Fuel(start));
  }
}
