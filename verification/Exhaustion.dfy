/** The LLM budget is used up: turns that only the iteration limit ends. */
module Exhaustion {
  import opened ChatTypes
  import opened Workflow
  import opened Engine
  import opened Reachability
  import opened Ledger

  /** The LLM answers everything with one call, which needs no approval. */
  ghost predicate Restless(env: Env, call: ToolCall, tokens: int) {
    && !NeedsApproval(env, call)
    && forall log: seq<Event>, request: ChatRequest :: env.chat(log, request) == ChatReply("", [call], tokens)
  }

  /** Before another round. */
  predicate GoesOn(c: Config) {
    c.node == Think && !c.s.requiresApproval && !c.s.shouldStop && c.s.iteration < c.s.turn.maxIterations
  }

  /** Think, act, observe. */
  function Round(env: Env, c: Config): Config
    requires GoesOn(c)
  {
    var c1 := Step(env, c);
    if Terminal(c1) then c1
    else
      var c2 := Step(env, c1);
      if Terminal(c2) then c2 else Step(env, c2)
  }

  lemma CallIsAnswered(env: Env, call: ToolCall, log: seq<Event>)
    requires !NeedsApproval(env, call)
    ensures var acted := ActOn(env, [call], log);
            acted.held.None? && log <= acted.log && Chats(acted.log[|log|..]) == 0
  {
    ActLogged(env, [call], log);
    hide Transcript, Tokens, Chats, Executed, Conforming, Runnable;
    assert [call][1..] == [];
  }

  lemma RoundOfOne(env: Env, call: ToolCall, tokens: int, c: Config)
    requires Restless(env, call, tokens) && GoesOn(c)
    ensures var c1 := Step(env, c);
            && c1.node == Act && c1.s.pendingTools == [call] && !c1.s.requiresApproval && !c1.s.shouldStop
            && c1.s.iteration == c.s.iteration && c1.s.turn == c.s.turn
            && c.log <= c1.log && Chats(c1.log[|c.log|..]) == 1
  {
    hide BuildMessages, NeedsApproval;
    var entry := Step(env, c).log[|c.log|];
    assert Step(env, c).log[|c.log|..] == [entry];
    SingleEntry(env, entry);
  }

  lemma RoundEnds(env: Env, call: ToolCall, c1: Config)
    requires !NeedsApproval(env, call)
    requires c1.node == Act && c1.s.pendingTools == [call] && !c1.s.requiresApproval && !c1.s.shouldStop
    ensures var c2 := Step(env, c1);
            && c2.node == Observe
            && var c3 := Step(env, c2);
            && c3.node == (if c1.s.iteration + 1 >= c1.s.turn.maxIterations then Response else Think)
            && c3.s.iteration == c1.s.iteration + 1 && c3.s.turn == c1.s.turn && !c3.s.requiresApproval
            && (c3.node == Think ==> !c3.s.shouldStop)
            && c1.log <= c3.log && Chats(c3.log[|c1.log|..]) == 0
  {
    CallIsAnswered(env, call, c1.log);
    hide ActOn, Chats, NeedsApproval;
  }

  lemma RoundSpends(env: Env, call: ToolCall, tokens: int, c: Config)
    requires Restless(env, call, tokens) && GoesOn(c)
    ensures var d := Round(env, c);
            && Finish(env, c) == Finish(env, d)
            && d.node == (if c.s.iteration + 1 >= c.s.turn.maxIterations then Response else Think)
            && d.s.iteration == c.s.iteration + 1 && d.s.turn == c.s.turn
            && (d.node == Think ==> GoesOn(d))
            && c.log <= d.log && Chats(d.log[|c.log|..]) == 1
  {
    RoundOfOne(env, call, tokens, c);
    var c1 := Step(env, c);
    RoundEnds(env, call, c1);
    hide Step, Finish, Chats;
    var c2 := Step(env, c1);
    var d := Step(env, c2);
    FinishStep(env, c);
    FinishStep(env, c1);
    FinishStep(env, c2);
    ChatsChain(c.log, c1.log, d.log);
  }

  lemma ChatsChain(log: seq<Event>, mid: seq<Event>, end: seq<Event>)
    requires log <= mid <= end
    ensures log <= end && Chats(end[|log|..]) == Chats(mid[|log|..]) + Chats(end[|mid|..])
  {
    hide Chats;
    assert end[|log|..] == mid[|log|..] + end[|mid|..];
    CountsAppend(mid[|log|..], end[|mid|..]);
  }

  lemma {:induction false} RoundsSpend(env: Env, call: ToolCall, tokens: int, c: Config)
    requires Restless(env, call, tokens) && GoesOn(c)
    ensures var final := Finish(env, c);
            && c.log <= final.log && final.node == End
            && Chats(final.log[|c.log|..]) == c.s.turn.maxIterations - c.s.iteration
    decreases c.s.turn.maxIterations - c.s.iteration
  {
    hide Finish, Round, Chats, Restless;
    RoundSpends(env, call, tokens, c);
    var d := Round(env, c);
    if d.node == Think {
      RoundsSpend(env, call, tokens, d);
    } else {
      ResponseEnds(env, d);
    }
    hide Finish, Round, Chats;
    ChatsChain(c.log, d.log, Finish(env, c).log);
  }

  lemma ResponseEnds(env: Env, c: Config)
    requires c.node == Response
    ensures var final := Finish(env, c); final.node == End && final.log == c.log && Chats(final.log[|c.log|..]) == 0
  {
    hide LastAnswer;
    FinishStep(env, c);
    FinishStep(env, Step(env, c));
    assert c.log[|c.log|..] == [];
  }

  /** The bound of a Run is attained: an LLM that never stops calling an ungated tool, or one that does not exist,
      is asked ten times, no more and no fewer. */
  lemma RunExhausts(env: Env, call: ToolCall, tokens: int, input: WorkflowInput, requestID: string, now: string,
                    log: seq<Event>)
    requires Restless(env, call, tokens)
    ensures var r := Run(env, input, requestID, now, log);
            r.out.Ok? && log <= r.log && Chats(r.log[|log|..]) == 10
  {
    var start := Start(RunState(input, requestID, now), log);
    var c := Step(env, start);
    assert GoesOn(c) && c.log == log && c.s.turn.maxIterations == 10 && c.s.iteration == 0 by {
      hide AgentFor, Chats;
    }
    hide Step, Finish, Chats, GoesOn, Restless;
    FinishStep(env, start);
    RoundsSpend(env, call, tokens, c);
  }
}
