/** The event log as the reference: transcripts, counters and executed tools are all functions of it. */
module Ledger {
  import opened ChatTypes
  import opened AgentStates
  import opened Workflow
  import opened Reachability

  // ----- what a log says -----

  /** The message an event leaves in the transcript, member by member. */
  function MessagesLeft(env: Env, e: Event): seq<ChatMessage> {
    match e
    case Chat(_, ChatReply(content, calls, _)) => [ChatMessage("assistant", content, "", calls, "")]
    case Chat(_, ChatError(_)) => []
    case Execute(call, Completed(output)) => [ChatMessage("tool", output, call.name, [], call.id)]
    case Execute(call, Faulted(error)) => [ChatMessage("tool", env.errorBody(error), call.name, [], call.id)]
    case BadArguments(call, error) =>
      [ChatMessage("tool", env.errorBody("failed to parse arguments: " + error), call.name, [], call.id)]
    case UnknownTool(call) =>
      [ChatMessage("tool", env.errorBody("tool not found: " + call.name), call.name, [], call.id)]
    case Withheld(_) => []
  }

  function TokensOf(e: Event): int {
    match e
    case Chat(_, ChatReply(_, _, tokens)) => tokens
    case _ => 0
  }

  function Transcript(env: Env, log: seq<Event>): seq<ChatMessage> {
    if log == [] then [] else Transcript(env, log[..|log| - 1]) + MessagesLeft(env, log[|log| - 1])
  }

  function Tokens(log: seq<Event>): int {
    if log == [] then 0 else Tokens(log[..|log| - 1]) + TokensOf(log[|log| - 1])
  }

  function Chats(log: seq<Event>): nat {
    if log == [] then 0 else Chats(log[..|log| - 1]) + if log[|log| - 1].Chat? then 1 else 0
  }

  /** The calls that were executed, in order. */
  function Executed(log: seq<Event>): seq<ToolCall> {
    if log == [] then [] else Executed(log[..|log| - 1]) + ExecutedBy(log[|log| - 1])
  }

  function ExecutedBy(e: Event): seq<ToolCall> {
    match e
    case Execute(call, _) => [call]
    case _ => []
  }

  function Executions(log: seq<Event>): nat {
    |Executed(log)|
  }

  function Refusals(log: seq<Event>): nat {
    if log == [] then 0 else Refusals(log[..|log| - 1]) + RefusedBy(log[|log| - 1])
  }

  function RefusedBy(e: Event): nat {
    if e.BadArguments? || e.UnknownTool? then 1 else 0
  }

  function ToolMessages(ms: seq<ChatMessage>): nat {
    if ms == [] then 0 else ToolMessages(ms[..|ms| - 1]) + if ms[|ms| - 1].role == "tool" then 1 else 0
  }

  lemma TranscriptLonger(env: Env, log: seq<Event>, e: Event)
    ensures Transcript(env, log + [e]) == Transcript(env, log) + MessagesLeft(env, e)
  {
    hide MessagesLeft;
    assert (log + [e])[..|log|] == log;
  }

  lemma {:induction false} TranscriptAppend(env: Env, a: seq<Event>, b: seq<Event>)
    ensures Transcript(env, a + b) == Transcript(env, a) + Transcript(env, b)
    decreases b
  {
    if b == [] {
      assert a + b == a;
    } else {
      hide Transcript, MessagesLeft;
      var front, e := b[..|b| - 1], b[|b| - 1];
      assert b == front + [e] && a + b == (a + front) + [e];
      TranscriptAppend(env, a, front);
      TranscriptLonger(env, front, e);
      TranscriptLonger(env, a + front, e);
      Reassociate(Transcript(env, a), Transcript(env, front), MessagesLeft(env, e));
    }
  }

  lemma Reassociate<T>(a: seq<T>, b: seq<T>, c: seq<T>)
    ensures (a + b) + c == a + (b + c)
  {
  }

  lemma {:induction false} CountsAppend(a: seq<Event>, b: seq<Event>)
    ensures Tokens(a + b) == Tokens(a) + Tokens(b)
    ensures Chats(a + b) == Chats(a) + Chats(b)
    decreases b
  {
    if b == [] {
      assert a + b == a;
    } else {
      hide TokensOf;
      var front := b[..|b| - 1];
      assert (a + b)[..|a + b| - 1] == a + front;
      CountsAppend(a, front);
    }
  }

  lemma {:induction false} ExecutedAppend(a: seq<Event>, b: seq<Event>)
    ensures Executed(a + b) == Executed(a) + Executed(b)
    decreases b
  {
    if b == [] {
      assert a + b == a;
    } else {
      hide ExecutedBy;
      var front := b[..|b| - 1];
      assert (a + b)[..|a + b| - 1] == a + front;
      ExecutedAppend(a, front);
    }
  }

  lemma LedgersAppend(env: Env, a: seq<Event>, b: seq<Event>)
    ensures Transcript(env, a + b) == Transcript(env, a) + Transcript(env, b)
    ensures Tokens(a + b) == Tokens(a) + Tokens(b)
    ensures Chats(a + b) == Chats(a) + Chats(b)
    ensures Executed(a + b) == Executed(a) + Executed(b)
  {
    TranscriptAppend(env, a, b);
    CountsAppend(a, b);
    ExecutedAppend(a, b);
  }

  lemma EntryCounted(env: Env, e: Event)
    ensures |MessagesLeft(env, e)| <= 1
    ensures ToolMessages(MessagesLeft(env, e)) == |ExecutedBy(e)| + RefusedBy(e)
  {
    var ms := MessagesLeft(env, e);
    if ms != [] {
      assert ms[..|ms| - 1] == [];
    }
  }

  lemma ToolMessagesLonger(ms: seq<ChatMessage>, more: seq<ChatMessage>)
    requires |more| <= 1
    ensures ToolMessages(ms + more) == ToolMessages(ms) + ToolMessages(more)
  {
    if more == [] {
      assert ms + more == ms;
    } else {
      assert more[..0] == [] && (ms + more)[..|ms|] == ms;
    }
  }

  /** The tool messages of a transcript are the executions and the refusals. */
  lemma {:induction false} ToolMessagesCounted(env: Env, log: seq<Event>)
    ensures ToolMessages(Transcript(env, log)) == Executions(log) + Refusals(log)
  {
    if log != [] {
      hide MessagesLeft, ToolMessages, ExecutedBy, RefusedBy;
      var front, e := log[..|log| - 1], log[|log| - 1];
      ToolMessagesCounted(env, front);
      EntryCounted(env, e);
      ToolMessagesLonger(Transcript(env, front), MessagesLeft(env, e));
    } else {
      assert ToolMessages([]) == 0;
    }
  }

  // ----- the gate -----

  /** The call parses and names a registered tool that asks for no approval. */
  predicate Allowed(env: Env, call: ToolCall) {
    env.parseArguments(call.arguments).Ok? && call.name in env.tools && !env.tools[call.name]
  }

  /** A tool is only executed when it is allowed, and a chosen model is the one that is asked. */
  predicate ConformingEvent(env: Env, model: string, e: Event) {
    match e
    case Execute(call, _) => Allowed(env, call)
    case Chat(request, _) => model == "" || request.model == model
    case _ => true
  }

  predicate Conforming(env: Env, model: string, log: seq<Event>) {
    forall i :: 0 <= i < |log| ==> ConformingEvent(env, model, log[i])
  }

  /** The calls act executes: the allowed ones, in order, before the first that is held. */
  function Runnable(env: Env, calls: seq<ToolCall>): seq<ToolCall> {
    if calls == [] || NeedsApproval(env, calls[0]) then []
    else (if Allowed(env, calls[0]) then [calls[0]] else []) + Runnable(env, calls[1..])
  }

  // ----- act -----

  /** The entries act adds to the log: its results, its executions, no LLM call, no tool behind the gate. */
  ghost predicate ActEntries(env: Env, calls: seq<ToolCall>, acted: Acted, added: seq<Event>) {
    && Transcript(env, added) == acted.results
    && Executions(added) == acted.executed
    && Tokens(added) == 0 && Chats(added) == 0
    && Executed(added) == Runnable(env, calls)
    && forall model :: Conforming(env, model, added)
  }

  lemma SingleEntry(env: Env, e: Event)
    ensures Transcript(env, [e]) == MessagesLeft(env, e) && Tokens([e]) == TokensOf(e)
    ensures Chats([e]) == (if e.Chat? then 1 else 0)
    ensures Executed([e]) == ExecutedBy(e)
  {
    hide MessagesLeft, TokensOf, ExecutedBy;
    assert [e][..0] == [];
  }

  lemma ConformingAppend(env: Env, model: string, a: seq<Event>, b: seq<Event>)
    requires Conforming(env, model, a) && Conforming(env, model, b)
    ensures Conforming(env, model, a + b)
  {
    hide ConformingEvent;
  }

  ghost function EntryFor(env: Env, call: ToolCall, log: seq<Event>): Event {
    match Judge(env, call)
    case Refuse(event, _) => event
    case Hold(_) => Withheld(call)
    case Allow(args) => Execute(call, env.execute(log, call.name, args))
  }

  lemma ActOneLogged(env: Env, call: ToolCall, log: seq<Event>)
    ensures var one := ActOn(env, [call], log);
            var entry := EntryFor(env, call, log);
            one.log == log + [entry] && ActEntries(env, [call], one, [entry])
  {
    var one := ActOn(env, [call], log);
    var entry := EntryFor(env, call, log);
    assert [call][1..] == [];
    SingleEntry(env, entry);
    hide Transcript, Tokens, Chats, Executed;
    assert Runnable(env, [call]) == ExecutedBy(entry) by {
      assert Runnable(env, [call][1..]) == [];
    }
    forall model ensures Conforming(env, model, [entry]) {
      assert ConformingEvent(env, model, entry);
    }
  }

  lemma {:induction false} ActLogged(env: Env, calls: seq<ToolCall>, log: seq<Event>)
    ensures var acted := ActOn(env, calls, log);
            log <= acted.log && ActEntries(env, calls, acted, acted.log[|log|..])
  {
    if calls == [] {
      assert ActOn(env, calls, log).log[|log|..] == [];
    } else if Judge(env, calls[0]).Hold? {
      ActHeldLogged(env, calls, log);
    } else {
      var entry := EntryFor(env, calls[0], log);
      ActLogged(env, calls[1..], log + [entry]);
      ActFirstLogged(env, calls, log, entry);
    }
  }

  lemma ActHeldLogged(env: Env, calls: seq<ToolCall>, log: seq<Event>)
    requires calls != [] && Judge(env, calls[0]).Hold?
    ensures var acted := ActOn(env, calls, log);
            log <= acted.log && ActEntries(env, calls, acted, acted.log[|log|..])
  {
    ActOneLogged(env, calls[0], log);
    ActOnHeld(env, calls, log);
    ActOnHeld(env, [calls[0]], log);
    assert (log + [Withheld(calls[0])])[|log|..] == [Withheld(calls[0])];
    hide ActOn, Transcript, Tokens, Chats, Executed, Conforming;
  }

  lemma ActFirstLogged(env: Env, calls: seq<ToolCall>, log: seq<Event>, entry: Event)
    requires calls != [] && !Judge(env, calls[0]).Hold? && entry == EntryFor(env, calls[0], log)
    requires var rest := ActOn(env, calls[1..], log + [entry]);
             log + [entry] <= rest.log && ActEntries(env, calls[1..], rest, rest.log[|log| + 1..])
    ensures var acted := ActOn(env, calls, log);
            log <= acted.log && ActEntries(env, calls, acted, acted.log[|log|..])
  {
    hide ActOn, Transcript, Tokens, Chats, Executed, Conforming, EntryFor;
    var acted := ActOn(env, calls, log);
    ActOneLogged(env, calls[0], log);
    ActOnFirst(env, calls, log);
    var rest := acted.log[|log| + 1..];
    assert acted.log[|log|..] == [entry] + rest;
    LedgersAppend(env, [entry], rest);
    forall model ensures Conforming(env, model, [entry] + rest) {
      ConformingAppend(env, model, [entry], rest);
    }
    RunnableFirst(env, calls);
  }

  lemma RunnableFirst(env: Env, calls: seq<ToolCall>)
    requires calls != [] && !Judge(env, calls[0]).Hold?
    ensures Runnable(env, calls) == Runnable(env, [calls[0]]) + Runnable(env, calls[1..])
  {
    assert [calls[0]][1..] == [];
  }

  // ----- the books of an invocation -----

  /** Everything the configuration holds beyond (s0, log0) is what the new events say. */
  ghost predicate Books(env: Env, s0: State, log0: seq<Event>, c: Config) {
    && log0 <= c.log
    && var added := c.log[|log0|..];
    && c.s.messages + c.s.toolResults == s0.messages + Transcript(env, added)
    && (c.node != Observe ==> c.s.toolResults == [])
    && c.s.tokensUsed == s0.tokensUsed + Tokens(added)
    && c.s.toolCallsCount == s0.toolCallsCount + Executions(added)
    && (s0.model != "" ==> c.s.model == s0.model)
    && Conforming(env, s0.model, added)
  }

  lemma ThinkBooks(env: Env, s0: State, log0: seq<Event>, c: Config)
    requires Books(env, s0, log0, c) && c.node == Think
    ensures Books(env, s0, log0, Step(env, c))
  {
    hide BuildMessages, Transcript, Tokens, Chats, Executed, Conforming;
    var d := Step(env, c);
    var added := c.log[|log0|..];
    var entry := d.log[|c.log|];
    assert d.log[|log0|..] == added + [entry];
    LedgersAppend(env, added, [entry]);
    SingleEntry(env, entry);
    assert c.s.messages == s0.messages + Transcript(env, added);
    assert d.s.messages + d.s.toolResults == c.s.messages + MessagesLeft(env, entry);
    assert Conforming(env, s0.model, [entry]) by { AskedConforms(env, s0.model, entry); }
    ConformingAppend(env, s0.model, added, [entry]);
  }

  lemma AskedConforms(env: Env, model: string, e: Event)
    requires e.Chat? && (model == "" || e.request.model == model)
    ensures Conforming(env, model, [e])
  {
  }

  lemma ActBooks(env: Env, s0: State, log0: seq<Event>, c: Config)
    requires Books(env, s0, log0, c) && c.node == Act
    ensures Books(env, s0, log0, Step(env, c))
  {
    hide ActOn, Transcript, Tokens, Chats, Executed, Conforming, Runnable;
    var d := Step(env, c);
    var acted := ActOn(env, c.s.pendingTools, c.log);
    ActLogged(env, c.s.pendingTools, c.log);
    var added := c.log[|log0|..];
    var entries := acted.log[|c.log|..];
    assert acted.log[|log0|..] == added + entries;
    LedgersAppend(env, added, entries);
    ConformingAppend(env, s0.model, added, entries);
    assert c.s.messages == s0.messages + Transcript(env, added);
    assert d.s.messages == c.s.messages && d.s.toolResults == acted.results;
  }

  lemma StepKeepsBooks(env: Env, s0: State, log0: seq<Event>, c: Config)
    requires Books(env, s0, log0, c) && !Terminal(c)
    ensures Books(env, s0, log0, Step(env, c))
  {
    match c.node {
      case Think => ThinkBooks(env, s0, log0, c);
      case Act => ActBooks(env, s0, log0, c);
      case _ =>
        hide AgentFor, Transcript, Tokens, Executed, Conforming, LastAnswer;
    }
  }

  /** Run accounting at graph level. */
  lemma InvocationBooks(env: Env, s: State, log: seq<Event>)
    requires s.toolResults == []
    ensures Books(env, s, log, Invoke(env, s, log))
  {
    hide Step, Books;
    var start := Start(s, log);
    assert Books(env, s, log, start) by {
      BooksOpen(env, s, log);
    }
    forall x | Books(env, s, log, x) && !Terminal(x) ensures Books(env, s, log, Step(env, x)) {
      StepKeepsBooks(env, s, log, x);
    }
    Invariance(env, start, Fuel(start), (x: Config) => Books(env, s, log, x));
    FuelSuffices(env, start, Fuel(start));
  }

  lemma BooksOpen(env: Env, s: State, log: seq<Event>)
    requires s.toolResults == []
    ensures Books(env, s, log, Start(s, log))
  {
    assert log[|log|..] == [];
  }
}
