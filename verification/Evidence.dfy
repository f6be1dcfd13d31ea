/** The log as evidence: every entry of every invocation and replay is what the LLM, the registry and the tools said
    when they were asked with what the calls carried. */
module Evidence {
  import opened Wrappers
  import opened ChatTypes
  import opened AgentStates
  import opened Workflow
  import opened Engine
  import opened Reachability
  import Ledger
  import Reports
  import Turns

  /** Entry `e`, made after the log `before`: a request carries the tools listed then and the turn's own settings; an
      execution has the arguments of its call; a refusal has its reason; a call is held only for a gated tool. */
  ghost predicate Genuine(env: Env, turn: Turn, before: seq<Event>, e: Event) {
    match e
    case Chat(request, reply) =>
      && reply == env.chat(before, request)
      && request.tools == env.listing(before)
      && request.temperature == turn.temperature && request.maxTokens == turn.maxTokens
    case Execute(call, outcome) =>
      && call.name in env.tools && !env.tools[call.name]
      && exists args :: env.parseArguments(call.arguments) == Ok(args)
                        && outcome == env.execute(before, call.name, args)
    case BadArguments(call, error) => env.parseArguments(call.arguments) == Err(error)
    case UnknownTool(call) => env.parseArguments(call.arguments).Ok? && call.name !in env.tools
    case Withheld(call) => env.parseArguments(call.arguments).Ok? && call.name in env.tools && env.tools[call.name]
  }

  /** The entries from position `from` on. */
  ghost predicate GenuineFrom(env: Env, turn: Turn, from: nat, log: seq<Event>) {
    forall i :: from <= i < |log| ==> Genuine(env, turn, log[..i], log[i])
  }

  /** The entries from position `from` on are about the calls, in order. */
  predicate Follows(log: seq<Event>, from: nat, calls: seq<ToolCall>) {
    && from <= |log| <= from + |calls|
    && forall i :: from <= i < |log| ==> !log[i].Chat? && log[i].call == calls[i - from]
  }

  lemma GenuineLonger(env: Env, turn: Turn, from: nat, log: seq<Event>, longer: seq<Event>)
    requires GenuineFrom(env, turn, from, log) && log <= longer
    requires GenuineFrom(env, turn, |log|, longer)
    ensures GenuineFrom(env, turn, from, longer)
  {
    hide Genuine;
    forall i | from <= i < |longer| ensures Genuine(env, turn, longer[..i], longer[i]) {
      if i < |log| {
        assert longer[..i] == log[..i] && longer[i] == log[i];
      }
    }
  }

  // ----- act -----

  lemma OneCallIsGenuine(env: Env, turn: Turn, call: ToolCall, log: seq<Event>)
    ensures var one := ActOn(env, [call], log).log;
            |one| == |log| + 1 && log == one[..|log|] && !one[|log|].Chat? && one[|log|].call == call
            && Genuine(env, turn, log, one[|log|])
  {
    assert [call][1..] == [];
  }

  lemma HeldIsGenuine(env: Env, turn: Turn, calls: seq<ToolCall>, log: seq<Event>)
    requires calls != [] && Judge(env, calls[0]).Hold?
    ensures var after := ActOn(env, calls, log).log;
            |log| < |after| && log <= after && GenuineFrom(env, turn, |log|, after) && Follows(after, |log|, calls)
  {
    OneCallIsGenuine(env, turn, calls[0], log);
    ActOnHeld(env, calls, log);
    ActOnHeld(env, [calls[0]], log);
    hide ActOn, Judge, Genuine;
  }

  lemma {:induction false} ActIsGenuine(env: Env, turn: Turn, calls: seq<ToolCall>, log: seq<Event>)
    ensures var after := ActOn(env, calls, log).log;
            log <= after && GenuineFrom(env, turn, |log|, after) && Follows(after, |log|, calls)
            && (calls != [] ==> |after| > |log|)
    decreases calls
  {
    if calls == [] {
      ActOnNothing(env, log);
    } else {
      OneCallIsGenuine(env, turn, calls[0], log);
      var one := ActOn(env, [calls[0]], log).log;
      if Judge(env, calls[0]).Hold? {
        HeldIsGenuine(env, turn, calls, log);
      } else {
        ActOnFirst(env, calls, log);
        ActIsGenuine(env, turn, calls[1..], one);
        hide ActOn, Judge, Genuine;
        var after := ActOn(env, calls, log).log;
        assert after[..|log|] == one[..|log|] && after[|log|] == one[|log|];
        assert GenuineFrom(env, turn, |log|, one);
        GenuineLonger(env, turn, |log|, one, after);
      }
    }
  }

  // ----- invocations -----

  /** No request between position j and the entry at i, i included. */
  predicate Quiet(log: seq<Event>, j: nat, i: nat)
    requires i < |log|
  {
    forall m :: j < m <= i ==> !log[m].Chat?
  }

  /** After each answer of the LLM come its calls, one entry each, in order. */
  predicate CallsInOrder(log: seq<Event>, from: nat) {
    forall j, i :: from <= j < i < |log| && log[j].Chat? && Quiet(log, j, i) ==> CallAfter(log, j, i)
  }

  predicate CallAfter(log: seq<Event>, j: nat, i: nat)
    requires j < i < |log| && log[j].Chat? && Quiet(log, j, i)
  {
    && log[j].reply.ChatReply?
    && i - j - 1 < |log[j].reply.calls|
    && log[i].call == log[j].reply.calls[i - j - 1]
  }

  ghost predicate Told(env: Env, s0: State, from: nat, c: Config) {
    && from <= |c.log| && c.s.turn == s0.turn
    && GenuineFrom(env, s0.turn, from, c.log)
    && CallsInOrder(c.log, from)
    && (c.node == Act ==> from < |c.log| && AnsweredWith(c.log[|c.log| - 1], c.s.pendingTools))
  }

  ghost predicate AnsweredWith(e: Event, calls: seq<ToolCall>) {
    e.Chat? && e.reply.ChatReply? && e.reply.calls == calls
  }

  lemma ThinkIsGenuine(env: Env, turn: Turn, c: Config)
    requires c.node == Think && c.s.turn == turn
    ensures var d := Step(env, c);
            && |d.log| == |c.log| + 1 && d.log[..|c.log|] == c.log && d.log[|c.log|].Chat?
            && Genuine(env, turn, c.log, d.log[|c.log|])
            && d.s.turn == turn && (d.node == Act ==> AnsweredWith(d.log[|c.log|], d.s.pendingTools))
  {
    hide BuildMessages;
  }

  lemma ThinkTells(env: Env, s0: State, from: nat, c: Config)
    requires c.node == Think && Told(env, s0, from, c)
    ensures Told(env, s0, from, Step(env, c))
  {
    ThinkIsGenuine(env, s0.turn, c);
    var d := Step(env, c);
    hide Step, Genuine, CallAfter, Answered;
    GenuineLonger(env, s0.turn, from, c.log, d.log);
    forall j, i | from <= j < i < |d.log| && d.log[j].Chat? && Quiet(d.log, j, i) ensures CallAfter(d.log, j, i) {
      assert i < |c.log|;
      EarlierCall(c.log, d.log, j, i);
    }
  }

  lemma EarlierCall(log: seq<Event>, longer: seq<Event>, j: nat, i: nat)
    requires log <= longer && j < i < |log| && log[j].Chat?
    requires Quiet(log, j, i) ==> CallAfter(log, j, i)
    ensures Quiet(longer, j, i) ==> CallAfter(longer, j, i)
  {
    if Quiet(longer, j, i) {
      forall m | j < m <= i ensures !log[m].Chat? {
        assert longer[m] == log[m];
      }
    }
  }

  lemma ActTells(env: Env, s0: State, from: nat, c: Config)
    requires c.node == Act && Told(env, s0, from, c)
    ensures Told(env, s0, from, Step(env, c))
  {
    ActIsGenuine(env, s0.turn, c.s.pendingTools, c.log);
    hide ActOn, Genuine;
    var log := Step(env, c).log;
    GenuineLonger(env, s0.turn, from, c.log, log);
    forall j, i | from <= j < i < |log| && log[j].Chat? && Quiet(log, j, i) ensures CallAfter(log, j, i) {
      var last := |c.log| - 1;
      assert log[last] == c.log[last];
      if i <= last {
        EarlierCall(c.log, log, j, i);
      } else {
        assert j == last;
      }
    }
  }

  lemma OthersTell(env: Env, s0: State, from: nat, c: Config)
    requires !Terminal(c) && c.node != Think && c.node != Act && Told(env, s0, from, c)
    requires c.s.isApproved == None
    ensures Told(env, s0, from, Step(env, c))
  {
    hide AgentFor, LastAnswer, Genuine, CallAfter;
  }

  /** Every invocation: each entry it adds is genuine, and after each answer come the calls of that answer in order. */
  lemma InvocationIsGenuine(env: Env, s: State, log: seq<Event>)
    requires Fresh(s)
    ensures var after := Invoke(env, s, log).log;
            && log <= after && GenuineFrom(env, s.turn, |log|, after) && CallsInOrder(after, |log|)
  {
    hide Step, Inv, Local, Told;
    var start := Start(s, log);
    var from: nat := |log|;
    Reachable(env, s, log, 0);
    NothingTold(env, s, log);
    forall x | Inv(env, s, x) && Told(env, s, from, x) && !Terminal(x)
      ensures Inv(env, s, Step(env, x)) && Told(env, s, from, Step(env, x))
    {
      StepTells(env, s, from, x);
    }
    Invariance(env, start, Fuel(start), (x: Config) => Inv(env, s, x) && Told(env, s, from, x));
    FuelSuffices(env, start, Fuel(start));
    ToldParts(env, s, from, Invoke(env, s, log));
    Turns.RunAccounting(env, s, log);
  }

  lemma StepTells(env: Env, s0: State, from: nat, c: Config)
    requires Inv(env, s0, c) && Told(env, s0, from, c) && !Terminal(c)
    ensures Inv(env, s0, Step(env, c)) && Told(env, s0, from, Step(env, c))
  {
    hide Step, Inv, Local, Told;
    StepKeepsInv(env, s0, c);
    Reports.InvParts(env, s0, c);
    match c.node
    case Think => ThinkTells(env, s0, from, c);
    case Act => ActTells(env, s0, from, c);
    case _ => OthersTell(env, s0, from, c);
  }

  lemma ToldParts(env: Env, s0: State, from: nat, c: Config)
    requires Told(env, s0, from, c)
    ensures GenuineFrom(env, s0.turn, from, c.log) && CallsInOrder(c.log, from)
  {
  }

  lemma NothingTold(env: Env, s: State, log: seq<Event>)
    ensures Told(env, s, |log|, Start(s, log))
  {
  }

  /** Every approved Resume, of any state: the replay is about the pending calls in order, and all of it is genuine. */
  lemma ResumeIsGenuine(env: Env, s: State, log: seq<Event>)
    ensures var replayed := Replay(env, s, log).log;
            var after := ResumeApproved(env, s, log).log;
            && log <= replayed <= after
            && Follows(replayed, |log|, s.pendingTools)
            && GenuineFrom(env, s.turn, |log|, after) && CallsInOrder(after, |replayed|)
  {
    hide Invoke, Replay, Fresh, Genuine, CallsInOrder;
    var replayed := Replay(env, s, log).log;
    var again := Reentry(env, s, log);
    assert log <= replayed && GenuineFrom(env, s.turn, |log|, replayed) && Follows(replayed, |log|, s.pendingTools) by {
      ReplayIsGenuine(env, s, log);
    }
    Turns.ReentryIsFresh(env, s, log);
    Turns.ReentryBooks(env, s, log);
    InvocationIsGenuine(env, again, replayed);
    GenuineLonger(env, s.turn, |log|, replayed, Invoke(env, again, replayed).log);
  }

  lemma ReplayIsGenuine(env: Env, s: State, log: seq<Event>)
    ensures var replayed := Replay(env, s, log).log;
            log <= replayed && GenuineFrom(env, s.turn, |log|, replayed) && Follows(replayed, |log|, s.pendingTools)
  {
    ActIsGenuine(env, s.turn, s.pendingTools, log);
  }

  /** The requests of a Run: the tools listed at the time, the caller's temperature and model or the defaults. */
  lemma RunRequests(env: Env, input: WorkflowInput, requestID: string, now: string, log: seq<Event>, i: nat)
    requires var after := Run(env, input, requestID, now, log).log;
             |log| <= i < |after| && after[i].Chat?
    ensures var after := Run(env, input, requestID, now, log).log;
            var request := after[i].request;
            && request.model == (if input.model != "" then input.model else "gpt-4o-mini")
            && request.tools == env.listing(after[..i])
            && request.temperature == (if input.temperature > 0.0 then input.temperature else 0.7)
            && request.maxTokens == 4096
  {
    var s := RunState(input, requestID, now);
    hide Finish, CallsInOrder;
    InvocationIsGenuine(env, s, log);
    var after := Invoke(env, s, log).log;
    assert Genuine(env, s.turn, after[..i], after[i]);
    ModelOfRequest(env, input, requestID, now, log, i);
  }

  lemma ModelOfRequest(env: Env, input: WorkflowInput, requestID: string, now: string, log: seq<Event>, i: nat)
    requires var after := Run(env, input, requestID, now, log).log;
             |log| <= i < |after| && after[i].Chat?
    ensures Run(env, input, requestID, now, log).log[i].request.model
         == if input.model != "" then input.model else "gpt-4o-mini"
  {
    hide Finish;
    var s := RunState(input, requestID, now);
    assert Turns.TurnAfter(env, s, log, 0) == Invoke(env, s, log);
    Reports.ModelPerAgentIsNeverUsed(env, input, requestID, now, log, 0, i);
  }

  /** The message that entry `e` leaves, spelled out; a held call and a failed request leave none. */
  predicate Says(env: Env, e: Event, m: ChatMessage) {
    match e
    case Chat(_, reply) => reply.ChatReply? && m == ChatMessage("assistant", reply.content, "", reply.calls, "")
    case Execute(call, outcome) =>
      var body := if outcome.Completed? then outcome.output else env.errorBody(outcome.error);
      m == ChatMessage("tool", body, call.name, [], call.id)
    case BadArguments(call, error) =>
      m == ChatMessage("tool", env.errorBody("failed to parse arguments: " + error), call.name, [], call.id)
    case UnknownTool(call) =>
      m == ChatMessage("tool", env.errorBody("tool not found: " + call.name), call.name, [], call.id)
    case Withheld(_) => false
  }

  predicate Silent(e: Event) {
    e.Withheld? || (e.Chat? && e.reply.ChatError?)
  }

  lemma LeavesWhatItSays(env: Env, e: Event)
    ensures Silent(e) ==> Ledger.MessagesLeft(env, e) == []
    ensures !Silent(e) ==> |Ledger.MessagesLeft(env, e)| == 1 && Says(env, e, Ledger.MessagesLeft(env, e)[0])
  {
  }

  /** Where a Run or an approved Resume ends normally, each entry it logged has left its message in the transcript:
      a tool's output is what the model is told of it. */
  lemma EntriesAreSaid(env: Env, s: State, log: seq<Event>, final: Config, i: nat)
    requires Turns.Grown(env, s, log, final) && final.node == End
    requires |log| <= i < |final.log| && !Silent(final.log[i])
    ensures var at := |s.messages| + |Ledger.Transcript(env, final.log[|log|..i])|;
            at < |final.s.messages| && Says(env, final.log[i], final.s.messages[at])
  {
    hide Ledger.Transcript, Ledger.Tokens, Ledger.Executed, Ledger.Conforming, Ledger.MessagesLeft, Says, Silent;
    var e := final.log[i];
    var before, rest := final.log[|log|..i], final.log[i + 1..];
    assert final.log[|log|..] == (before + [e]) + rest;
    Ledger.TranscriptAppend(env, before + [e], rest);
    Ledger.TranscriptLonger(env, before, e);
    LeavesWhatItSays(env, e);
    var said := Ledger.Transcript(env, before);
    assert final.s.messages == s.messages + ((said + Ledger.MessagesLeft(env, e)) + Ledger.Transcript(env, rest));
  }
}
