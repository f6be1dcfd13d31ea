/** What the LLM is asked: every request of an invocation, and when it says the user's message twice. */
module Requests {
  import opened Wrappers
  import opened JsonValues
  import opened ChatTypes
  import opened AgentStates
  import opened Workflow
  import opened Engine
  import opened Reachability
  import opened Ledger
  import opened Routing
  import opened Turns

  function UserMessage(text: string): ChatMessage {
    ChatMessage("user", text, "", [], "")
  }

  /** The prompt configured for the agent the keywords choose, or the one the state came with. */
  ghost function PromptText(env: Env, s: State): string {
    var agent := RoutedTo(env, s.turn.userInput);
    if agent in env.systemPrompts then env.systemPrompts[agent] else s.systemPrompt
  }

  ghost function Prompt(env: Env, s: State): seq<ChatMessage> {
    if PromptText(env, s) == "" then [] else [ChatMessage("system", PromptText(env, s), "", [], "")]
  }

  lemma RouterPrompts(env: Env, s: State)
    ensures RouterNode(env, s).systemPrompt == PromptText(env, s)
  {
    RoutedByKeywords(env, s.turn.userInput);
    hide AgentFor, RoutedTo;
  }

  /** The message before the end of `body` is something else than the user's. */
  predicate Repeats(userInput: string, body: seq<ChatMessage>) {
    userInput != "" && (body == [] || body[|body| - 1].content != userInput)
  }

  ghost function RequestAfter(env: Env, s: State, said: seq<ChatMessage>): seq<ChatMessage> {
    var body := s.messages + said;
    Prompt(env, s) + body + if Repeats(s.turn.userInput, body) then [UserMessage(s.turn.userInput)] else []
  }

  /** The request at position i of the added log: prompt, input messages and the transcript so far, which is empty
      before the first answer and otherwise ends in a tool message. */
  ghost predicate AsksAt(env: Env, s0: State, added: seq<Event>, i: nat)
    requires i < |added| && added[i].Chat?
  {
    var said := Transcript(env, added[..i]);
    && added[i].request.messages == RequestAfter(env, s0, said)
    && (said == [] <==> Chats(added[..i]) == 0)
    && (said != [] ==> said[|said| - 1].role == "tool")
  }

  ghost predicate AsksThroughout(env: Env, s0: State, added: seq<Event>) {
    forall i :: 0 <= i < |added| && added[i].Chat? ==> AsksAt(env, s0, added, i)
  }

  lemma AsksLonger(env: Env, s0: State, added: seq<Event>, entries: seq<Event>)
    requires AsksThroughout(env, s0, added)
    requires forall i :: 0 <= i < |entries| && entries[i].Chat? ==> AsksAt(env, s0, added + entries, |added| + i)
    ensures AsksThroughout(env, s0, added + entries)
  {
    hide AsksAt;
    var all := added + entries;
    forall i | 0 <= i < |all| && all[i].Chat? ensures AsksAt(env, s0, all, i) {
      if i < |added| {
        assert AsksAt(env, s0, added, i);
        AsksAtLonger(env, s0, added, entries, i);
      } else {
        assert all[i] == entries[i - |added|];
      }
    }
  }

  lemma AsksAtLonger(env: Env, s0: State, added: seq<Event>, entries: seq<Event>, i: nat)
    requires i < |added| && added[i].Chat? && AsksAt(env, s0, added, i)
    ensures AsksAt(env, s0, added + entries, i)
  {
    hide RequestAfter, Transcript, Chats;
    assert (added + entries)[..i] == added[..i];
  }

  // ----- the invariant -----

  /** How far the invocation is: something was answered exactly if the transcript has grown. */
  ghost predicate Progress(s0: State, c: Config, chats: nat) {
    match c.node
    case Router => c.s == s0 && chats == 0
    case Think => chats == 0 <==> c.s.messages == s0.messages
    case Failed => true
    case _ => chats > 0 && c.s.messages != s0.messages
  }

  ghost predicate AsksSoFar(env: Env, s0: State, log0: seq<Event>, c: Config) {
    && log0 <= c.log
    && var added := c.log[|log0|..];
    && AsksThroughout(env, s0, added)
    && c.s.turn == s0.turn
    && (c.node != Router ==> c.s.systemPrompt == PromptText(env, s0))
    && Progress(s0, c, Chats(added))
    && (added != [] ==> added[0].Chat?)
    && (c.node == Failed ==> added != [])
  }

  lemma {:induction false} BlocksEndInTool(ms: seq<ChatMessage>)
    requires Blocks(ms) && ms != []
    ensures ms[|ms| - 1].role == "tool"
    decreases |ms|
  {
    var n := |ms[0].toolCalls|;
    if n + 1 == |ms| {
      assert Answers(ms[1..n + 1][n - 1], ms[0].toolCalls[n - 1]);
    } else {
      BlocksEndInTool(ms[n + 1..]);
    }
  }

  /** The request think makes. */
  lemma ThinkAsksAt(env: Env, s0: State, log0: seq<Event>, c: Config, entry: Event)
    requires c.node == Think && Local(env, s0, c) && Books(env, s0, log0, c) && AsksSoFar(env, s0, log0, c)
    requires entry.Chat? && entry.request == RequestOf(env, c.s, c.log)
    ensures var added := c.log[|log0|..]; AsksAt(env, s0, added + [entry], |added|)
  {
    hide Transcript, Chats, Blocks, PromptText, Tokens, Executed, Conforming, AsksThroughout;
    var added := c.log[|log0|..];
    var said := c.s.messages[|s0.messages|..];
    assert (added + [entry])[..|added|] == added;
    assert c.s.messages == s0.messages + Transcript(env, added);
    assert said == Transcript(env, added);
    if said != [] {
      BlocksEndInTool(said);
    }
  }

  lemma ThinkSteps(env: Env, c: Config)
    requires c.node == Think
    ensures var request := RequestOf(env, c.s, c.log);
            var d := Step(env, c);
            && d.log == c.log + [Chat(request, env.chat(c.log, request))]
            && d.s.turn == c.s.turn && d.s.systemPrompt == c.s.systemPrompt
            && (d.node == Act || d.node == Response || d.node == HumanApproval || d.node == Failed)
            && (d.node != Failed ==> |d.s.messages| == |c.s.messages| + 1)
  {
    hide BuildMessages;
  }

  lemma OneMoreEntry(log0: seq<Event>, log: seq<Event>, entry: Event)
    requires log0 <= log
    ensures log0 <= log + [entry] && (log + [entry])[|log0|..] == log[|log0|..] + [entry]
  {
  }

  lemma ThinkProgress(env: Env, s0: State, log0: seq<Event>, c: Config, d: Config, entry: Event)
    requires c.node == Think && |s0.messages| <= |c.s.messages| && AsksSoFar(env, s0, log0, c)
    requires d.log == c.log + [entry] && entry.Chat? && d.s.turn == c.s.turn && d.s.systemPrompt == c.s.systemPrompt
    requires d.node == Act || d.node == Response || d.node == HumanApproval || d.node == Failed
    requires d.node != Failed ==> |d.s.messages| == |c.s.messages| + 1
    requires AsksThroughout(env, s0, c.log[|log0|..] + [entry])
    ensures AsksSoFar(env, s0, log0, d)
  {
    hide PromptText, AsksThroughout, Chats;
    OneMoreEntry(log0, c.log, entry);
    OneMoreChat(env, log0, c.log, entry);
  }

  lemma ThinkAsks(env: Env, s0: State, log0: seq<Event>, c: Config)
    requires c.node == Think && Local(env, s0, c) && Books(env, s0, log0, c) && AsksSoFar(env, s0, log0, c)
    ensures AsksSoFar(env, s0, log0, Step(env, c))
  {
    hide Phase, Step, Books, RequestOf, AsksThroughout, AsksAt;
    var request := RequestOf(env, c.s, c.log);
    var entry := Chat(request, env.chat(c.log, request));
    ThinkAsksAt(env, s0, log0, c, entry);
    AsksLonger(env, s0, c.log[|log0|..], [entry]);
    ThinkSteps(env, c);
    ThinkProgress(env, s0, log0, c, Step(env, c), entry);
  }

  lemma {:induction false} NoChats(log: seq<Event>)
    requires Chats(log) == 0
    ensures forall e :: e in log ==> !e.Chat?
  {
    if log != [] {
      NoChats(log[..|log| - 1]);
    }
  }

  lemma ActAsksNothing(env: Env, s0: State, log0: seq<Event>, c: Config)
    requires c.node == Act && AsksSoFar(env, s0, log0, c)
    ensures AsksSoFar(env, s0, log0, Step(env, c))
  {
    ActLogged(env, c.s.pendingTools, c.log);
    hide ActOn, PromptText, Chats, Transcript, Tokens, Executed, Conforming, AsksThroughout, Runnable;
    var d := Step(env, c);
    var added, entries := c.log[|log0|..], d.log[|c.log|..];
    assert d.log[|log0|..] == added + entries;
    NoChats(entries);
    AsksLonger(env, s0, added, entries);
    CountsAppend(added, entries);
    assert added != [] by { ChatsOfNothing(added); }
  }

  lemma ChatsOfNothing(log: seq<Event>)
    requires Chats(log) > 0
    ensures log != []
  {
  }

  lemma OthersAskNothing(env: Env, s0: State, log0: seq<Event>, c: Config)
    requires !Terminal(c) && c.node != Think && c.node != Act && Local(env, s0, c) && AsksSoFar(env, s0, log0, c)
    ensures AsksSoFar(env, s0, log0, Step(env, c))
  {
    RouterPrompts(env, c.s);
    hide AgentFor, PromptText, LastAnswer, Chats, AsksThroughout, Blocks, CutAt, Answered, AnswersAll;
  }

  ghost predicate Asking(env: Env, s0: State, log0: seq<Event>, c: Config) {
    Inv(env, s0, c) && Books(env, s0, log0, c) && AsksSoFar(env, s0, log0, c)
  }

  lemma StepKeepsAsking(env: Env, s0: State, log0: seq<Event>, c: Config)
    requires Asking(env, s0, log0, c) && !Terminal(c)
    ensures Asking(env, s0, log0, Step(env, c))
  {
    hide Step, Local, Books, AsksSoFar, NoDecisionEdge;
    StepKeepsInv(env, s0, c);
    StepKeepsBooks(env, s0, log0, c);
    match c.node
    case Think => ThinkAsks(env, s0, log0, c);
    case Act => ActAsksNothing(env, s0, log0, c);
    case _ => OthersAskNothing(env, s0, log0, c);
  }

  lemma AskingAtStart(env: Env, s: State, log: seq<Event>)
    requires Fresh(s)
    ensures Asking(env, s, log, Start(s, log))
  {
    Reachable(env, s, log, 0);
    BooksOpen(env, s, log);
    assert log[|log|..] == [];
  }

  lemma EndsAsking(env: Env, s: State, log: seq<Event>)
    requires Fresh(s)
    ensures Asking(env, s, log, Invoke(env, s, log))
  {
    hide Step, Asking;
    var start := Start(s, log);
    AskingAtStart(env, s, log);
    forall x | Asking(env, s, log, x) && !Terminal(x) ensures Asking(env, s, log, Step(env, x)) {
      StepKeepsAsking(env, s, log, x);
    }
    Invariance(env, start, Fuel(start), (x: Config) => Asking(env, s, log, x));
    FuelSuffices(env, start, Fuel(start));
  }

  // ----- main results -----

  /** Every request of every invocation, failed ones included; the first is made before anything else is logged. */
  lemma RequestsAreTranscripts(env: Env, s: State, log: seq<Event>)
    requires Fresh(s)
    ensures var final := Invoke(env, s, log);
            && log <= final.log
            && var added := final.log[|log|..];
            && AsksThroughout(env, s, added)
            && added != [] && added[0].Chat?
  {
    hide Finish, AsksThroughout, Inv, Books, Chats;
    EndsAsking(env, s, log);
    NothingAsked();
    assert Terminal(Invoke(env, s, log));
  }

  lemma NothingAsked()
    ensures Chats([]) == 0
  {
  }

  /** The request says the input messages and the transcript and no more. */
  ghost predicate SaysOnce(env: Env, s: State, added: seq<Event>, i: nat)
    requires i < |added| && added[i].Chat?
  {
    added[i].request.messages == Prompt(env, s) + s.messages + Transcript(env, added[..i])
  }

  /** The last tool message before the request is the user's own text. */
  ghost predicate Echoed(env: Env, s: State, added: seq<Event>, i: nat)
    requires i <= |added|
  {
    var said := Transcript(env, added[..i]);
    said != [] && said[|said| - 1].role == "tool" && said[|said| - 1].content == s.turn.userInput
  }

  predicate EndsWithInput(s: State) {
    s.messages != [] && s.messages[|s.messages| - 1].content == s.turn.userInput
  }

  lemma SaysOnceAtIff(env: Env, s: State, added: seq<Event>, i: nat)
    requires EndsWithInput(s) && i < |added| && added[i].Chat? && AsksAt(env, s, added, i)
    ensures SaysOnce(env, s, added, i)
       <==> s.turn.userInput == "" || Chats(added[..i]) == 0 || Echoed(env, s, added, i)
  {
    hide Transcript, Chats, Prompt;
    var said := Transcript(env, added[..i]);
    var body := s.messages + said;
    assert Prompt(env, s) + body == Prompt(env, s) + s.messages + said;
    if Repeats(s.turn.userInput, body) {
      assert |added[i].request.messages| == |Prompt(env, s) + body| + 1;
    } else {
      assert added[i].request.messages == Prompt(env, s) + body;
    }
  }

  /** When the input messages end with the user's text, as those of a stored conversation do, all requests of an
      invocation say it once if and only if every request after the first follows a tool message that is this text. */
  lemma SaidOnceIff(env: Env, s: State, log: seq<Event>)
    requires Fresh(s) && EndsWithInput(s)
    ensures var final := Invoke(env, s, log);
            && log <= final.log
            && var added := final.log[|log|..];
            && ((forall i :: 0 <= i < |added| && added[i].Chat? ==> SaysOnce(env, s, added, i))
                <==> s.turn.userInput == ""
                     || forall i :: 0 <= i < |added| && added[i].Chat? ==>
                          Chats(added[..i]) == 0 || Echoed(env, s, added, i))
            && (Chats(added) == 1 ==>
                  forall i :: 0 <= i < |added| && added[i].Chat? ==> SaysOnce(env, s, added, i))
  {
    hide Invoke, AsksAt, SaysOnce, Echoed, EndsWithInput, Fresh, Chats;
    RequestsAreTranscripts(env, s, log);
    var added := Invoke(env, s, log).log[|log|..];
    forall i | 0 <= i < |added| && added[i].Chat?
      ensures SaysOnce(env, s, added, i)
         <==> s.turn.userInput == "" || Chats(added[..i]) == 0 || Echoed(env, s, added, i)
      ensures Chats(added) == 1 ==> Chats(added[..i]) == 0
    {
      assert AsksAt(env, s, added, i);
      SaysOnceAtIff(env, s, added, i);
      ChatsBefore(env, added, i);
    }
  }

  lemma ChatsBefore(env: Env, added: seq<Event>, i: nat)
    requires i < |added| && added[i].Chat?
    ensures Chats(added[..i]) < Chats(added)
  {
    hide Chats;
    var rest := added[i + 1..];
    assert added == added[..i] + [added[i]] + rest;
    CountsAppend(added[..i] + [added[i]], rest);
    CountsAppend(added[..i], [added[i]]);
    SingleEntry(env, added[i]);
  }

  /** The first request after an approved pause follows a tool message, or the message that asked for the held call,
      never the user's; so it says the user's message again unless that message happens to be the same text. */
  lemma ResumeSaysItAgain(env: Env, s: State, log: seq<Event>)
    requires Paused(env, s)
    ensures var replayed := Replay(env, s, log).log;
            var after := Reentry(env, s, log);
            var final := ResumeApproved(env, s, log);
            && replayed < final.log && final.log[|replayed|].Chat?
            && after.messages != []
            && after.messages[|after.messages| - 1].role != "user"
            && final.log[|replayed|].request.messages == RequestAfter(env, after, [])
  {
    hide Invoke, Reentry, Replay, Transcript, Chats, RequestAfter, Fresh;
    var replayed := Replay(env, s, log).log;
    var after := Reentry(env, s, log);
    ReentryIsFresh(env, s, log);
    RequestsAreTranscripts(env, after, replayed);
    var added := Invoke(env, after, replayed).log[|replayed|..];
    assert AsksAt(env, after, added, 0);
    assert added[..0] == [];
    NothingAsked();
    assert Transcript(env, []) == [];
    LastOfReentry(env, s, log);
  }

  lemma LastOfReentry(env: Env, s: State, log: seq<Event>)
    requires Paused(env, s)
    ensures var after := Reentry(env, s, log);
            after.messages != [] && after.messages[|after.messages| - 1].role != "user"
  {
    ReplayRepeatsThePrefix(env, s, log);
    hide Reentry, Replay, FirstHeld;
    var after := Reentry(env, s, log);
    var k := FirstHeld(env, s.pendingTools);
    if k > 0 {
      assert Answers(after.messages[|s.messages|..][k - 1], s.pendingTools[..k][k - 1]);
    } else {
      assert after.messages == s.messages;
    }
  }

  // ----- one run that says it twice -----

  const CALL := ToolCall("1", "function", "lookup", "{}")

  /** No tools; the LLM asks for one anyway and then answers. */
  function NoTools(): Env {
    Env(map[], (log: seq<Event>, request: ChatRequest) =>
          if |log| == 0 then ChatReply("", [CALL], 1) else ChatReply("done", [], 1),
        (_, _, _) => Faulted(""), _ => [], _ => Ok(JNull), _ => "{}", s => s, map[], map[])
  }

  function Greeting(): State {
    RunState(WorkflowInput("c", "u", "hello", "m", [UserMessage("hello")], 0.0), "", "")
  }

  const ASKED := [UserMessage("hello"), AssistantMessage("", [CALL])]
  const TOLD := ASKED + [ToolMessage(CALL, "{}")]

  lemma GreetingAsks()
    ensures var c1 := Step(NoTools(), Start(Greeting(), []));
            && c1.node == Think
            && var c2 := Step(NoTools(), c1);
            && c2.node == Act && |c2.log| == 1 && c2.s.messages == ASKED && c2.s.pendingTools == [CALL]
            && c2.s.systemPrompt == "" && c2.s.turn.userInput == "hello" && c2.s.turn.maxIterations == 10
            && c2.s.iteration == 0 && !c2.s.requiresApproval && !c2.s.shouldStop
  {
    hide AgentFor, BuildMessages;
  }

  lemma GreetingActs(c: Config)
    requires c.node == Act && |c.log| == 1 && c.s.messages == ASKED && c.s.pendingTools == [CALL]
    requires c.s.systemPrompt == "" && c.s.turn.userInput == "hello" && c.s.turn.maxIterations == 10
    requires c.s.iteration == 0 && !c.s.requiresApproval && !c.s.shouldStop
    ensures var c3 := Step(NoTools(), c);
            && c3.node == Observe
            && var c4 := Step(NoTools(), c3);
            && c4.node == Think && |c4.log| == 2 && c4.s.messages == TOLD
            && c4.s.systemPrompt == "" && c4.s.turn.userInput == "hello" && !c4.s.requiresApproval
  {
    ToolIsUnknown(c.log);
    hide ActOn, NoTools;
    assert ASKED + [ToolMessage(CALL, "{}")] == TOLD;
  }

  lemma ToolIsUnknown(log: seq<Event>)
    ensures ActOn(NoTools(), [CALL], log)
         == Acted([ToolMessage(CALL, "{}")], log + [UnknownTool(CALL)], 0, None)
  {
    assert Judge(NoTools(), CALL).Refuse?;
    assert [CALL][1..] == [];
    ActOnNothing(NoTools(), log + [UnknownTool(CALL)]);
  }

  lemma GreetingIsRepeated(c: Config)
    requires c.node == Think && |c.log| == 2 && c.s.messages == TOLD
    requires c.s.systemPrompt == "" && c.s.turn.userInput == "hello" && !c.s.requiresApproval
    ensures var c5 := Step(NoTools(), c);
            && c5.node == Response && |c5.log| == 3 && c5.log[2].Chat?
            && c5.log[2].request.messages == TOLD + [UserMessage("hello")]
            && Step(NoTools(), c5).node == End && Step(NoTools(), c5).log == c5.log
  {
    hide LastAnswer;
  }

  lemma SaidTwice()
    ensures var log := Invoke(NoTools(), Greeting(), []).log;
            && |log| == 3 && log[2].Chat?
            && log[2].request.messages == [UserMessage("hello"), AssistantMessage("", [CALL]), ToolMessage(CALL, "{}"),
                                           UserMessage("hello")]
  {
    hide Step, Finish, NoTools, Greeting;
    var env := NoTools();
    var c0 := Start(Greeting(), []);
    GreetingAsks();
    var c1 := Step(env, c0);
    var c2 := Step(env, c1);
    GreetingActs(c2);
    var c3 := Step(env, c2);
    var c4 := Step(env, c3);
    GreetingIsRepeated(c4);
    var c5 := Step(env, c4);
    FinishStep(env, c0);
    FinishStep(env, c1);
    FinishStep(env, c2);
    FinishStep(env, c3);
    FinishStep(env, c4);
    FinishStep(env, c5);
    FinishStep(env, Step(env, c5));
  }
}
