/** The chatbot graph as a small-step machine over (node, state, log of outside events)
    (internal/infrastructure/eino/graphs/chatbot_graph.go). */
module Workflow {
  import opened Wrappers
  import opened JsonValues
  import opened ChatTypes
  import opened AgentStates

  /** What the engine asked of the outside world, in order. Calls it answers by itself are logged too. */
  datatype Event =
    | Chat(request: ChatRequest, reply: Reply)
    | Execute(call: ToolCall, outcome: ToolOutcome)
    | BadArguments(call: ToolCall, error: string)
    | UnknownTool(call: ToolCall)
    | Withheld(call: ToolCall)

  /** The world around one engine: a fixed registry (name to RequiresApproval), and oracles for the LLM, the tools,
      argument parsing and letter case. LLM and tools may answer differently after every different history. */
  datatype Env = Env(
    tools: map<string, bool>,
    chat: (seq<Event>, ChatRequest) -> Reply,
    execute: (seq<Event>, string, Json) -> ToolOutcome,
    listing: seq<Event> -> seq<ToolDef>,
    parseArguments: string -> Result<Json, string>,
    errorBody: string -> string,
    lower: string -> string,
    systemPrompts: map<string, string>,
    modelConfig: map<string, string>)

  datatype Node = Router | Think | Act | Observe | HumanApproval | Response | End | Failed

  /** `path` lists the nodes already executed. */
  datatype Config = Config(node: Node, path: seq<Node>, s: State, log: seq<Event>)

  predicate Terminal(c: Config) {
    c.node == End || c.node == Failed
  }

  // ----- router -----

  const CODE_KEYWORDS := ["code", "function", "program", "debug", "fix", "implement", "class", "api"]
  const RESEARCH_KEYWORDS := ["search", "find", "research", "what is", "who is", "latest", "news", "current"]

  predicate OccursAt(s: string, sub: string, i: int) {
    0 <= i <= |s| - |sub| && s[i..i + |sub|] == sub
  }

  predicate Contains(s: string, sub: string) {
    exists i :: 0 <= i <= |s| - |sub| && OccursAt(s, sub, i)
  }

  predicate ContainsIgnoreCase(env: Env, s: string, sub: string) {
    Contains(env.lower(s), env.lower(sub))
  }

  predicate Mentions(env: Env, input: string, keywords: seq<string>) {
    exists i :: 0 <= i < |keywords| && ContainsIgnoreCase(env, input, keywords[i])
  }

  function AgentFor(env: Env, input: string): string {
    if Mentions(env, input, RESEARCH_KEYWORDS) then "researcher"
    else if Mentions(env, input, CODE_KEYWORDS) then "coder"
    else "general"
  }

  function RouterNode(env: Env, s: State): State {
    var agent := AgentFor(env, s.turn.userInput);
    s.(currentAgent := agent,
       agentHistory := s.agentHistory + [agent],
       model := if agent in env.modelConfig && s.model == "" then env.modelConfig[agent] else s.model,
       systemPrompt := if agent in env.systemPrompts then env.systemPrompts[agent] else s.systemPrompt)
  }

  // ----- think -----

  function BuildMessages(s: State): seq<ChatMessage> {
    var system := if s.systemPrompt != "" then [ChatMessage("system", s.systemPrompt, "", [], "")] else [];
    var last := |s.messages| - 1;
    var repeat := s.turn.userInput != "" && (s.messages == [] || s.messages[last].content != s.turn.userInput);
    system + s.messages + (if repeat then [ChatMessage("user", s.turn.userInput, "", [], "")] else [])
  }

  function RequestOf(env: Env, s: State, log: seq<Event>): ChatRequest {
    ChatRequest(s.model, BuildMessages(s), env.listing(log), s.turn.temperature, s.turn.maxTokens)
  }

  function ThinkNode(env: Env, s: State, log: seq<Event>, reply: Reply): State {
    var listed := s.(availableTools := env.listing(log));
    match reply
    case ChatError(error) => listed.(error := error)
    case ChatReply(content, calls, tokens) =>
      listed.(tokensUsed := s.tokensUsed + tokens,
              currentOutput := content,
              pendingTools := calls,
              messages := s.messages + [AssistantMessage(content, calls)])
  }

  // ----- act -----

  /** How act disposes of one call. */
  datatype Verdict = Refuse(event: Event, body: string) | Hold(args: Json) | Allow(args: Json)

  function Judge(env: Env, call: ToolCall): Verdict {
    match env.parseArguments(call.arguments)
    case Err(e) => Refuse(BadArguments(call, e), "failed to parse arguments: " + e)
    case Ok(args) =>
      if call.name !in env.tools then Refuse(UnknownTool(call), "tool not found: " + call.name)
      else if env.tools[call.name] then Hold(args)
      else Allow(args)
  }

  /** The call parses, names a registered tool, and that tool asks for approval. */
  predicate NeedsApproval(env: Env, call: ToolCall) {
    && env.parseArguments(call.arguments).Ok?
    && call.name in env.tools
    && env.tools[call.name]
  }

  function OutcomeBody(env: Env, outcome: ToolOutcome): string {
    match outcome
    case Completed(output) => output
    case Faulted(error) => env.errorBody(error)
  }

  datatype HeldCall = HeldCall(call: ToolCall, args: Json)

  datatype Acted = Acted(results: seq<ChatMessage>, log: seq<Event>, executed: nat, held: Option<HeldCall>)

  /** The calls one after the other, up to the first one that is held back. */
  function ActOn(env: Env, calls: seq<ToolCall>, log: seq<Event>): Acted {
    if calls == [] then Acted([], log, 0, None)
    else
      var call := calls[0];
      match Judge(env, call)
      case Hold(args) => Acted([], log + [Withheld(call)], 0, Some(HeldCall(call, args)))
      case Refuse(event, body) =>
        var rest := ActOn(env, calls[1..], log + [event]);
        rest.(results := [ToolMessage(call, env.errorBody(body))] + rest.results)
      case Allow(args) =>
        var outcome := env.execute(log, call.name, args);
        var rest := ActOn(env, calls[1..], log + [Execute(call, outcome)]);
        rest.(results := [ToolMessage(call, OutcomeBody(env, outcome))] + rest.results, executed := rest.executed + 1)
  }

  lemma ActOnFirst(env: Env, calls: seq<ToolCall>, log: seq<Event>)
    requires calls != [] && !Judge(env, calls[0]).Hold?
    ensures var one := ActOn(env, [calls[0]], log);
            var rest := ActOn(env, calls[1..], one.log);
            ActOn(env, calls, log)
              == Acted(one.results + rest.results, rest.log, one.executed + rest.executed, rest.held)
  {
    assert [calls[0]][1..] == [];
  }

  lemma ActOnHeld(env: Env, calls: seq<ToolCall>, log: seq<Event>)
    requires calls != [] && Judge(env, calls[0]).Hold?
    ensures ActOn(env, calls, log)
         == Acted([], log + [Withheld(calls[0])], 0, Some(HeldCall(calls[0], Judge(env, calls[0]).args)))
  {
  }

  lemma ActOnNothing(env: Env, log: seq<Event>)
    ensures ActOn(env, [], log) == Acted([], log, 0, None)
  {
  }

  function ApprovalReasonFor(call: ToolCall): string {
    "Tool '" + call.name + "' requires approval"
  }

  function ActNode(s: State, acted: Acted): State {
    var done := s.(toolResults := acted.results, toolCallsCount := s.toolCallsCount + acted.executed);
    match acted.held
    case None => done.(pendingTools := [])
    case Some(h) =>
      done.(requiresApproval := true,
            approvalReason := ApprovalReasonFor(h.call),
            approvalData := Held(h.call, h.args))
  }

  // ----- observe and response -----

  function ObserveNode(s: State): State {
    s.(messages := s.messages + s.toolResults,
       toolResults := [],
       iteration := s.iteration + 1,
       shouldStop := s.shouldStop || s.iteration + 1 >= s.turn.maxIterations)
  }

  /** The content of the last assistant message that has any. */
  function LastAnswer(messages: seq<ChatMessage>): string {
    if messages == [] then ""
    else
      var last := messages[|messages| - 1];
      if last.role == "assistant" && last.content != "" then last.content
      else LastAnswer(messages[..|messages| - 1])
  }

  function ResponseNode(s: State): State {
    s.(currentOutput := if s.currentOutput == "" then LastAnswer(s.messages) else s.currentOutput,
       shouldStop := true)
  }

  // ----- edges -----

  function RouteAfterThink(s: State): Node {
    if |s.pendingTools| > 0 then Act else if s.requiresApproval then HumanApproval else Response
  }

  function RouteAfterObserve(s: State): Node {
    if s.shouldStop then Response else if s.requiresApproval then HumanApproval else Think
  }

  function RouteAfterApproval(s: State): Node {
    match s.isApproved
    case None => End
    case Some(yes) => if yes then Act else Response
  }

  function Step(env: Env, c: Config): Config
    requires !Terminal(c)
  {
    var path := c.path + [c.node];
    match c.node
    case Router => Config(Think, path, RouterNode(env, c.s), c.log)
    case Think =>
      var request := RequestOf(env, c.s, c.log);
      var reply := env.chat(c.log, request);
      var s := ThinkNode(env, c.s, c.log, reply);
      Config(if reply.ChatError? then Failed else RouteAfterThink(s), path, s, c.log + [Chat(request, reply)])
    case Act =>
      var acted := ActOn(env, c.s.pendingTools, c.log);
      Config(Observe, path, ActNode(c.s, acted), acted.log)
    case Observe =>
      var s := ObserveNode(c.s);
      Config(RouteAfterObserve(s), path, s, c.log)
    case HumanApproval => Config(RouteAfterApproval(c.s), path, c.s, c.log)
    case Response => Config(End, path, ResponseNode(c.s), c.log)
  }

  // ----- whole runs -----

  function Remaining(s: State): nat {
    if s.iteration < s.turn.maxIterations then s.turn.maxIterations - s.iteration else 0
  }

  function Rank(n: Node): nat {
    match n
    case Router => 6
    case Think => 5
    case HumanApproval => 4
    case Act => 3
    case Observe => 2
    case Response => 1
    case _ => 0
  }

  /** Steps that are certainly enough: both cycles of the graph pass through observe. */
  function Fuel(c: Config): nat {
    4 * Remaining(c.s) + Rank(c.node)
  }

  lemma StepBurnsFuel(env: Env, c: Config)
    requires !Terminal(c)
    ensures Fuel(Step(env, c)) < Fuel(c)
  {
  }

  /** The configuration the graph ends in. */
  function Finish(env: Env, c: Config): (r: Config)
    ensures Terminal(r)
    decreases Fuel(c)
  {
    if Terminal(c) then c
    else
      StepBurnsFuel(env, c);
      Finish(env, Step(env, c))
  }

  function Start(s: State, log: seq<Event>): Config {
    Config(Router, [], s, log)
  }

  function Invoke(env: Env, s: State, log: seq<Event>): Config {
    Finish(env, Start(s, log))
  }
}
