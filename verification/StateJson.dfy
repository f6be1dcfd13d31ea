/** ToJSON and FromJSON of the agent state (internal/infrastructure/eino/state/agent_state.go:129-141),
    with Go's rules: `omitempty` drops empty values, absent and null members decode to zero values. */
module StateJson {
  import opened Wrappers
  import opened JsonValues
  import opened ChatTypes
  import opened AgentStates

  // ----- members -----

  /** Decoding fails on a value of the wrong kind; a missing or null member is fine. */
  predicate IsText(j: Json) {
    j.JNull? || j.JStr?
  }

  function TextOf(j: Json): string {
    if j.JStr? then j.s else ""
  }

  predicate IsFlag(j: Json) {
    j.JNull? || j.JBool?
  }

  function FlagOf(j: Json): bool {
    j.JBool? && j.b
  }

  predicate IsReal(j: Json) {
    j.JNull? || j.JNum?
  }

  function RealOf(j: Json): real {
    if j.JNum? then j.n else 0.0
  }

  predicate IsInt(j: Json) {
    j.JNull? || (j.JNum? && j.n.Floor as real == j.n)
  }

  function IntOf(j: Json): int {
    RealOf(j).Floor
  }

  function IntJson(n: int): Json {
    JNum(n as real)
  }

  function TextJson(s: string): Json {
    JStr(s)
  }

  // ----- slices -----

  /** A nil slice is written as null, any other as an array. */
  function SliceJson<T>(xs: seq<T>, item: T -> Json, isNil: bool): Json {
    if xs == [] && isNil then JNull else JArr(seq(|xs|, i requires 0 <= i < |xs| => item(xs[i])))
  }

  predicate IsSlice(j: Json, item: Json -> bool) {
    j.JNull? || (j.JArr? && forall i :: 0 <= i < |j.items| ==> item(j.items[i]))
  }

  function SliceOf<T>(j: Json, item: Json -> T): seq<T> {
    if j.JArr? then seq(|j.items|, i requires 0 <= i < |j.items| => item(j.items[i])) else []
  }

  // ----- tool calls and messages -----

  function CallField(c: ToolCall, k: Key): Json {
    match k
    case Id => JStr(c.id)
    case TypeKey => JStr(c.kind)
    case FunctionKey => JObj((f: Key) => FunctionField(c, f))
    case _ => JNull
  }

  function FunctionField(c: ToolCall, k: Key): Json {
    match k
    case Name => JStr(c.name)
    case Arguments => JStr(c.arguments)
    case _ => JNull
  }

  function CallJson(c: ToolCall): Json {
    JObj((k: Key) => CallField(c, k))
  }

  /** The members of an object; null has none. */
  function MembersOf(j: Json): Key -> Json {
    match j
    case JObj(members) => members
    case JMap(entries) => (k: Key) => if k in entries then entries[k] else JNull
    case _ => (k: Key) => JNull
  }

  predicate IsObject(j: Json) {
    j.JNull? || j.JObj? || j.JMap?
  }

  predicate IsCall(j: Json) {
    var m := MembersOf(j);
    var f := MembersOf(m(FunctionKey));
    && IsObject(j) && IsText(m(Id)) && IsText(m(TypeKey))
    && IsObject(m(FunctionKey)) && IsText(f(Name)) && IsText(f(Arguments))
  }

  function CallOf(j: Json): ToolCall {
    var m := MembersOf(j);
    var f := MembersOf(m(FunctionKey));
    ToolCall(TextOf(m(Id)), TextOf(m(TypeKey)), TextOf(f(Name)), TextOf(f(Arguments)))
  }

  function OmitEmpty(text: string): Json {
    if text == "" then JNull else JStr(text)
  }

  function MessageField(m: ChatMessage, k: Key): Json {
    match k
    case Role => JStr(m.role)
    case Content => OmitEmpty(m.content)
    case Name => OmitEmpty(m.name)
    case ToolCalls => SliceJson(m.toolCalls, CallJson, m.toolCalls == [])
    case ToolCallId => OmitEmpty(m.toolCallID)
    case _ => JNull
  }

  function MessageJson(m: ChatMessage): Json {
    JObj((k: Key) => MessageField(m, k))
  }

  predicate IsMessage(j: Json) {
    var m := MembersOf(j);
    && IsObject(j) && IsText(m(Role)) && IsText(m(Content)) && IsText(m(Name))
    && IsSlice(m(ToolCalls), IsCall) && IsText(m(ToolCallId))
  }

  function MessageOf(j: Json): ChatMessage {
    var m := MembersOf(j);
    ChatMessage(TextOf(m(Role)), TextOf(m(Content)), TextOf(m(Name)), SliceOf(m(ToolCalls), CallOf),
                TextOf(m(ToolCallId)))
  }

  // ----- schemas -----

  const PROPERTY_KEYS: set<Key> := {TypeKey, Description, Enum, Items, Default, Minimum, Maximum}

  function OptionalReal(r: Option<real>): Json {
    if r.Some? then JNum(r.value) else JNull
  }

  function OptionalFlag(b: Option<bool>): Json {
    if b.Some? then JBool(b.value) else JNull
  }

  function PropertyField(p: PropertySchema, k: Key): Json
    decreases p, 0
  {
    match k
    case TypeKey => JStr(p.kind)
    case Description => OmitEmpty(p.description)
    case Enum => SliceJson(p.enum, TextJson, p.enum == [])
    case Items => if p.items.Some? then PropertyJson(p.items.value) else JNull
    case Default => p.defaultValue
    case Minimum => OptionalReal(p.minimum)
    case Maximum => OptionalReal(p.maximum)
    case _ => JNull
  }

  function PropertyJson(p: PropertySchema): (j: Json)
    ensures j.JMap?
    decreases p, 1
  {
    JMap(map k | k in PROPERTY_KEYS && !PropertyField(p, k).JNull? :: PropertyField(p, k))
  }

  function Entry(j: Json, k: Key): Json {
    if j.JMap? && k in j.entries then j.entries[k] else JNull
  }

  predicate IsProperty(j: Json) {
    && (j.JNull? || j.JMap?)
    && IsText(Entry(j, TypeKey)) && IsText(Entry(j, Description)) && IsSlice(Entry(j, Enum), IsText)
    && (j.JMap? && Items in j.entries ==> IsProperty(j.entries[Items]))
    && IsReal(Entry(j, Minimum)) && IsReal(Entry(j, Maximum))
  }

  function PropertyOf(j: Json): PropertySchema {
    PropertySchema(TextOf(Entry(j, TypeKey)), TextOf(Entry(j, Description)), SliceOf(Entry(j, Enum), TextOf),
                   if j.JMap? && Items in j.entries && !j.entries[Items].JNull? then Some(PropertyOf(j.entries[Items]))
                   else None,
                   Entry(j, Default), RealOption(Entry(j, Minimum)), RealOption(Entry(j, Maximum)))
  }

  function RealOption(j: Json): Option<real> {
    if j.JNum? then Some(j.n) else None
  }

  function FlagOption(j: Json): Option<bool> {
    if j.JBool? then Some(j.b) else None
  }

  /** Go leaves an empty map out. */
  function PropertiesJson(ps: map<string, PropertySchema>): Json {
    if |ps| == 0 then JNull else JMap(map n | n in ps :: Free(n) := PropertyJson(ps[n]))
  }

  predicate IsProperties(j: Json) {
    j.JNull? || (j.JMap? && forall k :: k in j.entries ==> k.Free? && IsProperty(j.entries[k]))
  }

  function PropertiesOf(j: Json): map<string, PropertySchema> {
    if j.JMap? then map k | k in j.entries && k.Free? :: k.text := PropertyOf(j.entries[k]) else map[]
  }

  function SchemaField(s: JSONSchema, k: Key): Json {
    match k
    case TypeKey => JStr(s.kind)
    case Description => OmitEmpty(s.description)
    case Properties => PropertiesJson(s.properties)
    case Required => SliceJson(s.required, TextJson, s.required == [])
    case AdditionalProperties => OptionalFlag(s.additionalProperties)
    case _ => JNull
  }

  function SchemaJson(s: JSONSchema): Json {
    JObj((k: Key) => SchemaField(s, k))
  }

  predicate IsSchema(j: Json) {
    var m := MembersOf(j);
    && IsObject(j) && IsText(m(TypeKey)) && IsText(m(Description)) && IsProperties(m(Properties))
    && IsSlice(m(Required), IsText) && IsFlag(m(AdditionalProperties))
  }

  function SchemaOf(j: Json): Option<JSONSchema> {
    if j.JNull? then None
    else
      var m := MembersOf(j);
      Some(JSONSchema(TextOf(m(TypeKey)), TextOf(m(Description)), PropertiesOf(m(Properties)),
                      SliceOf(m(Required), TextOf), FlagOption(m(AdditionalProperties))))
  }

  // ----- tools -----

  function ToolField(t: ToolDef, k: Key): Json {
    match k
    case TypeKey => JStr(t.kind)
    case FunctionKey => JObj((f: Key) => DefinitionField(t, f))
    case _ => JNull
  }

  function DefinitionField(t: ToolDef, k: Key): Json {
    match k
    case Name => JStr(t.name)
    case Description => JStr(t.description)
    case Parameters => if t.parameters.None? then JNull else SchemaJson(t.parameters.value)
    case Strict => if t.strict then JBool(true) else JNull
    case _ => JNull
  }

  function ToolJson(t: ToolDef): Json {
    JObj((k: Key) => ToolField(t, k))
  }

  predicate IsTool(j: Json) {
    var m := MembersOf(j);
    var f := MembersOf(m(FunctionKey));
    && IsObject(j) && IsText(m(TypeKey)) && IsObject(m(FunctionKey))
    && IsText(f(Name)) && IsText(f(Description)) && IsSchema(f(Parameters)) && IsFlag(f(Strict))
  }

  function ToolOf(j: Json): ToolDef {
    var m := MembersOf(j);
    var f := MembersOf(m(FunctionKey));
    ToolDef(TextOf(m(TypeKey)), TextOf(f(Name)), TextOf(f(Description)),
            SchemaOf(f(Parameters)), FlagOf(f(Strict)))
  }

  // ----- the whole state -----

  function HeldField(call: ToolCall, args: Json, k: Key): Json {
    match k
    case ToolName => JStr(call.name)
    case Arguments => args
    case ToolCallKey => CallJson(call)
    case _ => JNull
  }

  function ApprovalJson(d: ApprovalData): Json {
    match d
    case NoData => JObj((k: Key) => JNull)
    case Held(call, args) => JObj((k: Key) => HeldField(call, args, k))
    case Decoded(j) => j
  }

  /** The member written for each field; `nils` says which empty slices are nil. */
  function StateField(s: State, nils: set<Key>, k: Key): Json {
    match k
    case ConversationId => JStr(s.turn.conversationID)
    case UserId => JStr(s.turn.userID)
    case RequestId => JStr(s.turn.requestID)
    case Messages => SliceJson(s.messages, MessageJson, k in nils)
    case SystemPrompt => JStr(s.systemPrompt)
    case UserInput => JStr(s.turn.userInput)
    case CurrentOutput => JStr(s.currentOutput)
    case Model => JStr(s.model)
    case Temperature => JNum(s.turn.temperature)
    case MaxTokens => IntJson(s.turn.maxTokens)
    case AvailableTools => SliceJson(s.availableTools, ToolJson, k in nils)
    case PendingTools => SliceJson(s.pendingTools, CallJson, k in nils)
    case ToolResults => SliceJson(s.toolResults, MessageJson, k in nils)
    case CurrentAgent => JStr(s.currentAgent)
    case NextAgent => JStr(s.turn.nextAgent)
    case AgentHistory => SliceJson(s.agentHistory, TextJson, k in nils)
    case RequiresApproval => JBool(s.requiresApproval)
    case ApprovalReason => JStr(s.approvalReason)
    case ApprovalDataKey => ApprovalJson(s.approvalData)
    case IsApproved => if s.isApproved.None? then JNull else JBool(s.isApproved.value)
    case Iteration => IntJson(s.iteration)
    case MaxIterations => IntJson(s.turn.maxIterations)
    case ShouldStop => JBool(s.shouldStop)
    case ErrorKey => OmitEmpty(s.error)
    case StartTime => JStr(s.turn.startTime)
    case TokensUsed => IntJson(s.tokensUsed)
    case ToolCallsCount => IntJson(s.toolCallsCount)
    case _ => JNull
  }

  function ToObject(s: State, nils: set<Key>): Json {
    JObj((k: Key) => StateField(s, nils, k))
  }

  function ToJSON(s: State, nils: set<Key>): JsonText {
    Denotes(ToObject(s, nils))
  }

  predicate IsState(j: Json) {
    var m := MembersOf(j);
    IsObject(j) && HasSlices(m) && HasIdentity(m) && HasTurn(m) && HasRouting(m) && HasApproval(m) && HasNumbers(m)
  }

  predicate HasSlices(m: Key -> Json) {
    && IsSlice(m(Messages), IsMessage) && IsSlice(m(AvailableTools), IsTool)
    && IsSlice(m(PendingTools), IsCall) && IsSlice(m(ToolResults), IsMessage)
  }

  predicate HasIdentity(m: Key -> Json) {
    && IsText(m(ConversationId)) && IsText(m(UserId)) && IsText(m(RequestId)) && IsText(m(StartTime))
  }

  predicate HasTurn(m: Key -> Json) {
    && IsText(m(SystemPrompt)) && IsText(m(UserInput)) && IsText(m(CurrentOutput)) && IsText(m(Model))
    && IsText(m(ErrorKey))
  }

  predicate HasRouting(m: Key -> Json) {
    && IsText(m(CurrentAgent)) && IsText(m(NextAgent)) && IsSlice(m(AgentHistory), IsText) && IsText(m(ApprovalReason))
  }

  predicate HasApproval(m: Key -> Json) {
    && IsFlag(m(RequiresApproval)) && IsObject(m(ApprovalDataKey)) && IsFlag(m(IsApproved)) && IsFlag(m(ShouldStop))
  }

  predicate HasNumbers(m: Key -> Json) {
    && IsReal(m(Temperature)) && IsInt(m(MaxTokens)) && IsInt(m(Iteration)) && IsInt(m(MaxIterations))
    && IsInt(m(TokensUsed)) && IsInt(m(ToolCallsCount))
  }

  function StateOf(m: Key -> Json): State {
    State(Turn(TextOf(m(ConversationId)), TextOf(m(UserId)), TextOf(m(RequestId)), TextOf(m(UserInput)),
               RealOf(m(Temperature)), IntOf(m(MaxTokens)), TextOf(m(NextAgent)), IntOf(m(MaxIterations)),
               TextOf(m(StartTime))),
          SliceOf(m(Messages), MessageOf), TextOf(m(SystemPrompt)), TextOf(m(CurrentOutput)), TextOf(m(Model)),
          SliceOf(m(AvailableTools), ToolOf), SliceOf(m(PendingTools), CallOf), SliceOf(m(ToolResults), MessageOf),
          TextOf(m(CurrentAgent)), SliceOf(m(AgentHistory), TextOf),
          FlagOf(m(RequiresApproval)), TextOf(m(ApprovalReason)), Decoded(m(ApprovalDataKey)),
          if m(IsApproved).JBool? then Some(m(IsApproved).b) else None,
          IntOf(m(Iteration)), FlagOf(m(ShouldStop)), TextOf(m(ErrorKey)),
          IntOf(m(TokensUsed)), IntOf(m(ToolCallsCount)))
  }

  function FromJSON(text: JsonText): Option<State> {
    if text.Denotes? && IsState(text.value) then Some(StateOf(MembersOf(text.value))) else None
  }

  /** Approval data written by a state is an object or null, as a Go map is. */
  predicate Writable(s: State) {
    s.approvalData.Decoded? ==> IsObject(s.approvalData.data)
  }
}
