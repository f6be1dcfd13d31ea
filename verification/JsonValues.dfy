/** JSON at value level (RFC 8259, section 3): text is never looked at here. */
module JsonValues {

  /** Member names. The names of the Go structs' tagged fields are constructors of their own;
      `Free` holds the names of objects whose members are not fixed in advance. */
  datatype Key =
    // AgentState
    | ConversationId | UserId | RequestId | Messages | SystemPrompt | UserInput | CurrentOutput
    | Model | Temperature | MaxTokens | AvailableTools | PendingTools | ToolResults
    | CurrentAgent | NextAgent | AgentHistory | RequiresApproval | ApprovalReason | ApprovalDataKey
    | IsApproved | Iteration | MaxIterations | ShouldStop | ErrorKey | StartTime | TokensUsed | ToolCallsCount
    // ChatMessage, ToolCall, FunctionCall, Tool, Function
    | Role | Content | Name | ToolCalls | ToolCallId | Id | TypeKey | FunctionKey | Arguments
    | Description | Parameters | Strict
    // JSONSchema, PropertySchema
    | Properties | Required | AdditionalProperties | Enum | Items | Default | Minimum | Maximum
    // ApprovalData
    | ToolName | ToolCallKey
    | Free(text: string)

  /** A struct is read member by member; a member that is absent reads as null, and Go's decoder makes no difference
      between the two. Maps and nested schemas are given by the finitely many members they have. */
  datatype Json =
    | JNull
    | JBool(b: bool)
    | JNum(n: real)
    | JStr(s: string)
    | JArr(items: seq<Json>)
    | JObj(members: Key -> Json)
    | JMap(entries: map<Key, Json>)

  /** JSON text, known only by the value it denotes. */
  datatype JsonText = Denotes(value: Json) | Garbled
}
