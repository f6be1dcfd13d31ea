/** Messages, tool calls and engine inputs and outputs as they cross the ports. */
module ChatTypes {
  import opened Wrappers
  import opened JsonValues

  datatype ToolCall = ToolCall(id: string, kind: string, name: string, arguments: string)

  datatype PropertySchema = PropertySchema(kind: string, description: string, enum: seq<string>,
                                           items: Option<PropertySchema>, defaultValue: Json,
                                           minimum: Option<real>, maximum: Option<real>)

  datatype JSONSchema = JSONSchema(kind: string, description: string, properties: map<string, PropertySchema>,
                                   required: seq<string>, additionalProperties: Option<bool>)

  datatype ToolDef = ToolDef(kind: string, name: string, description: string,
                             parameters: Option<JSONSchema>, strict: bool)

  datatype ChatMessage = ChatMessage(role: string, content: string, name: string,
                                     toolCalls: seq<ToolCall>, toolCallID: string)

  datatype ChatRequest = ChatRequest(model: string, messages: seq<ChatMessage>, tools: seq<ToolDef>,
                                     temperature: real, maxTokens: int)

  /** What the LLM answers: an error, or the first choice's message with the total token usage. */
  datatype Reply =
    | ChatError(error: string)
    | ChatReply(content: string, calls: seq<ToolCall>, tokens: int)

  /** What a tool's Execute returns; `output` is the marshalled result. */
  datatype ToolOutcome = Completed(output: string) | Faulted(error: string)

  datatype WorkflowInput = WorkflowInput(conversationID: string, userID: string, content: string,
                                         model: string, messages: seq<ChatMessage>, temperature: real)

  datatype WorkflowOutput = WorkflowOutput(response: string, tokensUsed: int, toolCallsCount: int, agentType: string,
                                           requiresApproval: bool, approvalReason: string,
                                           pausedStateJSON: Option<JsonText>)

  function AssistantMessage(content: string, calls: seq<ToolCall>): ChatMessage {
    ChatMessage("assistant", content, "", calls, "")
  }

  function ToolMessage(call: ToolCall, content: string): ChatMessage {
    ChatMessage("tool", content, call.name, [], call.id)
  }
}
