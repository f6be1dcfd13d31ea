/** The state one workflow invocation carries from node to node
    (internal/infrastructure/eino/state/agent_state.go). */
module AgentStates {
  import opened Wrappers
  import opened JsonValues
  import opened ChatTypes

  /** The free-form approval data: nothing yet, the call that was held back,
      or whatever object a decoded checkpoint holds in its place. */
  datatype ApprovalData = NoData | Held(call: ToolCall, arguments: Json) | Decoded(data: Json)

  /** What no node of the graph changes. */
  datatype Turn = Turn(conversationID: string, userID: string, requestID: string, userInput: string,
                       temperature: real, maxTokens: int, nextAgent: string, maxIterations: int, startTime: string)

  datatype State = State(
    turn: Turn,
    messages: seq<ChatMessage>, systemPrompt: string, currentOutput: string, model: string,
    availableTools: seq<ToolDef>, pendingTools: seq<ToolCall>, toolResults: seq<ChatMessage>,
    currentAgent: string, agentHistory: seq<string>,
    requiresApproval: bool, approvalReason: string, approvalData: ApprovalData, isApproved: Option<bool>,
    iteration: int, shouldStop: bool, error: string,
    tokensUsed: int, toolCallsCount: int)

  const MAX_ITERATIONS := 10

  function NewState(conversationID: string, userID: string, requestID: string, input: string, now: string): State {
    State(Turn(conversationID, userID, requestID, input, 0.7, 4096, "", MAX_ITERATIONS, now),
          [], "", "", "gpt-4o-mini", [], [], [], "", [], false, "", NoData, None, 0, false, "", 0, 0)
  }

  /** The same state as an object that the nodes update in place. */
  class AgentState {
    var turn: Turn
    var messages: seq<ChatMessage>
    var systemPrompt: string
    var currentOutput: string
    var model: string
    var availableTools: seq<ToolDef>
    var pendingTools: seq<ToolCall>
    var toolResults: seq<ChatMessage>
    var currentAgent: string
    var agentHistory: seq<string>
    var requiresApproval: bool
    var approvalReason: string
    var approvalData: ApprovalData
    var isApproved: Option<bool>
    var iteration: int
    var shouldStop: bool
    var error: string
    var tokensUsed: int
    var toolCallsCount: int

    function Value(): State
      reads this
    {
      State(turn, messages, systemPrompt, currentOutput, model, availableTools, pendingTools, toolResults,
            currentAgent, agentHistory, requiresApproval, approvalReason, approvalData, isApproved,
            iteration, shouldStop, error, tokensUsed, toolCallsCount)
    }

    constructor (v: State)
      ensures Value() == v
    {
      turn := v.turn;
      messages, systemPrompt, currentOutput, model := v.messages, v.systemPrompt, v.currentOutput, v.model;
      availableTools, pendingTools, toolResults := v.availableTools, v.pendingTools, v.toolResults;
      currentAgent, agentHistory := v.currentAgent, v.agentHistory;
      requiresApproval, approvalReason, approvalData, isApproved :=
        v.requiresApproval, v.approvalReason, v.approvalData, v.isApproved;
      iteration, shouldStop, error := v.iteration, v.shouldStop, v.error;
      tokensUsed, toolCallsCount := v.tokensUsed, v.toolCallsCount;
    }

    method AddAssistantMessage(content: string, calls: seq<ToolCall>)
      modifies this`messages
      ensures messages == old(messages) + [AssistantMessage(content, calls)]
    {
      var msg := ChatMessage("assistant", content, "", [], "");
      if |calls| > 0 {
        msg := msg.(toolCalls := calls);
      }
      messages := messages + [msg];
    }

    method AddToolResult(call: ToolCall, content: string)
      modifies this`toolResults
      ensures toolResults == old(toolResults) + [ToolMessage(call, content)]
    {
      toolResults := toolResults + [ChatMessage("tool", content, call.name, [], call.id)];
    }

    /** No result is lost: the queued results end the transcript and the queue is empty. */
    method FlushToolResults()
      modifies this`messages, this`toolResults
      ensures messages == old(messages) + old(toolResults) && toolResults == []
    {
      messages := messages + toolResults;
      toolResults := [];
    }
  }
}
