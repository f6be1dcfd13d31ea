/** The conversation entity (internal/domain/entity/conversation.go). */
module Conversations {
  import opened Wrappers
  import opened JsonValues

  datatype Status = Active | Pending | Completed | Failed | Archived

  /** Names in the two free-form JSON columns, workflow state and metadata. */
  datatype Slot = PausedState | PendingApproval | LastRejection | Other(name: string)

  datatype Entry =
    | Checkpoint(text: JsonText)
    | Reason(reason: string)
    | Rejected(reason: string, at: nat)

  /** What the entity's methods never assign. */
  datatype Settings = Settings(agentType: string, systemPrompt: string, model: string, temperature: real,
                               totalCost: real, tags: seq<string>, completedAt: Option<nat>)

  datatype Conv = Conv(userID: string, createdAt: nat, settings: Settings, title: string, status: Status,
                       currentNode: string, workflowState: map<Slot, Entry>, messageCount: int, toolCallCount: int,
                       totalTokens: int, metadata: map<Slot, Entry>, updatedAt: nat, lastMessageAt: Option<nat>)

  function NewConv(userID: string, agentType: string, now: nat): Conv {
    Conv(userID, now, Settings(agentType, "", "", 0.7, 0.0, [], None), "", Active, "", map[], 0, 0, 0, map[], now, None)
  }

  function AwaitingApproval(c: Conv, node: string, reason: string, now: nat): Conv {
    c.(status := Pending, currentNode := node,
       metadata := c.metadata[PendingApproval := Reason(reason)], updatedAt := now)
  }

  function AfterApproval(c: Conv, now: nat): Conv {
    c.(status := Active, metadata := c.metadata - {PendingApproval}, updatedAt := now)
  }

  /** Unlike an approval, a rejection leaves the pending entry in the metadata. */
  function AfterRejection(c: Conv, reason: string, now: nat): Conv {
    c.(status := Active, metadata := c.metadata[LastRejection := Rejected(reason, now)], updatedAt := now)
  }

  function WithStats(c: Conv, tokens: int, calls: int, now: nat): Conv {
    c.(messageCount := c.messageCount + 1, totalTokens := c.totalTokens + tokens,
       toolCallCount := c.toolCallCount + calls, lastMessageAt := Some(now), updatedAt := now)
  }

  function Titled(c: Conv, title: string, now: nat): Conv {
    if c.title == "" && title != "" then c.(title := title, updatedAt := now) else c
  }

  /** The entity as the use cases hold and update it. */
  class Conversation {
    const id: string
    const userID: string
    const createdAt: nat
    var settings: Settings
    var title: string
    var status: Status
    var currentNode: string
    var workflowState: map<Slot, Entry>
    var messageCount: int
    var toolCallCount: int
    var totalTokens: int
    var metadata: map<Slot, Entry>
    var updatedAt: nat
    var lastMessageAt: Option<nat>

    function Value(): Conv
      reads this
    {
      Conv(userID, createdAt, settings, title, status, currentNode, workflowState, messageCount, toolCallCount,
           totalTokens, metadata, updatedAt, lastMessageAt)
    }

    constructor (id: string, v: Conv)
      ensures this.id == id && Value() == v
    {
      this.id, userID, createdAt, settings := id, v.userID, v.createdAt, v.settings;
      title, status, currentNode := v.title, v.status, v.currentNode;
      workflowState, metadata := v.workflowState, v.metadata;
      messageCount, toolCallCount, totalTokens := v.messageCount, v.toolCallCount, v.totalTokens;
      updatedAt, lastMessageAt := v.updatedAt, v.lastMessageAt;
    }

    predicate IsPendingApproval()
      reads this
    {
      status == Pending
    }

    method RequestApproval(node: string, reason: string, now: nat)
      modifies this`status, this`currentNode, this`metadata, this`updatedAt
      ensures Value() == AwaitingApproval(old(Value()), node, reason, now)
    {
      status := Pending;
      currentNode := node;
      metadata := metadata[PendingApproval := Reason(reason)];
      updatedAt := now;
    }

    method Approve(now: nat)
      modifies this`status, this`metadata, this`updatedAt
      ensures Value() == AfterApproval(old(Value()), now)
    {
      status := Active;
      metadata := metadata - {PendingApproval};
      updatedAt := now;
    }

    method Reject(reason: string, now: nat)
      modifies this`status, this`metadata, this`updatedAt
      ensures Value() == AfterRejection(old(Value()), reason, now)
    {
      status := Active;
      metadata := metadata[LastRejection := Rejected(reason, now)];
      updatedAt := now;
    }

    method AddMessageStats(tokens: int, calls: int, now: nat)
      modifies this`messageCount, this`totalTokens, this`toolCallCount, this`lastMessageAt, this`updatedAt
      ensures Value() == WithStats(old(Value()), tokens, calls, now)
    {
      messageCount := messageCount + 1;
      totalTokens := totalTokens + tokens;
      toolCallCount := toolCallCount + calls;
      lastMessageAt := Some(now);
      updatedAt := now;
    }

    method SetTitle(newTitle: string, now: nat)
      modifies this`title, this`updatedAt
      ensures Value() == Titled(old(Value()), newTitle, now)
    {
      if title == "" && newTitle != "" {
        title := newTitle;
        updatedAt := now;
      }
    }
  }
}
