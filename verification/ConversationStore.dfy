/** The rows behind the two repositories: which columns each operation reads and writes
    (internal/infrastructure/persistence/postgres). */
module ConversationStore {
  import opened Wrappers
  import opened ChatTypes
  import opened Conversations

  datatype Row = Row(conv: Conv, deleted: bool)

  datatype Author = User | Assistant

  datatype Message = Message(conversationID: string, author: Author, content: string, model: string)

  /** Both tables. Messages are kept in the order of their sequence numbers. */
  datatype Store = Store(rows: map<string, Row>, messages: seq<Message>)

  const EMPTY := Store(map[], [])

  // ----- conversations -----

  /** Columns an INSERT leaves to their default stay null. */
  function Inserted(rows: map<string, Row>, id: string, c: Conv): map<string, Row> {
    rows[id := Row(c.(lastMessageAt := None, settings := c.settings.(completedAt := None)), false)]
  }

  function Found(rows: map<string, Row>, id: string): Option<Conv> {
    if id in rows && !rows[id].deleted then Some(rows[id].conv) else None
  }

  /** An UPDATE takes every column from the entity in memory, the workflow state among them; only the owner, the
      creation time and the deletion mark are the row's own, and a trigger sets the update time. */
  function Overwritten(rows: map<string, Row>, id: string, c: Conv, now: nat): map<string, Row> {
    if id !in rows then rows
    else rows[id := rows[id].(conv := c.(userID := rows[id].conv.userID, createdAt := rows[id].conv.createdAt,
                                         updatedAt := now))]
  }

  function StateWritten(rows: map<string, Row>, id: string, state: map<Slot, Entry>, now: nat): map<string, Row> {
    if id !in rows then rows
    else rows[id := rows[id].(conv := rows[id].conv.(workflowState := state, updatedAt := now))]
  }

  function Marked(rows: map<string, Row>, id: string, now: nat): map<string, Row> {
    if id !in rows then rows else rows[id := Row(rows[id].conv.(updatedAt := now), true)]
  }

  class ConversationRepository {
    var rows: map<string, Row>

    constructor ()
      ensures rows == map[]
    {
      rows := map[];
    }

    /** Fails, writing nothing, exactly when the key is taken. */
    method Create(conv: Conversation) returns (ok: bool)
      modifies this
      ensures ok <==> conv.id !in old(rows)
      ensures rows == if ok then Inserted(old(rows), conv.id, conv.Value()) else old(rows)
    {
      ok := conv.id !in rows;
      if ok {
        var s := conv.settings;
        rows := rows[conv.id :=
          Row(Conv(conv.userID, conv.createdAt,
                   Settings(s.agentType, s.systemPrompt, s.model, s.temperature, s.totalCost, s.tags, None),
                   conv.title, conv.status, conv.currentNode, conv.workflowState, conv.messageCount,
                   conv.toolCallCount, conv.totalTokens, conv.metadata, conv.updatedAt, None),
              false)];
      }
    }

    /** A new entity each time: what is done to it reaches the row only through Update. */
    method FindByID(id: string) returns (found: Conversation?)
      ensures found == null <==> Found(rows, id).None?
      ensures found != null ==> fresh(found) && found.id == id && found.Value() == Found(rows, id).value
    {
      if id in rows && !rows[id].deleted {
        found := new Conversation(id, rows[id].conv);
      } else {
        found := null;
      }
    }

    method Update(conv: Conversation, now: nat)
      modifies this
      ensures rows == Overwritten(old(rows), conv.id, conv.Value(), now)
    {
      if conv.id in rows {
        var row := rows[conv.id];
        var written := row.conv.(title := conv.title, status := conv.status, settings := conv.settings,
                                 currentNode := conv.currentNode, workflowState := conv.workflowState,
                                 messageCount := conv.messageCount, toolCallCount := conv.toolCallCount,
                                 totalTokens := conv.totalTokens, metadata := conv.metadata,
                                 lastMessageAt := conv.lastMessageAt);
        rows := rows[conv.id := row.(conv := written.(updatedAt := now))];
      }
    }

    method UpdateWorkflowState(id: string, state: map<Slot, Entry>, now: nat)
      modifies this
      ensures rows == StateWritten(old(rows), id, state, now)
    {
      if id in rows {
        var row := rows[id];
        rows := rows[id := row.(conv := row.conv.(workflowState := state, updatedAt := now))];
      }
    }

    method Delete(id: string, now: nat)
      modifies this
      ensures rows == Marked(old(rows), id, now)
    {
      if id in rows {
        var row := rows[id];
        rows := rows[id := row.(conv := row.conv.(updatedAt := now), deleted := true)];
      }
    }
  }

  // ----- messages -----

  function MessagesOf(messages: seq<Message>, id: string): seq<Message> {
    if messages == [] then []
    else
      var front := MessagesOf(messages[..|messages| - 1], id);
      var last := messages[|messages| - 1];
      if last.conversationID == id then front + [last] else front
  }

  lemma MessagesOfLonger(messages: seq<Message>, m: Message, id: string)
    ensures MessagesOf(messages + [m], id)
         == MessagesOf(messages, id) + (if m.conversationID == id then [m] else [])
  {
    assert (messages + [m])[..|messages|] == messages;
  }

  class MessageRepository {
    var messages: seq<Message>

    constructor ()
      ensures messages == []
    {
      messages := [];
    }

    method Create(m: Message)
      modifies this
      ensures messages == old(messages) + [m]
    {
      messages := messages + [m];
    }

    method FindByConversationID(id: string) returns (found: seq<Message>)
      ensures found == MessagesOf(messages, id)
    {
      found := [];
      for i := 0 to |messages|
        invariant found == MessagesOf(messages[..i], id)
      {
        MessagesOfLonger(messages[..i], messages[i], id);
        assert messages[..i + 1] == messages[..i] + [messages[i]];
        if messages[i].conversationID == id {
          found := found + [messages[i]];
        }
      }
      assert messages[..|messages|] == messages;
    }
  }

  /** A stored message as the engine sees it. */
  function AsChat(m: Message): ChatMessage {
    ChatMessage(if m.author == User then "user" else "assistant", m.content, "", [], "")
  }

  function History(messages: seq<Message>): (r: seq<ChatMessage>)
    ensures |r| == |messages|
  {
    seq(|messages|, i requires 0 <= i < |messages| => AsChat(messages[i]))
  }
}
