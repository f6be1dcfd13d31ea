/** Sending a message and deciding on a pending action (internal/application/usecase/chat): as functions of both
    tables, and as the use cases that write the repositories step by step. */
module ChatUseCases {
  import opened Wrappers
  import opened JsonValues
  import opened ChatTypes
  import opened Conversations
  import opened ConversationStore

  /** The engine behind its port, at one moment. */
  datatype ChatEngine = ChatEngine(run: WorkflowInput -> Result<WorkflowOutput, string>,
                                   resume: (JsonText, bool) -> Result<WorkflowOutput, string>)

  datatype Refusal =
    | CreateFailed | NotFound | Unauthorized | NotPending | NoPausedState | BadFormat
    | EngineFailed(error: string)

  datatype Outcome =
    | Refused(why: Refusal)
    | Answered(id: string, out: WorkflowOutput)
    | Waiting(id: string, out: WorkflowOutput)
    | Decided(id: string, out: WorkflowOutput, status: string)
    | Removed(id: string)

  datatype Effect = Effect(store: Store, outcome: Outcome)

  /** What the code does, or the same with the checkpoint also set on the entity before it is written back. */
  datatype Variant = AsWritten | CheckpointKept

  datatype SendInput = SendInput(conversationID: Option<string>, userID: string, content: string, agentType: string,
                                 model: string)

  datatype ApproveInput = ApproveInput(conversationID: string, userID: string, approved: bool, reason: string)

  /** The bytes of an absent checkpoint are the empty string, which is no JSON. */
  function CheckpointOf(out: WorkflowOutput): map<Slot, Entry> {
    map[PausedState := Checkpoint(if out.pausedStateJSON.Some? then out.pausedStateJSON.value else Garbled)]
  }

  function Stored(s: Store, m: Message): Store {
    s.(messages := s.messages + [m])
  }

  function Saved(s: Store, id: string, c: Conv, now: nat): Store {
    s.(rows := Overwritten(s.rows, id, c, now))
  }

  /** Both use cases end this way when the engine reports a pause: checkpoint first, then the whole row. */
  function HeldOver(variant: Variant, s: Store, id: string, c: Conv, out: WorkflowOutput, now: nat): Store {
    var kept := if variant == CheckpointKept then c.(workflowState := CheckpointOf(out)) else c;
    Saved(s.(rows := StateWritten(s.rows, id, CheckpointOf(out), now)), id,
          AwaitingApproval(kept, out.agentType, out.approvalReason, now), now)
  }

  // ----- send -----

  datatype Session = Session(store: Store, id: string, conv: Conv)

  /** The conversation named by the caller, if it is the caller's, or a new one with the identifier `newID`. */
  function SessionFor(s: Store, input: SendInput, newID: string, now: nat): Result<Session, Refusal> {
    match input.conversationID
    case Some(id) =>
      (match Found(s.rows, id)
       case None => Err(NotFound)
       case Some(c) => if c.userID != input.userID then Err(Unauthorized) else Ok(Session(s, id, c)))
    case None =>
      var c := NewConv(input.userID, if input.agentType == "" then "general" else input.agentType, now);
      if newID in s.rows then Err(CreateFailed) else Ok(Session(s.(rows := Inserted(s.rows, newID, c)), newID, c))
  }

  /** The tables once the user's message is stored, and what the engine is then given. */
  function Asked(session: Session, input: SendInput): Store {
    Stored(session.store, Message(session.id, User, input.content, ""))
  }

  function TurnInput(session: Session, input: SendInput, model: string): WorkflowInput {
    WorkflowInput(session.id, input.userID, input.content, model,
                  History(MessagesOf(Asked(session, input).messages, session.id)), session.conv.settings.temperature)
  }

  function ModelFor(input: SendInput, defaultModel: string): string {
    if input.model == "" then defaultModel else input.model
  }

  /** The turn on a loaded or new conversation. */
  function Turned(variant: Variant, session: Session, input: SendInput, model: string, engine: ChatEngine, now: nat):
      Effect {
    var Session(_, id, c) := session;
    var asked := Asked(session, input);
    match engine.run(TurnInput(session, input, model))
    case Err(e) => Effect(asked, Refused(EngineFailed(e)))
    case Ok(out) =>
      if out.requiresApproval then Effect(HeldOver(variant, asked, id, c, out, now), Waiting(id, out))
      else
        var answered := Stored(asked, Message(id, Assistant, out.response, model));
        var counted := WithStats(c, out.tokensUsed, out.toolCallsCount, now);
        Effect(Saved(answered, id, Titled(counted, input.content, now), now), Answered(id, out))
  }

  function SendMessage(variant: Variant, s: Store, input: SendInput, newID: string, defaultModel: string,
                       engine: ChatEngine, now: nat): Effect {
    match SessionFor(s, input, newID, now)
    case Err(why) => Effect(s, Refused(why))
    case Ok(session) =>
      Turned(variant, session, input, ModelFor(input, defaultModel), engine, now)
  }

  // ----- decide -----

  function Resumed(variant: Variant, s: Store, c: Conv, input: ApproveInput, out: WorkflowOutput, now: nat): Effect {
    var id := input.conversationID;
    var told := if out.response != "" then Stored(s, Message(id, Assistant, out.response, "")) else s;
    var counted := WithStats(c, out.tokensUsed, out.toolCallsCount, now);
    if out.requiresApproval then
      Effect(HeldOver(variant, told, id, counted, out, now), Decided(id, out, "pending_approval"))
    else if input.approved then
      Effect(Saved(told, id, AfterApproval(counted, now), now), Decided(id, out, "approved"))
    else
      Effect(Saved(told, id, AfterRejection(counted, input.reason, now), now), Decided(id, out, "rejected"))
  }

  function ApproveAction(variant: Variant, s: Store, input: ApproveInput, engine: ChatEngine, now: nat): Effect {
    match Found(s.rows, input.conversationID)
    case None => Effect(s, Refused(NotFound))
    case Some(c) =>
      if c.userID != input.userID then Effect(s, Refused(Unauthorized))
      else if c.status != Pending then Effect(s, Refused(NotPending))
      else if PausedState !in c.workflowState then Effect(s, Refused(NoPausedState))
      else
        match c.workflowState[PausedState]
        case Checkpoint(text) =>
          (match engine.resume(text, input.approved)
           case Err(e) => Effect(s, Refused(EngineFailed(e)))
           case Ok(out) => Resumed(variant, s, c, input, out, now))
        case _ => Effect(s, Refused(BadFormat))
  }

  // ----- the use cases -----

  /** The checkpoint goes into the row; then the entity, which never saw it, is written over the row. */
  method Hold(convRepo: ConversationRepository, conv: Conversation, out: WorkflowOutput, now: nat)
    modifies convRepo, conv
    ensures forall messages ::
      Store(convRepo.rows, messages)
      == HeldOver(AsWritten, Store(old(convRepo.rows), messages), conv.id, old(conv.Value()), out, now)
  {
    var text := if out.pausedStateJSON.Some? then out.pausedStateJSON.value else Garbled;
    convRepo.UpdateWorkflowState(conv.id, map[PausedState := Checkpoint(text)], now);
    conv.RequestApproval(out.agentType, out.approvalReason, now);
    convRepo.Update(conv, now);
  }

  class SendMessageUseCase {
    const convRepo: ConversationRepository
    const msgRepo: MessageRepository
    const defaultModel: string

    constructor (convRepo: ConversationRepository, msgRepo: MessageRepository, defaultModel: string)
      ensures this.convRepo == convRepo && this.msgRepo == msgRepo
      ensures this.defaultModel == if defaultModel == "" then "gpt-4o-mini" else defaultModel
    {
      this.convRepo, this.msgRepo := convRepo, msgRepo;
      this.defaultModel := if defaultModel == "" then "gpt-4o-mini" else defaultModel;
    }

    function Tables(): Store
      reads convRepo, msgRepo
    {
      Store(convRepo.rows, msgRepo.messages)
    }

    method Execute(input: SendInput, newID: string, engine: ChatEngine, now: nat) returns (outcome: Outcome)
      modifies convRepo, msgRepo
      ensures Effect(Tables(), outcome)
           == SendMessage(AsWritten, old(Tables()), input, newID, defaultModel, engine, now)
    {
      var conv: Conversation;
      if input.conversationID.Some? {
        var found := convRepo.FindByID(input.conversationID.value);
        if found == null {
          return Refused(NotFound);
        }
        conv := found;
        if conv.userID != input.userID {
          return Refused(Unauthorized);
        }
      } else {
        var agentType := input.agentType;
        if agentType == "" {
          agentType := "general";
        }
        conv := new Conversation(newID, NewConv(input.userID, agentType, now));
        var created := convRepo.Create(conv);
        if !created {
          return Refused(CreateFailed);
        }
      }
      outcome := TakeTurn(conv, input, engine, now);
    }

    /** From the user's message on. */
    method TakeTurn(conv: Conversation, input: SendInput, engine: ChatEngine, now: nat) returns (outcome: Outcome)
      modifies convRepo, msgRepo, conv
      ensures Effect(Tables(), outcome)
           == Turned(AsWritten, Session(old(Tables()), conv.id, old(conv.Value())), input,
                     ModelFor(input, defaultModel), engine, now)
    {
      msgRepo.Create(Message(conv.id, User, input.content, ""));
      var messages := msgRepo.FindByConversationID(conv.id);
      var chatMessages := [];
      for i := 0 to |messages|
        invariant chatMessages == History(messages)[..i]
      {
        chatMessages := chatMessages + [AsChat(messages[i])];
      }
      assert chatMessages == History(messages);
      var model := input.model;
      if model == "" {
        model := defaultModel;
      }
      var result := engine.run(WorkflowInput(conv.id, input.userID, input.content, model, chatMessages,
                                             conv.settings.temperature));
      if result.Err? {
        return Refused(EngineFailed(result.error));
      }
      var out := result.value;
      if out.requiresApproval {
        Hold(convRepo, conv, out, now);
        return Waiting(conv.id, out);
      }
      msgRepo.Create(Message(conv.id, Assistant, out.response, model));
      conv.AddMessageStats(out.tokensUsed, out.toolCallsCount, now);
      conv.SetTitle(input.content, now);
      convRepo.Update(conv, now);
      return Answered(conv.id, out);
    }
  }

  class ApproveActionUseCase {
    const convRepo: ConversationRepository
    const msgRepo: MessageRepository

    constructor (convRepo: ConversationRepository, msgRepo: MessageRepository)
      ensures this.convRepo == convRepo && this.msgRepo == msgRepo
    {
      this.convRepo, this.msgRepo := convRepo, msgRepo;
    }

    function Tables(): Store
      reads convRepo, msgRepo
    {
      Store(convRepo.rows, msgRepo.messages)
    }

    method Execute(input: ApproveInput, engine: ChatEngine, now: nat) returns (outcome: Outcome)
      modifies convRepo, msgRepo
      ensures Effect(Tables(), outcome) == ApproveAction(AsWritten, old(Tables()), input, engine, now)
    {
      var conv := convRepo.FindByID(input.conversationID);
      if conv == null {
        return Refused(NotFound);
      }
      if conv.userID != input.userID {
        return Refused(Unauthorized);
      }
      if !conv.IsPendingApproval() {
        return Refused(NotPending);
      }
      if PausedState !in conv.workflowState {
        return Refused(NoPausedState);
      }
      if !conv.workflowState[PausedState].Checkpoint? {
        return Refused(BadFormat);
      }
      var result := engine.resume(conv.workflowState[PausedState].text, input.approved);
      if result.Err? {
        return Refused(EngineFailed(result.error));
      }
      outcome := Persist(conv, input, result.value, now);
    }

    /** What follows a successful Resume. */
    method Persist(conv: Conversation, input: ApproveInput, out: WorkflowOutput, now: nat) returns (outcome: Outcome)
      requires conv.id == input.conversationID
      modifies convRepo, msgRepo, conv
      ensures Effect(Tables(), outcome) == Resumed(AsWritten, old(Tables()), old(conv.Value()), input, out, now)
    {
      if out.response != "" {
        msgRepo.Create(Message(conv.id, Assistant, out.response, ""));
      }
      conv.AddMessageStats(out.tokensUsed, out.toolCallsCount, now);
      if out.requiresApproval {
        Hold(convRepo, conv, out, now);
      } else if input.approved {
        conv.Approve(now);
        convRepo.Update(conv, now);
      } else {
        conv.Reject(input.reason, now);
        convRepo.Update(conv, now);
      }
      var status := "rejected";
      if input.approved {
        status := "approved";
      }
      if out.requiresApproval {
        status := "pending_approval";
      }
      return Decided(conv.id, out, status);
    }
  }
}
