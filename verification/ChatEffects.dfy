/** What one call does to the rows and asks of the engine, column by column. */
module ChatEffects {
  import opened Wrappers
  import opened ChatTypes
  import opened Conversations
  import opened ConversationStore
  import opened ChatUseCases
  import opened ChatHistories
  import opened ChatRecords

  // ----- who is let in -----

  /** The row a send is about before the call: a live one of the caller's, or the new one. */
  ghost predicate Opens(s: Store, input: SendInput, newID: string) {
    match input.conversationID
    case Some(id) => id in s.rows && !s.rows[id].deleted && s.rows[id].conv.userID == input.userID
    case None => newID !in s.rows
  }

  function Before(s: Store, input: SendInput, newID: string, now: nat): Conv
    requires Opens(s, input, newID)
  {
    match input.conversationID
    case Some(id) => s.rows[id].conv
    case None =>
      Conv(input.userID, now,
           Settings(if input.agentType == "" then "general" else input.agentType, "", "", 0.7, 0.0, [], None),
           "", Active, "", map[], 0, 0, 0, map[], now, None)
  }

  lemma SessionIff(s: Store, input: SendInput, newID: string, now: nat)
    ensures var session := SessionFor(s, input, newID, now);
            && (session.Ok? <==> Opens(s, input, newID))
            && (session.Ok? ==>
                  && session.value.conv == Before(s, input, newID, now)
                  && session.value.id == (if input.conversationID.Some? then input.conversationID.value else newID)
                  && session.value.store.messages == s.messages
                  && session.value.store.rows == s.rows[session.value.id := Row(session.value.conv, false)])
  {
    if input.conversationID.Some? && Opens(s, input, newID) {
      var id := input.conversationID.value;
      assert s.rows == s.rows[id := Row(s.rows[id].conv, false)];
    }
  }

  /** Refusals of a send before anything is stored, in the order they are looked for. */
  lemma SendRefusedIff(variant: Variant, s: Store, input: SendInput, newID: string, defaultModel: string,
                       engine: ChatEngine, now: nat)
    ensures var r := SendMessage(variant, s, input, newID, defaultModel, engine, now);
            !Opens(s, input, newID) ==>
              && r.store == s
              && r.outcome == Refused(
                   match input.conversationID
                   case None => CreateFailed
                   case Some(id) => if id in s.rows && !s.rows[id].deleted then Unauthorized else NotFound)
  {
  }

  // ----- what the engine is asked -----

  /** The messages of a conversation as the LLM sees them. */
  function Shown(messages: seq<Message>, id: string): seq<ChatMessage> {
    if messages == [] then []
    else
      var m := messages[|messages| - 1];
      Shown(messages[..|messages| - 1], id)
      + if m.conversationID == id
        then [ChatMessage(if m.author == User then "user" else "assistant", m.content, "", [], "")] else []
  }

  lemma {:induction false} HistoryIsShown(messages: seq<Message>, id: string)
    ensures History(MessagesOf(messages, id)) == Shown(messages, id)
    decreases |messages|
  {
    if messages != [] {
      HistoryIsShown(messages[..|messages| - 1], id);
    }
  }

  lemma TurnInputIs(session: Session, input: SendInput, model: string)
    ensures TurnInput(session, input, model)
         == WorkflowInput(session.id, input.userID, input.content, model,
                          Shown(session.store.messages, session.id)
                          + [ChatMessage("user", input.content, "", [], "")],
                          session.conv.settings.temperature)
  {
    var messages, asked := session.store.messages, Message(session.id, User, input.content, "");
    HistoryIsShown(messages + [asked], session.id);
    assert (messages + [asked])[..|messages|] == messages;
    hide MessagesOf, History;
  }

  lemma TurnReports(variant: Variant, session: Session, input: SendInput, model: string, engine: ChatEngine, now: nat)
    ensures Turned(variant, session, input, model, engine, now).outcome
         == match engine.run(TurnInput(session, input, model))
            case Err(error) => Refused(EngineFailed(error))
            case Ok(out) => if out.requiresApproval then Waiting(session.id, out) else Answered(session.id, out)
  {
    hide TurnInput;
  }

  /** A send that gets in asks the engine once, for the turn of its conversation, and reports what it answers. */
  lemma SendAsks(variant: Variant, s: Store, input: SendInput, newID: string, defaultModel: string,
                 engine: ChatEngine, now: nat)
    requires Opens(s, input, newID)
    ensures var id := if input.conversationID.Some? then input.conversationID.value else newID;
            var model := if input.model == "" then defaultModel else input.model;
            var asked := WorkflowInput(id, input.userID, input.content, model,
                                       Shown(s.messages, id) + [ChatMessage("user", input.content, "", [], "")],
                                       Before(s, input, newID, now).settings.temperature);
            SendMessage(variant, s, input, newID, defaultModel, engine, now).outcome
            == match engine.run(asked)
               case Err(error) => Refused(EngineFailed(error))
               case Ok(out) => if out.requiresApproval then Waiting(id, out) else Answered(id, out)
  {
    hide Turned, TurnInput, Shown, SessionFor, Opens, Before;
    SessionIff(s, input, newID, now);
    var session := SessionFor(s, input, newID, now).value;
    TurnInputIs(session, input, ModelFor(input, defaultModel));
    TurnReports(variant, session, input, ModelFor(input, defaultModel), engine, now);
  }

  // ----- rows -----

  /** No row but this one is touched. */
  ghost predicate OnlyRow(before: Store, after: Store, id: string) {
    && id in after.rows && !after.rows[id].deleted
    && forall other :: other != id ==>
         && (other in after.rows <==> other in before.rows)
         && (other in before.rows ==> after.rows[other] == before.rows[other])
  }

  /** The columns a call never changes. */
  ghost predicate SameIdentity(before: Conv, after: Conv) {
    after.userID == before.userID && after.createdAt == before.createdAt && after.settings == before.settings
  }

  ghost predicate SameCounters(before: Conv, after: Conv) {
    && after.messageCount == before.messageCount && after.totalTokens == before.totalTokens
    && after.toolCallCount == before.toolCallCount && after.lastMessageAt == before.lastMessageAt
  }

  ghost predicate Counted(before: Conv, after: Conv, out: WorkflowOutput, now: nat) {
    && after.messageCount == before.messageCount + 1 && after.totalTokens == before.totalTokens + out.tokensUsed
    && after.toolCallCount == before.toolCallCount + out.toolCallsCount && after.lastMessageAt == Some(now)
  }

  /** Waiting for approval of what the engine reported, at the agent it reported. */
  ghost predicate Pends(before: Conv, after: Conv, out: WorkflowOutput) {
    && after.status == Pending && after.currentNode == out.agentType
    && after.metadata == before.metadata[PendingApproval := Reason(out.approvalReason)]
  }

  ghost predicate SendRow(input: SendInput, before: Conv, after: Conv, o: Outcome, now: nat) {
    match o
    case Answered(_, out) =>
      && SameIdentity(before, after) && Counted(before, after, out, now) && after.updatedAt == now
      && after.title == (if before.title == "" then input.content else before.title)
      && after.status == before.status && after.metadata == before.metadata
      && after.currentNode == before.currentNode && after.workflowState == before.workflowState
    case Waiting(_, out) =>
      && SameIdentity(before, after) && SameCounters(before, after) && after.updatedAt == now
      && after.title == before.title && Pends(before, after, out)
    case _ => after == before
  }

  lemma TurnWrites(variant: Variant, session: Session, input: SendInput, model: string, engine: ChatEngine, now: nat)
    requires InRow(session) && !session.store.rows[session.id].deleted
    ensures var r := Turned(variant, session, input, model, engine, now);
            OnlyRow(session.store, r.store, session.id)
            && SendRow(input, session.conv, r.store.rows[session.id].conv, r.outcome, now)
  {
    hide TurnInput;
  }

  /** An unpaused send counts its turn, and gives an untitled conversation its title; a paused one leaves the
      conversation pending; a failed one leaves the row as it was, which for a new conversation is a row of defaults. */
  lemma SendWrites(variant: Variant, s: Store, input: SendInput, newID: string, defaultModel: string,
                   engine: ChatEngine, now: nat)
    requires Opens(s, input, newID)
    ensures var id := if input.conversationID.Some? then input.conversationID.value else newID;
            var r := SendMessage(variant, s, input, newID, defaultModel, engine, now);
            && OnlyRow(s, r.store, id)
            && SendRow(input, Before(s, input, newID, now), r.store.rows[id].conv, r.outcome, now)
  {
    hide Turned, SessionFor, Opens, Before, SendRow;
    SessionIff(s, input, newID, now);
    TurnWrites(variant, SessionFor(s, input, newID, now).value, input, ModelFor(input, defaultModel), engine, now);
  }

  /** Approval takes the pending entry out and touches no other; rejection leaves it and says why. */
  ghost predicate DecisionRow(input: ApproveInput, before: Conv, after: Conv, out: WorkflowOutput, status: string,
                              now: nat) {
    && SameIdentity(before, after) && Counted(before, after, out, now) && after.title == before.title
    && if out.requiresApproval then Pends(before, after, out) && status == "pending_approval"
       else
         && after.status == Active && after.currentNode == before.currentNode
         && after.workflowState == before.workflowState
         && if input.approved then status == "approved" && Without(before.metadata, after.metadata)
            else status == "rejected" && after.metadata == before.metadata[LastRejection := Rejected(input.reason, now)]
  }

  ghost predicate Without(before: map<Slot, Entry>, after: map<Slot, Entry>) {
    && PendingApproval !in after
    && forall k :: k != PendingApproval ==>
         (k in after <==> k in before) && (k in before ==> after[k] == before[k])
  }

  lemma ResumedRow(variant: Variant, s: Store, c: Conv, input: ApproveInput, out: WorkflowOutput, now: nat)
    requires InRow(Session(s, input.conversationID, c)) && !s.rows[input.conversationID].deleted
    ensures var r := Resumed(variant, s, c, input, out, now);
            r.outcome.Decided? && r.outcome.id == input.conversationID && r.outcome.out == out
            && OnlyRow(s, r.store, input.conversationID)
            && DecisionRow(input, c, r.store.rows[input.conversationID].conv, out, r.outcome.status, now)
  {
    hide DecisionRow, OnlyRow, AfterApproval, AfterRejection, AwaitingApproval, Overwritten, StateWritten, WithStats;
    var id := input.conversationID;
    var told := if out.response != "" then Stored(s, Message(id, Assistant, out.response, "")) else s;
    if out.requiresApproval {
      PausedRow(variant, told, c, input, out, now);
    } else if input.approved {
      ApprovedRow(told, c, input, out, now);
    } else {
      RejectedRow(told, c, input, out, now);
    }
    assert OnlyRow(s, Resumed(variant, s, c, input, out, now).store, id) by {
      OnlyRowsMatter(s, told, Resumed(variant, s, c, input, out, now).store, id);
    }
  }

  lemma OnlyRowsMatter(s: Store, told: Store, after: Store, id: string)
    requires told.rows == s.rows && OnlyRow(told, after, id)
    ensures OnlyRow(s, after, id)
  {
  }

  lemma PausedRow(variant: Variant, s: Store, c: Conv, input: ApproveInput, out: WorkflowOutput, now: nat)
    requires InRow(Session(s, input.conversationID, c)) && !s.rows[input.conversationID].deleted
    requires out.requiresApproval
    ensures var counted := WithStats(c, out.tokensUsed, out.toolCallsCount, now);
            var after := HeldOver(variant, s, input.conversationID, counted, out, now);
            OnlyRow(s, after, input.conversationID)
            && DecisionRow(input, c, after.rows[input.conversationID].conv, out, "pending_approval", now)
  {
  }

  lemma ApprovedRow(s: Store, c: Conv, input: ApproveInput, out: WorkflowOutput, now: nat)
    requires InRow(Session(s, input.conversationID, c)) && !s.rows[input.conversationID].deleted
    requires !out.requiresApproval && input.approved
    ensures var counted := WithStats(c, out.tokensUsed, out.toolCallsCount, now);
            var after := Saved(s, input.conversationID, AfterApproval(counted, now), now);
            OnlyRow(s, after, input.conversationID)
            && DecisionRow(input, c, after.rows[input.conversationID].conv, out, "approved", now)
  {
  }

  lemma RejectedRow(s: Store, c: Conv, input: ApproveInput, out: WorkflowOutput, now: nat)
    requires InRow(Session(s, input.conversationID, c)) && !s.rows[input.conversationID].deleted
    requires !out.requiresApproval && !input.approved
    ensures var counted := WithStats(c, out.tokensUsed, out.toolCallsCount, now);
            var after := Saved(s, input.conversationID, AfterRejection(counted, input.reason, now), now);
            OnlyRow(s, after, input.conversationID)
            && DecisionRow(input, c, after.rows[input.conversationID].conv, out, "rejected", now)
  {
  }

  /** A decision that goes through is what the engine answered to the row's checkpoint, counts its report, and sets the
      status and the entries it says; any other changes nothing. */
  lemma DecisionWrites(variant: Variant, s: Store, input: ApproveInput, engine: ChatEngine, now: nat)
    ensures var r := ApproveAction(variant, s, input, engine, now);
            var id := input.conversationID;
            if !r.outcome.Decided? then r.store == s
            else
              && r.outcome.id == id && id in s.rows
              && var before := s.rows[id].conv;
              && PausedState in before.workflowState && before.workflowState[PausedState].Checkpoint?
              && engine.resume(before.workflowState[PausedState].text, input.approved) == Ok(r.outcome.out)
              && OnlyRow(s, r.store, id)
              && DecisionRow(input, before, r.store.rows[id].conv, r.outcome.out, r.outcome.status, now)
  {
    hide Resumed, DecisionRow, OnlyRow;
    var found := Found(s.rows, input.conversationID);
    if found.Some? && PausedState in found.value.workflowState && found.value.workflowState[PausedState].Checkpoint? {
      var result := engine.resume(found.value.workflowState[PausedState].text, input.approved);
      if result.Ok? {
        ResumedRow(variant, s, found.value, input, result.value, now);
      }
    }
  }

  // ----- titles -----

  /** The first text of an answered send on the conversation that is not empty. */
  function FirstWords(ops: seq<Op>, outcomes: seq<Outcome>, id: string): string
    requires |ops| == |outcomes|
  {
    if ops == [] then ""
    else
      var last := |ops| - 1;
      var before := FirstWords(ops[..last], outcomes[..last], id);
      if before == "" && ops[last].Send? && outcomes[last].Answered? && outcomes[last].id == id
      then ops[last].input.content else before
  }

  function TitleIn(s: Store, id: string): string {
    if id in s.rows then s.rows[id].conv.title else ""
  }

  lemma SendTitles(variant: Variant, s: Store, op: Op, id: string)
    requires op.Send?
    ensures var r := Perform(variant, s, op);
            TitleIn(r.store, id)
            == if TitleIn(s, id) == "" && r.outcome.Answered? && r.outcome.id == id then op.input.content
               else TitleIn(s, id)
  {
    hide SendMessage, Opens;
    StepNames(variant, s, op);
    if Opens(s, op.input, op.newID) {
      SendWrites(variant, s, op.input, op.newID, op.defaultModel, op.engine, op.now);
      TitleBefore(s, op.input, op.newID, op.now);
      hide Before;
    } else {
      SendRefusedIff(variant, s, op.input, op.newID, op.defaultModel, op.engine, op.now);
    }
  }

  lemma TitleBefore(s: Store, input: SendInput, newID: string, now: nat)
    requires Opens(s, input, newID)
    ensures Before(s, input, newID, now).title
         == TitleIn(s, if input.conversationID.Some? then input.conversationID.value else newID)
  {
  }

  lemma StepTitles(variant: Variant, s: Store, op: Op, id: string)
    ensures var r := Perform(variant, s, op);
            TitleIn(r.store, id)
            == if TitleIn(s, id) == "" && op.Send? && r.outcome.Answered? && r.outcome.id == id then op.input.content
               else TitleIn(s, id)
  {
    match op
    case Send(_, _, _, _, _) => SendTitles(variant, s, op, id);
    case Decide(input, engine, now) =>
      hide ApproveAction;
      DecisionWrites(variant, s, input, engine, now);
    case Delete(_, _) =>
  }

  /** A conversation is titled by the first words that were answered in it. */
  lemma {:induction false} TitlesAreFirstWords(variant: Variant, ops: seq<Op>, id: string)
    ensures var past := After(variant, ops);
            |past.outcomes| == |ops| && TitleIn(past.store, id) == FirstWords(ops, past.outcomes, id)
    decreases |ops|
  {
    hide Perform, TitleIn;
    OneOutcomeEach(variant, ops);
    if ops == [] {
      Untitled(id);
    } else {
      var front, op := ops[..|ops| - 1], ops[|ops| - 1];
      var before := After(variant, front);
      TitlesAreFirstWords(variant, front, id);
      StepTitles(variant, before.store, op, id);
      assert After(variant, ops).outcomes[..|ops| - 1] == before.outcomes;
    }
  }

  lemma Untitled(id: string)
    ensures TitleIn(EMPTY, id) == ""
  {
  }
}
