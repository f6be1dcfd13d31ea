/** What both tables hold after any history, said of the calls and their outcomes. */
module ChatRecords {
  import opened Conversations
  import opened ConversationStore
  import opened ChatUseCases
  import opened ChatHistories

  // ----- the message table -----

  /** The conversation a send is about. */
  function Target(op: Op): string
    requires op.Send?
  {
    if op.input.conversationID.Some? then op.input.conversationID.value else op.newID
  }

  /** The send was not refused before its message was stored. */
  predicate Heard(op: Op, o: Outcome) {
    op.Send? && (o.Answered? || o.Waiting? || (o.Refused? && o.why.EngineFailed?))
  }

  /** What one call adds: the user's message, if it was heard, and the response that was reported:
      that of an unpaused send whatever it is, that of a decision if there is one. */
  function Added(op: Op, o: Outcome): seq<Message> {
    match op
    case Send(input, _, defaultModel, _, _) =>
      (if Heard(op, o) then [Message(Target(op), User, input.content, "")] else [])
      + (if o.Answered?
         then [Message(Target(op), Assistant, o.out.response, if input.model == "" then defaultModel else input.model)]
         else [])
    case Decide(decision, _, _) =>
      if o.Decided? && o.out.response != "" then [Message(decision.conversationID, Assistant, o.out.response, "")]
      else []
    case Delete(_, _) => []
  }

  function Dialogue(ops: seq<Op>, outcomes: seq<Outcome>): seq<Message>
    requires |ops| == |outcomes|
  {
    if ops == [] then []
    else
      var last := |ops| - 1;
      Dialogue(ops[..last], outcomes[..last]) + Added(ops[last], outcomes[last])
  }

  lemma TurnAdds(variant: Variant, session: Session, op: Op)
    requires op.Send? && session.id == Target(op)
    ensures var r := Turned(variant, session, op.input, ModelFor(op.input, op.defaultModel), op.engine, op.now);
            r.store.messages == session.store.messages + Added(op, r.outcome)
  {
    hide TurnInput, Overwritten, StateWritten, WithStats, Titled, AwaitingApproval;
  }

  lemma DecisionAdds(variant: Variant, s: Store, op: Op)
    requires op.Decide?
    ensures var r := ApproveAction(variant, s, op.decision, op.engine, op.now);
            r.store.messages == s.messages + Added(op, r.outcome)
  {
    hide Overwritten, StateWritten, WithStats, AwaitingApproval, AfterApproval, AfterRejection;
  }

  lemma StepAdds(variant: Variant, s: Store, op: Op)
    ensures var r := Perform(variant, s, op); r.store.messages == s.messages + Added(op, r.outcome)
  {
    hide Turned, ApproveAction;
    match op
    case Send(input, newID, defaultModel, engine, now) =>
      var session := SessionFor(s, input, newID, now);
      if session.Ok? {
        TurnAdds(variant, session.value, op);
      }
    case Decide(_, _, _) => DecisionAdds(variant, s, op);
    case Delete(_, _) =>
  }

  lemma {:induction false} OneOutcomeEach(variant: Variant, ops: seq<Op>)
    ensures |After(variant, ops).outcomes| == |ops|
    decreases |ops|
  {
    if ops != [] {
      OneOutcomeEach(variant, ops[..|ops| - 1]);
    }
  }

  /** The message table is the dialogue: in order, the messages of the users that were heard
      and the responses that were reported to them, each with its conversation and model. */
  lemma {:induction false} TableIsDialogue(variant: Variant, ops: seq<Op>)
    ensures var past := After(variant, ops);
            |past.outcomes| == |ops| && past.store.messages == Dialogue(ops, past.outcomes)
    decreases |ops|
  {
    hide Perform, Added;
    OneOutcomeEach(variant, ops);
    if ops != [] {
      var front, op := ops[..|ops| - 1], ops[|ops| - 1];
      var before := After(variant, front);
      TableIsDialogue(variant, front);
      StepAdds(variant, before.store, op);
      assert After(variant, ops).outcomes[..|ops| - 1] == before.outcomes;
    }
  }

  // ----- one conversation's texts -----

  /** The texts of a conversation by one author, in order. */
  function Texts(messages: seq<Message>, id: string, author: Author): seq<string> {
    if messages == [] then []
    else
      var last := messages[|messages| - 1];
      Texts(messages[..|messages| - 1], id, author)
      + if last.conversationID == id && last.author == author then [last.content] else []
  }

  function Responses(outcomes: seq<Outcome>, id: string): seq<string> {
    if outcomes == [] then []
    else
      var o := outcomes[|outcomes| - 1];
      Responses(outcomes[..|outcomes| - 1], id)
      + if (o.Answered? || (o.Decided? && o.out.response != "")) && o.id == id then [o.out.response] else []
  }

  function Sayings(ops: seq<Op>, outcomes: seq<Outcome>, id: string): seq<string>
    requires |ops| == |outcomes|
  {
    if ops == [] then []
    else
      var last := |ops| - 1;
      Sayings(ops[..last], outcomes[..last], id)
      + if Heard(ops[last], outcomes[last]) && Target(ops[last]) == id then [ops[last].input.content] else []
  }

  lemma {:induction false} TextsJoin(a: seq<Message>, b: seq<Message>, id: string, author: Author)
    ensures Texts(a + b, id, author) == Texts(a, id, author) + Texts(b, id, author)
    decreases |b|
  {
    if b == [] {
      assert a + b == a;
    } else {
      assert (a + b)[..|a + b| - 1] == a + b[..|b| - 1];
      TextsJoin(a, b[..|b| - 1], id, author);
    }
  }

  lemma TextOfOne(m: Message, id: string, author: Author)
    ensures Texts([m], id, author) == if m.conversationID == id && m.author == author then [m.content] else []
  {
    assert [m][..0] == [];
  }

  /** An outcome names the conversation of its call. */
  predicate Names(op: Op, o: Outcome) {
    match op
    case Send(_, _, _, _, _) => !o.Decided? && (o.Answered? || o.Waiting? ==> o.id == Target(op))
    case Decide(decision, _, _) => !o.Answered? && !o.Waiting? && (o.Decided? ==> o.id == decision.conversationID)
    case Delete(_, _) => !o.Answered? && !o.Waiting? && !o.Decided?
  }

  lemma StepNames(variant: Variant, s: Store, op: Op)
    ensures Names(op, Perform(variant, s, op).outcome)
  {
    hide TurnInput, Overwritten, StateWritten, WithStats, Titled, AwaitingApproval, AfterApproval, AfterRejection;
  }

  lemma TextsAdded(op: Op, o: Outcome, id: string)
    requires Names(op, o)
    ensures Texts(Added(op, o), id, Assistant)
         == if (o.Answered? || (o.Decided? && o.out.response != "")) && o.id == id then [o.out.response] else []
    ensures Texts(Added(op, o), id, User)
         == if Heard(op, o) && Target(op) == id then [op.input.content] else []
  {
    match op
    case Send(input, _, defaultModel, _, _) =>
      var asked := Message(Target(op), User, input.content, "");
      TextOfOne(asked, id, Assistant);
      TextOfOne(asked, id, User);
      if o.Answered? {
        var model := if input.model == "" then defaultModel else input.model;
        var said := Message(Target(op), Assistant, o.out.response, model);
        TextOfOne(said, id, Assistant);
        TextOfOne(said, id, User);
        TextsJoin([asked], [said], id, Assistant);
        TextsJoin([asked], [said], id, User);
      }
    case Decide(decision, _, _) =>
      if o.Decided? {
        TextOfOne(Message(decision.conversationID, Assistant, o.out.response, ""), id, Assistant);
        TextOfOne(Message(decision.conversationID, Assistant, o.out.response, ""), id, User);
      }
    case Delete(_, _) =>
  }

  /** A conversation's assistant messages are, in order, the responses of its unpaused sends and the non-empty ones of
      its decisions; its user messages are the contents of the sends that were heard. */
  lemma {:induction false} TextsAreReported(variant: Variant, ops: seq<Op>, id: string)
    ensures var past := After(variant, ops);
            && |past.outcomes| == |ops|
            && Texts(past.store.messages, id, Assistant) == Responses(past.outcomes, id)
            && Texts(past.store.messages, id, User) == Sayings(ops, past.outcomes, id)
    decreases |ops|
  {
    hide Perform, Added, Names, Heard;
    OneOutcomeEach(variant, ops);
    if ops == [] {
    } else {
      var front, op := ops[..|ops| - 1], ops[|ops| - 1];
      var before := After(variant, front);
      var r := Perform(variant, before.store, op);
      TextsAreReported(variant, front, id);
      StepAdds(variant, before.store, op);
      StepNames(variant, before.store, op);
      TextsAdded(op, r.outcome, id);
      TextsJoin(before.store.messages, Added(op, r.outcome), id, Assistant);
      TextsJoin(before.store.messages, Added(op, r.outcome), id, User);
      var after := After(variant, ops).outcomes;
      assert after[..|ops| - 1] == before.outcomes && after[|ops| - 1] == r.outcome;
      hide Texts;
    }
  }
}
