/** Checkpoints survive the trip through JSON. */
module RoundTrips {
  import opened Wrappers
  import opened JsonValues
  import opened ChatTypes
  import opened AgentStates
  import opened StateJson

  lemma {:induction false} SliceRoundTrip<T>(xs: seq<T>, enc: T -> Json, dec: Json -> T, ok: Json -> bool, isNil: bool)
    requires forall x :: x in xs ==> ok(enc(x)) && dec(enc(x)) == x
    ensures IsSlice(SliceJson(xs, enc, isNil), ok) && SliceOf(SliceJson(xs, enc, isNil), dec) == xs
  {
  }

  lemma {:induction false} CallDecodes(c: ToolCall)
    ensures IsCall(CallJson(c))
  {
  }

  lemma {:induction false} CallRoundTrip(c: ToolCall)
    ensures CallOf(CallJson(c)) == c
  {
  }

  /** The members a call is written with, and those of the function inside it. */
  lemma {:induction false} CallMembers(c: ToolCall)
    ensures var m := MembersOf(CallJson(c));
            m(Id) == JStr(c.id) && m(TypeKey) == JStr(c.kind) && m(FunctionKey) == JObj((f: Key) => FunctionField(c, f))
  {
    hide FunctionField;
  }

  lemma {:induction false} FunctionMembers(c: ToolCall)
    ensures FunctionField(c, Name) == JStr(c.name) && FunctionField(c, Arguments) == JStr(c.arguments)
  {
  }

  lemma {:induction false} CallsRoundTrip(cs: seq<ToolCall>, isNil: bool)
    ensures IsSlice(SliceJson(cs, CallJson, isNil), IsCall) && SliceOf(SliceJson(cs, CallJson, isNil), CallOf) == cs
  {
    forall c | c in cs ensures IsCall(CallJson(c)) && CallOf(CallJson(c)) == c {
      CallDecodes(c);
      CallRoundTrip(c);
    }
    SliceRoundTrip(cs, CallJson, CallOf, IsCall, isNil);
  }

  lemma {:induction false} MessageDecodes(m: ChatMessage)
    ensures IsMessage(MessageJson(m))
  {
    hide SliceJson, IsSlice, SliceOf, IsCall, CallOf;
    CallsRoundTrip(m.toolCalls, m.toolCalls == []);
  }

  lemma {:induction false} MessageRoundTrip(m: ChatMessage)
    ensures MessageOf(MessageJson(m)) == m
  {
    hide SliceJson, IsSlice, SliceOf, IsCall, CallOf;
    CallsRoundTrip(m.toolCalls, m.toolCalls == []);
  }

  /** The members a message is written with: empty texts and no calls are left out. */
  lemma {:induction false} MessageMembers(m: ChatMessage)
    ensures var o := MembersOf(MessageJson(m));
            && o(Role) == JStr(m.role)
            && o(Content) == (if m.content == "" then JNull else JStr(m.content))
            && o(Name) == (if m.name == "" then JNull else JStr(m.name))
            && o(ToolCallId) == (if m.toolCallID == "" then JNull else JStr(m.toolCallID))
            && (m.toolCalls == [] ==> o(ToolCalls) == JNull)
            && (m.toolCalls != [] ==>
                  o(ToolCalls).JArr? && |o(ToolCalls).items| == |m.toolCalls|
                  && forall i :: 0 <= i < |m.toolCalls| ==> o(ToolCalls).items[i] == CallJson(m.toolCalls[i]))
  {
    hide CallJson;
  }

  lemma {:induction false} MessagesRoundTrip(ms: seq<ChatMessage>, isNil: bool)
    ensures IsSlice(SliceJson(ms, MessageJson, isNil), IsMessage)
    ensures SliceOf(SliceJson(ms, MessageJson, isNil), MessageOf) == ms
  {
    forall m | m in ms ensures IsMessage(MessageJson(m)) && MessageOf(MessageJson(m)) == m {
      MessageDecodes(m);
      MessageRoundTrip(m);
    }
    SliceRoundTrip(ms, MessageJson, MessageOf, IsMessage, isNil);
  }

  lemma TextsRoundTrip(texts: seq<string>, isNil: bool)
    ensures IsSlice(SliceJson(texts, TextJson, isNil), IsText)
    ensures SliceOf(SliceJson(texts, TextJson, isNil), TextOf) == texts
  {
    SliceRoundTrip(texts, TextJson, TextOf, IsText, isNil);
  }

  lemma EntryIsField(p: PropertySchema, k: Key)
    requires k in PROPERTY_KEYS
    ensures Entry(PropertyJson(p), k) == PropertyField(p, k)
  {
    hide PropertyField;
  }

  /** j holds the members of p. */
  ghost predicate HoldsProperty(j: Json, p: PropertySchema) {
    && j.JMap?
    && Entry(j, TypeKey) == JStr(p.kind) && Entry(j, Description) == OmitEmpty(p.description)
    && Entry(j, Enum) == SliceJson(p.enum, TextJson, p.enum == [])
    && Entry(j, Items) == (if p.items.Some? then PropertyJson(p.items.value) else JNull)
    && (Items in j.entries <==> p.items.Some?)
    && Entry(j, Default) == p.defaultValue
    && Entry(j, Minimum) == OptionalReal(p.minimum) && Entry(j, Maximum) == OptionalReal(p.maximum)
  }

  lemma PropertyTexts(p: PropertySchema)
    ensures PropertyField(p, TypeKey) == JStr(p.kind) && PropertyField(p, Description) == OmitEmpty(p.description)
    ensures PropertyField(p, Enum) == SliceJson(p.enum, TextJson, p.enum == [])
  {
    hide PropertyJson, SliceJson, OptionalReal, OmitEmpty;
  }

  lemma PropertyItems(p: PropertySchema)
    ensures PropertyField(p, Items) == if p.items.Some? then PropertyJson(p.items.value) else JNull
    ensures PropertyField(p, Default) == p.defaultValue
  {
    hide PropertyJson, SliceJson, OptionalReal, OmitEmpty;
  }

  lemma PropertyBounds(p: PropertySchema)
    ensures PropertyField(p, Minimum) == OptionalReal(p.minimum) && PropertyField(p, Maximum) == OptionalReal(p.maximum)
  {
    hide PropertyJson, SliceJson, OptionalReal, OmitEmpty;
  }

  lemma PropertyIsHeld(p: PropertySchema)
    ensures HoldsProperty(PropertyJson(p), p)
  {
    hide PropertyField, PropertyJson, Entry, SliceJson, OptionalReal, OmitEmpty;
    PropertyTexts(p);
    PropertyItems(p);
    PropertyBounds(p);
    EntryIsField(p, TypeKey);
    EntryIsField(p, Description);
    EntryIsField(p, Enum);
    EntryIsField(p, Items);
    EntryIsField(p, Default);
    EntryIsField(p, Minimum);
    EntryIsField(p, Maximum);
    ItemsWritten(p);
  }

  lemma ItemsWritten(p: PropertySchema)
    ensures Items in PropertyJson(p).entries <==> p.items.Some?
  {
  }

  lemma {:induction false} PropertyRoundTrip(p: PropertySchema)
    ensures IsProperty(PropertyJson(p)) && PropertyOf(PropertyJson(p)) == p
    decreases p
  {
    if p.items.Some? {
      PropertyRoundTrip(p.items.value);
    }
    PropertyIsHeld(p);
    TextsRoundTrip(p.enum, p.enum == []);
    hide PropertyJson, SliceJson, IsSlice, SliceOf;
    assert Items in PropertyJson(p).entries ==> PropertyJson(p).entries[Items] == Entry(PropertyJson(p), Items);
    hide Entry;
  }

  lemma PropertiesRoundTrip(ps: map<string, PropertySchema>)
    ensures IsProperties(PropertiesJson(ps)) && PropertiesOf(PropertiesJson(ps)) == ps
  {
    hide IsProperty, PropertyOf, PropertyJson;
    forall n | n in ps ensures IsProperty(PropertyJson(ps[n])) && PropertyOf(PropertyJson(ps[n])) == ps[n] {
      PropertyRoundTrip(ps[n]);
    }
    if |ps| == 0 {
      assert ps == map[];
    }
  }

  lemma SchemaDecodes(s: JSONSchema)
    ensures IsSchema(SchemaJson(s))
  {
    TextsRoundTrip(s.required, s.required == []);
    PropertiesRoundTrip(s.properties);
    hide SliceJson, IsSlice, SliceOf, PropertiesJson, IsProperties, PropertiesOf;
  }

  lemma SchemaRoundTrip(s: JSONSchema)
    ensures SchemaOf(SchemaJson(s)) == Some(s)
  {
    TextsRoundTrip(s.required, s.required == []);
    PropertiesRoundTrip(s.properties);
    hide SliceJson, IsSlice, SliceOf, PropertiesJson, IsProperties, PropertiesOf;
  }

  lemma ParametersRoundTrip(t: ToolDef)
    ensures IsSchema(DefinitionField(t, Parameters)) && SchemaOf(DefinitionField(t, Parameters)) == t.parameters
  {
    hide IsSchema, SchemaOf, SchemaJson;
    if t.parameters.Some? {
      SchemaDecodes(t.parameters.value);
      SchemaRoundTrip(t.parameters.value);
    } else {
      NoSchema();
    }
  }

  lemma NoSchema()
    ensures IsSchema(JNull) && SchemaOf(JNull) == None
  {
  }

  lemma {:induction false} ToolDecodes(t: ToolDef)
    ensures IsTool(ToolJson(t))
  {
    ParametersRoundTrip(t);
    hide IsSchema, SchemaJson, SchemaOf;
  }

  lemma {:induction false} ToolRoundTrip(t: ToolDef)
    ensures ToolOf(ToolJson(t)) == t
  {
    ParametersRoundTrip(t);
    hide IsSchema, SchemaJson, SchemaOf;
    var f := MembersOf(MembersOf(ToolJson(t))(FunctionKey));
    assert f(Name) == JStr(t.name) && f(Parameters) == DefinitionField(t, Parameters);
    hide DefinitionField;
  }

  lemma {:induction false} ToolsRoundTrip(ts: seq<ToolDef>, isNil: bool)
    ensures IsSlice(SliceJson(ts, ToolJson, isNil), IsTool) && SliceOf(SliceJson(ts, ToolJson, isNil), ToolOf) == ts
  {
    forall t | t in ts ensures IsTool(ToolJson(t)) && ToolOf(ToolJson(t)) == t {
      ToolDecodes(t);
      ToolRoundTrip(t);
    }
    SliceRoundTrip(ts, ToolJson, ToolOf, IsTool, isNil);
  }

  // The fields of the state, group by group: m holds s.

  ghost predicate HoldsSlices(m: Key -> Json, s: State) {
    && HasSlices(m)
    && SliceOf(m(Messages), MessageOf) == s.messages && SliceOf(m(AvailableTools), ToolOf) == s.availableTools
    && SliceOf(m(PendingTools), CallOf) == s.pendingTools && SliceOf(m(ToolResults), MessageOf) == s.toolResults
  }

  ghost predicate HoldsIdentity(m: Key -> Json, s: State) {
    && m(ConversationId) == JStr(s.turn.conversationID) && m(UserId) == JStr(s.turn.userID)
    && m(RequestId) == JStr(s.turn.requestID) && m(StartTime) == JStr(s.turn.startTime)
  }

  ghost predicate HoldsTurn(m: Key -> Json, s: State) {
    && m(SystemPrompt) == JStr(s.systemPrompt) && m(UserInput) == JStr(s.turn.userInput)
    && m(CurrentOutput) == JStr(s.currentOutput) && m(Model) == JStr(s.model) && m(ErrorKey) == OmitEmpty(s.error)
  }

  ghost predicate HoldsRouting(m: Key -> Json, s: State) {
    && m(CurrentAgent) == JStr(s.currentAgent) && m(NextAgent) == JStr(s.turn.nextAgent)
    && m(ApprovalReason) == JStr(s.approvalReason)
    && IsSlice(m(AgentHistory), IsText) && SliceOf(m(AgentHistory), TextOf) == s.agentHistory
  }

  ghost predicate HoldsApproval(m: Key -> Json, s: State) {
    && m(RequiresApproval) == JBool(s.requiresApproval) && m(ApprovalDataKey) == ApprovalJson(s.approvalData)
    && m(IsApproved) == (if s.isApproved.None? then JNull else JBool(s.isApproved.value))
    && m(ShouldStop) == JBool(s.shouldStop)
  }

  ghost predicate HoldsNumbers(m: Key -> Json, s: State) {
    && m(Temperature) == JNum(s.turn.temperature) && m(MaxTokens) == IntJson(s.turn.maxTokens)
    && m(Iteration) == IntJson(s.iteration) && m(MaxIterations) == IntJson(s.turn.maxIterations)
    && m(TokensUsed) == IntJson(s.tokensUsed) && m(ToolCallsCount) == IntJson(s.toolCallsCount)
  }

  lemma {:induction false} WritesSlices(s: State, nils: set<Key>)
    ensures HoldsSlices(ToObject(s, nils).members, s)
  {
    MessagesRoundTrip(s.messages, Messages in nils);
    MessagesRoundTrip(s.toolResults, ToolResults in nils);
    ToolsRoundTrip(s.availableTools, AvailableTools in nils);
    CallsRoundTrip(s.pendingTools, PendingTools in nils);
  }

  lemma {:induction false} WritesIdentity(s: State, nils: set<Key>)
    ensures HoldsIdentity(ToObject(s, nils).members, s)
  {
  }

  lemma {:induction false} WritesTurn(s: State, nils: set<Key>)
    ensures HoldsTurn(ToObject(s, nils).members, s)
  {
  }

  lemma {:induction false} WritesRouting(s: State, nils: set<Key>)
    ensures HoldsRouting(ToObject(s, nils).members, s)
  {
    TextsRoundTrip(s.agentHistory, AgentHistory in nils);
  }

  lemma {:induction false} WritesApproval(s: State, nils: set<Key>)
    ensures HoldsApproval(ToObject(s, nils).members, s)
  {
  }

  lemma {:induction false} WritesNumbers(s: State, nils: set<Key>)
    ensures HoldsNumbers(ToObject(s, nils).members, s)
  {
  }

  ghost predicate Holds(m: Key -> Json, s: State) {
    HoldsSlices(m, s) && HoldsIdentity(m, s) && HoldsTurn(m, s) && HoldsRouting(m, s) && HoldsApproval(m, s)
    && HoldsNumbers(m, s)
  }

  lemma HeldDecodes(m: Key -> Json, s: State)
    requires Writable(s) && Holds(m, s)
    ensures IsState(JObj(m))
  {
    hide IsSlice, SliceOf, IsMessage, IsCall, IsTool, MessageOf, CallOf, ToolOf;
    assert HasIdentity(m) && HasTurn(m);
    assert HasRouting(m) && HasApproval(m);
    assert HasNumbers(m);
  }

  lemma HeldIsRead(m: Key -> Json, s: State)
    requires Holds(m, s)
    ensures StateOf(m) == s.(approvalData := Decoded(ApprovalJson(s.approvalData)))
  {
    hide IsSlice, SliceOf, IsMessage, IsCall, IsTool, MessageOf, CallOf, ToolOf, ApprovalJson;
  }

  lemma {:induction false} ReadsBack(m: Key -> Json, s: State)
    requires Writable(s) && Holds(m, s)
    ensures FromJSON(Denotes(JObj(m))) == Some(s.(approvalData := Decoded(ApprovalJson(s.approvalData))))
  {
    HeldDecodes(m, s);
    HeldIsRead(m, s);
    hide IsState, StateOf, Holds, Writable, ApprovalJson;
    assert MembersOf(JObj(m)) == m;
  }

  /** Everything but the approval data comes back as it was; that comes back as plain JSON. */
  lemma {:induction false} StateRoundTrip(s: State, nils: set<Key>)
    requires Writable(s)
    ensures FromJSON(ToJSON(s, nils)) == Some(s.(approvalData := Decoded(ApprovalJson(s.approvalData))))
  {
    WritesSlices(s, nils);
    WritesIdentity(s, nils);
    WritesTurn(s, nils);
    WritesRouting(s, nils);
    WritesApproval(s, nils);
    WritesNumbers(s, nils);
    ReadsBack(ToObject(s, nils).members, s);
  }
}
