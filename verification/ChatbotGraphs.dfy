/** The graph as the source runs it: nodes that update one agent state in place, a driver loop,
    Run and Resume; each is proved to compute what Workflow and Engine say. */
module ChatbotGraphs {
  import opened Wrappers
  import opened JsonValues
  import opened ChatTypes
  import opened AgentStates
  import opened StateJson
  import W = Workflow
  import Engine

  class ChatbotGraph {
    const env: W.Env
    var log: seq<W.Event>
    var built: bool

    constructor (env: W.Env)
      ensures this.env == env && log == [] && !built
    {
      this.env := env;
      log := [];
      built := false;
    }

    method BuildRunnable()
      modifies this`built
      ensures built
    {
      built := true;
    }

    // ----- the outside world -----

    method AskModel(request: ChatRequest) returns (reply: Reply)
      modifies this`log
      ensures reply == env.chat(old(log), request) && log == old(log) + [W.Chat(request, reply)]
    {
      reply := env.chat(log, request);
      log := log + [W.Chat(request, reply)];
    }

    method ExecuteTool(call: ToolCall, args: Json) returns (outcome: ToolOutcome)
      modifies this`log
      ensures outcome == env.execute(old(log), call.name, args) && log == old(log) + [W.Execute(call, outcome)]
    {
      outcome := env.execute(log, call.name, args);
      log := log + [W.Execute(call, outcome)];
    }

    // ----- nodes -----

    method FirstMention(input: string, keywords: seq<string>) returns (found: bool)
      ensures found == W.Mentions(env, input, keywords)
    {
      found := false;
      for i := 0 to |keywords|
        invariant !found && forall k :: 0 <= k < i ==> !W.ContainsIgnoreCase(env, input, keywords[k])
      {
        if W.ContainsIgnoreCase(env, input, keywords[i]) {
          return true;
        }
      }
    }

    method Classify(input: string) returns (agent: string)
      ensures agent == W.AgentFor(env, input)
    {
      agent := "general";
      var mentionsCode := FirstMention(input, W.CODE_KEYWORDS);
      if mentionsCode {
        agent := "coder";
      }
      var mentionsResearch := FirstMention(input, W.RESEARCH_KEYWORDS);
      if mentionsResearch {
        agent := "researcher";
      }
    }

    method RouterNode(s: AgentState)
      modifies s`currentAgent, s`agentHistory, s`model, s`systemPrompt
      ensures s.Value() == W.RouterNode(env, old(s.Value()))
    {
      hide W.AgentFor;
      s.currentAgent := Classify(s.turn.userInput);
      s.agentHistory := s.agentHistory + [s.currentAgent];
      Configure(s);
    }

    /** The agent's own prompt, and its own model where none is chosen yet. */
    method Configure(s: AgentState)
      modifies s`model, s`systemPrompt
      ensures s.model == if s.currentAgent in env.modelConfig && old(s.model) == ""
                         then env.modelConfig[s.currentAgent] else old(s.model)
      ensures s.systemPrompt == if s.currentAgent in env.systemPrompts
                                then env.systemPrompts[s.currentAgent] else old(s.systemPrompt)
    {
      if s.currentAgent in env.modelConfig && s.model == "" {
        s.model := env.modelConfig[s.currentAgent];
      }
      if s.currentAgent in env.systemPrompts {
        s.systemPrompt := env.systemPrompts[s.currentAgent];
      }
    }

    method ThinkNode(s: AgentState) returns (ok: bool)
      modifies s`availableTools, s`error, s`tokensUsed, s`currentOutput, s`pendingTools, s`messages, this`log
      ensures var request := W.RequestOf(env, old(s.Value()), old(log));
              var reply := env.chat(old(log), request);
              && ok == reply.ChatReply?
              && log == old(log) + [W.Chat(request, reply)]
              && s.Value() == W.ThinkNode(env, old(s.Value()), old(log), reply)
    {
      var messages := W.BuildMessages(s.Value());
      var tools := env.listing(log);
      s.availableTools := tools;
      var reply := AskModel(ChatRequest(s.model, messages, tools, s.turn.temperature, s.turn.maxTokens));
      match reply
      case ChatError(error) =>
        s.error := error;
        return false;
      case ChatReply(content, calls, tokens) =>
        s.tokensUsed := s.tokensUsed + tokens;
        s.currentOutput := content;
        s.pendingTools := calls;
        s.AddAssistantMessage(content, calls);
        return true;
    }

    /** One pending call: refused, executed, or held back. */
    method ActOnCall(s: AgentState, call: ToolCall) returns (held: bool)
      modifies s`toolResults, s`toolCallsCount, s`requiresApproval, s`approvalReason, s`approvalData, this`log
      ensures held == W.Judge(env, call).Hold?
      ensures held ==> && log == old(log) + [W.Withheld(call)] && s.requiresApproval
                       && s.approvalReason == W.ApprovalReasonFor(call)
                       && s.approvalData == Held(call, W.Judge(env, call).args)
                       && s.toolResults == old(s.toolResults) && s.toolCallsCount == old(s.toolCallsCount)
      ensures !held ==> && s.requiresApproval == old(s.requiresApproval)
                        && s.approvalReason == old(s.approvalReason) && s.approvalData == old(s.approvalData)
                        && var one := W.ActOn(env, [call], old(log));
                        && log == one.log
                        && s.toolResults == old(s.toolResults) + one.results
                        && s.toolCallsCount == old(s.toolCallsCount) + one.executed
    {
      match W.Judge(env, call)
      case Refuse(event, body) =>
        log := log + [event];
        s.AddToolResult(call, env.errorBody(body));
        return false;
      case Hold(args) =>
        log := log + [W.Withheld(call)];
        s.requiresApproval := true;
        s.approvalReason := W.ApprovalReasonFor(call);
        s.approvalData := Held(call, args);
        return true;
      case Allow(args) =>
        var outcome := ExecuteTool(call, args);
        s.AddToolResult(call, W.OutcomeBody(env, outcome));
        s.toolCallsCount := s.toolCallsCount + 1;
        return false;
    }

    /** The loop of act: every pending call in order, up to the first that is held back. */
    method ActOnPending(s: AgentState) returns (held: bool)
      modifies s`toolResults, s`toolCallsCount, s`requiresApproval, s`approvalReason, s`approvalData, this`log
      ensures var acted := W.ActOn(env, s.pendingTools, old(log));
              && held == acted.held.Some?
              && log == acted.log
              && s.toolResults == old(s.toolResults) + acted.results
              && s.toolCallsCount == old(s.toolCallsCount) + acted.executed
              && s.requiresApproval == (held || old(s.requiresApproval))
              && s.approvalReason
                 == (if held then W.ApprovalReasonFor(acted.held.value.call) else old(s.approvalReason))
              && s.approvalData
                 == (if held then Held(acted.held.value.call, acted.held.value.args) else old(s.approvalData))
    {
      hide W.ActOn, W.Judge, W.ApprovalReasonFor;
      ghost var whole := W.ActOn(env, s.pendingTools, log);
      assert s.pendingTools[0..] == s.pendingTools;
      held := false;
      var i := 0;
      while i < |s.pendingTools|
        invariant 0 <= i <= |s.pendingTools|
        invariant s.requiresApproval == old(s.requiresApproval)
        invariant s.approvalReason == old(s.approvalReason) && s.approvalData == old(s.approvalData)
        invariant var rest := W.ActOn(env, s.pendingTools[i..], log);
                  && old(s.toolResults) + whole.results == s.toolResults + rest.results
                  && whole.log == rest.log
                  && old(s.toolCallsCount) + whole.executed == s.toolCallsCount + rest.executed
                  && whole.held == rest.held
        decreases |s.pendingTools| - i
      {
        var call := s.pendingTools[i];
        ghost var left := s.pendingTools[i..];
        assert left[0] == call && left[1..] == s.pendingTools[i + 1..];
        if W.Judge(env, call).Hold? {
          W.ActOnHeld(env, left, log);
        } else {
          W.ActOnFirst(env, left, log);
        }
        held := ActOnCall(s, call);
        if held {
          return;
        }
        i := i + 1;
      }
      assert s.pendingTools[i..] == [];
      W.ActOnNothing(env, log);
    }

    method ActNode(s: AgentState)
      modifies s`toolResults, s`toolCallsCount, s`pendingTools, s`requiresApproval, s`approvalReason, s`approvalData
      modifies this`log
      ensures var acted := W.ActOn(env, old(s.pendingTools), old(log));
              log == acted.log && s.Value() == W.ActNode(old(s.Value()), acted)
    {
      hide W.ActOn;
      s.toolResults := [];
      var held := ActOnPending(s);
      if !held {
        s.pendingTools := [];
      }
    }

    method ObserveNode(s: AgentState)
      modifies s`messages, s`toolResults, s`iteration, s`shouldStop
      ensures s.Value() == W.ObserveNode(old(s.Value()))
    {
      s.FlushToolResults();
      s.iteration := s.iteration + 1;
      if s.iteration >= s.turn.maxIterations {
        s.shouldStop := true;
      }
    }

    method ResponseNode(s: AgentState)
      modifies s`currentOutput, s`shouldStop
      ensures s.Value() == W.ResponseNode(old(s.Value()))
    {
      if s.currentOutput == "" && |s.messages| > 0 {
        var i := |s.messages| - 1;
        assert s.messages[..i + 1] == s.messages;
        while i >= 0
          invariant -1 <= i < |s.messages|
          invariant s.Value() == old(s.Value())
          invariant W.LastAnswer(s.messages) == W.LastAnswer(s.messages[..i + 1])
          decreases i
        {
          assert s.messages[..i + 1][..i] == s.messages[..i];
          if s.messages[i].role == "assistant" && s.messages[i].content != "" {
            s.currentOutput := s.messages[i].content;
            break;
          }
          i := i - 1;
        }
      }
      s.shouldStop := true;
    }

    // ----- driver -----

    /** Follows the edges from the router until END or an error. */
    method Invoke(s: AgentState) returns (ok: bool)
      modifies s, this`log
      ensures var final := W.Invoke(env, old(s.Value()), old(log));
              ok == final.node.End? && s.Value() == final.s && log == final.log
    {
      ghost var c := W.Start(s.Value(), log);
      ghost var final := W.Finish(env, c);
      var node := W.Router;
      while node != W.End && node != W.Failed
        invariant c.node == node && c.s == s.Value() && c.log == log
        invariant W.Finish(env, c) == final
        decreases W.Fuel(c)
      {
        W.StepBurnsFuel(env, c);
        c := W.Step(env, c);
        match node
        case Router =>
          RouterNode(s);
          node := W.Think;
        case Think =>
          var answered := ThinkNode(s);
          node := if answered then W.RouteAfterThink(s.Value()) else W.Failed;
        case Act =>
          ActNode(s);
          node := W.Observe;
        case Observe =>
          ObserveNode(s);
          node := W.RouteAfterObserve(s.Value());
        case HumanApproval =>
          node := W.RouteAfterApproval(s.Value());
        case Response =>
          ResponseNode(s);
          node := W.End;
      }
      ok := node == W.End;
    }

    // ----- WorkflowEngine -----

    method NewTurn(input: WorkflowInput, requestID: string, now: string) returns (s: AgentState)
      ensures fresh(s) && s.Value() == Engine.RunState(input, requestID, now)
    {
      s := new AgentState(NewState(input.conversationID, input.userID, requestID, input.content, now));
      s.messages := input.messages;
      if input.model != "" {
        s.model := input.model;
      }
      if input.temperature > 0.0 {
        s.turn := s.turn.(temperature := input.temperature);
      }
    }

    method Run(input: WorkflowInput, requestID: string, now: string) returns (r: Result<WorkflowOutput, string>)
      modifies this`log
      ensures built ==> Engine.EngineResult(r, log) == Engine.Run(env, input, requestID, now, old(log))
      ensures !built ==> r.Err? && log == old(log)
    {
      if !built {
        return Err("graph not built: call BuildRunnable first");
      }
      var s := NewTurn(input, requestID, now);
      var ok := Invoke(s);
      r := if ok then Ok(Engine.OutputOf(s.Value())) else Err(s.error);
    }

    /** The approved half of Resume up to the second graph invocation. */
    method ActByHand(s: AgentState)
      modifies s, this`log
      ensures s.Value() == Engine.Reentry(env, old(s.Value()), old(log))
      ensures log == Engine.Replay(env, old(s.Value()), old(log)).log
    {
      s.isApproved := Some(true);
      s.requiresApproval := false;
      ActNode(s);
      ObserveNode(s);
      s.isApproved := None;
      s.requiresApproval := false;
    }

    method Resume(checkpoint: JsonText, approved: bool) returns (r: Result<WorkflowOutput, string>)
      modifies this`log
      ensures built ==> Engine.EngineResult(r, log) == Engine.Resume(env, checkpoint, approved, old(log))
      ensures !built ==> r.Err? && log == old(log)
    {
      if !built {
        return Err("graph not built: call BuildRunnable first");
      }
      hide FromJSON, Engine.ResumeApproved, Engine.ResultOf;
      var decoded := FromJSON(checkpoint);
      if decoded.None? {
        return Err("deserialise paused state");
      }
      if !approved {
        return Ok(Engine.Rejection(decoded.value));
      }
      r := ResumeFrom(decoded.value);
    }

    /** The approved half of Resume. */
    method ResumeFrom(v: State) returns (r: Result<WorkflowOutput, string>)
      modifies this`log
      ensures Engine.EngineResult(r, log) == Engine.ResultOf(Engine.ResumeApproved(env, v, old(log)))
    {
      var s := new AgentState(v);
      ActByHand(s);
      hide Engine.Reentry, Engine.Replay, Engine.OutputOf;
      var ok := Invoke(s);
      r := if ok then Ok(Engine.OutputOf(s.Value())) else Err(s.error);
    }
  }
}
