/** Run and Resume over the graph, as functions of the log of outside events so far. */
module Engine {
  import opened Wrappers
  import opened JsonValues
  import opened ChatTypes
  import opened AgentStates
  import opened StateJson
  import opened Workflow

  datatype EngineResult = EngineResult(out: Result<WorkflowOutput, string>, log: seq<Event>)

  const REJECTED := "The requested action was rejected."

  /** The state a new turn starts from; `requestID` and `now` come from the outside. */
  function RunState(input: WorkflowInput, requestID: string, now: string): State {
    var s := NewState(input.conversationID, input.userID, requestID, input.content, now);
    s.(messages := input.messages,
       model := if input.model != "" then input.model else s.model,
       turn := if input.temperature > 0.0 then s.turn.(temperature := input.temperature) else s.turn)
  }

  function OutputOf(s: State): WorkflowOutput {
    var out := WorkflowOutput(s.currentOutput, s.tokensUsed, s.toolCallsCount, s.currentAgent, false, "", None);
    if s.requiresApproval then
      out.(requiresApproval := true, approvalReason := s.approvalReason, pausedStateJSON := Some(ToJSON(s, {})))
    else out
  }

  function ResultOf(c: Config): EngineResult
    requires Terminal(c)
  {
    EngineResult(if c.node == Failed then Err(c.s.error) else Ok(OutputOf(c.s)), c.log)
  }

  function Run(env: Env, input: WorkflowInput, requestID: string, now: string, log: seq<Event>): EngineResult {
    ResultOf(Invoke(env, RunState(input, requestID, now), log))
  }

  /** What an approved Resume does by hand before it enters the graph again. */
  function Replay(env: Env, s: State, log: seq<Event>): Acted {
    ActOn(env, s.pendingTools, log)
  }

  function Reentry(env: Env, s: State, log: seq<Event>): State {
    var deciding := s.(isApproved := Some(true), requiresApproval := false);
    ObserveNode(ActNode(deciding, Replay(env, s, log))).(isApproved := None, requiresApproval := false)
  }

  function ResumeApproved(env: Env, s: State, log: seq<Event>): Config {
    Invoke(env, Reentry(env, s, log), Replay(env, s, log).log)
  }

  function Rejection(s: State): WorkflowOutput {
    WorkflowOutput(if s.currentOutput == "" then REJECTED else s.currentOutput, s.tokensUsed, s.toolCallsCount,
                   s.currentAgent, false, "", None)
  }

  function Resume(env: Env, checkpoint: JsonText, approved: bool, log: seq<Event>): EngineResult {
    match FromJSON(checkpoint)
    case None => EngineResult(Err("deserialise paused state"), log)
    case Some(s) =>
      if approved then ResultOf(ResumeApproved(env, s, log)) else EngineResult(Ok(Rejection(s)), log)
  }
}
