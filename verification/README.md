# A verified model of the agent API's core

Dafny models of the parts of the repository whose behaviour spans whole runs, with the properties they keep.
`dafny verify dfyconfig.toml` checks everything.

**The workflow engine.** `AgentStates`, `StateJson`, `Workflow` and `Engine` give the six-node graph as a small-step
machine over node, state and a log of everything asked of the outside world, and `Run` and `Resume` as functions of that
log. The LLM and the tools are oracles that may answer differently after every different history; the registry, argument
parsing and lower-casing are fixed. `ChatbotGraphs` is the same engine as the source has it, an object whose nodes update
an `AgentState` in place, proved equal to those functions. `Reachability`, `Ledger`, `Turns`, `Requests`, `Evidence`,
`Routing`, `Outputs`, `Exhaustion`, `Checkpoints`, `RoundTrips` and `Reports` hold the results: the grammar of transcripts,
termination and the LLM budget, accounting against the log, the shape of a pause and what a resume repeats, gate safety,
what the LLM and the tools are asked and what is reported of them, JSON checkpoints, and the final answer.

**The conversation store.** `Conversations` is the entity, `ConversationStore` the two tables and their repositories
column by column, `ChatUseCases` sending and deciding. `ChatHistories`, `ChatTranscripts`, `ChatRecords` and `ChatEffects`
are about single calls and every sequential history of them from empty tables; `EngineHistories` puts the graph behind the
engine port, and `PausingTurns` follows turns that pause again and again. Two variants are compared: the code as written,
and the code with the checkpoint also set on the entity before it is written back.

**Small concurrent protocols.** `WorkerPool` (with `PoolObjects`), `BatchJoin` (with `ToolBatch` and `ToolRegistry`) and
`StreamHandshake` (with `SseFraming` and `StreamContents`) are machines of atomic channel operations; their theorems are
about every interleaving.

**Counters and expressions.** `RateLimit` is the fixed-window limiter over expiring counters, `Calculator` the evaluator.

## Where the code departs from its documents or its intent

- The README and docs/articles/04-eino-workflow.md say that an approved tool runs. It does not: act asks for approval again
  (`Turns.GateSafety`), and resuming runs the tools before it a second time (`Turns.ApprovalRunsThePrefixAgain`).
- They say that a pending action is approved or rejected over the API. No pending conversation holds the checkpoint this
  needs, because `Update` overwrites what `UpdateWorkflowState` wrote (`ChatHistories.DecisionsNeverSucceed`).
- The model configured per agent is never asked for, because a state always has a model before it is routed
  (`Reports.ModelPerAgentIsNeverUsed`).
- The edges out of human_approval other than END are never taken (`Reachability.GraphNeverDecides`).
- The daily limit can be passed on dates longer than 24 hours (`RateLimit.DailyLimitIff`).
- The streaming producer stays blocked after a read error (`StreamHandshake.EveryRunEnds`).
- Once tools have answered, a request says the user's message again at its end, unless the last tool result is that very
  text: only the last message is compared with it (`Requests.SaidOnceIff`, `Requests.SaidTwice`).
- What a turn that pauses used is never added to the stored totals (`ChatHistories.PausedTurnsAreLost`). Keeping the
  checkpoint is not enough to mend that: reports are totals of a turn, so a turn that pauses more than once would then be
  overcharged (`EngineHistories.TurnChargedOnce`, `PausingTurns.Overcharged`).

## Model

| member | source | states |
|---|---|---|
| Workflow.StepBurnsFuel | internal/infrastructure/eino/graphs/chatbot_graph.go:112-160 | Every step of the graph from every state lowers `4 * remaining iterations + node rank`: both cycles pass through observe. |
| Workflow.Finish | internal/infrastructure/eino/graphs/chatbot_graph.go:112-160 | Execution of the declared edges ends in END or in an error from every configuration. |
| Reachability.FuelSuffices | internal/infrastructure/eino/graphs/chatbot_graph.go:112-160 | As many small steps as the measure allows reach the very configuration the run ends in: the big-step form refines the small-step machine. |
| Reachability.Invariance | internal/infrastructure/eino/graphs/chatbot_graph.go:112-160 | What every step keeps holds after any number of steps of any invocation (the induction principle behind the results about runs). |
| Reachability.TranscriptGrammar | internal/infrastructure/eino/graphs/chatbot_graph.go:309-391 | After any error-free invocation the final transcript is the input followed by whole blocks (an assistant message with calls, then exactly one tool message per call, same IDs and names, in order) and one of three tails: nothing, which needs the iteration limit or a state that entered with its stop flag set; one assistant message without calls; or one block cut at the first call that waits for approval. No result stays queued. |
| Reachability.GraphNeverDecides | internal/infrastructure/eino/graphs/chatbot_graph.go:415-443 | In every reachable configuration of every invocation `IsApproved` is nil, and the edges human_approval to act, human_approval to response and think to human_approval have not been taken. |
| Reachability.StepKeepsInv | internal/infrastructure/eino/graphs/chatbot_graph.go:277-443 | One step of any node keeps the transcript phase of that node and takes no decision edge. |
| Reachability.ActAnswers | internal/infrastructure/eino/graphs/chatbot_graph.go:335-380 | act answers the calls before the first held one, one message each with the same ID and name, and holds back exactly that call if there is one. |
| Reachability.FirstHeld | internal/infrastructure/eino/graphs/chatbot_graph.go:338-364 | The index of the first call that parses, is registered and needs approval, or the number of calls if there is none. |
| Reachability.BlocksAppend | internal/infrastructure/eino/graphs/chatbot_graph.go:335-391 | Appending an assistant message with calls and its complete answers to whole blocks gives whole blocks. |
| Ledger.InvocationBooks | internal/infrastructure/eino/graphs/chatbot_graph.go:309-391 | At the end of any invocation the transcript, the tokens and the executed-call count have grown by exactly what the event log says, and only allowed tools were executed. |
| Ledger.ActLogged | internal/infrastructure/eino/graphs/chatbot_graph.go:335-380 | What act appends: its results are the transcript of its log entries, its count their executions, with no LLM call among them, and the executed calls are the allowed ones before the first held call, in order. |
| Ledger.ToolMessagesCounted | internal/infrastructure/eino/graphs/chatbot_graph.go:335-380 | Over any log, tool messages are executions plus refusals (parse failures and unknown tools). |
| Turns.PauseShape | internal/infrastructure/eino/graphs/chatbot_graph.go:335-391 | A reported pause leaves pending calls with a first held index k, the assistant message that asked for them k messages before the end, and its first k calls answered after it; nothing is queued. |
| Turns.ReplayRepeatsThePrefix | internal/infrastructure/eino/graphs/chatbot_graph.go:236-250 | Resume(true) of a pause processes the answered prefix: k more messages with the same IDs and names as the k that end the transcript already, its allowed tools executed, one iteration more, and the state it re-enters the graph with is fresh. |
| Turns.PauseRanThePrefix | internal/infrastructure/eino/graphs/chatbot_graph.go:335-391 | The executions of an invocation that pauses end with those of the allowed pending calls before the held one. |
| Turns.ApprovalRunsThePrefixAgain | internal/infrastructure/eino/graphs/chatbot_graph.go:236-250 | Over a turn that pauses and is approved, the executions end with those calls twice in a row: each allowed tool of the prefix runs a second time. |
| Turns.RunAccounting | internal/infrastructure/eino/graphs/chatbot_graph.go:326-390 | Across a Run, tokens grow by the usage of the LLM calls made, the call count by the executions; at a normal end the transcript grows by what the log says and no result is left queued. |
| Turns.ResumeAccounting | internal/infrastructure/eino/graphs/chatbot_graph.go:210-273 | The same across an approved Resume of any checkpoint, replay and graph together. |
| Turns.AccountedToolMessages | internal/infrastructure/eino/graphs/chatbot_graph.go:335-391 | The tool messages appended by a completed Run or Resume are its executions plus its refusals. |
| Turns.GateSafety | internal/infrastructure/eino/graphs/chatbot_graph.go:355-364 | No history of Runs and Resumes, with any inputs, any checkpoint texts and any decisions, executes a tool that requires approval, approved or not. |
| Turns.InvocationBudget | internal/infrastructure/eino/graphs/chatbot_graph.go:382-443 | LLM calls of one invocation plus the iterations a pause leaves over are at most max(1, remaining iterations). |
| Turns.TurnBudget | internal/infrastructure/eino/graphs/chatbot_graph.go:210-273 | A turn with n approved resumes makes at most max(1, remaining iterations) + n LLM calls, and ends. |
| Turns.RunBudget | internal/infrastructure/eino/graphs/chatbot_graph.go:168-273 | A Run and n approved Resumes make at most 10 + n LLM calls. |
| Checkpoints.CheckpointTransparent | internal/infrastructure/eino/state/agent_state.go:129-141 | Resuming from the JSON of a state gives the same log of LLM requests and tool executions and the same output as resuming from the state itself, whichever empty slices were nil. |
| Checkpoints.FinishIgnoresApprovalData | internal/infrastructure/eino/graphs/chatbot_graph.go:358-362 | Two configurations that differ in approval data only run in step to the end. |
| Checkpoints.ApprovalDataIsNotRestored | internal/infrastructure/eino/state/agent_state.go:129-141 | The approval data of a held call never comes back as it was: the round trip is not the identity. |
| Checkpoints.ApprovalsFollowTurn | internal/infrastructure/eino/graphs/chatbot_graph.go:210-273 | A Run followed by n approvals, each passed the checkpoint text the output before it reported, gives the outputs of the states the turn goes through. |
| Checkpoints.ApprovalsBudget | internal/infrastructure/eino/graphs/chatbot_graph.go:168-273 | The budget of 10 + n LLM calls holds for turns whose checkpoints go through JSON. |
| RoundTrips.StateRoundTrip | internal/infrastructure/eino/state/agent_state.go:13-58 | Decoding what a state encodes to restores every field but the approval data, which comes back as plain JSON; `omitempty` fields and nil slices included. |
| RoundTrips.MessageRoundTrip | internal/infrastructure/eino/state/agent_state.go:20-20 | A message survives the JSON encoding of the transcript. |
| RoundTrips.FunctionMembers | pkg/toolspec/openai_format.go:43-46 | A call's function is written under its name and arguments. |
| RoundTrips.MessageMembers | internal/application/port/llm_provider.go:10-16 | A message is written under its own member names, empty ones left out. |
| RoundTrips.ToolRoundTrip | internal/infrastructure/eino/state/agent_state.go:33-33 | A tool definition with its parameter schema survives the JSON encoding. |
| RoundTrips.SchemaRoundTrip | pkg/toolspec/openai_format.go:18-24 | A parameter schema does, empty and absent members included. |
| RoundTrips.PropertyRoundTrip | pkg/toolspec/openai_format.go:26-34 | A property schema does, however deep its items nest. |
| Requests.RequestsAreTranscripts | internal/infrastructure/eino/graphs/chatbot_graph.go:309-333 | Every request of every invocation is the system prompt, the input messages and the transcript so far, and the user's message again exactly when the input is not empty and the message before is another text; that transcript is empty before the first answer and otherwise ends in a tool message. |
| Requests.SaidOnceIff | internal/infrastructure/eino/graphs/chatbot_graph.go:447-467 | When the input messages end with the user's text, all requests of an invocation say it once if and only if it is empty or every request after the first follows a tool message that is this text; one request alone always does. |
| Requests.ResumeSaysItAgain | internal/infrastructure/eino/graphs/chatbot_graph.go:236-250 | The first request after an approved pause follows a tool message or the message that asked for the held call, never the user's, so the user's message is said again unless that text is the same. |
| Requests.SaidTwice | internal/infrastructure/eino/graphs/chatbot_graph.go:447-467 | A concrete run, one unknown tool call and then an answer, whose second request says the user's message twice. |
| Outputs.RunTells | internal/infrastructure/eino/graphs/chatbot_graph.go:168-205 | What a Run reports, of its input and the log it leaves: the response is the text of an assistant message of the transcript that no later one with content follows, or empty if there is none (what the LLM said last if a call was held before the tenth request); the agent is the one the keywords choose; a pause's reason names the tool of the call that was held; tokens and calls are the log's; an error is the LLM's. |
| Outputs.ResumeTells | internal/infrastructure/eino/graphs/chatbot_graph.go:210-273 | The same of an approved Resume, over the checkpoint's transcript and what replay and graph add; an undecodable checkpoint fails and asks nothing. |
| Outputs.RejectionTells | internal/infrastructure/eino/graphs/chatbot_graph.go:219-234 | A rejected Resume asks nothing; its response is the checkpoint's output or the fixed text where that is empty, its agent and totals the checkpoint's. |
| Outputs.RejectionRepeatsThePause | internal/infrastructure/eino/graphs/chatbot_graph.go:219-234 | In a turn, rejecting a pause repeats the response and agent the pause reported, or gives the fixed text where that response was empty. |
| Outputs.RunCheckpoint | internal/infrastructure/eino/graphs/chatbot_graph.go:194-202 | A pausing Run's checkpoint decodes to what it reported: transcript, output, agent, totals and reason; its approval data names the held call, its tool and its parsed arguments. |
| Outputs.InvocationRounds | internal/infrastructure/eino/graphs/chatbot_graph.go:382-391 | Iterations are LLM answers whose round is done: at a pause all of them. |
| Outputs.LastAnswerIsLast | internal/infrastructure/eino/graphs/chatbot_graph.go:399-408 | The backward search finds, by position, the last assistant message with content. |
| Routing.RoutedByKeywords | internal/infrastructure/eino/graphs/chatbot_graph.go:277-295 | The agent is researcher if a listed research word occurs in the input, letter case aside, else coder if a code word does, else general. |
| Evidence.InvocationIsGenuine | internal/infrastructure/eino/graphs/chatbot_graph.go:309-380 | Every entry an invocation logs is genuine: a request carries the tools listed then, the turn's temperature and token limit, and its reply is the LLM's to it; an execution ran an ungated registered tool on the parsed arguments of its own call; a refusal has its cause; and after each answer come its calls, one entry each, in order. |
| Evidence.ResumeIsGenuine | internal/infrastructure/eino/graphs/chatbot_graph.go:236-260 | The same of every approved Resume, whose replay is about the pending calls in order. |
| Evidence.EntriesAreSaid | internal/infrastructure/eino/state/agent_state.go:92-111 | Each logged entry leaves its message in the transcript, member by member: an answer its text and calls, an execution its output or error, a refusal its reason, under the call's ID and name. |
| Evidence.RunRequests | internal/infrastructure/eino/graphs/chatbot_graph.go:174-181 | Every request of a Run carries the caller's model and temperature or the defaults, the tools listed at the time and a limit of 4096 tokens. |
| Exhaustion.RunExhausts | internal/infrastructure/eino/graphs/chatbot_graph.go:382-391 | The LLM budget is attained: an LLM that never stops calling an ungated or missing tool is asked exactly ten times. |
| Reports.FinalAnswer | internal/infrastructure/eino/graphs/chatbot_graph.go:399-411 | When an invocation ends in the response node, by answer, iteration limit or a pause on the last iteration, its current output is the last answer of the transcript, or empty; a non-empty output of a pause is that too. |
| Reports.TurnGrown | internal/infrastructure/eino/graphs/chatbot_graph.go:210-273 | However often a turn pauses, its books are those of its whole log. |
| Reports.ReportsAreCumulative | internal/infrastructure/eino/graphs/chatbot_graph.go:187-202 | Each output of a turn reports the tokens and executions of the whole turn so far, not of the last call. |
| Reports.ModelPerAgentIsNeverUsed | internal/infrastructure/eino/graphs/chatbot_graph.go:299-301 | Every LLM request of a turn names the caller's model or the default one: the model configured per agent is never asked. |
| Reports.LastReportIsCumulative | internal/infrastructure/eino/graphs/chatbot_graph.go:210-273 | The last decision on a turn, approval or rejection, reports the tokens of the whole turn too. |
| Reports.EndsHavingUsed | internal/infrastructure/eino/graphs/chatbot_graph.go:326-328 | Where every LLM answer reports usage, an invocation that reaches the end has used more tokens than it started with. |
| Reports.ChargedOnceIff | internal/application/usecase/chat/approve_action.go:82-99 | Where every LLM answer reports usage, adding up what n decisions on a turn report (approvals, the last possibly a rejection) counts the turn's usage once if and only if n is 1, and more than once otherwise. |
| AgentStates.AgentState.AddAssistantMessage | internal/infrastructure/eino/state/agent_state.go:92-101 | Appends one assistant message that carries the calls if there are any. |
| AgentStates.AgentState.AddToolResult | internal/infrastructure/eino/state/agent_state.go:103-111 | Queues one tool message with the ID and name of its call. |
| AgentStates.AgentState.FlushToolResults | internal/infrastructure/eino/state/agent_state.go:113-116 | The queued results end the transcript in order and the queue is empty: none is lost. |
| ChatbotGraphs.ChatbotGraph.Classify | internal/infrastructure/eino/graphs/chatbot_graph.go:278-295 | The two keyword loops choose researcher if any research keyword occurs, else coder if any code keyword does, else general. |
| ChatbotGraphs.ChatbotGraph.RouterNode | internal/infrastructure/eino/graphs/chatbot_graph.go:277-307 | The node on the state in place refines the router of the machine. |
| ChatbotGraphs.ChatbotGraph.ThinkNode | internal/infrastructure/eino/graphs/chatbot_graph.go:309-333 | Asks the LLM once with the built messages and the listed tools; on an answer tokens, output, pending calls and transcript change together, on an error only the error does. |
| ChatbotGraphs.ChatbotGraph.ActOnPending | internal/infrastructure/eino/graphs/chatbot_graph.go:338-376 | The loop over the pending calls, from any point of it, gives the results, log, count and hold of the recursive specification. |
| ChatbotGraphs.ChatbotGraph.ActNode | internal/infrastructure/eino/graphs/chatbot_graph.go:335-380 | The node on the state in place refines act of the machine; `IsApproved` is not consulted. |
| ChatbotGraphs.ChatbotGraph.ObserveNode | internal/infrastructure/eino/graphs/chatbot_graph.go:382-391 | The node on the state in place refines observe of the machine. |
| ChatbotGraphs.ChatbotGraph.ResponseNode | internal/infrastructure/eino/graphs/chatbot_graph.go:399-411 | The backward loop finds the last assistant message that has content. |
| ChatbotGraphs.ChatbotGraph.Invoke | internal/infrastructure/eino/graphs/chatbot_graph.go:88-163 | The loop over the nodes ends in the state and log of the machine's run, and terminates. |
| ChatbotGraphs.ChatbotGraph.Run | internal/infrastructure/eino/graphs/chatbot_graph.go:168-205 | Run over objects refines the functional Run, whose results the theorems are about; without a built graph it fails and asks nothing. |
| ChatbotGraphs.ChatbotGraph.ActByHand | internal/infrastructure/eino/graphs/chatbot_graph.go:236-248 | act and observe by hand with the flags set and cleared around them leave the re-entry state of the specification. |
| ChatbotGraphs.ChatbotGraph.Resume | internal/infrastructure/eino/graphs/chatbot_graph.go:210-273 | Resume over objects refines the functional Resume: undecodable text, rejection and approval. |
| Conversations.Conversation.RequestApproval | internal/domain/entity/conversation.go:76-81 | Refinement step in place: pending status, node, pending entry and time change, and nothing else. |
| Conversations.Conversation.Approve | internal/domain/entity/conversation.go:83-87 | Refinement step in place: active status, and the pending entry is gone; nothing else but the time changes. |
| Conversations.Conversation.Reject | internal/domain/entity/conversation.go:89-96 | Refinement step in place: active status and a rejection entry; the pending entry stays. |
| Conversations.Conversation.AddMessageStats | internal/domain/entity/conversation.go:105-112 | Refinement step in place: one message more, tokens and calls added, both times set. |
| Conversations.Conversation.SetTitle | internal/domain/entity/conversation.go:114-119 | Refinement step in place: only an empty title is replaced, and only by a non-empty one. |
| ConversationStore.ConversationRepository.Create | internal/infrastructure/persistence/postgres/conversation_repository.go:22-40 | Inserts the row with null last-message and completion times, or fails on a taken key and writes nothing. |
| ConversationStore.ConversationRepository.FindByID | internal/infrastructure/persistence/postgres/conversation_repository.go:42-67 | A new entity with the values of the row, or none if the row is missing or soft-deleted. |
| ConversationStore.ConversationRepository.Update | internal/infrastructure/persistence/postgres/conversation_repository.go:133-153 | Writing the listed columns takes everything from the entity, the workflow state included, but owner, creation time and deletion mark. |
| ConversationStore.ConversationRepository.UpdateWorkflowState | internal/infrastructure/persistence/postgres/conversation_repository.go:155-164 | Only the workflow state (and, by trigger, the update time) of one row changes. |
| ConversationStore.ConversationRepository.Delete | internal/infrastructure/persistence/postgres/conversation_repository.go:166-176 | Only the deletion mark (and the update time) of one row changes. |
| ConversationStore.MessageRepository.FindByConversationID | internal/infrastructure/persistence/postgres/message_repository.go:90-98 | The loop returns exactly the conversation's messages, in sequence order. |
| ChatUseCases.SendMessageUseCase.Execute | internal/application/usecase/chat/send_message.go:81-181 | The stateful path, step by step over the repositories, has the effect and outcome of the specification: load or create, store, run, pause or answer. |
| ChatUseCases.SendMessageUseCase.TakeTurn | internal/application/usecase/chat/send_message.go:104-181 | From the user's message on, with the loop that builds the history. |
| ChatUseCases.ApproveActionUseCase.Execute | internal/application/usecase/chat/approve_action.go:44-118 | The decision, step by step over the repositories, has the effect and outcome of the specification, with its six refusals in order. |
| ChatUseCases.ApproveActionUseCase.Persist | internal/application/usecase/chat/approve_action.go:74-117 | What follows a successful Resume: message, counters, re-pause or new status. |
| ChatHistories.PauseLosesItsCheckpoint | internal/application/usecase/chat/send_message.go:145-156 | For every paused send: as written the row keeps the workflow state the entity was loaded with; with the checkpoint set on the entity first, the row holds it. |
| ChatHistories.LostCheckpoint | internal/application/usecase/chat/send_message.go:145-156 | A concrete history in which a pending conversation cannot be approved as written and can be with the checkpoint kept. |
| ChatHistories.NoCheckpointSurvives | internal/infrastructure/persistence/postgres/conversation_repository.go:133-164 | On every history from empty tables, whatever the engine reports, every row's workflow state is empty between calls. |
| ChatHistories.DecisionsNeverSucceed | internal/application/usecase/chat/approve_action.go:58-62 | On every history every decision is refused and changes nothing, for want of the checkpoint exactly when the caller owns a pending conversation. |
| ChatHistories.PendingIffEverPaused | internal/application/usecase/chat/send_message.go:145-156 | A conversation is pending if and only if some send on it paused: nothing takes it back. |
| ChatHistories.PendingIsBacked | internal/application/usecase/chat/send_message.go:145-156 | With the checkpoint kept, on every history every pending row holds a checkpoint the engine reported. |
| ChatHistories.DecisionsReachTheEngine | internal/application/usecase/chat/approve_action.go:58-103 | With the checkpoint kept, the owner's decision on a pending conversation always reaches the engine with a good checkpoint and leaves it pending exactly if the engine fails or pauses again. |
| ChatHistories.RowsAreTidy | internal/domain/entity/conversation.go:76-112 | On every history only active and pending occur; a pending row carries a pending entry; an active row that still carries one has been rejected; the last-message time is set exactly when messages were counted. |
| ChatHistories.CountersAreReports | internal/application/usecase/chat/approve_action.go:82-99 | On every history, in either variant, the stored counters are the number of unpaused sends and successful decisions and the sums of the tokens and calls those engine results reported; paused sends count nothing. |
| ChatHistories.PausedTurnsAreLost | internal/application/usecase/chat/send_message.go:145-173 | As written, on every history the stored counters are those of the unpaused sends alone: what a turn that pauses used is never counted. |
| ChatHistories.NothingDecided | internal/application/usecase/chat/approve_action.go:58-62 | As written, no history contains a decision that went through. |
| ChatRecords.TableIsDialogue | internal/application/usecase/chat/send_message.go:104-167 | On every history, in either variant, the message table is, in order, the messages of the sends that were not refused before storing and the responses that were reported, each with its conversation, author, text and model. |
| ChatRecords.TextsAreReported | internal/application/usecase/chat/send_message.go:104-167 | So a conversation's assistant messages are the responses of its unpaused sends and the non-empty ones of its decisions, and its user messages the contents of its sends. |
| ChatEffects.SendRefusedIff | internal/application/usecase/chat/send_message.go:85-102 | A send to a missing or deleted conversation, to another user's, or with a taken new key is refused so, and changes nothing. |
| ChatEffects.SendAsks | internal/application/usecase/chat/send_message.go:104-142 | Any other send asks the engine once: conversation, user, text, model or default, the stored messages with their roles followed by this one, the row's temperature; and it reports what the engine answers. |
| ChatEffects.SendWrites | internal/application/usecase/chat/send_message.go:144-180 | Only its row changes: an unpaused send counts the turn and titles an untitled conversation; a paused one leaves it pending at the reported agent for the reported reason; a failed one leaves it as it was, a new one with its defaults. |
| ChatEffects.DecisionWrites | internal/application/usecase/chat/approve_action.go:58-117 | A decision that goes through is the engine's answer to the row's checkpoint; only its row changes, counts the report, and is pending again, approved without its pending entry and no other, or rejected with the reason and the pending entry kept, as the status says; any other decision changes nothing. |
| ChatEffects.TitlesAreFirstWords | internal/domain/entity/conversation.go:114-119 | On every history a conversation is titled by the first non-empty text that was answered in it. |
| ChatTranscripts.MessageCountIsSpoken | internal/application/usecase/chat/send_message.go:163-174 | On every history a conversation's message count is the number of its stored assistant messages plus the decisions without a response to store. |
| ChatTranscripts.HistoryEndsWithInput | internal/application/usecase/chat/send_message.go:104-139 | The engine is given the stored history followed by the user's message, and that message once more as the input. |
| ChatTranscripts.FirstRequestSaysItOnce | internal/infrastructure/eino/graphs/chatbot_graph.go:447-467 | The first request of a sent turn is the system prompt and that history: it says the user's message once. |
| ChatTranscripts.SentTurnSaysItOnceIff | internal/infrastructure/eino/graphs/chatbot_graph.go:447-467 | All requests of a sent turn do if and only if the input is empty or every later request follows a tool message that is the input's own text. |
| EngineHistories.EngineServes | internal/infrastructure/eino/graphs/chatbot_graph.go:168-273 | Whatever it is given, the graph reports no pause without a checkpoint that decodes to a state stopped at a held call. |
| EngineHistories.PendingIsResumable | internal/application/usecase/chat/send_message.go:145-156 | With the checkpoint kept and the graph as engine, every pending row of every history holds a checkpoint that can be resumed. |
| EngineHistories.PausedSendWaits | internal/application/usecase/chat/send_message.go:145-156 | With the checkpoint kept, a send that pauses leaves the sender's conversation waiting on the checkpoint of that very run. |
| EngineHistories.DecisionsCharge | internal/application/usecase/chat/approve_action.go:82-99 | With the checkpoint kept: n decisions on a paused turn, the last possibly a rejection, add to the stored totals the sum of their n reports, and n messages. |
| EngineHistories.TurnChargedOnce | internal/application/usecase/chat/approve_action.go:82-99 | With the checkpoint kept and an LLM whose answers all report usage: they add exactly the tokens the turn used if and only if it paused once; every further pause overcharges it. |
| PausingTurns.TurnKeepsPausing | internal/infrastructure/eino/graphs/chatbot_graph.go:335-364 | Under an LLM that insists on a gated call, a turn pauses again after every approval, each pause having used one answer's tokens more. |
| PausingTurns.Overcharged | internal/application/usecase/chat/approve_action.go:82-99 | A concrete turn that pauses twice and uses three tokens is charged five with the checkpoint kept, and nothing as written. |
| WorkerPool.Conservation | internal/infrastructure/worker/pool.go:18-69 | In every interleaving: accepted jobs in order are the started ones followed by the queue (so none starts twice or out of order), the queue keeps to its size, and started jobs not yet completed are those on workers, at most one each. |
| WorkerPool.StepKeepsInv | internal/infrastructure/worker/pool.go:35-75 | One channel operation keeps that, also over an unbuffered channel. |
| WorkerPool.PanicNeedsLateSubmit | internal/infrastructure/worker/pool.go:51-75 | A run without a submit evaluated after the close never sends on the closed channel. |
| WorkerPool.MayPanicAtIff | internal/infrastructure/worker/pool.go:51-75 | A run can be cut at one of its submits and that submit take its send case on the closed channel, and panic, if and only if a close comes before it. |
| WorkerPool.SendOnClosedIff | internal/infrastructure/worker/pool.go:71-75 | So no run without a submit after the close panics, and every run with one agrees, up to such a submit, with a run that does. |
| WorkerPool.WorkGoesOn | internal/infrastructure/worker/pool.go:35-49 | In a closed pool, as long as a worker is left, one can move. |
| WorkerPool.ShutdownDrains | internal/infrastructure/worker/pool.go:71-75 | Every run of a closed pool that nobody submits to is at most twice as long as its queue and its live workers together; it can go no further exactly when all workers have exited, and then every accepted job has completed or sits unstarted in the queue. |
| PoolObjects.PoolObject.Submit | internal/infrastructure/worker/pool.go:51-60 | The select, free in its choice among ready cases, is one enabled step of the machine; it answers true exactly if the job was accepted. |
| PoolObjects.PoolObject.SubmitWait | internal/infrastructure/worker/pool.go:62-69 | The same select without a default: refused only when cancelled. |
| PoolObjects.PoolObject.WorkerStep | internal/infrastructure/worker/pool.go:35-49 | One round of a worker is one enabled step of the machine. |
| PoolObjects.PoolObject.Shutdown | internal/infrastructure/worker/pool.go:71-75 | cancel, close and wait end under every schedule of the workers; nothing more was accepted, and every accepted job has completed or is still queued. |
| BatchJoin.SendNeverBlocks | internal/infrastructure/http/handler/tool_handler.go:108-125 | In every reachable state a goroutine that holds a value finds room in the channel. |
| BatchJoin.NeverStuck | internal/infrastructure/http/handler/tool_handler.go:127-129 | Before the n-th receive something can always move. |
| BatchJoin.JoinedIsSequential | internal/infrastructure/http/handler/tool_handler.go:127-131 | After n receives every goroutine is done, all slots are written, and they are those of one call after the other. |
| BatchJoin.EveryScheduleJoins | internal/infrastructure/http/handler/tool_handler.go:108-129 | Every schedule is at most 3n steps long; where it cannot go on there were exactly n receives, and the results are those of the sequential map, nil where a call failed. |
| BatchJoin.SequentialAt | internal/infrastructure/http/handler/tool_handler.go:118-123 | Slot i of the reference is the result of call i, or nil when that call failed. |
| ToolBatch.ExecuteToolBatch | internal/infrastructure/http/handler/tool_handler.go:98-132 | The handler over its shared slice, under any schedule: as many slots as calls, and slot i holds the result of call i if the token may use its tool and it is registered, parses, validates and executes, else nil. |
| ToolRegistry.ExecuteTool | internal/application/usecase/tool/execute_tool.go:37-75 | A call succeeds exactly if the token may use the tool and it is registered, parses, validates and executes; each refusal names the first of these that fails, so an unknown tool is reported only to tokens that may use the name. |
| ToolRegistry.CanUseTool | internal/domain/entity/token.go:60-70 | The loop with early return decides the permission: unrestricted, wildcard or named. |
| ToolRegistry.Registry.RegisterAll | internal/application/usecase/tool/tool_registry.go:44-48 | The last tool of a name wins. |
| ToolRegistry.Registry.ListForToken | internal/application/usecase/tool/tool_registry.go:80-103 | Lists each registered tool that the token may use once, in any map order. |
| ToolRegistry.ListingAgreesWithPermission | internal/application/usecase/tool/tool_registry.go:80-103 | A name is listed for a token if and only if it is registered and the token may use it. |
| SseFraming.WireFormat | internal/pkg/response/response.go:48-64 | The framing and the end marker, letter by letter. |
| SseFraming.CleanSurvives | internal/infrastructure/llm/litellm/client.go:115-139 | Reading back what framing wrote gives the same payloads when each is non-empty, on one line, without trailing space and not the end marker (a subset of section 9.2.6 of the WHATWG HTML Living Standard). |
| SseFraming.PayloadsAreClean | internal/infrastructure/llm/litellm/client.go:115-139 | Whatever the lines, every payload read is of that kind. |
| SseFraming.RoundTripIff | internal/pkg/response/response.go:48-64 | So the round trip holds if and only if every payload is of that kind. |
| StreamHandshake.ReadSSE | internal/infrastructure/llm/litellm/client.go:101-182 | The producer's loop sends exactly the specified events of its rounds, up to the one that ends it. |
| StreamHandshake.SendPieces | internal/infrastructure/llm/litellm/client.go:156-180 | One chunk, event by event: the first choice's content, then its calls in order, then its finish reason with the chunk's usage; nothing for what is empty. |
| StreamContents.StreamConveys | internal/infrastructure/llm/litellm/client.go:141-180 | Whatever the lines: the content events spell the contents of the first choices that decode, the tool-call events carry their calls and the finish events their reasons and usage, in order, and one end follows. |
| StreamContents.FramedStreamConveys | internal/infrastructure/llm/litellm/client.go:115-180 | The same of clean payloads written with the response framing. |
| StreamContents.EndIsTold | internal/infrastructure/http/handler/chat_handler.go:91-102 | A stream cut by an error or cancellation: the client gets every event before it, that error and the end marker; one that ends well, its end and the marker. |
| StreamHandshake.HandleStream | internal/infrastructure/http/handler/chat_handler.go:91-102 | The consumer's loop writes exactly the specified responses, up to the event it stops at, and the end marker. |
| StreamHandshake.StepKeepsInv | internal/infrastructure/llm/litellm/client.go:101-182 | Every step of producer or consumer keeps the writes made and to come equal to the sequential ones, and shrinks the work left. |
| StreamHandshake.EmittedStops | internal/infrastructure/llm/litellm/client.go:115-139 | One event at most is emitted after the one the consumer stops at, and only after a read error. |
| StreamHandshake.EveryRunEnds | internal/infrastructure/http/handler/chat_handler.go:91-102 | Every interleaving over a stream that ends is finite; where it cannot go on all writes were made in order, and both sides are done, unless the stream ended in a read error other than end of input: then the producer is stuck on its last event. |
| StreamHandshake.ReadErrorLeaks | internal/infrastructure/llm/litellm/client.go:115-122 | A run that gets there: one read error, handed over, and the consumer returns while the producer holds its last event for ever. |
| StreamHandshake.WholeStreamForwarded | internal/infrastructure/http/handler/chat_handler.go:91-102 | A stream ended by the marker or the end of input is forwarded whole: one write per event, in order, and the end marker. |
| StreamHandshake.FramedStreamEmits | internal/infrastructure/llm/litellm/client.go:115-182 | Clean payloads written with the response framing reach the consumer as the events they decode to and one end, and nothing else. |
| RateLimit.RateLimiter.Limit | internal/infrastructure/http/middleware/ratelimit.go:20-62 | The middleware over its stored counters decides and counts as specified: minute first, day only if the minute passes. |
| RateLimit.MinuteKeysCount | internal/infrastructure/http/middleware/ratelimit.go:30-35 | After every run a minute key counts every request of its bucket and never expires inside it. |
| RateLimit.DayKeysCount | internal/infrastructure/http/middleware/ratelimit.go:45-50 | On dates of at most 24 hours a day key counts every request of the date that the minute limit let through. |
| RateLimit.LimiterCounts | internal/infrastructure/http/middleware/ratelimit.go:30-60 | On such dates the limiter with expiring keys decides as counting over the whole run does. |
| RateLimit.BucketBound | internal/infrastructure/http/middleware/ratelimit.go:30-43 | A bucket passes at most the minute limit. |
| RateLimit.IntervalBound | internal/infrastructure/http/middleware/ratelimit.go:30-60 | Any interval of k minutes, wherever it starts, passes at most (k+1) times the minute limit. |
| RateLimit.IntervalBoundAttained | internal/infrastructure/http/middleware/ratelimit.go:30-60 | For every k and limit there is a run in which (k+1) times the minute limit passes within k minutes, if the daily limit allows it. |
| RateLimit.DateBound | internal/infrastructure/http/middleware/ratelimit.go:45-55 | A date of at most 24 hours passes at most the daily limit. |
| RateLimit.DayIntervalBound | internal/infrastructure/http/middleware/ratelimit.go:45-55 | Any interval over dates in order of at most 24 hours passes at most the daily limit once for each date from its first to its last. |
| RateLimit.DaysBound | internal/infrastructure/http/middleware/ratelimit.go:45-55 | Where every date lasts 24 hours, any interval of k days passes at most (k+1) times the daily limit. |
| RateLimit.DailyLimitIff | internal/infrastructure/http/middleware/ratelimit.go:45-55 | The daily limit holds for a date, on all runs and limits, if and only if the date lasts at most 24 hours. |
| RateLimit.LongDateLeaks | internal/infrastructure/http/middleware/ratelimit.go:45-55 | On a longer date (25 hours when clocks go back) a limit of one lets two requests through. |
| RateLimit.MinuteRejectionSparesTheDay | internal/infrastructure/http/middleware/ratelimit.go:37-43 | A request the minute limit rejects leaves every daily counter as it was. |
| Calculator.EvalMeaning | internal/application/usecase/tool/builtin/calculator.go:72-114 | On every tree evaluation gives the denotation, or the first fault in left-to-right post-order. |
| Calculator.SucceedsIff | internal/application/usecase/tool/builtin/calculator.go:72-114 | It succeeds if and only if every literal parses, every node and binary operator is supported and no divisor denotes zero. |
| Calculator.StripChangesNothing | internal/application/usecase/tool/builtin/calculator.go:100-110 | Removing parentheses and unary operators other than minus changes neither values nor errors. |
| Calculator.SumsHold | internal/application/usecase/tool/builtin/calculator.go:86-89 | Where operands evaluate, sums commute, a difference undoes a sum and a negation a summand. |
| Calculator.ProductsDistribute | internal/application/usecase/tool/builtin/calculator.go:90-91 | Products commute and distribute over sums. |
| Calculator.QuotientsHold | internal/application/usecase/tool/builtin/calculator.go:92-96 | A quotient that evaluates, times its divisor, is its dividend. |
| Calculator.OneIsNeutral | internal/application/usecase/tool/builtin/calculator.go:90-96 | A literal one changes nothing as a factor or divisor. |

## Left out

- Eino: the runtime of the graph library, with any step cap of its own; `Invoke` is sequential execution of the declared edges.
- The panic on an answer without choices: the LLM oracle returns an error or a first choice. Cancellation of the request context inside the engine.
- Wall clock and identifiers: `time.Now`, `uuid.New` and request IDs are parameters, one clock reading for each use-case call; the timestamps a database trigger writes are that reading.
- JSON text: values only, known by what they denote. Case-insensitive member names and duplicate members in decoding, and encoding errors, are not modelled; absent and null members read the same. Member names are constructors; the free names of a map are none of them, and schemas are written as finite maps.
- Tool results are already marshalled; argument parsing, number syntax and letter case are oracles.
- Integer width: counters and token counts are unbounded. Temperatures are exact reals, the calculator's arithmetic is exact, without rounding, infinities and NaN.
- Column widths and database failures: titles longer than the column, constraint violations other than the primary key, and failing statements; the histories are failure-free.
- Concurrent use-case calls on one conversation: histories are sequential.
- The stateless path of SendMessage, ExecuteStream's set-up, GetConversation and ListConversations: straight-line calls. FindByUserID's filters and order, CountByUserID.
- Complete on the conversation entity: no use case calls it.
- Clone and AddUserMessage on the state, AddMessage: not called on the modelled paths.
- ToolRegistry.Registry.ListForToken: the nested read lock is not modelled; a tool is its name and its definition.
- ToolRegistry.ExecuteTool: durations and the wrapped error texts are left out; each refusal is one constructor.
- RateLimit.RateLimiter.Limit: Redis is a map from key to count and expiry, a key living up to and including its expiry, without errors or eviction; each call happens at one clock reading, so expiry is set at the time of the increment; response headers are left out. Clock readings of a run need not be ordered.
- PoolObjects.PoolObject.Receive: what a job computes is left out; a job is started and completed. A job that never returns makes Shutdown wait for ever; Shutdown is called once. That a worker is waiting on the empty channel is a parameter of Submit.
- StreamHandshake.EveryRunEnds: a reader that never ends and never fails is outside the claim; the response body's close and HTTP set-up are left out, and the JSON a chunk decodes to is an oracle.
- StreamHandshake.HandleStream: writes to the client succeed.
- SseFraming.RoundTripIff: named events (`event:` lines) are not written on the modelled path.
- ToolBatch.ExecuteToolBatch: the goroutines and the collector are one loop that picks any step that is ready; calls do not influence each other.
- ChatbotGraphs.ChatbotGraph.BuildRunnable: building never fails; a graph that is not built refuses to run.
- Authentication, users, tokens' life cycle, hashing, HTTP routing, headers, logging, caching, configuration, mail and domain events.
- Unused on these paths: ToolExecution, ConversationDomainService, AuthDomainService, the Cache port.
