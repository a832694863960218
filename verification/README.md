# Verified model of YAC

YAC is a terminal chat client. This project models the parts of it that are state
machines, parsers and editors and need no terminal, network or disk, and proves what
they promise. `dafny verify dfyconfig.toml` checks everything.

Bytes are modelled as `char`s and byte strings as `string`. Counters and sizes are
unbounded. Clocks, the environment, stored profiles, providers, tool executors and the
user are parameters, so every statement holds for whatever they do.

| part | files |
|---|---|
| Chat engine as a step system: data, steps, what they keep, theorems, limits | `ChatTypes`, `ChatMachine`, `ChatInvariants`, `ChatRounds`, `ChatEvents`, `ChatTheorems`, `ChatLimits`, `ChatOrphans`, `ChatOrder`, `ChatRequests` |
| What the engine does with prompts, cancellations, stops, compactions, and what it stores and tells | `ChatQueue`, `ChatCancel`, `ChatStops`, `ChatCompaction`, `ChatContinuations`, `ChatLog`, `ChatLifecycle`, `ChatRecord`, `ChatWords` |
| Chat engine as it runs, proved to take only steps of that system | `ChatEngine` |
| History and its compaction | `Compaction` |
| Leaving Plan mode | `PlanExit`, `PlanModes` |
| Tool approvals and the approval gate | `ToolApproval`, `ApprovalMachine`, `ApprovalInvariants`, `ApprovalSteps`, `ApprovalTheorems`, `ApprovalStops`, `ApprovalModes`, `ApprovalAnswers`, `ApprovalRuns` |
| Engine and approval protocol together | `ChatApprovals` |
| Chat session, its indexes and cache keys, the drawing order | `SessionModel`, `SessionInvariants`, `SessionContents`, `SessionParts`, `SessionCaches`, `ChatSession`, `RenderPlan` |
| Server-sent events, partial JSON, string-map JSON | `SseParser`, `SseLines`, `PartialJson`, `StringMapJson` |
| The settings.toml line editor | `TomlLines`, `TomlSyntax`, `TomlShapes`, `TomlEditor`, `TomlLaws`, `TomlEffort`, `EffortLaws` |
| Configuration overlay | `ConfigOverlay` |
| Delta coalescer, MCP result truncation | `Coalescer`, `McpTruncation` |
| Shared | `Ascii`, `Numerals`, `Strings` |

## How the engine is modelled

One step is one critical section, one access to the generation counter or the stop
token, or work only the worker sees. A reset is four steps: bump; clear the queue and
request the stop; wait, which may time out; bump again and clear together. The worker
reads its generation in a step of its own, after taking the prompt. Two things are
recorded that the program does not store: which run a message came from, and how often
the history was cleared (the epoch). Isolation is stated in terms of the epoch at which
the generation was read.

`ChatEngine` has the fields and the loops of the program. Its methods are the
sections; between any two of them other threads take any steps, and `Valid` says that
the state is one the step system reaches by the steps taken so far.

## Findings

Where the code does something other than its own comments say, the model follows the
code.

- A prompt popped but not yet captured outlives a reset whose wait times out; a reset
  supersedes exactly the prompts captured before it.
- A cancellation silences the run under way exactly if it had read its generation; before
  that the prompt is still answered. A prompt cancelled between its entry check and the end
  of its compaction can still have the history compacted. A stop alone leaves at most one
  request and one tool.
- Summaries do not check the generation: after a reset, the summary of the old
  conversation is put in front of the last continuations exactly when there are more
  than `keep_last` of them.
- Continuations can come between a tool call and its result, and beside the round's other
  results nothing else can; they do exactly when they arrive while the round goes on.
- A prompt that is over in the middle of a tool round leaves its unanswered call in the
  history, and the next request carries it. Own rounds are closed in every request.
- A plan exit that is between its two sections at a reset leaves a reminder of the old
  plan; without one, reminders are about plans of the new conversation.
- Compaction can keep a tool result without its call, which the settings template rules
  out: exactly when the cut falls into a tool round, whether or not the result is the
  oldest message kept.
- The header of the session says text appends never move the plan counter; they do when
  they open a segment. The plan does not change even then.
- A theme name set where `[theme]` is an unended last line is glued to the header and
  lost; so is an effort set behind an unended last line of its block, unless that line is
  blank. Below a `[[...]]` header inside the section the editor renames another table's
  key. A DEL byte is written bare, which a TOML basic string does not allow.
- A provider from the environment without a preset leaves the TOML provider's preset
  values in force, which shows exactly where they differ from the built-in defaults;
  preset values are tagged as built-in defaults.
- The coalescer's flush posts outside the lock, so text can be overtaken by later text
  and by later events; either happens exactly when another flush that drained earlier
  is still posting.
- An MCP call is marked truncated when the whole response exceeds the limit, also if its
  blocks fit. More than the budget is kept exactly when the budget is used up in a field
  that has more behind it in its block.
- A stop keeps a call that needs approval from running exactly if its approval wait has
  not returned approved yet.
- Re-adding the active turn's id as a user message leaves an active id that names no
  Active agent message.

## Model

| member | source | states |
|---|---|---|
| `ChatTheorems.InvariantKept` | src/chat/chat_service.cpp:322-545 | Every step of the worker, of UI threads and of sub-agents keeps the engine's whole invariant |
| `ChatTheorems.InvariantAlways` | src/chat/chat_service.cpp:322-545 | The invariant holds after every possible sequence of steps of all threads |
| `ChatTheorems.ResetIsolation` | src/chat/chat_service.cpp:386-434 | Over all interleavings, drain timeouts included, every message a prompt run has in the history comes from a run that read its generation after the latest clear |
| `ChatTheorems.SupersededRunsNeverAppendAgain` | src/chat/chat_service_prompt_processor.cpp:182-189 | From any state with sound generation bookkeeping, a run that read its generation before a clear appends nothing, ever |
| `ChatTheorems.ClearedRunsNeverAppendAgain` | src/chat/tool_round_runner.cpp:229-236 | The same from the start of the engine, for every continuation of every run |
| `ChatTheorems.RequestsFindClosedRounds` | src/chat/chat_service_prompt_processor.cpp:202-263 | What a run appended reads as prompt, tool rounds answered in order as far as they got, and at most one closing message; every request carried exactly the run's messages so far with all calls answered |
| `ChatRounds.RunsHaveTheirGrammar` | src/chat/tool_round_runner.cpp:180-242 | What is accepted step by step reads as a well-formed transcript: parsing and rendering give the messages back |
| `ChatRounds.GrammarIsAccepted` | src/chat/tool_round_runner.cpp:180-242 | Conversely every well-formed transcript is accepted and is read back as itself |
| `ChatTheorems.EventsAndTextAreConserved` | src/chat/chat_service_prompt_processor.cpp:64-132 | A run that emitted Started emitted exactly one Finished, last; if it reported the message done, its deltas spell exactly the assistant messages it appended, no round twice |
| `ChatTheorems.NothingIsFinishedEarly` | src/chat/chat_service_prompt_processor.cpp:191-268 | While a run is under way it has not finished, and streamed text is stored text followed by the round in flight |
| `ChatTheorems.WorkerIsNeverStuck` | src/chat/chat_service.cpp:499-545 | Inside a prompt the worker always has an enabled step |
| `ChatQueue.PromptsAreServedInOrder` | src/chat/chat_service.cpp:508-524 | Over every run: the prompts of the runs so far, then of the one under way, then of the queue, have strictly increasing ids, all below the next one given out |
| `ChatQueue.NoPromptIsLost` | src/chat/chat_service.cpp:195-206 | From any state, as long as no reset drops the queue: what was begun or is queued is what had been before, then what was asked for since, word for word and in that order |
| `ChatQueue.DrainedResetsFindNothingUnderWay` | src/chat/chat_service.cpp:406-411 | When a reset is done waiting without a timeout, everything begun is over, and the finished runs stay as they are whatever happens next |
| `ChatCancel.SupersedingSilencesExactly` | src/chat/chat_service.cpp:322-332 | In every reachable busy state: a cancellation, or a section of a reset that moves the generation on, keeps the run under way from ever storing a message, building a request or passing on anything the model says, whatever happens next, exactly if the run had read its generation |
| `ChatCancel.SupersededAnswersAreCancelledExactly` | src/chat/chat_service_prompt_processor.cpp:202-268 | An answer superseded while under way ends with RunCancelled and Finished, exactly unless the model was done with nothing left to store; then with AssistantDone and Finished |
| `ChatStops.StopsLeaveOneRequestExactly` | src/chat/chat_service_prompt_processor.cpp:202-268 | A requested stop, whatever happens next, leaves the run under way at most one request and one tool, each still possible exactly where the worker is behind its last test of the stop and nothing else ends the run |
| `ChatLifecycle.LogsCanBeFollowed` | src/chat/chat_service_prompt_processor.cpp:135-268 | The events of every run follow one protocol: begun, perhaps compacted, then no provider or an answer of text, arguments, errors and tools started and finished one by one under their cards, then exactly one ending with nothing behind it |
| `ChatRecord.RecordsAreWhatWasTold` | src/chat/chat_service_prompt_processor.cpp:64-132 | What a run has stored is, line by line, a beginning of what model and tools said; while it is current, all of it but the answer in hand |
| `ChatRecord.MessagesCarryTheirIds` | src/chat/tool_round_runner.cpp:222-236 | In every run the prompt comes first under its id, assistant messages carry the id of the answer, and stored tool results are those reported, with card, call and failure, in order; all but the one in hand while the run is current |
| `ChatRecord.RequestsCarryTheHistory` | src/chat/chat_service_prompt_processor.cpp:271-311 | Every request carried the whole history of one moment at which its run was current and between rounds |
| `ChatWords.WordsArePassedOn` | src/chat/chat_service_prompt_processor.cpp:64-118 | Listeners of a current run hear every piece of text, argument fragment, error and forwarded event once and in order, and nothing else; of a superseded run only a beginning |
| `ChatContinuations.ContinuationsArriveInOrder` | src/chat/chat_service.cpp:576-608 | From any state, over all steps: the continuations in the history are the latest of what sub-agents told the busy engine, word for word and in order, as completed user messages; all of them if nothing was compacted or cleared |
| `ChatCompaction.CompactionsAreAnnounced` | src/chat/chat_service_compactor.cpp:22-37 | Whenever the worker takes something out of the history it says so with the number of messages gone, and only then |
| `ChatCompaction.SummariesComeOfTheirChoice` | src/chat/chat_service_compactor.cpp:192-236 | From the choice of a summary to its end, with any steps of other threads between: asked for exactly if more than keep_last are there; then its note, or that of a truncation if it failed, stands behind the leading system messages in place of all but the last keep_last others there by then |
| `ChatCompaction.SupersededPromptsCompactExactly` | src/chat/chat_service_prompt_processor.cpp:156-180 | A prompt superseded after its generation was read can still have the history compacted exactly if it had come to the choice of the compaction and not beyond its end |
| `ChatCompaction.CompactionOnRequest` | src/chat/chat_service.cpp:464-472 | A compaction the user asks for leaves the last keep_last others of an idle engine, changes nothing of a busy one, and done twice does what it does once |
| `ChatCompaction.NotesCanBeReadBack` | src/chat/chat_service_history.cpp:26-36 | The number of messages gone can be read off the note of a truncation, and the text off that of a summary |
| `ChatInvariants.GenerationsKept` | src/chat/chat_service.cpp:567-574 | Generations and epochs only grow, and a run with the current generation belongs to the current epoch |
| `ChatInvariants.IsolatedKept` | src/chat/chat_service_prompt_processor.cpp:222-233 | Each step keeps the history free of messages of superseded runs |
| `ChatInvariants.ProjectedKept` | src/chat/chat_service_prompt_processor.cpp:182-189 | For a run whose generation is current, its messages in the history are exactly those it appended |
| `ChatOrder.OnlyContinuationsComeBetween` | src/chat/chat_service.cpp:576-596 | In every reachable history, whatever stands between two messages of a run is a message of that run or a sub-agent continuation |
| `ChatOrder.OrderKept` | src/chat/chat_service_history.cpp:8-44 | Every step of every thread keeps the system messages in front and the messages of each run together but for continuations, those of the run under way at the end |
| `ChatOrder.ContinuationsSplitToolRounds` | src/chat/chat_service.cpp:576-596 | In every reachable busy state: the continuation goes to the end of the history, and a result of the round under way can still come behind it, as the very next message, exactly when the run is not stale and the worker is in the tool loop with calls left, or behind a result with calls left and no stop requested |
| `ChatOrphans.ToTheResult` | src/chat/chat_service.cpp:576-596 | A run of the engine with a continuation between a tool call and its result |
| `ChatRequests.RequestsAreIsolated` | src/chat/chat_service_prompt_processor.cpp:271-311 | Whatever a request carries of any run is of a run captured in the epoch of the requesting run |
| `ChatRequests.PartIsClosedExactly` | src/chat/tool_round_runner.cpp:180-242 | What is left of a run behind a cut has every call answered and every result's call exactly if nothing is left, or the run did not end in a tool round and the cut is not in one |
| `ChatRequests.RequestsAreClosedExactly` | src/chat/chat_service_prompt_processor.cpp:271-311 | For every request and every run: the requesting run's part is closed, later runs have none, and an earlier run's part is closed exactly if it is empty or that run did not end in a tool round and no compaction cut into one |
| `ChatRequests.OpenRoundsAreCarried` | src/chat/chat_service_prompt_processor.cpp:271-311 | A run of the engine in which a request carries the unanswered call of a cancelled prompt |
| `ChatApprovals.GoodResultsWereApproved` | src/chat/tool_round_runner.cpp:176-242 | Engine and approval protocol run together, over all interleavings: every tool result without error in any run's record comes from an execution of the call it answers, and if that call needed approval and is not ask_user it had its own |
| `ChatApprovals.JointRunsAreRunsOfBoth` | src/chat/tool_round_runner.cpp:176-242 | Joint runs project to runs of the engine and to runs of the protocol, so what is proved of either holds of them |
| `ChatApprovals.LinkKept` | src/chat/tool_round_runner.cpp:176-242 | Every joint step keeps engine and runner at the same call of the same round with the same stop token |
| `ChatApprovals.GoodResultsAreReached` | src/chat/tool_round_runner.cpp:176-242 | A joint run that appends the result of an approved call |
| `ChatLimits.SummariesIgnoreResets` | src/chat/chat_service_compactor.cpp:220-235 | After a reset the history holds only the continuations injected since; the summary of the old conversation still comes back, and is put in front of the last of them exactly when there are more than keep_last |
| `ChatLimits.SummariesAreWrittenIntoWhatIsThere` | src/chat/chat_service_compactor.cpp:220-235 | For any history at its return: the note is added exactly if more than keep_last non-system messages are there by then, else nothing changes |
| `ChatLimits.PromptsTakenEarlySurviveResets` | src/chat/chat_service.cpp:519-534 | A prompt popped, announced or not, before a reset whose wait times out, but captured after its clear, runs under the new generation |
| `ChatLimits.ResetsCatchCapturedPrompts` | src/chat/chat_service.cpp:386-427 | A reset supersedes exactly the prompts whose generation had been read |
| `ChatEngine.ChatService.constructor` | src/chat/chat_service.cpp:114-172 | A new engine is in the initial state |
| `ChatEngine.ChatService.SubmitUserMessage` | src/chat/chat_service.cpp:195-206 | One step: the prompt is queued under the id returned, which is fresh |
| `ChatEngine.ChatService.CancelBumpGeneration` | src/chat/chat_service.cpp:322-327 | First step of a cancellation: an active prompt that has read its generation is out of date from then on; an idle engine is left alone |
| `ChatEngine.ChatService.InjectSubAgentContinuation` | src/chat/chat_service.cpp:576-596 | One step: idle engines queue the continuation, busy ones append it to the history |
| `ChatEngine.ChatService.CompactConversation` | src/chat/chat_service.cpp:464-472 | One step: the history is truncated only when nothing is active or queued |
| `ChatEngine.ChatService.StopActivePrompt` | src/chat/chat_service.cpp:174-180 | First step of the destructor, and the second of a cancellation: the active prompt is asked to stop |
| `ChatEngine.ChatService.StopWorkerThread` | src/chat/chat_service.cpp:182-186 | Second step: the worker takes no further prompt |
| `ChatEngine.ChatService.ResetBumpGeneration` | src/chat/chat_service.cpp:386-391 | First section of a reset |
| `ChatEngine.ChatService.ResetDropQueue` | src/chat/chat_service.cpp:392-398 | Second section: queue dropped, stop requested |
| `ChatEngine.ChatService.ResetDrain` | src/chat/chat_service.cpp:406-411 | Third section: passes when the worker is done or the wait timed out |
| `ChatEngine.ChatService.ResetClearHistory` | src/chat/chat_service.cpp:424-427 | Fourth section: second bump and clear are one step |
| `ChatEngine.ChatService.PopPrompt` | src/chat/chat_service.cpp:508-524 | Of the queued prompts the one asked for first becomes the active one, with a new stop source |
| `ChatEngine.ChatService.CaptureGeneration` | src/chat/chat_service.cpp:532-534 | The generation is read outside the lock, as a step of its own |
| `ChatEngine.ChatService.DrainPrompt` | src/chat/chat_service.cpp:536-540 | The prompt is over; its record is filed |
| `ChatEngine.ChatService.EnterPrompt` | src/chat/chat_service_prompt_processor.cpp:135-154 | Missing providers end the prompt with an error and Finished |
| `ChatEngine.ChatService.CheckEntryGeneration` | src/chat/chat_service_prompt_processor.cpp:156-158 | A stale prompt leaves without events |
| `ChatEngine.ChatService.BeginCompaction` | src/chat/chat_service_prompt_processor.cpp:165-180 | The compaction chosen is the truncation, or the start of a summary, of the model step |
| `ChatEngine.ChatService.AppendUserPrompt` | src/chat/chat_service_prompt_processor.cpp:182-200 | Guarded append of the prompt, then its two events |
| `ChatEngine.ChatService.BuildRoundRequest` | src/chat/chat_service_prompt_processor.cpp:271-311 | The request is built from the history under the guard, or the run is cancelled |
| `ChatEngine.ChatService.HandleEvent` | src/chat/chat_service_prompt_processor.cpp:64-118 | One provider event through the sink is one sink step |
| `ChatEngine.ChatService.CloseStream` | src/chat/chat_service_prompt_processor.cpp:120-132 | How a round ends: aborted, failed, done, or calling tools |
| `ChatEngine.ChatService.RunOneRound` | src/chat/chat_service_prompt_processor.cpp:52-133 | Whatever the stream and the other threads do, the round leaves the engine in the state its outcome promises |
| `ChatEngine.ChatService.AppendToolRound` | src/chat/chat_service_prompt_processor.cpp:222-237 | Guarded append of the assistant turn, or cancellation |
| `ChatEngine.ChatService.AppendFinalText` | src/chat/chat_service_prompt_processor.cpp:246-268 | Guarded closing message and closing events |
| `ChatEngine.ChatService.ProcessPrompt` | src/chat/chat_service_prompt_processor.cpp:135-269 | The round loop ends with the prompt returned, in a state the step system reaches |
| `ChatEngine.ChatService.FinishCompaction` | src/chat/chat_service_compactor.cpp:207-235 | The slice is recomputed after the long call; a failed call falls back to truncation |
| `ChatEngine.ChatService.StartTool` | src/chat/tool_round_runner.cpp:180-197 | Each tool starts under its streamed card or a fresh id |
| `ChatEngine.ChatService.AppendToolResult` | src/chat/tool_round_runner.cpp:229-236 | Guarded append of the result |
| `ChatEngine.ChatService.CheckStopAfterTool` | src/chat/tool_round_runner.cpp:238-240 | A stop ends the tool loop |
| `ChatEngine.ChatService.RunTools` | src/chat/tool_round_runner.cpp:176-242 | The tools are run in order until the list, a stop or a stale generation ends it |
| `ChatEngine.ChatService.WorkerLoop` | src/chat/chat_service.cpp:499-545 | Every execution, with any schedule of other threads, any provider and any tools, is a run of the step system; so isolation of the history and of requests, closed rounds of the requesting run in every request, closing events, conservation of text, the order of prompts and the event protocol hold of the running engine |
| `PlanExit.OnlyWrittenPlansAreAnnounced` | src/chat/chat_service.cpp:611-665 | Over all interleavings of plan exits, mode changes and resets: every plan switched for was active in Plan mode when its call looked, and that call wrote it afterwards; a pending reminder mentions a plan switched for since the latest reset |
| `PlanExit.OldPlansComeFromOldCalls` | src/chat/chat_service.cpp:611-655 | After a reset, a switch is for a plan looked at before it exactly when its call was in progress at the reset |
| `PlanExit.ResetsEndPlansExactly` | src/chat/chat_service.cpp:425-434 | Reminders after a reset are about plans looked at after it, whatever happens next, exactly when no plan exit was in progress at the reset |
| `PlanExit.RemindersCanOutliveResets` | src/chat/chat_service.cpp:651-655 | From the start: Plan mode, look, write, reset, switch leaves a reminder of the old plan |
| `PlanModes.SwitchedPlansWereActive` | src/chat/chat_service.cpp:614-633 | Every plan switched for was the active plan in Plan mode at the moment its call looked |
| `PlanModes.TheModeIsTheLastSet` | src/chat/chat_service.cpp:651-655 | From any state, over all steps: the mode is the last one set, a plan exit and a reset setting Build |
| `PlanModes.TheActivePlanIsTheFirst` | src/chat/chat_service.cpp:667-679 | Between resets the active plan is the first one made in Plan mode, and stays |
| `PlanModes.SwitchesLeaveAReminder` | src/chat/chat_service.cpp:651-655 | A plan exit leaves Build mode and a reminder of the plan its call wrote, until that reminder is used |
| `PlanExit.PlanConfig.LookAtPlan` | src/chat/chat_service.cpp:614-633 | First section: mode and active plan are looked at under the lock |
| `PlanExit.PlanConfig.WritePlan` | src/chat/chat_service.cpp:635-649 | The plan is written without the lock |
| `PlanExit.PlanConfig.SwitchToBuild` | src/chat/chat_service.cpp:651-655 | Second section: the mode is switched, whatever it is by then |
| `PlanExit.PlanConfig.ApplyApprovedPlanExit` | src/chat/chat_service.cpp:611-665 | With any steps of other threads between the sections: approved exactly when Plan mode and an active plan were found and the write succeeded; then it ends with the switch for that plan, else this call switches nothing |
| `Compaction.CompactionKeepsTheRightMessages` | src/chat/chat_service_history.cpp:8-44 | For truncate and summarize alike (any note): all system messages stay, exactly the last keep_last others stay in order, and the note follows the leading system prefix |
| `Compaction.CompactionOnlyDropsOldMessages` | src/chat/chat_service_history.cpp:8-44 | Dropped and kept messages interleave back to the original history, and the dropped ones are the oldest non-system ones |
| `Compaction.CompactionIsStable` | src/chat/chat_service_history.cpp:14-16 | Afterwards min(n, keep_last) non-system messages are left and compacting again changes nothing |
| `Compaction.DroppedContents` | src/chat/chat_service_compactor.cpp:86-111 | The slice sent to be summarised is the oldest non-system messages, without system ones in between |
| `Compaction.GrowthExtendsTheSummarisedSlice` | src/chat/chat_service_compactor.cpp:192-236 | If the history only grew during the call, the slice dropped extends the slice summarised by exactly the non-system messages that arrived |
| `Compaction.SnapshotSlice` | src/chat/chat_service_compactor.cpp:86-111 | The counting loops find the prefix, the number to drop and the slice |
| `Compaction.ChatHistory.CompactHistory` | src/chat/chat_service_history.cpp:8-44 | The rebuilding loop computes the truncated history |
| `Compaction.ChatHistory.ReplaceSliceWithSummary` | src/chat/chat_service_compactor.cpp:113-141 | The rebuilding loop computes the same history with a summary note |
| `Compaction.ChatHistory.RunTruncate` | src/chat/chat_service_compactor.cpp:22-37 | History, performed flag and count |
| `Compaction.ChatHistory.RunSummarize` | src/chat/chat_service_compactor.cpp:192-236 | With any history at relock: the summary replaces the slice as it is then, or truncation does |
| `Compaction.ChatHistory.AppendActiveUserMessage` | src/chat/chat_service_history.cpp:49-55 | Appends the active user message |
| `Compaction.ChatHistory.AppendAssistantToolRound` | src/chat/chat_service_history.cpp:57-65 | Appends the assistant message with its requests |
| `Compaction.ChatHistory.AppendToolResult` | src/chat/chat_service_history.cpp:67-79 | Appends the tool result under its call id |
| `Compaction.ChatHistory.AppendFinalAssistantMessage` | src/chat/chat_service_history.cpp:81-87 | Appends the closing message |
| `ChatOrphans.CompactionSplitsAcrossTheCut` | src/chat/settings_registry.cpp:831-840 | For every history, keep_last and note: compaction keeps a result whose call it drops exactly when some dropped non-system message asks for what some kept one answers |
| `ChatOrphans.EndOfRunKept` | src/chat/chat_service_history.cpp:8-44 | Every step of every thread keeps what the history holds of a run the end of what the run appended |
| `ChatOrphans.ResultsFollowTheirCalls` | src/chat/tool_round_runner.cpp:180-242 | In what a run appended, each result answers the call at its place in the assistant message before it, with only results between |
| `ChatOrphans.CutsSplitOpenRounds` | src/chat/settings_registry.cpp:831-840 | Cutting off the front of what a run appended separates a result from its call exactly when a round is open at the cut |
| `ChatOrphans.CompactionSplitsOpenRounds` | src/chat/settings_registry.cpp:831-840 | In every reachable state, continuations and earlier compactions included: a compaction leaves a run's result without its call exactly when what is cut off of the run leaves a tool round open |
| `ChatOrphans.SplitRoundsAreReached` | src/chat/settings_registry.cpp:831-840 | A run of the engine that ends with a continuation and a result whose call is gone |
| `ChatOrphans.CompactionOrphansAResult` | src/chat/settings_registry.cpp:831-840 | A history for which the template's promise fails, with the result or a continuation as the oldest message kept |
| `ApprovalTheorems.NoUnapprovedExecution` | src/chat/tool_round_runner.cpp:199-210 | Over all interleavings of any number of runners: a tool other than ask_user that needs approval is executed only after its own fresh request, a last user verdict of yes, a wait that returned with no stop requested, and a mode check that allowed it, in this order |
| `ApprovalModes.ExecutionsPassTheMode` | src/chat/tool_round_runner.cpp:339-358 | Over all interleavings: every execution is of the call its runner was at when it checked, and at that check, a step at the position the execution names, the mode was Build or the tool one of the plan tools |
| `ApprovalModes.CallsPassExactly` | src/chat/tool_round_runner.cpp:25-34 | In every reachable state: the check lets a call through exactly if it did not fail, was not refused, and the mode is Build or its tool one of the plan tools; else the call is over without having been executed |
| `ApprovalModes.CallsFailExactly` | src/chat/tool_round_runner.cpp:244-285 | Preparing fails exactly if the call fails by itself or the mode is Plan and its tool none of the plan tools; a call goes to the gate exactly if it did not fail and requires approval |
| `ApprovalTheorems.ApprovalsAreSpentOnce` | src/chat/tool_round_runner.cpp:328-359 | No two executions rest on the same approval |
| `ApprovalTheorems.GateExclusion` | src/chat/tool_round_runner.cpp:287-326 | At most one entry other than ask_user is pending; its runner waits for it and holds the gate |
| `ApprovalTheorems.EntriesGoBeforeTheGate` | src/chat/tool_approval_manager.cpp:78-104 | Whenever the gate is free, only ask_user entries are pending: every return path erased its entry before the release |
| `ApprovalTheorems.TheGateIsNeverStuck` | src/chat/tool_round_runner.cpp:291-325 | The holder of the gate can always step, unless the user has yet to answer |
| `ApprovalTheorems.CancellingEndsTheWait` | src/chat/tool_approval_manager.cpp:56-69 | Cancelling or stopping ends a wait, and never with approval |
| `ApprovalAnswers.WaitsReturnTheLastWord` | src/chat/tool_approval_manager.cpp:89-103 | Over all interleavings: a wait returns approved exactly if the user's last word about it was yes and no stop of its runner had been requested |
| `ApprovalAnswers.AnswersComeBack` | src/chat/tool_approval_manager.cpp:42-54 | The answer given to a question is the text its wait returns, whatever happens between, cancellations included, as long as the user says nothing more about it; with a stop it returns refused and empty |
| `ApprovalRuns.CancellationsEndEveryWait` | src/chat/tool_approval_manager.cpp:56-69 | After a cancellation every waiting runner can return, approved exactly if the user had said yes before and it was not stopped |
| `ApprovalRuns.StopsAskNobodyExactly` | src/chat/tool_round_runner.cpp:293-298 | A stopped runner asks nothing more, exactly unless it had passed the test of the stop behind the gate, and takes no further call |
| `ApprovalRuns.CallsAreTakenInOrder` | src/chat/tool_round_runner.cpp:180-242 | A runner takes its calls one after the other: the call it is at has as many before it as it has finished |
| `ApprovalRuns.TheModeIsTheLastSet` | src/chat/tool_round_runner.cpp:342-346 | The mode the checks look at is the one last set |
| `ApprovalStops.StopsCatchAllButTheApproved` | src/chat/tool_round_runner.cpp:339-358 | In every reachable state, for every prepared call that needs approval and is not ask_user: after a stop of its runner the call can still be executed exactly if its wait has returned approved |
| `ApprovalStops.ApprovedCallsOutliveALateStop` | src/chat/tool_round_runner.cpp:339-358 | From the start: requested, approved, returned, stopped, executed |
| `ApprovalSteps.StepKeepsInv` | src/chat/tool_round_runner.cpp:176-359 | Every step of every runner and of the user keeps the protocol invariant |
| `ApprovalSteps.ReturnGrants` | src/chat/tool_approval_manager.cpp:89-103 | A wait that returns approved had the user's last word, after the request and without a stop |
| `ToolApproval.IdOfInjective` | src/chat/tool_approval_manager.cpp:14-15 | Different counters give different approval ids |
| `ToolApproval.ToolApprovalManager.RequestApproval` | src/chat/tool_approval_manager.cpp:11-27 | A fresh undecided entry is added; nothing else changes |
| `ToolApproval.ToolApprovalManager.ResolveToolApproval` | src/chat/tool_approval_manager.cpp:29-40 | The entry is decided as the user says; all others stay, and unknown ids change nothing |
| `ToolApproval.ToolApprovalManager.ResolveAskUser` | src/chat/tool_approval_manager.cpp:42-54 | The entry is approved with the response given; all others stay |
| `ToolApproval.CancelEntries` | src/chat/tool_approval_manager.cpp:56-69 | Undecided entries are refused, decided ones stay |
| `ToolApproval.ToolApprovalManager.IsAwaitingApproval` | src/chat/tool_approval_manager.cpp:71-76 | True exactly if some entry is undecided |
| `ToolApproval.ToolApprovalManager.WaitForResolution` | src/chat/tool_approval_manager.cpp:78-104 | The verdict and the response are those of the entry, if it is there and decided and no stop was requested, else refused and empty; the entry is gone on every path |
| `PartialJson.StreamingIsMonotone` | src/chat/tool_call_argument_parser.cpp:135-227 | If j1 is a prefix of j2 and a key extracts from j1, it extracts from j2 with the first value as a prefix, wherever the input is cut |
| `PartialJson.FindMonotone` | src/chat/tool_call_argument_parser.cpp:87-131 | A key found is found at the same place when more input follows |
| `PartialJson.ExtractionIsExact` | src/chat/tool_call_argument_parser.cpp:135-227 | When no earlier string at depth 1 is the key, extraction returns exactly what the writer spelled, for every mix of escapes and spacing |
| `PartialJson.EveryCutShowsAPrefix` | src/chat/tool_call_argument_parser.cpp:135-227 | Every partial value shown is a prefix of the final one |
| `PartialJson.ContentsOfSpelling` | src/chat/tool_call_argument_parser.cpp:152-226 | Decoding inverts every valid spelling, escapes, hex digits and surrogate pairs included |
| `PartialJson.KeyAtIsWholeString` | src/chat/tool_call_argument_parser.cpp:23-41 | For a key without quote or backslash, matching it at a string's start is the same as the whole string being the key |
| `PartialJson.BackslashKeysAreNeverFound` | src/chat/tool_call_argument_parser.cpp:28-30 | A key with a backslash is never found |
| `PartialJson.SurrogatePairsAreABijection` | src/chat/tool_call_argument_parser.cpp:208-218 | Surrogate pairs and code points 0x10000 to 0x10FFFF correspond one to one |
| `PartialJson.Utf8DecodesExactlyScalars` | src/chat/tool_call_argument_parser.cpp:43-59 | A strict UTF-8 decoder (section 3 of RFC 3629) inverts the encoder exactly on scalar values |
| `PartialJson.SkipWhitespace` | src/chat/tool_call_argument_parser.cpp:11-21 | The cursor loop stops at the first other byte, or reports the end |
| `PartialJson.MatchesKey` | src/chat/tool_call_argument_parser.cpp:23-41 | The comparing loop decides whether key and closing quote are there |
| `PartialJson.ParseHex4` | src/chat/tool_call_argument_parser.cpp:61-82 | Four hex digits, or failure |
| `PartialJson.AppendHexCodepoint` | src/chat/tool_call_argument_parser.cpp:43-59 | Appends the UTF-8 bytes of the code point |
| `PartialJson.FindKey` | src/chat/tool_call_argument_parser.cpp:87-131 | The scanning loop finds the position the specification names |
| `PartialJson.ExtractStringFieldPartial` | src/chat/tool_call_argument_parser.cpp:135-227 | The whole extractor computes the specified value or nothing |
| `Sse.ChunkingDoesNotMatter` | src/mcp/sse_parser.cpp:15-34 | If no newline-free run exceeds the cap, any split of a stream gives the events and final state of the whole |
| `Sse.LongLinesDependOnChunking` | src/mcp/sse_parser.cpp:29-32 | For every cap there is a stream whose events depend on how it was cut |
| `Sse.LongLinesDependExactly` | src/mcp/sse_parser.cpp:15-60 | For every parser state between lines and every line beyond the cap: some cut of it changes what is read exactly if it is not blank and an event is pending or the line, or an end of it behind the cap, says something |
| `Sse.PrintedEventsComeBack` | src/mcp/sse_parser.cpp:15-96 | Printed events come back, under every split |
| `SseLines.LineEndsAndCommentsDoNotMatter` | src/mcp/sse_parser.cpp:20-44 | For every parser state and text without carriage returns: ending any lines with CRLF and putting any comments between lines gives the same events and final state |
| `SseLines.DressedEventsComeBack` | src/mcp/sse_parser.cpp:15-44 | Printed events come back under every split, each line ended as LF or CRLF, with any comments between lines |
| `SseLines.UnknownFieldsAreIgnored` | src/mcp/sse_parser.cpp:46-87 | A line with an unknown field, or a retry that is no integer, changes nothing |
| `SseLines.NoColonMeansEmpty` | src/mcp/sse_parser.cpp:46-54 | A field without a colon is the field with an empty value |
| `SseLines.IntegersAreReadExactly` | src/mcp/sse_parser.cpp:77-86 | A retry value is read as n exactly if it writes n, with any leading zeros, and n fits in 32 bits |
| `Sse.ReadAll` | src/mcp/sse_parser.cpp:36-96 | Reading a printed list of events gives the list and leaves nothing pending |
| `Sse.ReadConcat` | src/mcp/sse_parser.cpp:15-34 | Reading two pieces is reading the first and going on with the second |
| `Sse.FromCharsOfPrinted` | src/mcp/sse_parser.cpp:77-86 | A printed retry value is read back by the integer parser |
| `Sse.SseParser.FeedChunk` | src/mcp/sse_parser.cpp:15-34 | The loop over the buffer computes the specified events; afterwards the buffer holds no newline and at most the cap |
| `Sse.SseParser.ConsumeLine` | src/mcp/sse_parser.cpp:36-87 | One line updates the pending event as specified |
| `Sse.SseParser.FlushEvent` | src/mcp/sse_parser.cpp:89-96 | A pending event is emitted and cleared |
| `SessionInvariants.SoundKept` | src/presentation/chat_session.cpp:18-231 | Every mutation keeps tool locations on segments of that tool and ids below the next one |
| `SessionInvariants.ReachableSessionsAreSound` | src/presentation/chat_session.cpp:18-231 | So it is in every reachable session |
| `SessionInvariants.MintedIdsAreFresh` | src/presentation/chat_session.cpp:18-22 | A minted id is no message's, notice's or tool's |
| `SessionInvariants.ActiveIdStaysTrue` | src/presentation/chat_session.cpp:24-47 | One mutation keeps the active id naming an Active agent message exactly unless it re-adds that id as a user message |
| `SessionInvariants.ActiveIdNamesActiveAgent` | src/presentation/chat_session.cpp:290-292 | So the active id names an Active agent message in every session reached without that |
| `SessionContents.AppendsGoToTheEnd` | src/presentation/message.cpp:15-32 | For every session, id and delta: the text of the message becomes the old one followed by the delta, its tools keep their places, and all other messages and everything beside them stay |
| `SessionContents.TextIsWhatWasAppended` | src/presentation/chat_session.cpp:121-165 | After any mutations of any messages, a message holds its old text followed by the deltas it got, in order, and has the status it was last given |
| `SessionParts.MessagesStayInOrder` | src/presentation/chat_session.cpp:18-47 | After any mutations but a clear, the messages are those before, then those added, in order, under the ids, senders, labels and times they were added with |
| `SessionParts.ToolsShowTheLastUpdate` | src/presentation/chat_session.cpp:98-119 | After any mutations a tool call stays where it was put and shows what it was last updated to |
| `SessionParts.NewToolsShowWhatTheyWereGiven` | src/presentation/chat_session.cpp:81-96 | A tool added shows what it was given, behind everything else in the open turn |
| `SessionParts.TheTurnIsTheLastActivated` | src/presentation/chat_session.cpp:140-165 | The open turn is the message that became an Active agent last, and stays so as long as it is one and none other becomes one |
| `SessionParts.ChildrenAreATable` | src/presentation/chat_session.cpp:167-197 | Reporting a sub-agent's call sets what is shown under its id of that parent; nothing else does, and a clear forgets it |
| `SessionParts.NamelessCallsAreNumbered` | src/presentation/chat_session.cpp:173-179 | Calls without id and name are shown one by one, numbered from one in the order they came |
| `SessionParts.FlagsAreWhatTheyWereSetTo` | src/presentation/chat_session.cpp:199-205 | A tool starts collapsed; its flag is what it was last set to, also when the tool is added again |
| `SessionParts.NoticesAreRunLengths` | src/presentation/chat_session.cpp:207-218 | The notices are the run-length form of all that came since the last clear: unrolled they are those, in order, and neighbours differ |
| `SessionCaches.StillCountersAtOneStep` | src/presentation/chat_session.cpp:121-138 | A counter that stood still over one mutation vouches for what it is a key for |
| `SessionCaches.EqualCountersMeanEqualContent` | src/presentation/chat_session.cpp:278-284 | On any stretch of any run, equal content counters mean equal messages, notices and child calls, and equal plan counters an equal plan |
| `SessionCaches.MatchingGenerationMeansCurrentPlan` | src/presentation/chat_ui_components.cpp:538-567 | Over all interleavings of mutations and syncs, a cached plan whose generation matches is the current plan |
| `SessionCaches.SkippedRebuildsAreInvisible` | src/presentation/chat_ui_components.cpp:538-567 | A sync that skips the rebuild shows what a rebuild would |
| `SessionCaches.TextAppendsMayMoveThePlanCounter` | src/presentation/chat_session.hpp:119-122 | Text appends move the plan counter exactly when they open a segment, and never change the plan |
| `ChatSessions.AgreesAfterPush` | src/presentation/chat_session.cpp:34-35 | The id index and the active count agree with the plain list after a push |
| `ChatSessions.AgreesAfterEdit` | src/presentation/chat_session.cpp:140-165 | and after an edit in place |
| `ChatSessions.ChatSession.FindMessageIndex` | src/presentation/chat_session.cpp:233-239 | The index answers with the last message with the id |
| `ChatSessions.ChatSession.HasMessage` | src/presentation/chat_session.cpp:249-251 | True exactly if some message has the id |
| `ChatSessions.ChatSession.HasActiveAgent` | src/presentation/chat_session.cpp:286-288 | True exactly if some message is an Active agent |
| `ChatSessions.ChatSession.FindToolSegment` | src/presentation/chat_session.cpp:257-268 | Finds a segment of that tool exactly if there is one |
| `ChatSessions.ChatSession.TrailingTextSegmentIndex` | src/presentation/chat_session.cpp:294-310 | The last text segment's place among the text segments |
| `ChatSessions.ChatSession.AddMessage` | src/presentation/chat_session.cpp:18-22 | New session state as specified, under a fresh id |
| `ChatSessions.ChatSession.AddGivenMessage` | src/presentation/chat_session.cpp:24-47 | New session state as specified; indexes agree |
| `ChatSessions.ChatSession.EnsureTurn` | src/presentation/chat_session.cpp:49-72 | The open turn, or a new Active agent message |
| `ChatSessions.ChatSession.AddFreshToolCallSegment` | src/presentation/chat_session.cpp:74-79 | New session state as specified, under a fresh tool id |
| `ChatSessions.ChatSession.AddToolCallSegment` | src/presentation/chat_session.cpp:81-96 | New session state as specified; indexes agree |
| `ChatSessions.ChatSession.UpdateToolCallSegment` | src/presentation/chat_session.cpp:98-119 | New session state as specified; indexes agree |
| `ChatSessions.ChatSession.AppendToAgentMessage` | src/presentation/chat_session.cpp:121-138 | The text of the message grows by the delta at its end; new session state as specified; indexes agree |
| `ChatSessions.ChatSession.SetMessageStatus` | src/presentation/chat_session.cpp:140-165 | New session state as specified; count and active id follow |
| `ChatSessions.ChatSession.UpsertSubAgentToolCall` | src/presentation/chat_session.cpp:167-197 | New session state as specified; reports whether a child was added |
| `ChatSessions.ChatSession.SetToolExpanded` | src/presentation/chat_session.cpp:199-205 | New session state as specified |
| `ChatSessions.ChatSession.PutNotice` | src/presentation/chat_session.cpp:207-218 | New session state as specified; returns the notice's id |
| `ChatSessions.ChatSession.ClearMessages` | src/presentation/chat_session.cpp:220-231 | New session state as specified |
| `ChatSessions.ChatUi.SyncMessageComponents` | src/presentation/chat_ui_components.cpp:538-567 | Rebuilt or not, the plan is that of the current transcript |
| `RenderPlan.PlanIsComplete` | src/presentation/chat_ui_render_plan.cpp:5-44 | The plan holds every message and notice exactly once, in order |
| `RenderPlan.PlanIsOrdered` | src/presentation/chat_ui_render_plan.cpp:5-44 | With sorted inputs it is sorted by time, messages first on ties |
| `RenderPlan.PlanIsTheOnlyOne` | src/presentation/chat_ui_render_plan.cpp:5-44 | and no other plan is |
| `RenderPlan.PlanDependsOnShapes` | src/presentation/chat_ui_render_plan.cpp:5-44 | The plan depends on senders and times only |
| `RenderPlan.BuildMessageRenderPlan` | src/presentation/chat_ui_render_plan.cpp:5-44 | The merge loop computes the plan |
| `StringMapJson.ParserInvertsPrinter` | src/chat/config.cpp:209-273 | The parser accepts exactly the printed objects and returns the map they stand for: all layouts, all escapes, whole input consumed |
| `StringMapJson.EveryMapIsReadable` | src/chat/config.cpp:209-273 | Every map of byte strings is the value of some accepted input |
| `StringMapJson.LaterMembersWin` | src/chat/config.cpp:251-251 | Of members with the same key the last one counts |
| `StringMapJson.PrintedObjectsAreRead` | src/chat/config.cpp:209-273 | Every printed object is read |
| `StringMapJson.AcceptedObjectsWerePrinted` | src/chat/config.cpp:209-273 | Every accepted input is a printed object |
| `StringMapJson.SkipJsonWhitespace` | src/chat/config.cpp:148-153 | Moves past white space |
| `StringMapJson.ParseJsonString` | src/chat/config.cpp:155-200 | The position strictly increases; value and rest are as specified |
| `StringMapJson.ParseStringMapJson` | src/chat/config.cpp:209-273 | Map or issue, as specified, for every input |
| `ConfigOverlay.OverlaysFollowTheRule` | src/chat/config.cpp:1035-1055 | Overlaying TOML, presets, environment and store one after the other gives, for all four values and tags, the declarative first-present choice |
| `ConfigOverlay.StoreNeverChangesExplicitValues` | src/chat/config.cpp:480-555 | The store changes no value tagged Environment or Toml |
| `ConfigOverlay.StaleStoresAreIgnored` | src/chat/config.cpp:539-552 | With a stale provider context the store changes nothing |
| `ConfigOverlay.StoredProvidersBringTheirPreset` | src/chat/config.cpp:512-514 | A stored provider brings its preset's key variable, tagged as a default |
| `ConfigOverlay.ProfilesOutOfUseAreIgnored` | src/chat/config.cpp:385-415 | A profile that is disabled, of an unknown provider or with unreadable options leaves every value and tag what it would be if it were not stored |
| `ConfigOverlay.RememberedProfilesAreUsed` | src/chat/config.cpp:417-435 | A remembered profile that is not out of use brings its provider, its address, and its model unless one is remembered, wherever nothing else sets them |
| `ConfigOverlay.RememberedProvidersComeSecond` | src/chat/config.cpp:480-552 | With no usable profile remembered the remembered provider is used if there is such a one, else the built-in |
| `ConfigOverlay.ForeignProfilesGiveNothing` | src/chat/config.cpp:480-552 | Profiles of other providers than the one in force give neither model nor address |
| `ConfigOverlay.OverriddenPresetsCanStay` | src/chat/config.cpp:559-566 | For every environment, TOML and store: the preset in force is that of the provider in force exactly unless the environment names a provider without a preset over a TOML provider whose preset is not the built-in one; the same field by field for defaulted model, base URL and key variable |
| `ConfigOverlay.LeftoverPreset` | src/chat/config.cpp:559-566 | An environment and a TOML file for which the default key variable is lost |
| `ConfigOverlay.ChatConfig.ApplyProviderDefaults` | src/chat/config.cpp:343-359 | The preset fills fields that are not explicit, tags untouched |
| `ConfigOverlay.ChatConfig.LoadSettingsFromToml` | src/chat/settings_toml.cpp:487-509 | The TOML layer, its tags and its explicit flags |
| `ConfigOverlay.ChatConfig.ApplyEnvOverrides` | src/chat/config.cpp:557-603 | The environment layer over preset of its provider |
| `ConfigOverlay.ChatConfig.ResolveStateProfile` | src/chat/config.cpp:417-435 | An enabled profile with known provider and readable options, or none |
| `ConfigOverlay.ChatConfig.ApplyStateStoreOverrides` | src/chat/config.cpp:480-552 | The store layer, with the stale-context and profile-match rules |
| `ConfigOverlay.LoadChatConfig` | src/chat/config.cpp:1035-1055 | The whole pipeline gives the values and tags of the rule |
| `TomlLines.JoinSplit` | src/chat/settings_toml_editor.cpp:20-43 | Joining after splitting is the identity on every byte string |
| `TomlLines.SplitJoin` | src/chat/settings_toml_editor.cpp:20-43 | Splitting after joining merges exactly a CR line with an empty LF line |
| `TomlSyntax.QuotedReadsBack` | src/chat/settings_toml_editor.cpp:100-137 | A basic-string reader (the "String" section of TOML v1.0.0) gives a quoted value back exactly if it holds no DEL |
| `TomlShapes.TableHeadersExactly` | src/chat/settings_toml_editor.cpp:54-68 | A line is taken for a [name] header exactly if, between blanks and a remark, it is a name in single brackets |
| `TomlShapes.ArrayHeadersExactly` | src/chat/settings_toml_editor.cpp:70-84 | and for a [[name]] header exactly if it is one in double brackets |
| `TomlShapes.AssignmentsExactly` | src/chat/settings_toml_editor.cpp:91-98 | A line is taken for an assignment of a key exactly if it is the key and an equals sign, with blanks before either and anything behind |
| `TomlLaws.ThemeReadsBack` | src/chat/settings_toml_editor.cpp:150-197 | For every file and name, what the theme table says after the edit: the new name, unless it holds a DEL, the header was an unended last line, or the name replaced stood below a [[...]] header |
| `TomlLaws.TheLastSetWins` | src/chat/settings_toml_editor.cpp:150-197 | Setting a then b is setting b, exactly unless the header was an unended last line |
| `TomlLaws.OnlyTheAssignmentChanges` | src/chat/settings_toml_editor.cpp:165-196 | Bytes outside the touched line or the appended block are unchanged |
| `TomlEffort.SetThenClearRestores` | src/chat/settings_toml_editor.cpp:246-317 | Setting then clearing an effort on a block that had none restores the file, exactly if the line before is ended and the new line does not merge with an empty one |
| `TomlEffort.AppendedBlockIsFound` | src/chat/settings_toml_editor.cpp:255-275 | A block appended for an entry that had none is the next block of the file and reads back its effort, unless that holds a DEL |
| `EffortLaws.EffortReadsBack` | src/chat/settings_toml_editor.cpp:277-317 | For every file, block and effort, what the block says after the edit: the new effort, unless it holds a DEL or was glued to an unended last line of more than blanks |
| `EffortLaws.TheLastEffortWins` | src/chat/settings_toml_editor.cpp:277-317 | Setting a then b on a block is setting b, exactly unless the assignment had to go behind an unended last line |
| `EffortLaws.OnlyTheEffortChanges` | src/chat/settings_toml_editor.cpp:246-317 | Setting, clearing and appending leave all bytes outside the touched line or the appended block |
| `EffortLaws.TheEffortFollowsTheModel` | src/chat/settings_toml_editor.cpp:277-317 | An effort that was not there is put right behind the first model of its block, or at the end of a block without one, and all other lines stay |
| `TomlLines.SplitPreservingNewlines` | src/chat/settings_toml_editor.cpp:20-43 | The splitting loop |
| `TomlLines.JoinLines` | src/chat/settings_toml_editor.cpp:139-146 | The joining loop |
| `TomlSyntax.QuoteTomlString` | src/chat/settings_toml_editor.cpp:100-137 | The quoting loop, and what reads back from it |
| `TomlEffort.WithThemeName` | src/chat/settings_toml_editor.cpp:150-197 | The edit as specified, with its read-back condition |
| `TomlEffort.FindModelSettingsBlock` | src/chat/settings_toml_editor.cpp:223-244 | The block with that number, up to the next header of any kind |
| `TomlEffort.WithProviderModelEffort` | src/chat/settings_toml_editor.cpp:246-317 | The edit as specified, or failure with the text unchanged |
| `Coalescer.TextIsConserved` | src/app/streaming_coalescer.cpp:37-65 | Over all interleavings of split flushes: drained text in drain order plus pending text is what was dispatched, and every drained segment is in one flight or was posted once |
| `Coalescer.EventsArePostedOnceInOrder` | src/app/streaming_coalescer.cpp:37-65 | Over all interleavings: a dispatched event is with its thread or posted, never both, posted at most once, and one thread's events are posted in the order it dispatched them |
| `Coalescer.TextTrailsTextExactly` | src/app/streaming_coalescer.cpp:54-65 | Over all interleavings: when a piece of text is posted, all text drained before it is posted already exactly when no other flush that drained earlier is still under way |
| `Coalescer.EventsTrailTextExactly` | src/app/streaming_coalescer.cpp:47-65 | Over all interleavings: when an event is posted, all text dispatched before it is posted already exactly when no other flush that drained earlier is still under way |
| `Coalescer.AtomicFlushesKeepOrder` | src/app/streaming_coalescer.cpp:47-51 | If flushes are atomic, posted plus pending text is dispatched text in order, and every event comes behind exactly the text dispatched before it |
| `Coalescer.SplitFlushesReorder` | src/app/streaming_coalescer.cpp:54-65 | With split flushes text can be overtaken, even by a later event |
| `Coalescer.StreamingCoalescer.Dispatch` | src/app/streaming_coalescer.cpp:37-52 | With other threads getting in after every unlock: a delta is kept back; an event goes out last, behind all text that was pending when it came |
| `Coalescer.StreamingCoalescer.DrainPending` | src/app/streaming_coalescer.cpp:54-60 | The section under the lock: all pending text is moved out |
| `Coalescer.StreamingCoalescer.FlushLocked` | src/app/streaming_coalescer.cpp:54-65 | Drained under the lock, posted segment by segment without it while other threads get in: all that was pending is posted |
| `Coalescer.StreamingCoalescer.FlushTick` | src/app/streaming_coalescer.cpp:14-24 | One round of the worker, with other threads getting in: all that was pending is posted |
| `McpTruncation.KeptBlocksArePrefixes` | src/mcp/mcp_manager.cpp:170-202 | Kept blocks are the first ones, unchanged but for the last, whose fields are prefixes; sizes are real |
| `McpTruncation.LimitFlagIsExact` | src/mcp/mcp_manager.cpp:169-205 | The limit flag is raised exactly when something was lost |
| `McpTruncation.BudgetIsKeptButForMetadata` | src/mcp/mcp_manager.cpp:167-202 | Only the last block exceeds a positive budget, by at most its metadata, and nothing is cut before the budget is used up |
| `McpTruncation.LimitIsHitExactly` | src/mcp/mcp_manager.cpp:167-203 | The limit flag in terms of the input: raised exactly unless the budget lasts beyond all blocks but the last and cuts no field of that |
| `McpTruncation.KeptWhenItRunsOut` | src/mcp/mcp_manager.cpp:170-202 | If the budget is used up in block i, that block is the last kept and exactly the fields behind the one where it runs out are kept uncounted |
| `McpTruncation.BudgetIsExceededExactly` | src/mcp/mcp_manager.cpp:170-202 | More is kept than the budget exactly when the field in which it is used up, cut or not, is followed by non-empty fields in its block |
| `McpTruncation.BudgetCanBeExceeded` | src/mcp/mcp_manager.cpp:170-202 | Three bytes allowed, five kept, no limit reported |
| `McpTruncation.SmallResultsAreKeptWhole` | src/mcp/mcp_manager.cpp:160-206 | A result below the budget loses nothing |
| `McpTruncation.McpToolCall.TruncateResult` | src/mcp/mcp_manager.cpp:160-206 | Both branches, and the flag |
| `McpTruncation.TruncateBlocks` | src/mcp/mcp_manager.cpp:167-203 | The loop over the blocks |
| `McpTruncation.InvokeTool` | src/mcp/mcp_manager.cpp:585-602 | The flag speaks of the whole response: it is raised with nothing lost exactly when the response exceeds the limit but its blocks fit |

## Left out

- Rendering, scrolling and animation, HTTP, processes, SQLite, keychain, OAuth, file permissions and logs: outside libraries and input/output.
- Model providers, tool executors and MCP calls: arbitrary event streams and results; they are assumed not to throw, and forwarded provider events are assumed to be none of Started, Finished or AssistantMessageDone.
- Plan file names and contents: a plan is a path, and writing it may fail.
- Sub-agent capacity and the reconnect loop: no invariant that spans operations.
- Summaries of an empty or failed call: one failure case with a reason.
- ChatEngine.ChatService.SubmitUserMessage: creating the plan session and the chat session id is not part of it; in Plan mode the former is the step `EnsurePlanSession` of `PlanExit`.
- ChatEngine.ChatService.CancelBumpGeneration: a cancellation holds the lock over both its steps, here other sections may come between them; cancelling pending approvals is a step of the approval protocol.
- ChatEngine.ChatService.BeginCompaction: the plan is any plan; the usage threshold and the mode that lead to it are not modelled.
- ChatEngine.ChatService.BuildRoundRequest: the request is the history; tool definitions, system prompts and reminders added to it are not modelled, and what a reminder mentions is the subject of `PlanExit`.
- ChatEngine.ChatService.HandleEvent: reported token usage is not recorded.
- ChatEngine.ChatService.StartTool: preparing the call and its preview are not modelled.
- ChatSessions.ChatUi.SyncMessageComponents: the terminal-width check and the per-item components are not modelled, they concern drawing.
- ChatEngine.ChatService.WorkerLoop: watched for any finite number of turns, with other threads acting between sections as a schedule says; blocking itself is not modelled.
- ToolApproval.ToolApprovalManager.WaitForResolution: the section after waking up; the wait itself is the enabledness of a step in the approval protocol.
- Approval runners without a gate: both kinds of runner are given the shared one.
- ApprovalTheorems.NoUnapprovedExecution: ask_user is excluded because its call is executed first and waits for the answer itself.
- ChatApprovals.GoodResultsWereApproved: results that carry an error are not traced to what caused them, and the sub-agents' own conversations are not modelled.
- Secret redaction, command line, slash commands, help text, registry tables: no unbounded property.
- The TOML library: the matching block number is an input, multi-line strings that look like headers are not recognised by the editor either, and bytes from 0x80 up are taken as valid UTF-8 in the reader the edits are checked against.
- Provider options, `api_key`, temperature, context window and other settings in the overlay: they follow other rules.
- Overflow of 64-bit counters and the 64 MiB line cap: unbounded numbers and a symbolic cap.
- The other JSON conversions (requests, tool definitions, session files): each maps fields of a record one by one through the JSON library, without a loop, a state or a rule that spans fields; that a field arrives is all there is to say, and saying it would repeat the body.
- `ToolExpandedState` and `SubAgentToolExpandedState`, which hand out a pointer to the expanded flag and the former creates a missing one: the flag is written through the pointer by the drawing code; `SetToolExpanded` is the mutator modelled.
- Quoted and dotted keys in TOML: the editor does not recognise them, and the reader its edits are checked against does not either; so the read-back results say nothing of files that spell `name` or `effort` in quotes, where an edit writes the key a second time.
