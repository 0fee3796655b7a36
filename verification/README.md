# Human LLM Gateway: verified model

The gateway offers an LLM API whose answers are written by people or by other LLMs. This project models
its decision logic in Dafny 4.11 and proves what callers and operators rely on:

- the task protocol: human, forwarder, timeout, lost caller, shutdown and response sender race on one row
  by conditional updates (`TaskDb`, `TaskStore`, `TaskLaws`, `Admission`, `Lifecycle`, `TaskResponses`,
  `TaskLifecycle`);
- conversations chained by `previous_response_id` (`ContextChain`, `ChainDepth`, `ReplyItems`);
- translation of histories between OpenAI Chat, OpenAI Responses and Anthropic (`CrossMessages`,
  `CrossTranslator`, `NormalForm`, `AnthropicForm`, `AnthropicRoundTrip`, `Transcript`, `Words`,
  `StoredReplies`, `HistoryAcceptance`);
- translation of tool definitions, tool choice and parallel rule (`CallerTools`, `CrossTools`, `ToolPolicy`,
  `ToolAcceptance`, `CatalogLaws`);
- printers and readers of replies, whole and streamed (`AnthropicReply`, `AnthropicHistory`, `AnthropicBlock`,
  `AnthropicStream`, `AnthropicCollect`, `ChatReply`, `ResponsesReply`, `UpstreamReply`, `UpstreamStream`,
  `AnthropicCalls`, `ReplyLaws`, `CollectorLaws`, `ResponsesDeltas`, `Chunks`);
- the workbench's view of a request (`RequestView`, `RequestSections`, `StoredViews`);
- delivery, messengers, throttles and log pages (`Outbox`, `OutboxLaws`, `Dsl`, `Commands`, `Inbound`,
  `InboundRuns`, `InboundLaws`, `Binding`, `SlidingWindow`, `Throttle`, `LogPaging`).

Code that changes rows, lists or dictionaries is modelled by classes and loops, each proved equal to a
function on values; the lemmas are about those functions. What an operation accepts and what it makes of it is
also stated without these functions, over the fields of its input (`Admission`, `TaskLaws`, `HistoryAcceptance`,
`ToolAcceptance`, `CatalogLaws`, `ReplyLaws`, `CollectorLaws`, `AnthropicBlock`, `AnthropicCalls`, `OutboxLaws`,
`Commands`, `InboundLaws`, `Binding`). JSON printing and reading is a parameter
(`Json.Codec`), of which only "a printed object reads back as itself" and "the empty text is no JSON" (RFC 8259)
are assumed where a lemma says so. Hashes used as ids are taken as collision-free and clocks as never running
backwards.

`dafny verify dfyconfig.toml` checks everything.

Where the code does not do what its documentation or its callers suggest, the model follows the code:

- `COMPLETED` is admitted from `RESPONSE_READY` by the completing statement. A run stays inside the declared
  table exactly if it never does that (`Lifecycle.RunFollowsTheTableIff`); the order of the response object's
  callbacks keeps it from happening.
- A chain may have 21 ancestors although the depth constant is 20: the walk counts the parent's ancestors, not
  the new task's (`ChainDepth`).
- A history that contains a reply with reasoning cannot be translated (`StoredReplies`).
- Tool choices in another protocol's form are converted but read differently (`ToolPolicy`). A null `type` inside a
  function overwrites the type of the Responses definition made of it (`ToolAcceptance`).
- Collecting the gateway's own Responses stream loses the reasoning, which no delta carries; the last event
  has it. So stream and rendered reply are read alike exactly without reasoning (`ResponsesReply`).
- The collector accepts calls with a blank name or id, which the strict readers of whole replies refuse
  (`ChatReply`, `ResponsesReply`, `AnthropicCollect`).
- The outbound service sets delivered and acknowledged rows back to pending under their old id. A polling client
  gets such a row exactly if its cursor was still below that id, and one acknowledged before can never be
  acknowledged again (`Outbox`).
- An unknown `#id` before plain text falls through to the only waiting task. The HTTP reply endpoint's `#id`
  prefix ends up in the stored answer, and for the same reason `/ans`, `/res` and `/commit` sent through that
  endpoint are stored as answers and never run (`InboundRuns`).
- Log pages beyond 10000 rows come out short although the page number has no upper bound, and the total shown to
  users other than administrators counts at most the audit rows fetched for the page (`LogPaging`).

## Model

| member | source | states |
|---|---|---|
| TaskStore.Store.FirstReplyWins | app/repositories/tasks.py:59-84 | a reply is stored exactly when the task waits for a human under the given owner and version; the whole new state is the specified step |
| TaskStore.Store.ClaimForward | app/repositories/tasks.py:86-100 | a forwarder gets the task exactly out of WAITING_HUMAN |
| TaskStore.Store.AcceptForwardReply | app/repositories/tasks.py:102-131 | the forwarder's reply is stored exactly out of FORWARDING_LLM with owner and version matching |
| TaskStore.Store.BeginResponse | app/repositories/tasks.py:141-157 | sending begins exactly out of RESPONSE_READY with the slot still held |
| TaskStore.Store.ReleaseRow | app/repositories/tasks.py:159-181 | a task ends in the target state, and its slot mark is set, exactly when the slot is held and its state is allowed |
| TaskStore.Store.CancelTask | app/repositories/tasks.py:183-206 | a task is cancelled exactly when it is neither terminal nor released |
| TaskStore.Store.AtomicAcquireSlot | app/repositories/users.py:103-114 | a slot is taken exactly by an active user below the limit of 10 |
| TaskStore.Store.AtomicReleaseSlot | app/repositories/users.py:116-123 | a counter above zero drops by one, no other changes |
| TaskStore.Store.FinalizeTask | app/services/inference_service.py:250-285 | ending a task and returning its slot happen together or not at all |
| TaskStore.Store.CancelCallerDisconnected | app/services/inference_service.py:287-296 | the same for a lost caller |
| TaskStore.Store.FindPrevious | app/services/inference_service.py:158-192 | the ancestor walk refuses exactly what the specified walk refuses: a missing, unfinished or foreign parent, or too long a chain |
| TaskStore.Store.BuildContext | app/services/inference_service.py:194-226 | refuses repeated tool names; otherwise the new context is the parent's context, the parent's reply items and the new input, within both budgets, or the specified error |
| TaskStore.Store.Admit | app/services/inference_service.py:57-192 | admission is all or nothing, with the checks in the source's order: a new waiting row and one slot, or the first error and the old state |
| TaskStore.Store.CreateAccount | app/services/user_service.py:92-147 | a new user starts active with no slot taken; a known one is left alone |
| TaskStore.Store.EnableAccount | app/services/user_service.py:396-411 | only an inactive user becomes active; no counter changes |
| TaskStore.Store.DisableAccount | app/services/user_service.py:363-394 | disabling cancels every open task of the user and clears the counter |
| TaskStore.Store.Perform | app/repositories/tasks.py:59-240 | every action of the step relation is carried out by one of the methods above |
| TaskLaws.ReplyIsStoredIff | app/repositories/tasks.py:59-131 | a reply is stored exactly in its source state under the given owner and version; the row moves to RESPONSE_READY one version on, and nothing else changes |
| TaskLaws.ClaimAndBeginIff | app/repositories/tasks.py:86-157 | a claim moves exactly a waiting task, a begin exactly an answered one, and nothing else changes |
| TaskLaws.TaskIsEndedIff | app/services/inference_service.py:250-285 | a task is ended exactly when it is open and in an allowed state: its row ends in the given state, its owner gets one slot back, nothing else changes |
| TaskLaws.TaskIsCancelledIff | app/services/inference_service.py:287-296 | a lost caller ends exactly an open task, as CANCELLED, and its owner gets one slot back |
| TaskLaws.DisablingCancels | app/services/user_service.py:363-394 | disabling an active user cancels exactly that user's open tasks and leaves no slot taken; nothing else changes |
| TaskLaws.AccountsIff | app/repositories/users.py:103-114 | only an unknown user is added, only an inactive one enabled, and a slot is taken exactly by an active user below 10 |
| TaskLaws.StatementGuards | app/repositories/tasks.py:141-206 | in any database a statement looks at the state and at the slot mark |
| TaskLaws.DisabledHoldNothing | app/services/user_service.py:363-411 | after any run an inactive user holds no slot |
| Admission.AdmittedIff | app/services/inference_service.py:57-192 | a request is admitted exactly when strategy, model and key are good, the owner is active and below 10, no tool name repeats, a given parent has an answer under the same key, is COMPLETED and has at most 20 ancestors, and the whole context fits both budgets |
| Admission.FirstFailingCheckDecides | app/services/inference_service.py:57-226 | the error is that of the first failing check, in the order strategy, model, parent, depth, tool names, context, key and owner, slots |
| Admission.AdmittedRow | app/services/inference_service.py:80-115 | every field of the new row, the one slot taken, and nothing else; a refusal changes nothing |
| Admission.AdmittedAfterRunIff | app/services/inference_service.py:57-192 | the same condition for every request after any run |
| Lifecycle.StepMovesRows | app/repositories/tasks.py:59-240 | a step leaves a row alone or moves it along one of four moves, one version up |
| Lifecycle.StepKeepsBalance | app/services/inference_service.py:250-296 | each step keeps every counter equal to the number of unreleased tasks and at most 10 |
| Lifecycle.RunKeepsConsistent | app/repositories/tasks.py:59-240 | over any interleaving rows stay sound: released exactly when terminal, a payload exactly absent before and present from RESPONSE_READY to COMPLETED |
| Lifecycle.SlotsAreConserved | app/repositories/users.py:103-147 | after any run from the empty database each user's counter is the number of their tasks without a release mark, never above 10, and the mark is set exactly on terminal tasks, the declared slot-holding states being the others |
| Lifecycle.SlotReleasedOnce | app/repositories/tasks.py:159-206 | no task gives its slot back twice in any run |
| Lifecycle.RowsOnlyAdvance | app/repositories/tasks.py:59-206 | between any two moments of a run a row is the same or strictly further on with a greater version; a payload, once there, never changes; a terminal row is final |
| Lifecycle.OneReplyWins | app/repositories/tasks.py:59-131 | after one accepted reply every other reply, human or forwarded, is refused, and the accepted one stays stored |
| Lifecycle.ForwardClaimedOnce | app/repositories/tasks.py:86-100 | a task is claimed at most once and never after a reply |
| Lifecycle.VersionCountsAcceptedSteps | app/repositories/tasks.py:59-206 | an accepted step raises exactly its task's version by one; a refused step changes nothing |
| Lifecycle.StepFollowsTheTableIff | app/domain/tasks.py:29-84 | a step leaves the declared table exactly by completing a task at RESPONSE_READY |
| Lifecycle.RunFollowsTheTableIff | app/domain/tasks.py:29-84 | every change of a task in a valid run is an edge of the table if and only if no step of the run completes the task at RESPONSE_READY |
| Lifecycle.RunsFollowTheTable | app/api/inference.py:130-170 | who completes only after beginning meets that condition, so such runs stay in the table |
| Lifecycle.CompletingUnbegunLeavesTheTable | app/api/inference.py:130-158 | the source states the completion passes also admit RESPONSE_READY: a concrete run that completes without beginning leaves the table; no response object makes it |
| TaskResponses.SendJson | app/api/task_responses.py:32-44 | with others interleaving, whatever fails: the task is terminal with its slot free and the run kept the begin-before-complete discipline |
| TaskResponses.Stream | app/api/inference.py:365-388 | the frame loop keeps that discipline on every exit: refused begin, lost frame, broken frame, lost error frame (then no FAILED step), task ended by others; it says whether every frame was delivered, and never completes the task itself |
| TaskResponses.SendEvents | app/api/task_responses.py:61-80 | the event-source response settles the task in every case, also when the generator never starts; the task is newly COMPLETED only if the closing message was delivered, and, unless another party begins it, only if every frame was |
| TaskResponses.SettledRunsFollowTheTable | app/domain/tasks.py:29-84 | from the start of a response object to its end every change of the task is an edge of the table |
| TaskResponses.NeverCompletedByOthers | app/api/task_responses.py:32-80 | a task becomes COMPLETED only through its own response object |
| TaskLifecycle.CancelActiveTasks | app/services/task_lifecycle.py:12-33 | the shutdown sweep ends, returns exactly the number active at its start, cancels exactly those, leaves every task terminal and every counter at 0 |
| ContextChain.WalkCountsAncestors | app/services/inference_service.py:158-192 | the depth check passes exactly when the ancestors are few enough |
| ContextChain.AncestorsAreFinished | app/services/inference_service.py:158-192 | every chain member is COMPLETED, has a response id and the same key |
| ContextChain.StoredContextIsFlattenedHistory | app/services/inference_service.py:158-230 | after any run each stored context is the conversation of its ancestors, oldest first and each once, then its own input; at most 21 ancestors and 512 items |
| ChainDepth.ParentIsTooDeepIff | app/services/inference_service.py:158-192 | a finished parent under the same key is refused for depth exactly when it has more than 20 ancestors itself |
| ChainDepth.NewTaskDepth | app/services/inference_service.py:76-80 | a new task has one ancestor more than its parent, and more than 20 exactly when its parent has 20 |
| ChainDepth.ChainReachesDepth | app/services/inference_service.py:57-192 | for every n up to 21 a valid run makes a completed task with exactly n ancestors |
| ChainDepth.DepthIsReachedIff | app/services/inference_service.py:158-192 | the depths of completed tasks over all runs are exactly 0 to 21 |
| CrossTranslator.TextContent | app/protocols/cross_messages.py:51-70 | text or text blocks joined by line breaks; the first block without an equivalent decides the error |
| CrossTranslator.AppendItem | app/protocols/cross_messages.py:95-216 | one history item expands to the specified messages or the specified error |
| CrossTranslator.MergeAssistants | app/protocols/cross_messages.py:217-229 | the in-place glueing loop computes the specified merge |
| CrossTranslator.ContextToChatMessages | app/protocols/cross_messages.py:84-229 | the two passes compute the specified translation, errors included |
| CrossTranslator.MessagesToResponses | app/protocols/cross_messages.py:232-250 | the printing loop computes the specified items |
| CrossTranslator.MessagesToAnthropic | app/protocols/cross_messages.py:253-296 | collecting by side and collapsing lone texts computes the specified history or error |
| CrossTranslator.FailingItem | app/protocols/cross_messages.py:95-216 | the first bad item decides, whatever follows it |
| HistoryAcceptance.GoodItemIff | app/protocols/cross_messages.py:95-216 | an item is translated exactly when it is well-formed, field by field: complete, without unknown fields, calls by the assistant with ids, names and argument objects, results by the user, contents text or plain text blocks |
| HistoryAcceptance.HistoryIsAcceptedIff | app/protocols/cross_messages.py:84-229 | a history is translated exactly when its instructions and system blocks are text and every item is well-formed |
| HistoryAcceptance.TextRefusalNames | app/protocols/cross_messages.py:51-70 | of a list of text blocks the first bad one decides the refusal |
| HistoryAcceptance.CallRefusalNames | app/protocols/cross_messages.py:73-81 | a call is refused for its id, then its name, then its arguments |
| HistoryAcceptance.ItemRefusalNames | app/protocols/cross_messages.py:95-145 | which part of an item a refusal names, in the order of the checks |
| HistoryAcceptance.MessageRefusalNames | app/protocols/cross_messages.py:192-215 | a message is refused for its text before its calls |
| HistoryAcceptance.ToolRefusalNames | app/protocols/cross_messages.py:155-213 | which part of a tool block or of an entry of tool_calls a refusal names |
| NormalForm.ToChatIsNormal | app/protocols/cross_messages.py:84-229 | every accepted history becomes a list in normal form: good messages, no two assistant messages adjacent |
| NormalForm.ResponsesRoundTrip | app/protocols/cross_messages.py:84-250 | printing a normal list as Responses items and reading it back gives exactly the same list |
| NormalForm.NormalFormIsTheImage | app/protocols/cross_messages.py:84-250 | the produced lists are exactly the normal ones and exactly those the round trip preserves |
| NormalForm.PrintedMessage | app/protocols/cross_messages.py:232-250 | printed items carry the roles system, user and assistant, each for its speaker, the content as text, and no status or extra key |
| AnthropicForm.RolesAlternate | app/protocols/cross_messages.py:253-296 | roles strictly alternate in every produced Anthropic history |
| AnthropicForm.AcceptedIffSystemFirst | app/protocols/cross_messages.py:253-296 | a normal list converts exactly when its system messages come first |
| AnthropicForm.SystemTextIsJoined | app/protocols/cross_messages.py:253-296 | the system text is that of all system messages with an empty line between two, and missing without any |
| AnthropicForm.SegmentsPartition | app/protocols/cross_messages.py:253-296 | cutting a dialogue into one-sided segments loses nothing |
| AnthropicForm.CollectDialogue | app/protocols/cross_messages.py:253-296 | each group of the translation is one segment of the dialogue |
| AnthropicRoundTrip.TripInClosedForm | app/protocols/cross_messages.py:84-296 | what a list becomes on the way to Anthropic and back, for every normal list that converts |
| AnthropicRoundTrip.UnchangedIffSurvives | app/protocols/cross_messages.py:84-296 | it comes back unchanged if and only if there is at most one non-empty system message, no two user texts meet outside tool results, and no text beside blocks is empty |
| Transcript.ChatKeepsToolEvents | app/protocols/cross_messages.py:84-229 | calls (id, name, arguments) and results (id, text) of any accepted history, in any notation, arrive in order |
| Transcript.ResponsesKeepToolEvents | app/protocols/cross_messages.py:232-250 | and on from there to Responses |
| Transcript.AnthropicKeepsTheDialogue | app/protocols/cross_messages.py:253-296 | an Anthropic history says, calls and returns what the list does, in order, empty texts aside |
| Transcript.AnthropicKeepsToolEvents | app/protocols/cross_messages.py:84-296 | and so carries the original history's tool events in order |
| Transcript.MergeKeepsSpeech | app/protocols/cross_messages.py:217-229 | the merge keeps the assistant's words up to where lines break, the other speakers' texts exactly |
| Words.ExpandedItemTexts | app/protocols/cross_messages.py:95-216 | an accepted item says exactly its own texts; those of role system or developer count for the system, the others for their own role |
| Words.ContentIsKept | app/protocols/cross_messages.py:192-215 | only an assistant that calls and says nothing has no content; every other content is there, even if empty |
| Words.CallItemIsSilent | app/protocols/cross_messages.py:99-116 | a call on its own becomes an assistant message with one call and no content |
| Words.ChatKeepsWords | app/protocols/cross_messages.py:84-229 | in every accepted history each speaker's texts, joined by line breaks, arrive unchanged; for user and system the very same list |
| StoredReplies.StoredReplyTranslates | app/protocols/responses.py:128-158 | a stored reply translates exactly when it has no reasoning and all calls have ids and names, and then reads as one assistant turn |
| StoredReplies.ReplyItemsAreComplete | app/protocols/responses.py:128-158 | every item of a stored reply is complete and the assistant's own |
| StoredReplies.ReasoningIsRefused | app/protocols/cross_messages.py:127-128 | a reasoning item anywhere in a history refuses its translation |
| CallerTools.BuildCatalog | app/domain/caller_tools.py:131-232 | the catalog loop computes the specified catalog |
| CallerTools.BuildAnyCatalog | app/domain/caller_tools.py:202-232 | the same for every protocol; System One requests have neither tools nor policy |
| CatalogLaws.DefinitionIsReadIff | app/domain/caller_tools.py:82-129 | a definition counts exactly with a name where its protocol keeps it; description and schema are the declared ones, and it may be called exactly under no type, function or custom |
| CatalogLaws.DefinitionsInOrder | app/domain/caller_tools.py:131-150 | the catalog holds exactly those definitions, in order |
| CatalogLaws.ChoiceIsRead | app/domain/caller_tools.py:152-200 | when a choice is named, none or required, and which tool it names, for each protocol |
| CatalogLaws.ParallelIsRead | app/domain/caller_tools.py:202-223 | calls in parallel are forbidden exactly by the protocol's own flag |
| CallerTools.AssertUniqueToolNames | app/domain/caller_tools.py:235-249 | refuses exactly when two definitions share a name, and names a shared one |
| CallerTools.ValidateStructural | app/services/caller_tool_service.py:73-142 | accepts exactly replies whose calls, field by field, have an id, a name, the first definition of that name of a callable type and an argument object its schema accepts, with distinct ids; a refusal names what is wrong with the first bad call |
| CallerTools.ValidateFull | app/services/caller_tool_service.py:145-181 | accepts exactly structurally good replies that meet the choice, the required name and the parallel rule; a refusal names the broken rule |
| CrossTools.ConvertTools | app/protocols/cross_tools.py:10-40 | the definition loop computes the specified conversion; the first bad definition decides |
| CrossTools.ConvertToolsToAnthropic | app/protocols/cross_tools.py:43-53 | the second loop computes the specified Anthropic definitions |
| CrossTools.AddPolicy | app/protocols/cross.py:376-383 | choice and parallel flag are written into the body as specified, Anthropic's object made when missing |
| CrossTools.BuildRequest | app/protocols/cross.py:332-421 | the tool part of the three target requests, or the first error |
| ToolAcceptance.RequestIsBuiltIff | app/protocols/cross_tools.py:10-104 | a request is built exactly when every definition is in one of the three notations, field by field, none is strict towards Anthropic, the choice is one every protocol has, and the parallel flags are flags that do not contradict each other |
| ToolAcceptance.ToolRefusalNames | app/protocols/cross_tools.py:10-40 | a definition is refused for its notation, then its keys, its name, its schema and its strictness |
| ToolAcceptance.ChoiceRefusalNames | app/protocols/cross_tools.py:56-81 | which part of a choice a refusal names |
| ToolAcceptance.ParallelRefusalNames | app/protocols/cross_tools.py:92-104 | which parallel flag a refusal names |
| ToolAcceptance.WrittenKeys | app/protocols/cross.py:332-421 | the tool keys of a built request are there exactly if something was given for them |
| ToolAcceptance.ToolConvertsBack | app/protocols/cross_tools.py:10-53 | a written definition is forwardable again and stands for the same function, but for a null type inside the function on the way to Responses |
| ToolAcceptance.NullTypeIsWritten | app/protocols/cross.py:332-421 | a function with a null type becomes a Responses definition without a type, which is refused when read back |
| ToolAcceptance.ChoiceConvertsBack | app/protocols/cross_tools.py:56-90 | a choice written for any target is read as the same choice |
| ToolPolicy.TargetReadsTheIntent | app/protocols/cross_tools.py:56-103 | the policy read off a converted request is the same for every target |
| ToolPolicy.PolicyKeptIffOwnForm | app/domain/caller_tools.py:152-223 | choice, required name and parallel rule survive a conversion exactly when the request is in its source protocol's own form |
| ToolPolicy.NamesKeptIffOwnNotation | app/protocols/cross_tools.py:10-53 | tool names survive in order exactly when every definition is in the source's own notation |
| ToolPolicy.ToolsKept | app/protocols/cross_tools.py:10-53 | definitions in the source's own form keep name, description, kind and the arguments they accept, one by one |
| ToolPolicy.SameRepliesAccepted | app/services/caller_tool_service.py:145-181 | an own-form request and its conversion accept exactly the same replies |
| ToolPolicy.ConversionDropsNothing | app/protocols/cross_tools.py:10-53 | every set field of an accepted definition arrives with its value; strictness is refused rather than dropped for Anthropic |
| ToolPolicy.ForeignChoiceChangesTheRules | app/domain/caller_tools.py:158-161 | a Chat request with an Anthropic choice object must call a tool, its conversion need not |
| ToolPolicy.ConvertedIsOwnForm | app/protocols/cross_tools.py:56-103 | what a conversion writes is in the target's own form, so further conversions keep the policy |
| UpstreamReply.ParseAnthropicResponse | app/protocols/upstream_reply.py:113-136 | the reading loop computes the specified draft or refuses the whole reply |
| UpstreamReply.ParseChatResponse | app/protocols/upstream_reply.py:42-71 | the same for Chat |
| UpstreamReply.ParseResponsesResponse | app/protocols/upstream_reply.py:74-110 | the same for Responses, parts and items nested |
| ReplyLaws.AnthropicIsReadIff | app/protocols/upstream_reply.py:113-136 | accepted exactly when every block is good, field by field; texts and thoughts are joined by line breaks, calls kept in order |
| ReplyLaws.ChatIsReadIff | app/protocols/upstream_reply.py:42-71 | accepted exactly when the first choice's message, its texts and all its calls are good; what is read are those |
| ReplyLaws.ResponsesIsReadIff | app/protocols/upstream_reply.py:74-110 | accepted exactly when the reply is complete and every item and part is good; texts and summaries are put end to end, calls kept in order |
| Chunks.PiecesFold | app/protocols/anthropic.py:91-111 | 200-character pieces fold back to the text; none is empty or longer, all but the last are full, and there are exactly as many as needed |
| Drafts.FilledAt | app/protocols/anthropic.py:84-106 | filling in ids changes nothing but a missing id, which is made of the prefix and the call's own token |
| AnthropicReply.BuildContentBlocks | app/protocols/anthropic.py:84-106 | calls, then the text; an empty text block only when there is nothing else |
| AnthropicReply.BuildStreamEvents | app/protocols/anthropic.py:130-197 | the generator's loops yield the specified event stream |
| AnthropicReply.StopSaysCalls | app/protocols/anthropic.py:109-197 | whole or streamed, the reply says it stopped for tool use exactly when there are calls |
| AnthropicReply.StreamIsFramed | app/protocols/anthropic.py:130-197 | the stream opens with the message, whose output counts from 0, and closes with its delta and its stop |
| AnthropicReply.ReplyIsLabelled | app/protocols/anthropic.py:109-127 | type, role and usage of every rendered reply |
| AnthropicHistory.AnthropicStreamHistory.Consume | app/protocols/assistant.py:182-207 | one event changes blocks, pending arguments and usage as specified; with the kept invariant a block stop never meets a missing block |
| AnthropicHistory.AnthropicStreamHistory.Response | app/protocols/assistant.py:209-210 | the content is the blocks in the order of their indices |
| AnthropicHistory.RunProjects | app/protocols/assistant.py:182-207 | a successful run leaves at each index what that index's own events alone leave there |
| AnthropicHistory.RunSucceeds | app/protocols/assistant.py:182-207 | if no block's own events fail, no mix of them fails |
| AnthropicHistory.InterleavingDoesNotMatter | app/protocols/assistant.py:182-210 | any reordering that keeps each block's events and the usage events in order ends in the same state |
| AnthropicBlock.BlockBecomes | app/protocols/assistant.py:182-207 | a block that starts with string fields is accepted exactly when every stop finds no pieces or an object; until then each field is its start value and the deltas of its own kind |
| AnthropicBlock.BlockInAnyStream | app/protocols/assistant.py:182-210 | in any accepted stream, however mixed: text, thinking and signature are each the start value followed by the deltas of that kind alone, the input is the object all pieces spell together, other fields are as started |
| AnthropicBlock.StreamAcceptedIff | app/protocols/assistant.py:182-207 | a stream of ordinary blocks is read without an error exactly when the pieces of every block spell an object |
| AnthropicStream.StreamRebuildsTheReply | app/protocols/anthropic.py:130-197 | reading the stream of any draft leaves exactly the blocks and usage of the non-streamed reply, nothing pending |
| AnthropicStream.RenderThenRead | app/protocols/anthropic.py:109-127 | the strict reader gives every rendered draft back without reasoning, or refuses it exactly for a blank name or id |
| AnthropicStream.StreamThenRead | app/protocols/assistant.py:182-210 | the same through the stream, in any order that keeps each block's own events |
| AnthropicStream.StreamRoundTrip | app/protocols/upstream_reply.py:113-136 | with ids and names given, the draft itself comes back, reasoning dropped and empty text as none |
| UpstreamStream.Collector.Collect | app/services/llm_upstream.py:586-635 | one chunk changes the collected reply as specified; known indices always point at a growing call |
| UpstreamStream.Collector.Finalize | app/services/llm_upstream.py:638-655 | the summary of what was collected, or a refusal for damaged arguments |
| CollectorLaws.CallsAreKeptApart | app/services/llm_upstream.py:586-635 | after any fragments: texts and thoughts end to end, and the calls in the order they started, each with the pieces of its own index alone |
| CollectorLaws.SummedUpIff | app/services/llm_upstream.py:638-655 | summed up exactly when the pieces of every call spell an object; empty texts count as none, pieces without a call as one nameless call |
| ChatReply.RenderThenRead | app/protocols/chat_completions.py:86-127 | the strict reader gives a rendered draft back, or refuses it exactly for a blank name or id |
| ChatReply.BuildStreamFrames | app/protocols/chat_completions.py:147-215 | the generator's loops yield the specified frames |
| ChatReply.FinishSaysCalls | app/protocols/chat_completions.py:86-215 | whole or streamed, the reply says it stopped for tool calls exactly when there are any |
| ChatReply.StreamIsFramed | app/protocols/chat_completions.py:147-215 | the stream opens with the role and closes with the reason, the usage if wanted, and the end mark; all between are deltas |
| ChatReply.ReplyIsLabelled | app/protocols/chat_completions.py:86-127 | type and role of every rendered reply |
| ChatReply.StreamThenCollect | app/services/llm_upstream.py:515-655 | collecting the frames of any draft gives the draft, empty texts as none and missing ids filled in |
| ChatReply.StreamAgreesWithRenderIff | app/protocols/chat_completions.py:86-215 | streamed and rendered replies are read as the same draft exactly when every call has a name, and an id that is missing or not blank |
| ChatReply.NamelessCallDisagrees | app/protocols/upstream_reply.py:42-71 | a call without a name is collected from the stream and refused in the rendered reply |
| ResponsesReply.RenderThenRead | app/protocols/responses.py:128-193 | the strict reader gives a rendered draft back exactly when all calls have ids and names |
| ResponsesReply.Numbering.Yield | app/protocols/responses.py:211-223 | each frame takes the next number of the captured counter |
| ResponsesReply.BuildStream | app/protocols/responses.py:196-308 | the frames are the specified events numbered 0 to n-1, and the last one announces n |
| ResponsesDeltas.DeltasSpellTheItems | app/protocols/responses.py:196-308 | under each index the text and argument deltas spell exactly the item of that index |
| ResponsesDeltas.StreamIsOrderedAndTrue | app/protocols/responses.py:196-308 | the stream opens, brings the items in order, each added, filled, summed up and done in this order, and is completed; every event says what its item holds |
| ResponsesReply.StreamThenCollect | app/services/llm_upstream.py:380-403 | collecting the stream gives every draft back but for its reasoning; the last event holds the whole rendered reply |
| ResponsesReply.StreamAgreesWithRenderIff | app/protocols/responses.py:128-308 | collected stream and rendered reply are read alike exactly when the draft has no reasoning and all calls have ids and names |
| ResponsesReply.ReasoningDisagrees | app/protocols/responses.py:128-308 | a draft whose reasoning the collected stream lacks and the rendered reply keeps |
| ResponsesReply.IdlessCallDisagrees | app/protocols/upstream_reply.py:74-110 | a call without an id is collected from the stream and refused in the rendered reply |
| AnthropicCollect.AnthropicReader.ParseEvent | app/services/llm_upstream.py:542-583 | one event changes the tool buffers and yields a chunk as specified; an error, arguments for no open tool block and damaged arguments are refused |
| AnthropicCollect.CollectStream | app/services/llm_upstream.py:406-441 | reader, rebuilt reply and collector together: what is collected up to message_stop, or a refusal of a stream that is damaged, never stops or stops inside a tool block |
| AnthropicCalls.StreamIsCollected | app/services/llm_upstream.py:542-635 | any event stream is read exactly when it is sound; then texts and thoughts are collected end to end, and at each stop of an open tool block its call, with that block's own pieces or, without pieces, its starting input |
| AnthropicCalls.UnstoppedIsRefused | app/services/llm_upstream.py:406-441 | a stream without message_stop is refused, whatever it brought |
| AnthropicCalls.StoppedStreamIsHandedOnIff | app/services/llm_upstream.py:406-441 | up to its first message_stop a stream is handed on exactly if it is sound, leaves no tool block open and rebuilds without an error |
| AnthropicCollect.StreamThenCollect | app/services/llm_upstream.py:406-441 | the gateway's own stream of any draft is collected as the draft without reasoning, with ids filled in, beside the rebuilt reply |
| AnthropicCollect.CollectAgreesWithReadIff | app/services/llm_upstream.py:542-655 | what is collected is what the strict reader makes of the rebuilt reply exactly when every call has a name, and an id that is missing or not blank |
| AnthropicCollect.NamelessCallDisagrees | app/protocols/upstream_reply.py:113-136 | a call without a name is collected and refused in the rebuilt reply |
| RequestView.ProjectMessages | app/domain/request_view.py:392-493 | the Chat and Anthropic projection loops compute the specified view |
| RequestView.ProjectResponses | app/domain/request_view.py:496-575 | the Responses projection loops compute the specified view |
| RequestView.ResolveExcluded | app/services/request_view_service.py:111-144 | answers positions exactly when every id is known and within the context |
| RequestSections.MessagesArePartitioned | app/domain/request_view.py:392-493 | every dictionary message is shown once: of Chat the roles system and developer among the system items, after what stands above the messages, the others in order, all but the last attached and the last current |
| RequestSections.ResponsesSections | app/domain/request_view.py:496-575 | attached and current items are the dictionaries before and in the input, in order, a missing role read as tool or user |
| RequestSections.ItemsShowTheirMessages | app/domain/request_view.py:348-493 | each item of a Chat or Anthropic view shows one message: its role, blocks and length of texts, under ids hashed from section, place, role and position |
| RequestSections.ResponsesContextIsPartitioned | app/domain/request_view.py:496-575 | for a context of any length, attached then current items show the context exactly when the context ends in the input; nothing is attached when the context is not longer than the input |
| StoredViews.StoredContextIsShownWhole | app/domain/request_view.py:496-575 | every context stored in any run ends in its input, so the view of a stored task shows exactly its context, whatever the converters |
| RequestSections.MessageIdsAreDistinct | app/domain/request_view.py:348-389 | no item or block id occurs twice in a Chat or Anthropic view |
| RequestSections.ResponsesIdsAreDistinct | app/domain/request_view.py:348-389 | nor in a Responses view |
| RequestSections.ExcludableInResponses | app/services/request_view_service.py:111-144 | an id that may be excluded names the attached item of that id, before the input |
| RequestSections.ExcludableInMessages | app/services/request_view_service.py:111-144 | an id that may be excluded is neither an instruction nor the current input |
| RequestSections.AttachedItemsAreExcludable | app/domain/request_view.py:454-480 | every attached item may be excluded by the id it is shown under |
| SlidingWindow.WindowHoldsAtMostLimit | app/core/captcha.py:49-58 | spaced stamps: no minute, wherever it starts, holds more than the limit |
| SlidingWindow.RecentTwice | app/core/login_throttle.py:35 | cleaning a list earlier loses nothing a later question asks for |
| Throttle.Evict | app/core/captcha.py:37-42 | forgets sources one by one until the table just fits, each with the oldest latest stamp; the source stamped last stays |
| Throttle.CaptchaGate.Allow | app/core/captcha.py:45-62 | granted exactly when the source had fewer than 30 grants in the last minute of its history since eviction; the whole new table: at most one other source is evicted, only by a new source on a full table, and it has the oldest latest stamp |
| Throttle.GrantsPerMinute | app/core/captcha.py:45-62 | while a source is not evicted no minute holds more than 30 of its grants |
| Throttle.LoginThrottle.Allow | app/core/login_throttle.py:31-40 | refuses exactly the sources with 10 failures in the last minute of their history; other sources are untouched |
| Throttle.LoginThrottle.RecordFailure | app/core/login_throttle.py:43-50 | adds one failure to the history; a new source on a table of 50000 evicts one source, of the oldest latest stamp, and nothing else changes |
| Throttle.LoginThrottle.Reset | app/core/login_throttle.py:53-55 | forgets one source |
| Throttle.CaptchaStore.Generate | app/core/captcha.py:118-129 | the unexpired tokens and the new one; if 10000 are unexpired, exactly one of the oldest goes |
| Throttle.CaptchaStore.Verify | app/core/captcha.py:132-141 | one try for each token, right or wrong; the code given is trimmed and upper-cased before it is compared |
| Outbox.OutboxTable.EnqueueOutbox | app/repositories/connections.py:238-276 | one row for a connection and task; a row already there is returned untouched |
| Outbox.OutboxTable.MarkOutboxDelivered | app/repositories/connections.py:278-288 | a pending row becomes delivered, and the answer says whether there was one |
| Outbox.OutboxTable.MarkOutboxFailed | app/repositories/connections.py:290-312 | a pending row counts one more attempt; delivered and acknowledged rows stay |
| Outbox.OutboxTable.AckOutbox | app/repositories/connections.py:349-363 | a row is acknowledged once |
| Outbox.OutboxTable.RequeueOutbox | app/services/outbound_service.py:379-399 | the outbound service sets the row of its task back to pending, whatever its state, or adds one |
| Outbox.OutboxTable.ClaimBatch | app/repositories/connections.py:314-347 | the first rows of the connection beyond the cursor that are not acknowledged, in the order of ids; pending ones become delivered |
| Outbox.OutboxTable.HttpPull | app/api/connectors.py:207-239 | the pull endpoint hands out the batch and the id of its last row as the new cursor |
| Outbox.StepKeepsOutbox | app/repositories/connections.py:238-363 | no statement loses a row, reuses an id or withdraws an acknowledgement; a delivery moves backwards exactly when the outbound service requeues a row that left PENDING |
| OutboxLaws.StatementDoes | app/repositories/connections.py:238-363 | what each statement leaves in every row, field by field, and when it adds one |
| OutboxLaws.PollHandsOut | app/repositories/connections.py:314-347 | a poll hands out, in rising order, exactly the first rows up to the limit of its connection, beyond the cursor and not acknowledged |
| Outbox.PollingServes | app/api/connectors.py:207-239 | over every run the client got rising ids, and every never-acknowledged row up to its cursor |
| Outbox.PollMakesProgress | app/repositories/connections.py:314-347 | a poll hands out exactly the limit of waiting rows, or all there are |
| Outbox.BelowCursorIsOver | app/repositories/connections.py:314-347 | a row at or below the cursor is never handed out again, also when new text is written into it |
| Outbox.RequeuedIsPolledIff | app/api/connectors.py:207-239 | a requeued row is in the next large enough poll exactly when its id is above the cursor, acknowledged before or not |
| Outbox.RequeuedIsHandedOutIff | app/api/connectors.py:207-239 | over every run from the requeue on, the row is handed out exactly when the cursor passes its id, if it was acknowledged before or is not acknowledged meanwhile |
| Outbox.NeverAckedAgain | app/repositories/connections.py:349-363 | an acknowledged row that was requeued is never acknowledged again, so no acknowledgement of its second content succeeds |
| Outbox.RequeuedAfterAckIsMissed | app/services/outbound_service.py:379-388 | a reachable acknowledged row that a requeue makes pending again and that the polling client past its id never gets |
| LogPaging.SortIsStable | app/api/logs.py:351 | the sort is in order and keeps equal times in their order |
| LogPaging.SameWhenStable | app/api/logs.py:351 | there is only one such result |
| LogPaging.SortMerges | app/api/logs.py:339-351 | sorting two sorted lists one after the other is merging them |
| LogPaging.ListLogs | app/api/logs.py:258-361 | which sources are shown for kind, category and level; fetch, append, sort and slice give the specified page; the total counts all rows of an administrator, and of others only the fetched audit rows |
| LogPaging.TotalIsExactIff | app/api/logs.py:281-297 | that total is the number of rows exactly for administrators and for audit logs within the fetch |
| LogPaging.PagesFollowOneAnother | app/api/logs.py:353-361 | read one after the other the pages are the sorted log from its start: nothing is lost or shown twice |
| LogPaging.PagesAreExact | app/api/logs.py:261-361 | within 10000 rows, taking only the first rows of each source gives exactly the page of the whole merge |
| LogPaging.PagingIsExactUpTo10000 | app/api/logs.py:261-262 | for all sorted sources the pages are exact if and only if page times size is at most 10000 |
| Dsl.WrittenCommandReads | app/domain/dsl.py:51-101 | a written reply command reads back as its name, target and body |
| Commands.CommandIsRead | app/domain/dsl.py:67-101 | after a slash and a word the name, in any mix of small and capital letters, decides between unknown, reply and line command |
| Commands.NamelessIsRead | app/domain/dsl.py:79-84 | a slash that no letter follows is an unknown command, never a text |
| Commands.PlainBodyIsKept | app/domain/dsl.py:88-92 | a body without a target is kept as it is, white space and line breaks included |
| Commands.NextLineBodyIsKept | app/domain/dsl.py:88-92 | on a new line the body starts at its first other character |
| Commands.TargetIsSplit | app/domain/dsl.py:51-64 | an id before the body is its target |
| Commands.ArgumentIsRead | app/domain/dsl.py:93-101 | a line command takes the first word of its line, whatever follows |
| Commands.TargetAndArgumentAreRead | app/domain/dsl.py:93-101 | or the id and then the word after it; a commit takes no argument |
| Inbound.ConnectionInbox.Stage | app/services/connection_service.py:1323-1371 | staging overwrites one field of the task's draft and nothing else |
| Inbound.ConnectionInbox.CommitStaged | app/services/connection_service.py:1373-1433 | a commit submits the staged draft, and ends the draft exactly when the reply wins |
| Inbound.ConnectionInbox.SubmitReply | app/services/connection_service.py:1158-1285 | locating the task and replying or running the command, as specified |
| Inbound.ConnectionInbox.HandleInbound | app/services/connection_service.py:1081-1156 | receipt first, then binding, then the reply; every outcome is recorded |
| Binding.BoundIffTheCodeIsKnown | app/services/connection_service.py:1114-1138 | an unbound connection binds the sender exactly for a fresh message with the accepted non-empty code, which is used up; otherwise NotBound; rows and drafts stay |
| Binding.OthersAreNotHeard | app/services/connection_service.py:1139-1141 | a bound connection answers NotBound to any other named sender and changes nothing but the receipt |
| Binding.NotFreshIsIgnored | app/services/connection_service.py:1085-1112 | without an id or seen before, a message changes nothing at all |
| Binding.OutcomeIsRecorded | app/services/connection_service.py:1102-1156 | the receipt of a fresh message holds its outcome |
| Binding.BoundOnceByTheCode | app/services/connection_service.py:1114-1138 | over every run somebody is bound exactly if a fresh message with the accepted code came while nobody was, and then it is its sender; the code is used up exactly then |
| Binding.BoundForGood | app/services/connection_service.py:1114-1156 | over every run the bound user stays bound |
| InboundLaws.OnlyTheMeantTaskMoves | app/services/connection_service.py:1158-1285 | a message changes at most the row and the draft of one task, the owner's own, named by reply context, command target or known head, or the only waiting one, in this order |
| InboundLaws.HeadedTextAnswersItsTask | app/services/connection_service.py:1189-1285 | after a known id at the head the rest of the text is the answer, stored exactly when the task waits and may be answered so |
| InboundLaws.CommitWinsIff | app/services/connection_service.py:1373-1433 | a commit submits the draft exactly when there is one with content that is allowed and the task waits; only then the draft ends |
| InboundLaws.StagingIff | app/services/connection_service.py:1323-1371 | staging edits the one named field exactly when there is a task and a body |
| InboundLaws.HeadedCommandRuns | app/services/connection_service.py:1189-1235 | a command after a known id runs for that task |
| InboundLaws.TargetedCommandRuns | app/services/connection_service.py:1173-1235 | a command with a known target or reply context runs for that task |
| InboundLaws.UntargetedCommandRuns | app/services/connection_service.py:1189-1235 | any other command runs for the only waiting task, or for none |
| InboundLaws.PlainTextAnswersTheSoleTask | app/services/connection_service.py:1189-1285 | a plain text answers the only waiting task, exactly when there is one that may be answered so |
| InboundLaws.NothingSaidIsRefused | app/services/connection_service.py:1158-1199 | a text with nothing visible, or nothing behind a known id, is refused and changes nothing |
| InboundRuns.RepeatsChangeNothing | app/services/connection_service.py:1102-1112 | a run over any message stream, others interleaved, ends as the run over first occurrences |
| InboundRuns.HandleIsAStep | app/services/connection_service.py:1158-1285 | a message leaves the tasks as they are or performs one first-reply step of the task protocol |
| InboundRuns.MessagesKeepConsistent | app/services/connection_service.py:1081-1156 | slots and rows stay consistent over every run of messages and other parties |
| InboundRuns.UnknownTargetChangesNothing | app/services/connection_service.py:1178-1188 | an unresolved reply context or command target changes no task and no draft |
| InboundRuns.UnknownHeadAnswersTheSoleTask | app/services/connection_service.py:1189-1199 | for an unresolved id at the head of a text the tasks change exactly when one task waits and may be answered so, and then the whole text, id included, is its answer |
| InboundRuns.UnknownHeadWitness | app/services/connection_service.py:1189-1199 | `#t2 hello` answers the only waiting task `t1` |
| InboundRuns.ContextReplyKeepsItsPrefix | app/services/connection_service.py:1173-1181 | a text beginning with an id and sent with a reply context is stored whole, exactly when the named task is found, waits and may be answered so |
| InboundRuns.HttpReplyKeepsItsPrefix | app/api/connectors.py:242-264 | every reply through the HTTP endpoint is stored with the prefix the endpoint adds, under exactly that condition; no text of it is ever a command, and drafts never change |
| InboundRuns.HttpReplyWitness | app/api/connectors.py:242-264 | `/commit` sent through the endpoint for task `t1` is stored as the answer `#t1 /commit` |
| InboundRuns.PlainReplyWinsIffWaiting | app/services/connection_service.py:1236-1285 | a plain reply is stored exactly when its task waits for a human, and changes nothing else |
| InboundRuns.DraftHoldsLastStaged | app/services/connection_service.py:1323-1371 | over any run the draft holds exactly the bodies staged last since the last commit |
| InboundRuns.CommitStoresLastStaged | app/services/connection_service.py:1373-1433 | a successful commit stores exactly those bodies, on a task that was waiting |

## Left out

- Transport and hidden libraries: HTTP, ASGI, SSE text framing, SQLAlchemy, logging, audit rows, messenger SDKs, images, password hashing, encryption and the admin front end.
- JSON Schema checking is the abstract predicate `SchemaCheck`; that an empty `properties` allows the same objects as none is assumed where a lemma needs it.
- JSON texts: key order, spacing and number formats; `Json` numbers are integers. Ids the gateway adds to items (`fc_`, `msg_`) and keys outside the documented ones appear only as the flag `extra`.
- A `type` or `status` that is a list or object makes Python raise a TypeError in a set test; the model answers with the refusal of the same branch.
- UpstreamReply.ParseResponsesResponse: output items are the typed items of `Context`, so an item without a `type` key, which this reader refuses and the translator of histories takes for a message, is not told apart from a message; keys the reader does not look at are not there.
- CallerTools.BuildCatalog: a definition keeps the JSON value of a type that is no string, not its `str()`; lower-casing of choices covers ASCII letters, the only ones in the words they are compared with.
- CrossTools.BuildRequest: models tools, choice and parallel flag only; sampling, stop, limits, metadata, output format and model name of the target request are independent fields with their own rules.
- ContextChain.StoredContextIsFlattenedHistory: the byte length of a context is a parameter, checked against the budget as the code does but not computed from the JSON text.
- TaskStore.Store.Admit: the answers of the strategy check, the model lookup and the key check are fields of the request, as are the tool definitions of its catalog; delivery to connectors, task events and timestamps are not modelled.
- TaskStore.Store.CreateAccount: the checks of user name, password and e-mail, the role and the roll-back of a duplicate name are not modelled; ids are given.
- TaskStore.Store.DisableAccount: the refusals for one's own account and for the last active administrator are not modelled, nor are sessions and keys; the account is taken as one that may be disabled.
- TaskStore.Store.Perform: `advance_state` has no caller and no guard and is not an action.
- The waiting loop of the inference endpoint: a reply that lands between its last look and a failed timeout stays at RESPONSE_READY, since the result of that statement is ignored; no claim is made about that exit.
- Transcript.AnthropicKeepsTheDialogue: the order of text and calls inside one assistant turn of the caller's history is not kept by the merge, which puts text first; the lemma starts from the merged list.
- AnthropicReply.BuildStreamEvents: events are records, not JSON text; the envelope keys that carry constants are dropped, as are the random message ids.
- AnthropicHistory.AnthropicStreamHistory.Consume: a delta whose text is no string, which makes Python raise a TypeError, is not representable.
- AnthropicCollect.AnthropicReader.ParseEvent: ids and names of a tool block that are no strings are read as empty text; the byte budget and the HTTP status are not modelled.
- ResponsesReply.BuildStream: constant keys and item ids of the frames are not modelled.
- RequestView.ProjectMessages: content enters as already converted blocks of a kind and a length; the block converters, previews and attachment summaries are independent pure functions.
- RequestView.ProjectResponses: content enters as such blocks too.
- Throttle.Evict: between sources with the same oldest latest stamp any may go but the one stamped last; Python takes the one inserted first.
- Throttle.CaptchaStore.Generate: a new token is taken as unused; of several tokens created first at the same time any may go, where Python takes the one inserted first.
- Throttle.CaptchaStore.Verify: upper-casing is a parameter, since `str.upper` covers all of Unicode.
- Outbox.OutboxTable.ClaimBatch: payloads, availability times and the removal of rows, by retention and when a connection is deleted, are not modelled; the endpoint's skipping of rows whose payload is no JSON cannot occur for payloads the gateway writes.
- LogPaging.ListLogs: the filters on the two sources (time window, event, trace, owner scope) and the conversion of rows are parameters; the sources are assumed sorted newest first by the sort key, as ids and times grow together.
- Inbound.ConnectionInbox.HandleInbound: one connection; the tool rules of a reply, the sending of pages and files and the hash check of a binding code are parameters; feedback messages, events and the welcome text are not modelled. Receipts are never removed; the code removes them by retention and when a connection is deleted, and a repeat after that is handled as new.
- The connector manager and watchdog, CRUD services, invitations, effective models, System One answers, token estimates and retention: timeouts and cancellation, or plain bookkeeping.
