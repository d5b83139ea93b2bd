# Verified model of the Erza agent kernel

Erza runs language-model agents behind chat channels. Around the opaque model sits a deterministic kernel
of lists, queues, locks and state machines. This project models that kernel and proves what it is for. The
model, the tools, the channels and the clock are arbitrary inputs.

`dafny verify dfyconfig.toml` checks everything.

## What is modelled

| module | part of the kernel | form |
|---|---|---|
| `Messages`, `TextOps`, `Sublists` | conversation entries; the operations on strings and lists that the rest uses | values |
| `ToolPairing`, `Backfill`, `Microcompact`, `Governor` | the repair passes that keep tool calls and results paired, and their pipeline | loops proved against list functions; a class for the governor |
| `SessionTurn`, `SaveTurn`, `CrashRecovery` | checkpoint merge, what a turn stores, and turns that are cut short anywhere | a session class, loops, and a transition system over whole runs |
| `Dispatch`, `Sessions`, `DispatchOrder`, `Dispatcher`, `Injections` | inbound routing, which messages share a session, session locks, the gate, pending queues, /stop, the order in which a session is served, and how follow-ups enter a turn | a transition system whose steps lie between two awaits, and the dispatcher class whose methods are its steps |
| `InjectionBudget`, `InjectionStages` | the token budget of the system prompt, and its stages class by class | stages with their building loops |
| `Outbound`, `Visibility`, `Dedup`, `Fingerprints` | coalescing of stream deltas, what chats get to see, duplicate suppression, inbound deduplication | classes refined to an unmerged run and an unbounded history |
| `LockCache`, `LockRecency` | the counted session locks of the HTTP interface | class and transition system |
| `Ledger`, `Spending` | call ledger, turn budget, what a turn may spend, and the budget gates of the main loop | classes and transition systems |
| `Acceptance`, `Verdicts`, `Replan`, `ReflectionLog` | evidence for plan steps, replanning, the two-write log rotation | classes and runs |

Absent and falsy dictionary values of the source are the empty value of a field. Hashes are taken to be
injective: the hashed text stands for its hash. Reported counts, prices and costs are reals, and token counts
are cut to integers where the code does so.

## Where the code does not do what is said or hoped for

Each of these is kept as the code has it. The lemma named gives an input that shows it, and the equivalence
beside it says when the code does meet the property.

- The budget cascade cuts MEMORY before SKILLS_ACTIVE, against the priority numbers, and the summary in the
  method's documentation leaves SKILLS_ACTIVE out. `LessImportantGoesFirst` states the order of the code. The
  bound needs at most one part per truncatable class (`TwoHistoriesExceedTheBound`), which the builder
  guarantees (`SystemPromptFits`); what holds for any prompt is `AnyPromptIsBounded`.
- Repairing a list pairs calls and results, but with repeated identifiers a result may stand before its call:
  `RepeatedIdsBreakPosition`, `RepairFollowsExactly`. A plugin that runs after the repair can undo it:
  `PluginCanBreakPairing`, `PluginsKeepPairingExactly`.
- A blank message is stored after all when it contains white space other than newlines and blanks:
  `TabIsStored`, `BlankMessageLeavesNothingUnless`.
- The skip count of SAVE is one too high when the history ends in a user message that a second one was
  stored upon: `FirstRunEntryIsLost`, `RunIsOfferedExactlyUnless`. `AnswerIsLost` is a run that gets there.
- A cancellation that reaches a task while its leftovers wait for room on a full bus loses them:
  `ACancelledDrainLoses`, `OnlyACancelledDrainLoses`. The branch that drains a queue which is not the
  published one is dead (`SessionsAreExclusive`).
- Messages of a session can be served out of order: leftovers go behind what is on the bus
  (`LeftoversAreOvertaken`), and a follow-up joins the running turn past an earlier message that waits as a
  task (`WaitersAreOvertaken`). `OrderBreaksExactly` names the steps that do it, and without them
  `SessionIsServedInOrder`.
- Deltas that are merged skip the filters for progress, reasoning and retry notices:
  `FilteredDeltaIsShown`, `MergeKeepsMeaningExactly`, `MergingIsInvisibleExactly`, and for all timings of
  given messages `AlwaysInvisibleExactly`.
- The comment on the session-lock limit says that the map may exceed its limit for a while. It never does
  (`CacheStaysWithinLimit`); instead the new entry is evicted when all others are busy, and its session loses
  serialisation: `FullCacheBreaksSerialisation`, `EnterKeepsCoverExactly`.
- Checking a second budget overwrites the ledger's reason: `ForeignCheckCanClearReason`,
  `ForeignReasonCanStopTheTurn`; it is always that of the budget last charged or asked
  (`ReasonIsTheLastVerdict`). A turn has one budget, and then the reason is exact and sticky.
- The verdict cache is keyed by the step's identifier, which the planner model chooses. If a tool-level and a
  text-level step share one, text alone gets the tool-level step accepted: `SharedIdentifierForgesAcceptance`;
  otherwise not: `NoReceiptNoAcceptance`. A receipt without digest and target would do the same
  (`HiddenReceiptForgesAcceptance`, `HiddenReceiptsExactly`), but the tools always name a target. The digest
  fails with a type error on some mixes of observations with and without receipts, and such an evaluation has
  no verdict: `MixedReceiptsHaveNoDigest`, `SortFailsExactly`.
- A failed replan after a fatal tool error drops the plan, and an activated plan starts counting from zero,
  so the plan's limit bounds replanning per loss of the plan; for the turn there is only the number of its
  iterations: `LosingThePlanResetsTheLimit`, `ReplanningIsBounded`. The rule that two failed steps end a
  turn never comes before that limit: `FailuresNeverPreemptReplans`.
- Log rotation is lossless against crashes, but not against a consumer that is at work between reading the
  file and writing its cursor: `PruningUnderAConsumerLoses`, `CommitIsSafeExactly`.

## Model

| member | source | states |
|---|---|---|
| `ToolPairing.DropOrphanToolResults` | erza/agent/runner_strategies.py:47-70 | The scan returns the list without exactly those identified tool results that no earlier assistant entry declares |
| `ToolPairing.DroppedIsPreceded` | erza/agent/runner_strategies.py:50 | After the pass every identified tool result has an assistant entry before it that declares its identifier |
| `ToolPairing.DroppedIsLargest` | erza/agent/runner_strategies.py:47-70 | Nothing is dropped needlessly: any well-preceded sublist of the input is a sublist of the output |
| `ToolPairing.DroppedFixpoint` | erza/agent/runner_strategies.py:68-70 | The pass changes nothing if and only if every identified result is already preceded by its declaration |
| `ToolPairing.DropIsIdempotent` | erza/agent/runner_strategies.py:47-70 | A second pass changes nothing |
| `Backfill.Collect` | erza/agent/runner_strategies.py:77-92 | The first loop yields every declaration in order and the set of identifiers that have a result |
| `Backfill.BackfillMissingToolResults` | erza/agent/runner_strategies.py:73-114 | The insertion loop with its running offset builds the specified list: each synthetic result in its place |
| `Backfill.ScanFindsHome` | erza/agent/runner_strategies.py:101-103 | From the shifted start the inner scan stops exactly at the end of the tool run that follows the declaring assistant |
| `Backfill.EntriesMove` | erza/agent/runner_strategies.py:98-113 | Each entry of the input is found again, moved by the number of results inserted before it |
| `Backfill.ResultsLand` | erza/agent/runner_strategies.py:100-113 | Each synthetic result stands at the end of the contiguous tool run behind its assistant entry, in call order |
| `Backfill.Cover` | erza/agent/runner_strategies.py:98-114 | Every position of the output is an entry of the input or one of the synthetic results, nothing else |
| `Backfill.RemovingResultsRestoresInput` | erza/agent/runner_strategies.py:98-114 | Deleting the synthetic entries at their positions gives back the input exactly |
| `Backfill.MissingIds` | erza/agent/runner_strategies.py:94 | An identifier is filled in if and only if it is declared and has no result anywhere |
| `Backfill.BackfillAnswers` | erza/agent/runner_strategies.py:73-114 | After the pass every declared identifier has a result |
| `Backfill.BackfillFixpoint` | erza/agent/runner_strategies.py:95-96 | The pass changes nothing if and only if every declared identifier already has a result |
| `Backfill.BackfillIsIdempotent` | erza/agent/runner_strategies.py:73-114 | A second pass changes nothing |
| `Backfill.RepairPairs` | erza/agent/runner_strategies.py:47-114 | Dropping and then filling in leaves declarations and results paired, whatever the input, and dropping again is the identity |
| `Backfill.BackfillFollowsExactly` | erza/agent/runner_strategies.py:73-114 | For any list, each declaration of an identifier has a later result after filling in, if and only if it had none at all before or each declaration already had a later one |
| `Backfill.RepairFollowsExactly` | erza/agent/runner_strategies.py:47-114 | The same for both passes, as a condition on the raw input: either no result of the identifier stands after a declaration of it, or one stands after each |
| `Backfill.AnswerFollowsDeclaration` | erza/agent/runner_strategies.py:47-114 | If no two entries of the input declare the same identifier, each declaration of the repaired list has its result at a later position |
| `Backfill.RepeatedIdsBreakPosition` | erza/agent/runner_strategies.py:94 | With a repeated identifier that fails: a list that the repair leaves alone and whose second declaration has no later result |
| `Microcompact.CompactOldResults` | erza/agent/runner_strategies.py:117-159 | The loops over collected indices produce the list in which exactly the stale, long, compactable results are summarised |
| `Microcompact.CompactedKeepsShape` | erza/agent/runner_strategies.py:147-159 | Only contents change: length, roles, identifiers, names and calls stay |
| `Microcompact.RecentResultsUntouched` | erza/agent/runner_strategies.py:143-146 | An entry with fewer than ten compactable results after it is untouched, and so is everything behind it |
| `Microcompact.OnlyStaleResultsChange` | erza/agent/runner_strategies.py:117-159 | An entry that changes is a long compactable result before the last ten compactable ones |
| `Microcompact.StaleResultsAreSummarised` | erza/agent/runner_strategies.py:143-158 | Each compactable result but the last ten whose text has 500 characters or more is replaced by the line that names its tool |
| `Microcompact.CompactIsIdempotent` | erza/agent/runner_strategies.py:117-159 | A second pass changes nothing |
| `Microcompact.CompactedKeepsPairing` | erza/agent/runner_strategies.py:117-159 | Pairing of calls and results survives compaction |
| `Governor.ContextGovernor.Govern` | erza/agent/context_governor.py:163-202 | The loop with its reset on failure returns what the pipeline and the fallback define |
| `Governor.ContextGovernor.constructor` | erza/agent/context_governor.py:113-118 | The name index finds the last strategy of a name |
| `Governor.GovernanceRestoresPairing` | erza/agent/context_governor.py:101-111 | Whatever lists or failures the middle strategies produce, the built-in pipeline and its fallback return a paired list |
| `Governor.GovernedInOrder` | erza/agent/context_governor.py:163-202 | What comes out for any middle strategies: repair, compaction unless the context is small, the three in their order, and repair again; only the first repair if one of them raises |
| `Governor.QuietGovernance` | erza/agent/context_governor.py:163-202 | If the middle strategies leave the list alone it is repaired and, unless the context is small, compacted; nothing else |
| `Governor.PluginsKeepPairingExactly` | erza/agent/context_governor.py:141-158 | With plugins after the cleanup pass the result is paired for all inputs and all middle strategies if and only if the plugins return a paired list, or raise, on every paired list |
| `Governor.PluginsInheritPairing` | erza/agent/context_governor.py:141-158 | For one input the result with plugins is paired if and only if the plugins, when they return, pair what the built-in part hands to them |
| `Governor.PluginCanBreakPairing` | erza/agent/context_governor.py:144-149 | A concrete plugin after the cleanup pass leaves an unpaired result |
| `SessionTurn.Session.RestoreRuntimeCheckpoint` | erza/agent/session_turn.py:237-287 | The overlap search and the append equal merging the restored block; both markers are cleared |
| `SessionTurn.Session.RestorePendingUserTurn` | erza/agent/session_turn.py:289-305 | A trailing user message gets the interruption notice, and the pending flag is cleared |
| `SessionTurn.Session.SetRuntimeCheckpoint` | erza/agent/session_turn.py:208-213 | Audit-only phases leave the slot alone, any other payload replaces it |
| `SessionTurn.MergeIsShortestExtension` | erza/agent/session_turn.py:272-283 | The merge keeps the old messages as a prefix, ends key-wise in the whole block, and no shorter list does both |
| `SessionTurn.MergeIsUnique` | erza/agent/session_turn.py:272-283 | Any list of that length that does both agrees with the merge key-wise |
| `SessionTurn.PayloadIsRestored` | erza/agent/session_turn.py:237-287 | Apart from stamps a restored session ends in the assistant entry, each finished result unchanged and in order, and for each open call one result with its identifier, its name or "tool", and the text about the interruption |
| `SessionTurn.RestoredAreDated` | erza/agent/session_turn.py:248-270 | A restored entry that had a timestamp keeps it, and any other is dated now |
| `SessionTurn.RestoringAgainAddsNothing` | erza/agent/session_turn.py:225-287 | Restoring the same checkpoint again appends nothing although the timestamps differ |
| `SessionTurn.PendingIsClosed` | erza/agent/session_turn.py:289-305 | A trailing user message is followed by one answer about the interruption, dated now; any other history stays |
| `SaveTurn.SanitizePersistedBlocks` | erza/agent/session_turn.py:97-135 | The block loop drops runtime blocks, replaces inline images and truncates texts, in order |
| `SaveTurn.PersistEntry` | erza/agent/session_turn.py:147-175 | One message is stored as specified or left out |
| `SaveTurn.StoreTurn` | erza/agent/session_turn.py:137-180 | The loop appends what each message persists to, and the latency goes to the last assistant entry stored |
| `SaveTurn.PersistUserMessageEarly` | erza/agent/session_turn.py:70-95 | A message with text or media is appended and flagged; any other changes nothing |
| `SaveTurn.BuildMessages` | erza/agent/context.py:583-628 | The prompt is system, history and current content with the runtime context, merged into a trailing entry of the history that has the same role, for either role |
| `SaveTurn.PromptShowsMessage` | erza/agent/context.py:583-628 | The prompt is system entry and history; its last entry shows what the history ended in, if that has its role, and then images, text and runtime context, in this order |
| `SaveTurn.MergeShowsBoth` | erza/agent/context.py:480-494 | A merged content shows the left one and then the right one, with an empty line between two texts |
| `SaveTurn.SkipCountsPrompt` | erza/agent/turn_orchestrator.py:458 | The skip count equals the length of the prompt if and only if exactly one holds: the message was stored early, or the history ends in an entry of its role |
| `SaveTurn.RunIsOfferedExactlyUnless` | erza/agent/turn_orchestrator.py:454-466 | What is offered for saving ends in exactly the run, unless the message was stored early and the history ends in an entry of its role, and then the first entry of a run is missing |
| `SaveTurn.BlankMessageLeavesNothingUnless` | erza/agent/session_turn.py:160-168 | A blank user message with its runtime context leaves no entry if and only if it has no white space but newlines and blanks |
| `SaveTurn.TabIsStored` | erza/agent/session_turn.py:164-168 | A message that is one tab is stored although it is blank |
| `SaveTurn.TurnIsStoredExactly` | erza/agent/turn_orchestrator.py:410-466 | A stored-early user message appears once, with its own text, followed by exactly the entries of the run that are not left out, each once, in order and in its stored form |
| `SaveTurn.BlankTurnIsStoredExactly` | erza/agent/turn_orchestrator.py:410-466 | For a blank message only the run is stored if and only if the blank holds no other white space |
| `SaveTurn.FirstRunEntryIsLost` | erza/agent/turn_orchestrator.py:458 | If the history ends in a user message and the message was stored early, the first entry of the run is never saved |
| `SaveTurn.LeftOut` | erza/agent/session_turn.py:150-173 | Exactly when a message leaves no entry: empty assistant entries, emptied block lists, and user text that is only the runtime context |
| `SaveTurn.EntryIsStoredAs` | erza/agent/session_turn.py:147-175 | A stored entry is the message up to the stamp; a tool text is itself or its beginning with the suffix, a user text is itself or its longest bare beginning before the first tag, and each block is itself, its stated replacement, or gone |
| `SaveTurn.RunIsStoredAs` | erza/agent/session_turn.py:147-177 | Of a run each entry is stored so once, in order, or is left out in the stated cases |
| `SaveTurn.LatencyMarksLastAssistant` | erza/agent/session_turn.py:176-179 | The latency goes into the stamp of the last assistant entry, and nothing else changes |
| `SaveTurn.StorableExactly` | erza/agent/session_turn.py:80-82 | A message is stored early if and only if some character is no white space or some attachment has a path |
| `SaveTurn.SavedUserTextIsTagFree` | erza/agent/session_turn.py:160-173 | No user text that SAVE stores contains the runtime-context tag, and none of the blocks of a stored user entry is a runtime-context block |
| `CrashRecovery.RestoreRepairsEveryRun` | erza/agent/turn_orchestrator.py:303-327 | After RESTORE in any run of turns cut short anywhere: both markers are gone, every call has a later result, and every interrupted user message is followed by an assistant or tool entry |
| `CrashRecovery.HistoryIsSoundThroughout` | erza/agent/session_turn.py:43-49 | At every moment memory and disk have all calls answered, and the slot holds only payloads that recovery can use, never an audit or plan snapshot |
| `CrashRecovery.StepKeepsInvariant` | erza/agent/runner.py:698-780 | Every step of a turn keeps the recovery invariant: checkpoint emissions, tool rounds that end in a fatal error and emit nothing, and every crash, failure or cancellation |
| `CrashRecovery.BlockIsClosed` | erza/agent/session_turn.py:247-270 | The block restored from a usable payload begins with the assistant entry and has a result for each of its calls |
| `CrashRecovery.MergeAfterUser` | erza/agent/session_turn.py:272-283 | On top of a trailing user message the whole block is appended |
| `CrashRecovery.FinishedResultsSurvive` | erza/agent/runner.py:769-780 | Over any run: after a finished and saved tool round and a crash, RESTORE leaves the assistant entry and each result with the content it was finished with |
| `CrashRecovery.PersistedIsClosed` | erza/agent/session_turn.py:147-175 | Saving a run whose calls are answered, with non-empty results, keeps them answered |
| `CrashRecovery.SaveOffersAreCovered` | erza/agent/turn_orchestrator.py:458-466 | What SAVE really offers is among the offers that the runs above allow, in turns of a user and in those started by a subagent |
| `CrashRecovery.AnswerIsLost` | erza/agent/execution/recovery.py:309-333 | A run whose iterations end with a follow-up behind the final notice, and a turn on top of it whose answer is not in what SAVE is offered and leaves no entry |
| `Dispatch.PinningKeepsTheKey` | erza/agent/dispatch.py:189-194 | A message put into a pending queue keeps its effective session key and its identity when it is published again |
| `Dispatch.MessagesAreConserved` | erza/agent/dispatch.py:164-218 | In every reachable state each published message is, as often as it was published and with the same session, in exactly one of bus, hand, one task (own message, queue, injected, lost) and the messages answered inline |
| `Dispatch.SessionsAreExclusive` | erza/agent/dispatch.py:284-296 | Tasks of a session share one lock although the dictionary drops idle ones; at most one is behind it; a published queue belongs to exactly that task in its turn; the gate's capacity holds |
| `Dispatch.QueuesAreFifo` | erza/agent/dispatch.py:370-397 | Routed messages split into injected, republished, lost and queued ones in this order; at most 15 are injected and 20 queued; nothing is lost before the task is over |
| `Dispatch.OnlyACancelledDrainLoses` | erza/agent/dispatch.py:385-390 | A step loses messages if and only if it delivers a cancellation to a task whose leftovers wait for room on the bus |
| `Dispatch.ACancelledDrainLoses` | erza/agent/dispatch.py:385-390 | For a bus of any size there is a run in which that happens: the bus is filled, and the follow-up is gone for good |
| `Dispatch.NeverStuck` | erza/agent/dispatch.py:291-400 | While a task is unfinished some step is possible that needs no new message and no cancellation |
| `Dispatch.StopReachesEveryTask` | erza/agent/dispatch.py:235-241 | Cancelling a session reaches every unfinished task of it that an earlier one has not reached |
| `Sessions.RouteExactly` | erza/agent/dispatch.py:161-211 | The consumer answers a message at once, puts it into the queue of its session's turn, or makes it a task of its own, each exactly when the other ways are not open; the session is read off override, agent, mode and chat |
| `Sessions.ChatsJoinExactly` | erza/agent/dispatch.py:177-206 | Over any run: while the turn for one message is going on, another one goes to the end of its queue, under the name of the session, if and only if the two share a session and fewer than 20 are queued |
| `Sessions.UnifiedChatsShareATurn` | erza/agent/dispatch.py:261-273 | In the unified mode the second of two messages without override and agent joins the turn of the first, with "unified:default" as its override, whatever channels and chats they come from |
| `Sessions.SameSessionExactly` | erza/agent/dispatch.py:261-273 | Two messages without override share a session if and only if they are for one agent and from one chat, or for none in the unified mode; of two overrides the names decide; names of channels and chats are free of the separators |
| `Sessions.SessionsHaveTheirOwnLocks` | erza/agent/dispatch.py:275-287 | Over any run the tasks of two messages have one key and, once begun, one lock, if and only if the messages share a session |
| `Dispatch.LockStep` | erza/agent/dispatch.py:284-292 | Every step keeps task, dictionary and lock holders consistent, including the dropping of idle entries |
| `Dispatch.QueueStep` | erza/agent/dispatch.py:293-296 | Every step keeps the published queue of a session with the one task that is in its turn |
| `Dispatch.AccountStep` | erza/agent/dispatch.py:383-391 | Every step keeps the account of each queue |
| `Dispatch.ConservedStep` | erza/agent/dispatch.py:164-218 | Every step keeps the number of places in which a message is |
| `DispatchOrder.OrderBreaksExactly` | erza/agent/dispatch.py:161-391 | From a state in which no message of a session stands behind a later arrival, a step leads to another such state if and only if it is not one of three: a turn that ends with leftovers while others wait, a follow-up that joins while an earlier message waits as a task, a message published while leftovers wait for room |
| `DispatchOrder.FirstOvertakingBreaksOrder` | erza/agent/dispatch.py:161-391 | In any run the order of a session holds up to its first such step, which breaks it |
| `DispatchOrder.SessionIsServedInOrder` | erza/agent/dispatch.py:277-391 | In any run without such a step turns receive the messages of a session in the order in which they were published |
| `DispatchOrder.FrontStep` | erza/agent/dispatch.py:284-296 | Every step keeps the task of a session that has the lock the first of those that wait |
| `DispatchOrder.LeftoversAreOvertaken` | erza/agent/dispatch.py:385-391 | A run in which a follow-up is put back behind a later message of its session, which is served before it |
| `DispatchOrder.WaitersAreOvertaken` | erza/agent/dispatch.py:189-211 | A run in which a later message joins the running turn and is served while an earlier one waits as a task |
| `Dispatcher.MessageDispatcher.RouteMessage` | erza/agent/dispatch.py:161-211 | The consumer loop's branches amount to the routing step: inline, queued with its session pinned, or a new task, also when the queue is full |
| `Dispatcher.MessageDispatcher.CreateTask` | erza/agent/dispatch.py:208-211 | A new task is created and entered in its session list |
| `Dispatcher.MessageDispatcher.Begin` | erza/agent/dispatch.py:277-287 | The first stretch of a task pins its message and finds or makes the lock |
| `Dispatcher.MessageDispatcher.RepublishLeftovers` | erza/agent/dispatch.py:385-391 | The drain loop puts back a prefix of the leftovers, as long as the bus has room |
| `Dispatcher.MessageDispatcher.EndTurn` | erza/agent/dispatch.py:370-391 | The end of a turn withdraws the queue and puts the leftovers back |
| `Dispatcher.MessageDispatcher.CancelActiveTasks` | erza/agent/dispatch.py:235-241 | The loop over the session list marks exactly its unfinished tasks and returns how many there were |
| `Injections.DrainPendingMessages` | erza/agent/loop.py:1139-1169 | A drain takes the oldest messages, at most three, and waits only when nothing is there and subagents run |
| `Injections.CapInjections` | erza/agent/runner.py:412-420 | The cap keeps the first three injections, and all if there are no more |
| `Injections.TryDrainInjections` | erza/agent/runner.py:321-377 | An attempt takes from the queue only in the first five cycles; what the drain took is appended whole (the cap never drops); the loop goes on exactly when something was added; a goal reminder costs no cycle |
| `Injections.AppendInjectedMessages` | erza/agent/runner.py:303-319 | The append loop equals the specified fold |
| `Injections.InjectionsMakeOneMessage` | erza/agent/runner.py:303-319 | Any number of injections becomes one user message: a new one or the end of a trailing one, contents in order |
| `Injections.InjectionsAreShownInOrder` | erza/agent/runner.py:303-319 | That message shows what it was and then every injection, oldest first, with nothing or an empty line between two |
| `Injections.InjectionKeepsAlternation` | erza/agent/runner.py:304-319 | No two user messages stand next to each other if none did before |
| `InjectionBudget.EnforceInjectionBudget` | erza/agent/context.py:334-438 | The cascade of rebinding stages returns the specified list |
| `InjectionBudget.TruncateClass` | erza/agent/context.py:371-382 | A truncating stage's building loop cuts exactly the parts of its class to its quota |
| `InjectionBudget.DropClass` | erza/agent/context.py:360-369 | A dropping stage removes exactly the parts of its class |
| `InjectionBudget.StageSettles` | erza/agent/context.py:371-384 | A stage brings the prompt into the budget or leaves its class at its floor plus the suffix |
| `InjectionBudget.BudgetHolds` | erza/agent/context.py:334-438 | The result has at most max(65000, critical + 5516) tokens: four floors and four suffixes of four tokens |
| `InjectionBudget.AnyPromptIsBounded` | erza/agent/context.py:334-438 | For any number of parts per class the result has at most max(65000, critical + one ceiling and suffix for each truncatable part) tokens |
| `InjectionBudget.TwoHistoriesExceedTheBound` | erza/agent/context.py:371-384 | With two parts of one class that bound fails: a concrete prompt of 65008 tokens, which is the general bound |
| `InjectionBudget.SystemPromptFits` | erza/agent/context.py:208-316 | The parts of the system prompt have at most one of each truncatable class, so the bound holds for every system prompt |
| `InjectionBudget.CriticalPartsAreKept` | erza/agent/context.py:348-349 | Parts outside the truncatable and droppable classes come out unchanged and in order |
| `InjectionBudget.LessImportantGoesFirst` | erza/agent/context.py:343-349 | Nothing is touched while the prompt fits, and a class is touched only when each class before it in the cascade is gone or at its floor |
| `InjectionStages.StagesActExactly` | erza/agent/context.py:360-438 | For any parts a class is dropped if and only if the prompt is over the budget without the classes before it, and cut if and only if it is over the budget with those as they stand in the output; what is left of it is stated in closed form |
| `InjectionStages.SharesAre` | erza/agent/context.py:371-438 | The shares are 1/2, 3/10, 3/10 and 4/5 of the room, and the floors 2000, 1500, 1000 and 1000 tokens |
| `InjectionBudget.OrderIsKept` | erza/agent/context.py:360-438 | The parts that stay are in order, each whole or cut to a beginning no shorter than its floor |
| `InjectionBudget.EnforcingIsIdempotent` | erza/agent/context.py:334-438 | Enforcing the budget again changes nothing, also when the prompt could not be brought into it |
| `Dedup.ReplyFingerprints.Record` | erza/channels/manager.py:390-403 | A write moves the key to the end and evicts from the front down to the limit |
| `Dedup.ReplyFingerprints.ShouldSuppress` | erza/channels/manager.py:363-388 | The decision and the new memory are those specified for progress, empty, repeated and new replies |
| `Dedup.BoundedIsLast` | erza/channels/manager.py:390-403 | The memory holds exactly the most recently touched distinct keys, up to its capacity |
| `Dedup.RememberedExactly` | erza/channels/manager.py:377-388 | A fingerprint is remembered if and only if it is its key's latest and fewer than capacity other keys were touched since |
| `Dedup.SuppressedExactly` | erza/channels/manager.py:363-403 | Over any run a reply is suppressed if and only if it repeats the latest one: its origin has the same latest fingerprint and fewer than 10000 other keys were touched since |
| `Fingerprints.FingerprintsAgreeExactly` | erza/channels/manager.py:358-361 | Two replies have one fingerprint if and only if they have the same words in order |
| `Fingerprints.EchoIsSuppressed` | erza/channels/manager.py:363-388 | Over any run the next reply with the same words, to the same message or to a reply that was sent, is suppressed |
| `Fingerprints.NothingIsRecorded` | erza/channels/manager.py:363-388 | Progress and replies without words are neither recorded nor suppressed |
| `Dedup.InboundDedup.DedupMessage` | erza/channels/base.py:204-215 | An identifier is new if and only if it is not among the last max_size accepted ones |
| `Dedup.AcceptKeepsSpacing` | erza/channels/base.py:204-215 | Accepting keeps at least max_size other identifiers between two equal ones if and only if the identifier is not among the last max_size |
| `Outbound.ChannelManager.CoalesceStreamDeltas` | erza/channels/manager.py:508-556 | The loop over the queue merges the specified stretch, returns the message that stopped it, and leaves the rest |
| `Outbound.ChannelManager.DispatchOne` | erza/channels/manager.py:414-485 | One round of the loop with its filters, merging, suppression and sending is the specified step |
| `Outbound.MergeIsMaximal` | erza/channels/manager.py:524-548 | What is merged is the longest stretch of deltas for one chat with no end mark before its last one |
| `Outbound.MergeShowsParts` | erza/channels/manager.py:508-556 | A merged message shows what its parts show when they are not filtered, and leaves the same memory |
| `Outbound.MergeKeepsMeaningExactly` | erza/channels/manager.py:423-556 | One merge of any number of deltas shows, and leaves in the memory, what they would one by one, if and only if each absorbed delta passes the filters by itself or shows nothing either way |
| `Outbound.NothingIsLostOrReordered` | erza/channels/manager.py:411-420 | In every run dealt-with messages, the held-back one (at most one) and the queue are the input, in order |
| `Outbound.MergingIsInvisibleExactly` | erza/channels/manager.py:405-485 | At every moment of every run the chats have seen the same characters, end marks and messages in the same order as without merging, if and only if each absorbed delta is such; the memory is the same in any case |
| `Outbound.AlwaysInvisibleExactly` | erza/channels/manager.py:405-556 | For given messages merging is invisible under every timing, if and only if each message that some timing lets be absorbed passes the filters by itself or shows nothing; such a message ends a stretch of deltas behind one that passes |
| `Outbound.FilteredDeltaIsShown` | erza/channels/manager.py:423-464 | A concrete run in which a progress delta that the channel does not want is shown |
| `Outbound.MergingIsInvisible` | erza/channels/manager.py:405-485 | If every delta passes the filters by itself or shows nothing, a run that has dealt with everything has shown the same as without merging |
| `Visibility.DispatchShows` | erza/channels/manager.py:411-506 | After any run the next round adds to what is seen exactly: a wanted whole reply unless it repeats the latest one, all characters and end marks of a stream in order, reasoning where the channel shows it, and nothing else |
| `LockCache.SessionLocks.EnforceLimit` | erza/api_compat/server.py:90-110 | The eviction loops remove the oldest idle entries while the map is too large, and stop when none is idle |
| `LockCache.SessionLocks.EnterRequest` | erza/api_compat/server.py:315-323 | A request finds its entry and renews it, or makes one and evicts, and is counted before it waits |
| `LockCache.EnterKeepsCoverExactly` | erza/api_compat/server.py:315-321 | Every request in flight keeps its key's entry in the map if and only if the new key is known, there is room, or another entry is idle |
| `LockCache.BusyCacheNeedsKeys` | erza/api_compat/server.py:85-87 | A full map without an idle entry has as many keys in flight as entries |
| `LockCache.CacheStaysWithinLimit` | erza/api_compat/server.py:97-108 | The map never has more than 1000 entries |
| `LockRecency.MapIsByRecency` | erza/api_compat/server.py:311-321 | In every run the entries of the map stand in the order of their latest use |
| `LockRecency.LeastRecentIdleGoes` | erza/api_compat/server.py:90-110 | What a request pushes out of the map is idle, and each entry that was used longer ago is not |
| `LockCache.SessionsAreSerialised` | erza/api_compat/server.py:310-323 | While fewer than 1000 keys are in flight, requests of one key share one lock that stays in the map, and at most one is processing |
| `LockCache.FullCacheBreaks` | erza/api_compat/server.py:318-321 | From any state with the map full of busy entries two requests of one new key can be processed at the same time |
| `LockCache.FullCacheBreaksSerialisation` | erza/api_compat/server.py:318-321 | For every limit there is a run from the empty map in which two requests of one key are processed at the same time |
| `Ledger.TurnBudget.Accumulate` | erza/ledger/turn_budget.py:62-89 | A call adds its prompt (or cache misses), completion and cost, or notes that the cost is unknown |
| `Ledger.TurnBudget.Check` | erza/ledger/turn_budget.py:91-118 | The first reason found stays; otherwise the limits are tried in order |
| `Ledger.CallLedger.RecordCall` | erza/ledger/call_ledger.py:92-136 | An accessible record adds to totals, cost, purpose and records and charges the attached budget at once; an inaccessible one changes nothing |
| `Ledger.CallLedger.CheckBudget` | erza/ledger/call_ledger.py:165-179 | The target is charged for exactly the calls it has not seen, and its verdict becomes the reason, unless the attached budget already has one |
| `Ledger.CallLedger.Activate` | erza/ledger/call_ledger.py:145-151 | Only the owning task can bind an active ledger again |
| `Ledger.CallLedger.Deactivate` | erza/ledger/call_ledger.py:153-156 | The last unbinding releases the owner |
| `Ledger.ChargingIsExactlyOnce` | erza/ledger/call_ledger.py:107-179 | Over any interleaving of recording, checking and binding and any budgets: totals, summed cost and purposes are sums over the records, and each budget is charged for exactly the records before its index, the attached one for all |
| `Ledger.PurposesPartition` | erza/ledger/call_ledger.py:113-120 | The per-purpose totals add up to the total |
| `Ledger.ReasonIsTheFirstVerdict` | erza/ledger/call_ledger.py:130-136 | With one budget of any limits the reason is the verdict after the first call that broke a limit, or the one before any call if a check came so early and a limit was broken by then |
| `Spending.NoReasonExactly` | erza/ledger/turn_budget.py:62-118 | In a turn there is no reason to stop, if and only if no beginning of the calls breaks a limit in sums of tokens and dollars or lacks a needed cost, nor did none at all when a check came before any |
| `Spending.FirstVerdictExactly` | erza/ledger/turn_budget.py:91-118 | The reason names the limit that the shortest breaking beginning breaks, with the sum spent |
| `Spending.ChargeIsSum` | erza/ledger/turn_budget.py:62-89 | A budget has been charged with the sums over the calls of input, output and cost, and notes a call whose needed cost is unknown |
| `Ledger.ReasonIsSticky` | erza/ledger/call_ledger.py:165-179 | With one budget no continuation of a run changes a reason that is set |
| `Ledger.NoRequestAfterTheBudget` | erza/agent/runner.py:489-526 | Once the calls of a turn have broken a limit, or a gate before any call found one broken, its main loop makes no further model call |
| `Ledger.ReasonIsTheLastVerdict` | erza/ledger/call_ledger.py:130-179 | Over any run and any budgets the reason is the verdict of the budget that was last charged or asked, and there is none if the last record had no budget |
| `Ledger.ForeignCheckReplacesReason` | erza/ledger/call_ledger.py:178-179 | A check of another budget puts that budget's verdict in the place of the reason |
| `Ledger.ForeignCheckCanClearReason` | erza/ledger/call_ledger.py:178-179 | A reachable state in which this clears the reason of an exceeded budget |
| `Ledger.ForeignReasonCanStopTheTurn` | erza/ledger/call_ledger.py:169-170 | A reachable state in which a budget that is not exceeded is reported as exceeded |
| `Acceptance.DigestIgnoresOrderExactly` | erza/agent/step_acceptance.py:80-95 | Two lists of observations have the same digest if and only if they show the same items with the same multiplicities |
| `Acceptance.SortFailsExactly` | erza/agent/step_acceptance.py:86-94 | Sorting, which ends at the first comparison of None with a string, does so if and only if two of the items cannot be compared, wherever they stand |
| `Acceptance.InsertFailsExactly` | erza/agent/step_acceptance.py:86-94 | Inserting into a sorted list fails if and only if some item of it cannot be compared with the new one, although only those before its place are looked at |
| `Acceptance.MixedReceiptsHaveNoDigest` | erza/agent/step_acceptance.py:80-95 | A patch that is tried and then applied within one step: the two observations have no digest, and so their evaluation has no verdict |
| `Acceptance.FailureIgnoresOrder` | erza/agent/step_acceptance.py:86-94 | Whether there is a digest does not depend on the order of arrival |
| `Acceptance.StepAcceptancePolicy.EvaluateWithVerifier` | erza/agent/step_acceptance.py:144-240 | Cache, rules, verifier and cache write lead to the specified verdict and cache |
| `Acceptance.FreshToolAcceptanceExactly` | erza/agent/step_acceptance.py:352-398 | A tool-level step is accepted on new evidence if and only if a committed receipt meets the criteria, or some receipt exists and an enabled verifier accepts |
| `Verdicts.FreshTextAcceptanceExactly` | erza/agent/step_acceptance.py:352-374 | A step without a tool is accepted on new evidence if and only if its text is not blank, and it meets the criteria or an enabled verifier says so |
| `Verdicts.FreshRejectionExactly` | erza/agent/step_acceptance.py:376-398 | The reason of each rejection is determined by receipts, text and verifier, and is never the unknown one |
| `Verdicts.KeptExactly` | erza/agent/step_acceptance.py:166-239 | A verdict is kept unless a verifier was needed and gave no decision or an error |
| `Verdicts.MentionsExactly` | erza/agent/step_acceptance.py:371-373 | Criteria are mentioned if and only if they occur somewhere, whatever the case of ASCII letters |
| `Acceptance.CacheIsWrittenOnce` | erza/agent/step_acceptance.py:148-150 | A cached verdict is never replaced |
| `Acceptance.CachedVerdictWasGiven` | erza/agent/step_acceptance.py:231-239 | Every cached verdict was given on the same step and digest, and not by a failed verifier |
| `Acceptance.NoReceiptNoAcceptance` | erza/agent/step_acceptance.py:132-134 | Over any run no tool-level step without a receipt is accepted, if steps of different evidence levels have different identifiers, and every list of observations with receipts has one with a digest or a target |
| `Acceptance.HiddenReceiptsExactly` | erza/agent/step_acceptance.py:80-95 | Observations without a receipt can have the digest of others that have one, if and only if none of the latter receipts has a digest or a target |
| `Acceptance.HiddenReceiptForgesAcceptance` | erza/agent/step_acceptance.py:144-163 | In each such case a tool-level step that was accepted is accepted again on the same observations without receipts |
| `Acceptance.SharedIdentifierForgesAcceptance` | erza/agent/step_acceptance.py:145-163 | For any two steps of different levels with one identifier there is a run that accepts the tool-level one without any tool |
| `Replan.ReplanCall` | erza/agent/planner.py:196-270 | The call charges the plan it was given and returns it, a fallback, or the completed steps followed by the new ones |
| `Replan.ReplanningIsBounded` | erza/agent/planner.py:205-220 | In every run a plan stays within its limit, and calls are at most the limit times one more than the number of times the plan was lost, and at most the iterations of the loop |
| `Replan.CallsUseUpRoom` | erza/agent/runner.py:1288-1299 | Every replan call and every activation over a plan strictly reduces what is left |
| `Replan.FailuresNeverPreemptReplans` | erza/agent/execution/recovery.py:76-123 | In every run a fatal error leads to a replan call while the plan can be replaced: the rule on two failed steps never comes before the limit |
| `Replan.LosingThePlanResetsTheLimit` | erza/agent/execution/recovery.py:119-123 | For every number of losses that fits into the iterations there is a turn of fatal errors with as many calls as that bound allows: a failed replan drops the plan, and the next activation counts from zero |
| `Replan.ValidReplanKeepsCompleted` | erza/agent/planner.py:252-263 | A valid replan begins with the completed steps in order, they are all that is completed, and the rest is new |
| `Replan.FallbackIsCharged` | erza/agent/planner.py:205-270 | A call without a usable plan is charged all the same and returns the plan it was given or a one-step plan for the goal |
| `Replan.NewPlansAreAdopted` | erza/agent/runner.py:1275-1310 | A valid replan, an activation within the limit and an escalation give the turn exactly their plan, with its count |
| `Replan.ReplanKeepsCompleted` | erza/agent/runner.py:984-1002 | Failures and replans keep the sequence of completed steps as long as the turn keeps a plan |
| `Replan.CompletedWorkSurvives` | erza/agent/runner.py:984-1002 | Over any stretch of a turn in which the plan is neither lost nor activated over, the steps completed at its beginning are completed at its end, in the same order |
| `ReflectionLog.Log.AppendReflection` | erza/agent/reflection.py:199-216 | An entry is appended and, in a long file, consumed lines are pruned as far as the writes get |
| `ReflectionLog.Log.MaybeRotate` | erza/agent/reflection.py:218-258 | The rotation prunes exactly the consumed lines, resets a stale cursor, and does nothing to a short or unread file |
| `ReflectionLog.NothingIsLost` | erza/agent/reflection.py:222-226 | Over any run with failed writes and crashes every appended entry has been consumed or lies at or past the cursor, if no consumer is at work while the file is rewritten |
| `ReflectionLog.FileIsATail` | erza/agent/reflection.py:246-256 | The file always holds the latest entries in order, each once |
| `ReflectionLog.PruningIsExact` | erza/agent/reflection.py:218-258 | In every run a complete pruning removes the lines before the cursor and no others, and sets the cursor to zero |
| `ReflectionLog.ConsumerCatchesUp` | erza/memory/store.py:418-455 | A consumer that reads to the end and is not cut short has consumed everything |
| `ReflectionLog.OtherOrderLoses` | erza/agent/reflection.py:249-253 | With the two writes the other way round an unconsumed entry would lie before the cursor |
| `ReflectionLog.CommitIsSafeExactly` | erza/memory/store.py:409-416 | A consumer's cursor write loses nothing if and only if the line it names is not beyond what has been consumed, or does not exist |
| `ReflectionLog.PruningUnderAConsumerLoses` | erza/memory/dream.py:355-423 | A concrete run in which the file is pruned while a consumer works, and an entry is never read |
| `TextOps.FindFromIsFirst` | erza/agent/session_turn.py:163 | The search returns the first occurrence |
| `TextOps.RStripEmpty` | erza/agent/session_turn.py:164 | Stripping leaves nothing if and only if there is nothing but newlines and blanks |
| `TextOps.RStripExactly` | erza/agent/session_turn.py:164 | Stripping leaves the one beginning that ends in neither newline nor blank and has nothing else behind it |

## Left out

- Providers, prompt templates, tool execution, media decoding, telemetry, logging: arbitrary inputs or absent.
- File system, timestamps and wall clock: only that timestamps take no part in message keys, that a rewrite is atomic, and that a save can happen or fail at any time.
- Session file cap, token consolidation and history windows: SAVE is modelled up to the append and the clearing of the markers, which are one step.
- Lock, semaphore and queue internals of the event loop: acquiring, releasing and waking are steps of `Dispatch`; only the dispatcher's own code has methods in `Dispatcher`.
- A message that is taken from a queue and lost by an exception while it is turned into a prompt entry.
- Commands answered inline: what a command does apart from being answered, except that /stop cancels.
- Unicode case folding: `Acceptance` lowers ASCII letters only.
- Outbound retries and send failures: a message that reaches a channel counts as seen.
- Risk levels, mode switching, memory recall, heartbeat and configuration migration: easy members.
- Parsing of planner and verifier answers: the parsed result is the input of `Replan` and `Acceptance`.
- When the progress policy asks for a new plan: at any moment in `Replan`, which only over-counts calls.
- Object identity behind `id(budget)`: budgets have identities of their own in `Ledger`.
- ChargingIsExactlyOnce: leaves out the `last_call_usage` field, which no property depends on, and the rounding of floating-point sums.
- NothingIsLost: holds under the condition that no consumer is at work during a rewrite, because the system does not guarantee more (see `PruningUnderAConsumerLoses`).
- RestoreRepairsEveryRun: claims a well-formed history, not a complete one, because the slot keeps only the latest iteration; tool results are taken to be non-empty.
- MergingIsInvisible: is the case in which every delta is harmless; `MergingIsInvisibleExactly` has the condition for all runs.
- SessionIsServedInOrder: takes the event loop to give a lock to the tasks that ask for it in the order in which they were made, and neither lock nor gate to a cancelled one.
- PluginsKeepPairingExactly: leaves out plugins that take the name of a cleanup strategy, and so its place in the fallback.
- SortFailsExactly: is proved of sorting by insertion; that the library's sort fails on the same lists rests on any sort comparing neighbours of the result.
- SameSessionExactly: is about names without separators, because the code builds keys by joining names and two chats whose names contain ':' or '#' can get one key.
