# Verified model of the agent runtime's consistency core

This project models, in Dafny 4.11, the parts of the runtime that must keep state consistent while models, tools,
other turns, crashes and human edits interfere, and proves what they promise over every run. `dafny verify
dfyconfig.toml` checks all of it.

**Conversation integrity.** A conversation is *tool-complete* (`Conversation.ToolComplete`) when every tool call is
answered in the run of tool messages right after it, and every tool message answers a call of the message its run
follows. The definition speaks about indexes; `ToolCompleteIff` shows that it agrees with a left-to-right reading, on
which the proofs work. The modules follow the source files:

- `Session` repairs a stored list on load; `PhaseStore` stores a phase with compare-and-swap, once as the code does it
  and once as any number of turns that share one session.
- `Compaction` and `CompactionTarget` pick a safe split, merge in place, search the summary length and pop a trailing
  assistant message.
- `MessageFormat` and `Restore` print a tool-call preview, read it back and rebuild the calls for the transcript.
  `Thinking` shows what the four passes over thinking blocks leave of a reply: exactly what it says outside its blocks.
- `ModelStep` filters tool calls and retries one model iteration under one deadline, one attempt limit and one
  published-output latch. What each request and the report must be is told from the provider's own answers.
- `ToolExecution` runs read-only blocks in parallel and side-effecting calls behind a ledger claim, and refines an
  in-order specification.
- `LoopRunner` puts these together: the whole agent loop, with its stores, corrective retries and compaction. Over
  every run, every request that goes out is tool-complete and determined by the history, the finished phases and the
  reply it corrects, the loop's messages are a function of the history and the finished tool phases alone, whatever was
  stored at the moment of a crash can be loaded tool-complete again, every streamed message ends exactly once, and the
  run ends in the first iteration that gives an answer or a cause to fail.

**Agent memory.** `Memory` holds a file system with fsync, renames that may or may not survive a crash, and torn
content, and the loader class with its cache. `MemoryCrash` takes one publication in single steps with a kill or a
power loss possible around each, also inside recovery. `MemoryReaders` interleaves loads and publications of any number
of threads with outside edits.

**Configuration.** `ConfigManager` holds the decisions of an apply and of a reload and the manager class;
`ConfigRuns` interleaves applies, reloads and outside edits around the two critical sections of the update lock.

**Two smaller cores.** `Skills` shows that the directory walk of a skill agrees with the path predicate. `BotChain`
proves the chain limiter against the times at which it accepted.

Where a promise turned out not to hold on all inputs, the exact condition is proved instead:

- The header of the compaction file promises the latest user message and the recent context verbatim, and
  `docs/config.md` at least `compact_keep_recent` messages kept as they are. The code merges neighbours of the same
  role and drops a trailing assistant message. So the kept part stays verbatim exactly when no two neighbours in it can
  be merged and it does not end with an assistant message (`AttemptVerbatimIff`, `KeptVerbatimIff`); two adjacent user
  messages become one (`NeighboursAreMerged`), and a forced compaction after a finished turn loses the latest answer,
  which is not in the summarized part either (`LatestAnswerIsLost`). The latest user message alone stays verbatim
  exactly when it starts the kept part or cannot be merged with the message before it; otherwise it is the end of the
  last user message (`LatestUserVerbatimIff`).
- Repair answers every call but keeps stray tool messages, so the repaired list is tool-complete exactly when the input
  had no stray answer (`RepairCompleteIff`).
- With a competing writer, results that were stored on a retry keep the session tool-complete exactly when the last
  non-tool message of the other commit holds the calls (`LateResultsCompleteIff`, with a concrete run in
  `CompetingWriterStrandsResult`).
- A snapshot that cannot be read back is replaced by the text of the recent rows, under its revision. No run whose
  loaded snapshots can be read back loses a phase (`ReadableRunsLoseNothing`). A load keeps what was committed exactly
  when no store on top of it can lose anything (`LoadKeepsIff`), and for a latest commit that is longer than the rows
  that are read, or holds anything but plain texts, exactly when the snapshot can be read back (`LoadKeepsIffReadable`).
  From an empty session on, a stored tool call is lost however many rows are read (`UnreadableSnapshotLosesPhase`).
- Recovery of a memory publication never gives up exactly when the bundle reads back, that is, no file of it is blank
  without being empty unless that file was empty before, and the disk it started on survives a power loss with old or
  new contents only (`RecoverySafeIff`). On a disk whose files are all fsynced and durably renamed, the second condition
  says: the directory is absent, or its own entry is durable, or every file is empty before or after
  (`SettledSurvivesIff`). Otherwise a power loss takes the directory and the recovery stops (`UnlinkedStartFails`).
- A finished publication is the new bundle, but safe from a later power loss over every mix of kills and power losses
  exactly when the entry of the memory directory was durable before (`DurableEndIff`). A process killed between creating
  the directory and syncing its entry leaves a directory that recovery finds and never links
  (`KilledCreationLosesBundle`), and the next publication into it can end in a recovery that gives up
  (`KilledCreationStopsNextRecovery`). Unless the directory was already there without a durable entry, this gap is the
  only one (`SparedEndIsDurable`).
- A preview gives its names back exactly when its narration holds no marker and they are trimmed, not empty and free
  of commas (`NamesRoundTripIff`); a comma splits a name (`CommaSplitsName`). The narration comes back exactly when it
  holds no marker (`NarrationRoundTripIff`). The two narration readers agree exactly when there is a narration, it
  holds no marker, and no name brings a spaced one (`NarrationReadersAgreeIff`).
- The comment at the path predicate of skills says that a file the listing leaves out cannot be read. Before the list
  is cut to 200 files, the skill's own description at the root is the one exception (`ServedButNotListed`).
- The listing of a skill names no path twice exactly when no two different listed files share a path text
  (`NoPathTwiceIff`). Backslashes become slashes, so two can (`BackslashRepeatsPath`); no backslash on the path of a
  listed file is enough (`NoBackslashNoPathTwice`).
- The third branch of the exchange that ends an apply is never taken (`ThirdBranchIsDead`).

Strings are sequences of characters with a UTF-8 length of one to four bytes each. Calibration factors and ratios are
reals. Clocks, providers, tools, other turns, damage done by a crash and the order in which parallel calls finish are
parameters, and the theorems hold for all of them.

## Model

| member | source | states |
|---|---|---|
| Conversation.ToolCompleteIff | src/agent_loop/session.rs:487-533 | the index-based definition of tool-completeness and the left-to-right reading agree on every message list |
| Conversation.ToolCompleteConcat | src/agent_loop/compaction.rs:598-615 | a list cut or glued where the right part does not start with a tool message is tool-complete exactly when both parts are |
| Conversation.ImagesAreDropped | src/llm/mod.rs:139-151 | an image leaves no trace in the text that is read of a message |
| Conversation.TwoTexts | src/llm/mod.rs:139-151 | texts around an image are read in order, with a newline between them |
| Session.RepairOrphanToolOutputs | src/agent_loop/session.rs:487-521 | the peekable repair loop computes the block-by-block repair: after each calling message its tool run, then one placeholder per unanswered call |
| Session.RepairBlock | src/agent_loop/session.rs:487-521 | the repair of a calling message is that message, its tool run, the missing outputs, and the repair of the rest |
| Session.MissingOutputsGrow | src/agent_loop/session.rs:508-533 | the missing outputs are one error placeholder for each unanswered call, in call order |
| Session.RepairKeepsMessages | src/agent_loop/session.rs:487-521 | the repaired list contains the input as a subsequence |
| Session.RepairAnswers | src/agent_loop/session.rs:487-521 | in the repaired list every assistant call is answered in the tool run right after it |
| Session.RepairIdentityIff | src/agent_loop/session.rs:487-521 | repair changes nothing exactly on lists whose calls are all answered, and its result is always such a list |
| Session.RepairIdempotent | src/agent_loop/session.rs:487-521 | repairing twice is repairing once |
| Session.RepairCompleteIff | src/agent_loop/session.rs:487-533 | the repaired list is tool-complete exactly when the input had no stray tool message |
| PhaseStore.SessionStore.Store | src/agent_loop/session.rs:579-604 | a store commits and raises the revision by one exactly when the expected revision is current, else it changes nothing |
| PhaseStore.SessionStore.Load | src/agent_loop/session.rs:336-360 | a load gives the repaired snapshot with its revision, or the recent rows when there is none, or when it cannot be read back, then under its revision |
| PhaseStore.PersistPhaseMessages | src/agent_loop/session.rs:404-446 | at most two attempts; without a conflict the given list is stored, after one conflict the reloaded list with the phase appended, and a second conflict stores nothing |
| PhaseStore.FirstStoreOnLatest | src/agent_loop/session.rs:404-446 | a turn's first store commits its messages and row exactly when nobody committed since it read them, else it stores nothing |
| PhaseStore.SecondStoreOnReloaded | src/agent_loop/session.rs:404-446 | after a conflict, whatever other turns do before the reload and before the retry: the phase is stored on the reloaded messages exactly when nobody committed in between, else the turn fails and stores nothing |
| PhaseStore.NextKeepsInv | src/agent_loop/session.rs:404-446 | one step of any turn keeps: every commit ends with its phase and contains the commit before it; a load must keep the latest commit |
| PhaseStore.LoadKeepsIff | src/agent_loop/session.rs:404-471 | a load keeps the latest commit exactly when every first store on top of it keeps the commit invariant, whatever it stores |
| PhaseStore.LoadKeepsIffReadable | src/agent_loop/session.rs:448-471 | when the latest commit is longer than the rows that are read, or holds a tool call, a tool result, reasoning or an image, a load keeps it exactly when its snapshot can be read back |
| PhaseStore.ReadableLoadsKeep | src/agent_loop/session.rs:448-533 | in every run whose loaded snapshots can be read back, every load keeps the latest commit, because repair loses nothing |
| PhaseStore.RunKeepsInv | src/agent_loop/session.rs:404-446 | over every run of any number of turns whose loads keep the latest commit, every commit ends with its phase and contains the commit before it, and committed snapshots are never removed |
| PhaseStore.ReadableRunKeepsInv | src/agent_loop/session.rs:404-471 | the same over every run whose loaded snapshots can be read back |
| PhaseStore.LaterCommitContains | src/agent_loop/session.rs:404-446 | every later commit contains every earlier one as a subsequence |
| PhaseStore.NoLostPhases | src/agent_loop/session.rs:404-446 | in runs whose loads keep the latest commit a phase that was committed stays, in order, in every later snapshot |
| PhaseStore.ReadableRunsLoseNothing | src/agent_loop/session.rs:404-471 | the same over every run whose loaded snapshots can be read back |
| PhaseStore.UnreadableSnapshotLosesPhase | src/agent_loop/session.rs:448-553 | from an empty session: a user message and a tool call stored with their rows, then a snapshot that cannot be read back, and the next turn's store loses the call, however many rows it reads |
| PhaseStore.CommitStagedUserMessages | src/agent_loop/turn/persistence.rs:249-349 | staged follow-ups are appended and stored together, nothing is stored when there are none, one conflict reloads and tries once more with what is staged then, and without a revision a follow-up is a conflict |
| PhaseStore.AppendResultsCompleteIff | src/agent_loop/session.rs:404-446 | appending results to a tool-complete list keeps it so exactly when its last non-tool message holds every answered call |
| PhaseStore.LateResultsCompleteIff | src/agent_loop/session.rs:404-446 | results stored on a retry keep the session tool-complete exactly when the last non-tool message of the other commit holds their calls |
| PhaseStore.CompetingWriterStrandsResult | src/agent_loop/session.rs:404-446 | a concrete run of two turns whose retried result ends up behind another turn's user message |
| Compaction.FindToolCallParent | src/agent_loop/compaction.rs:811-823 | the latest assistant message before an index that holds the call, or none when there is no such message |
| Compaction.ToolSafeSplitAt | src/agent_loop/compaction.rs:791-809 | the loop that skips forward over tool messages or jumps back to a parent ends, at the split the reference function names |
| Compaction.SafeSplitBoundary | src/agent_loop/compaction.rs:791-809 | for every history the split is the list end or a non-tool message, and a forward move only skips tool messages |
| Compaction.SafeSplitExact | src/agent_loop/compaction.rs:791-823 | on tool-complete histories the split never moves forward, moves back at most to the head of the run it fell into, and cuts into two tool-complete parts |
| Compaction.SplitKeepsLatestUser | src/agent_loop/compaction.rs:548-558 | the split never passes the latest user message |
| Compaction.SplitSound | src/agent_loop/compaction.rs:548-558 | on tool-complete histories at least the requested recent messages are kept and no call is cut from its answers |
| Compaction.SplitIsLatest | src/agent_loop/compaction.rs:548-558 | on tool-complete histories no later cut could keep the requested recent messages and the latest user message |
| Compaction.MergeInPlace | src/agent_loop/compaction.rs:617-645 | the merge with a write and a read index, swap and truncate leaves the left fold of the list behind its first message |
| Compaction.CanMergeIff | src/agent_loop/compaction.rs:825-835 | two messages are merged exactly when both are bare texts of the same role |
| Compaction.RunsPartition | src/agent_loop/compaction.rs:825-835 | the reference runs are maximal mergeable runs and lose nothing |
| Compaction.FoldMergeIsJoinRuns | src/agent_loop/compaction.rs:617-645 | the fold joins exactly the maximal mergeable runs, each by newlines, and touches nothing else |
| Compaction.FoldMergeKeepsToolMessages | src/agent_loop/compaction.rs:617-645 | merging keeps every tool-related message and their order |
| Compaction.MergeKeepsToolComplete | src/agent_loop/compaction.rs:617-645 | merging keeps tool-completeness |
| Compaction.BuildCompactedMessages | src/agent_loop/compaction.rs:598-615 | summary first, merge, pop of a trailing assistant, over an array, gives the compacted list, which starts with the summary behind its header, unmerged |
| Compaction.PopKeepsToolComplete | src/agent_loop/compaction.rs:598-615 | the pop keeps tool-completeness and never removes a message that carries tool calls |
| Compaction.CompactedToolComplete | src/agent_loop/compaction.rs:598-615 | for every summary the compacted list of a tool-complete part is tool-complete |
| Compaction.CompactedKeepsToolMessages | src/agent_loop/compaction.rs:598-645 | compaction keeps every tool-related message of the kept part, in order |
| CompactionTarget.EstimatePromptTokens | src/agent_loop/compaction.rs:132-150 | the accumulating loops compute a third of the UTF-8 bytes of system prompt, roles, texts, calls and tools, rounded down, and at least one |
| CompactionTarget.CalibratedIs | src/agent_loop/compaction.rs:152-154 | the calibrated estimate is the smallest whole number of at least one that the scaled estimate does not exceed |
| CompactionTarget.ShareIs | src/agent_loop/compaction.rs:156-169 | a share of the window is the floor of ratio times the window without its 8192 reserved tokens, and at least one |
| CompactionTarget.CalibratedMonotone | src/agent_loop/compaction.rs:152-154 | for a non-negative factor a larger raw estimate never calibrates to a smaller one |
| CompactionTarget.ShorterSummaryFits | src/agent_loop/compaction.rs:478-518 | a compaction whose summary has fewer bytes fits wherever the longer one fits |
| CompactionTarget.FitsDownward | src/agent_loop/compaction.rs:529-546 | the fit of a truncated summary is downward closed, with the truncation suffix accounted for at both ends |
| CompactionTarget.LongestFitIsLongest | src/agent_loop/compaction.rs:478-518 | the reference scan names the longest summary prefix whose calibrated estimate fits, zero when none does |
| CompactionTarget.BuildTargetedCompactedMessages | src/agent_loop/compaction.rs:478-518 | the binary search ends without underflow on the compaction with the longest cut of the summary whose calibrated estimate fits the target, every longer cut costing more, or on the empty summary |
| CompactionTarget.SafetyCompact | src/agent_loop/compaction.rs:230-278 | an attempt leaves the list alone when nothing can be cut or the summarizer gave nothing, else it keeps the part from the safe split on behind the longest cut of the summary that fits the target share |
| CompactionTarget.MaybeCompactMessages | src/agent_loop/compaction.rs:48-93 | the list is left alone while the calibrated estimate of the whole prompt is below the threshold share of the window, and attempted at it and above |
| CompactionTarget.LargerPromptCompacts | src/agent_loop/compaction.rs:48-93 | a prompt that compacts a list still compacts it, to the same list, when it grows |
| CompactionTarget.CompactionKeepsToolComplete | src/agent_loop/compaction.rs:230-278 | for every tool-complete history, setting and summarizer answer the result is tool-complete |
| CompactionTarget.LatestUserVerbatimIff | src/agent_loop/compaction.rs:548-558 | the latest user message survives at the end of the last user message, and verbatim exactly when it starts the kept part or cannot be merged with the message before it |
| Compaction.KeptVerbatimIff | src/agent_loop/compaction.rs:598-645 | for every summary the kept part follows it verbatim exactly when no two neighbours in it can be merged and it does not end with an assistant message |
| Compaction.NeighboursAreMerged | src/agent_loop/compaction.rs:617-645 | two adjacent user messages of the kept part become one |
| CompactionTarget.AttemptVerbatimIff | src/agent_loop/compaction.rs:230-278 | the same condition for a whole attempt that compacts |
| CompactionTarget.LatestAnswerIsLost | src/agent_loop/compaction.rs:548-615 | a forced compaction of question, answer, question, answer with two messages to keep loses the latest answer |
| MessageFormat.StripTagBlocksLoop | src/agent_loop/message_format.rs:289-307 | the loop removes every block from tag to tag, an unclosed one to the end of the text |
| MessageFormat.StripIdentityIff | src/agent_loop/message_format.rs:289-307 | removing the blocks of one tag leaves a text alone exactly when it holds no opening tag |
| MessageFormat.StripThinkingIdentityIff | src/agent_loop/message_format.rs:288-315 | all four passes and the final trim leave a text alone exactly when it holds none of the four opening tags and is trimmed |
| Thinking.StripKeepsSaid | src/agent_loop/message_format.rs:288-315 | of a reply made of said text and unnested blocks of the four kinds, the last one perhaps unclosed, the four passes leave exactly the said text, trimmed, as long as the said text alone and the blocks spell no opening tag |
| Thinking.VisibleTextShows | src/agent_loop/message_format.rs:288-315 | what the user sees of such a reply is its said text, trimmed, and it is blank exactly when nothing is said |
| Thinking.OneBlockShows | src/agent_loop/message_format.rs:288-307 | a reply with one block of any of the four kinds says the text before and behind it |
| Thinking.UnclosedShows | src/agent_loop/message_format.rs:301-304 | a reply with a block that is never closed says the text before it |
| MessageFormat.NamesRoundTripIff | src/agent_loop/session.rs:181-193 | a printed preview gives its names back exactly when its narration holds no marker and the names are trimmed, not empty and comma-free |
| MessageFormat.NarrationRoundTripIff | src/agent_loop/session.rs:312-318 | a printed preview gives the trimmed narration back exactly when that holds no marker |
| MessageFormat.CommaSplitsName | src/agent_loop/session.rs:181-193 | a name with a comma comes back as two names |
| MessageFormat.NarrationReadersAgreeIff | src/agent_loop/message_format.rs:195-201 | both narration readers agree exactly when the narration is not blank, holds no marker, and no name brings a spaced marker |
| Restore.RestoreToolCalls | src/agent_loop/session.rs:147-179 | preview names first, in order, each on the next unused row of its name, then the unused rows; every ledger row is used exactly once, with its id, name and arguments, and a made-up call has an id of message and position, its preview name and no arguments |
| Restore.SyntheticIff | src/agent_loop/session.rs:147-202 | a call is made up exactly when earlier preview names used up all rows of its name |
| Restore.LedgerComesBackIff | src/agent_loop/session.rs:147-179 | the whole ledger comes back call for call, in order, with nothing made up, exactly when the preview names are the first names of the ledger |
| Restore.PersistedPhaseRestores | src/agent_loop/session.rs:147-193 | so a phase whose calls all reached the ledger comes back from its printed preview, if its narration holds no marker and its names are trimmed, not empty and comma-free |
| ModelStep.FilterValidToolCalls | src/agent_loop/model_step.rs:322-348 | the index map and vector updated in place compute: one call per id, in order of first appearance, each the latest with its id |
| ModelStep.ValidCallsKept | src/agent_loop/model_step.rs:322-348 | the kept calls are, for each id that a call with name and id has, the latest such call, in the order in which the ids first appear |
| ModelStep.ValidCallsDistinct | src/agent_loop/model_step.rs:322-348 | kept calls have distinct non-blank ids and names, and none is kept exactly when none is valid |
| ModelStep.AttemptFacts | src/agent_loop/model_step.rs:426-482 | one attempt sends one request, or a guarded second one only after an empty answer, with nothing shown and no guard spent before |
| ModelStep.AttemptConcludes | src/agent_loop/model_step.rs:426-482 | an attempt reports what its last request brought: its step, the deadline when it came too late, the empty-answer error when it was empty, else the provider's own error |
| ModelStep.AttemptChains | src/agent_loop/model_step.rs:426-482 | an attempt extends the chain of requests by one request, or two when the first answer said nothing for the first time, and reports what the last one brought |
| ModelStep.RetryTransientFailures | src/agent_loop/model_step.rs:158-267 | for every provider and clock: end by start + 300 s, at most four requests in three attempts; a request is followed by another exactly when it showed nothing and either said nothing for the first time, then with the correction at once, or failed in transport, with 429 or with 500 to 599, with an attempt left and a wait within limit and deadline, then by the same request after the wait; the report is what the last request brought: its step, its own error, the deadline, or the empty-answer error |
| ToolExecution.BlockStart | src/agent_loop/tool_execution.rs:113-171 | the first call of the maximal read-only stretch a call belongs to |
| ToolExecution.OutcomeAnswersCall | src/agent_loop/tool_execution.rs:257-282 | every outcome, refused or not, is a tool message with the id of its call and no calls of its own |
| ToolExecution.NothingRunsAfterLimit | src/agent_loop/tool_execution.rs:126-131 | once three denials are counted, no call of a block that starts later runs or is ledgered |
| ToolExecution.ToolExecutor.ExecuteSingleTool | src/agent_loop/tool_execution.rs:181-404 | a call gives its own tool result when its tool ran, the stored output for a reused claim, an error naming the state for a blocked one, and an invalid-input error naming tool and parse error for bad arguments; it counts a denial when it is one, and runs the tool only after an acquired claim |
| ToolExecution.ToolExecutor.ExecuteBlock | src/agent_loop/tool_execution.rs:133-151 | whatever the order in which parallel reads finish, each call runs once and gets its own result, results are in call order, and denials add up |
| ToolExecution.ToolExecutor.Execute | src/agent_loop/tool_execution.rs:113-171 | it fails exactly when the claim or record of an unrefused call fails or the ledger of a block does; else exactly one outcome per call in call order, each told by its own run or claim, a guard denial exactly for calls whose block starts after three denials among the results before it, ledger entries once for each read, claims before runs; on a failure the first failing block ran, is not in the ledger, and nothing behind it happened |
| LoopRunner.MessageIdsDiffer | src/agent_loop/turn/mod.rs:49-51 | iterations of one turn never share a message id |
| LoopRunner.RequestToolComplete | src/agent_loop/loop_runner.rs:382-441 | a tool-complete history is sent tool-complete, whatever channel context, guards and corrections a request adds |
| LoopRunner.PhaseKeepsToolComplete | src/agent_loop/loop_runner.rs:291-344 | a tool phase keeps tool-completeness after its results, its follow-ups and its compaction, and the snapshot stored before the results can be loaded |
| LoopRunner.AfterPhaseLeaves | src/agent_loop/loop_runner.rs:254-284 | a phase leaves its call, results and follow-ups behind the messages, compacted only when the whole prompt is at the threshold |
| LoopRunner.MessagesUncompacted | src/agent_loop/loop_runner.rs:122-284 | where nothing is compacted the messages are the history and, phase by phase, the call, its results and the follow-ups, and nothing else |
| LoopRunner.MessagesAfterComplete | src/agent_loop/loop_runner.rs:122-284 | history plus any number of phases is tool-complete |
| LoopRunner.RequestsToolComplete | src/agent_loop/loop_runner.rs:122-284 | every request of a run is tool-complete |
| LoopRunner.RetryStep | src/agent_loop/loop_runner.rs:197-211 | a retried iteration ends what it streamed by one discard, and touches no other message |
| LoopRunner.PhaseStep | src/agent_loop/loop_runner.rs:254-262 | a tool phase ends what its iteration streamed by storing it under the same id |
| LoopRunner.AgentLoop.RequestMessagesForIteration | src/agent_loop/loop_runner.rs:382-441 | the request is the channel context in the first iteration, then the pending retry list or the loop's messages, then the warning in iteration 48 or the demand for a final answer after it, then the wrap-up from three denials on; the retry list is used once |
| LoopRunner.AgentLoop.SendModelStep | src/agent_loop/loop_runner.rs:131-186 | the first request of an iteration is the full request, each later one follows for cause from the one before, at most four; the result is what the last one brought, or a storage error before any was sent; a final step is never blank, and text was streamed exactly when the last request streamed |
| LoopRunner.AgentLoop.EvaluateEndTurn | src/agent_loop/loop_runner.rs:451-484 | retry exactly once between tool phases for a declarative reply, error exactly for one that shows nothing outside its thinking blocks, else the trimmed text it shows |
| LoopRunner.AgentLoop.EvaluateMalformedResponse | src/agent_loop/loop_runner.rs:486-515 | the same for replies whose tool calls are all malformed, with their own correction |
| LoopRunner.AnnouncesShown | src/agent_loop/loop_runner.rs:451-515 | whether a reply only announces work is judged by the text it shows outside its thinking blocks |
| LoopRunner.AgentLoop.AnswerOrRetry | src/agent_loop/loop_runner.rs:188-252 | a reply without a valid call is retried exactly when it only announces work and no retry was made since the last tool phase, then with that reply and its own correction behind the messages; it fails exactly for a blank text or a storage error, and else is the answer |
| LoopRunner.AgentLoop.ExecuteToolPhase | src/agent_loop/loop_runner.rs:291-344 | calls, results and follow-ups are stored one after the other without a conflict, each result is what the executor told of its call; it fails exactly when a storage call or the executor does, and leaves exactly the snapshots it got to, all loadable |
| LoopRunner.AgentLoop.Run | src/agent_loop/loop_runner.rs:122-284 | over every run without a competing writer: loadable stores and no conflict; tool-complete requests, each the full request of its iteration on the history and the phases behind it, or on them with the announcement of the iteration before it rejected, or following for cause from the request before it; messages made of history and phases only (assistant messages from replies, results told by the executor, staged follow-ups); every streamed message ended once; the answer is what the last reply shows outside its thinking blocks; every earlier iteration ended in a tool phase or in the one correction of an announcement, every error has its cause in the last iteration, too many iterations are reported only when all up to 50 went on, and iterations are at most twice the tool phases plus one |
| LoopRunner.LaterRequestsWrapUp | src/agent_loop/loop_runner.rs:401-421 | once three denials are counted over the finished phases, every later request offers no tools and carries the wrap-up guard |
| LoopRunner.TurnStartsComplete | src/agent_loop/turn/persistence.rs:51-128 | from any loadable snapshot the next turn starts tool-complete |
| LoopRunner.TurnEndsComplete | src/agent_loop/turn/persistence.rs:131-172 | the stored final answer closes a tool-complete session that is read back unchanged |
| Memory.WriteBundleAtomically | src/memory.rs:308-344 | from any disk, temp files, fsyncs, renames and the directory fsync leave exactly the bundle under durable renames, and no temp file of the run |
| Memory.QuietIff | src/memory.rs:19-25 | a disk is durable and whole exactly when no power loss changes its files or its directory |
| Memory.ReplacedIsQuietIff | src/memory.rs:308-344 | what such a publication leaves is durable and whole exactly when the directory was not there before or its entry was durable already |
| Memory.PowerLossLeavesQuiet | src/memory.rs:19-25 | whatever a power loss leaves is durable and whole |
| Memory.UnsyncedRenameTears | src/memory.rs:308-344 | a temp file renamed without its fsync may hold anything after a power loss |
| Memory.SyncedRenameHolds | src/memory.rs:308-344 | a temp file that was synced before its rename leaves the new content or what the durable name had |
| Memory.FirstDifference | src/memory.rs:220-238 | the first file in the fixed order on which disk and base differ, or none exactly when they agree |
| Memory.MemoryLoader.LoadBundle | src/memory.rs:173-188 | a safe agent gets the cached bundle or the one on disk, which then is cached |
| Memory.SafeAgentIdIff | src/memory.rs:430-437 | an agent id is safe exactly when it is not blank, has no two dots in a row and none of the three separators |
| Memory.MemoryLoader.PublishBundle | src/memory.rs:203-246 | succeeds exactly when the disk reads as the base; a conflict names a drifted file, leaves the files alone and aligns the cache with them |
| Memory.MemoryLoader.RecoverPublication | src/memory.rs:260-294 | succeeds exactly when every file reads as before or as after, and then all three are the new ones |
| Memory.MemoryLoader.PublishOnFreshBase | src/memory.rs:203-246 | after a conflict the next loaded base publishes |
| MemoryCrash.SettledSurvivesIff | src/memory.rs:260-317 | on a disk whose files are all fsynced and durably renamed, a start survives exactly when the directory is absent, its entry is durable, or every file is empty before or after |
| MemoryCrash.ReadIsClassifiable | src/memory.rs:260-294 | for a bundle that reads back and a start that survives, what recovery reads is the old or the new content of each file |
| MemoryCrash.NextKeepsInv | src/memory.rs:260-344 | from any disk and for any bundle, every step, kill and power loss keeps what the stages promise, and a durable directory entry stays durable |
| MemoryCrash.PowerLossKeepsFiles | src/memory.rs:308-344 | a power loss in any state, with any renames surviving and any unsynced content torn, leaves old or whole new files, for a bundle that reads back and a start that survives |
| MemoryCrash.StepKeepsFiles | src/memory.rs:308-344 | every step of publication and recovery leaves old or whole new files |
| MemoryCrash.CrashSafety | src/memory.rs:248-294 | for a bundle that reads back and a start that survives, over every sequence of steps, kills and power losses recovery never gives up, no canonical file is torn, and the end is the new bundle under durable renames; it survives a later power loss exactly when the entry of the directory is durable, which it is whenever it was before |
| MemoryCrash.RecoveryConverges | src/memory.rs:248-294 | likewise after any number of kills and power losses fourteen undisturbed steps, whatever stale files stay, bring all files to the new bundle |
| MemoryCrash.UndisturbedPublication | src/memory.rs:203-344 | a first attempt that is left alone ends, within fourteen steps, as the publication in one go does: the bundle under durable renames, the directory linked as it was found or as a new one, no temp file of the run |
| MemoryCrash.RefusalChangesNothing | src/memory.rs:203-294 | a first attempt on files that are not its base, and a recovery that finds a file neither old nor new, change nothing, however many steps follow |
| MemoryCrash.DurableEndIff | src/memory.rs:260-344 | for every bundle and every start the end survives a later power loss, over all kills and power losses before it, exactly when the entry of the directory was durable before the publication |
| MemoryCrash.KilledCreationLosesBundle | src/memory.rs:260-344 | a publication killed right after it created the directory is recovered to its end, and a later power loss takes the whole bundle |
| MemoryCrash.SparedEndIsDurable | src/memory.rs:308-344 | unless the directory was there without a durable entry, without a kill between its creation and the sync of its entry the end survives every later power loss |
| MemoryCrash.UnlinkedStartFails | src/memory.rs:260-317 | from a directory without a durable entry and with a file that is empty neither before nor after, a power loss right after the start makes recovery give up |
| MemoryCrash.KilledCreationStopsNextRecovery | src/memory.rs:203-344 | two publications: a kill in the first, into a new directory, is recovered, and the second ends in a recovery that gives up |
| MemoryCrash.UnrecoverableFails | src/memory.rs:418-428 | a blank but not empty file over one that was not empty makes recovery give up after a crash |
| MemoryCrash.RecoverySafeIff | src/memory.rs:260-294 | from every start on which the publication finds its base recovery never gives up, over all kills and power losses, exactly for bundles that read back and starts that survive |
| MemoryReaders.NextKeepsInv | src/memory.rs:173-246 | every step of any thread that is not an outside edit keeps lock exclusion, cache and file consistency |
| MemoryReaders.ReadsAreNeverTorn | src/memory.rs:173-246 | in every interleaving from a cold cache without outside edits a load returns the last published bundle or the initial one, a publication replaces exactly its base, and a refusal means another base was published |
| MemoryReaders.LoadsAreExact | src/memory.rs:173-188 | without outside edits and blank-only files a load returns the published bundle itself |
| MemoryReaders.UndisturbedLoad | src/memory.rs:173-188 | a load that is left alone returns what the cache holds, or else what is on disk, which then is cached, and lets go of the lock |
| MemoryReaders.UndisturbedPublication | src/memory.rs:203-246 | a publication that is left alone replaces files and cache when the files read as its base, and else is refused and only aligns the cache |
| MemoryReaders.RefusalRealigns | src/memory.rs:203-246 | whatever was edited before, a publication that finds files it was not based on is refused, leaves them alone and aligns the cache, and until the next edit every answer of any thread is as if these files had been published |
| ConfigManager.ReloadableIff | src/config/manager.rs:385-431 | a candidate is reloadable exactly when no restart-only field differs |
| ConfigManager.ForbiddenIsFirst | src/config/manager.rs:385-431 | the error names the first restart-only field that differs, in the order of the comparisons |
| ConfigManager.ThirdBranchIsDead | src/config/manager.rs:292-303 | an exchange that keeps the base has already been settled by the first comparison |
| ConfigManager.ConfigManager.PublishSnapshot | src/config/manager.rs:374-382 | the snapshot is exchanged and the notification names it |
| ConfigManager.ConfigManager.ApplyCandidate | src/config/manager.rs:224-307 | it saves exactly when every check holds on both looks at the source, succeeds exactly when it saved and nothing else was published or what was published is what it saved, publishes one revision on, returns the fingerprint of its own save, and every error has its cause after the checks before it |
| ConfigManager.ConfigManager.ReloadFromFile | src/config/manager.rs:314-372 | it never writes, succeeds exactly when the source is the one in use or a valid reloadable one with the same fingerprint before and after parsing that no other publication overtook, and every error has its cause after the checks before it |
| ConfigRuns.SameIsLatest | src/config/manager.rs:287-300 | a base that is still the latest by revision and fingerprint is the latest snapshot |
| ConfigRuns.NextKeepsInv | src/config/manager.rs:224-382 | every step of an apply, a reload or an outside edit keeps the history, lock, notification and answer invariant |
| ConfigRuns.PublicationsAreOrdered | src/config/manager.rs:224-431 | over every interleaving revisions rise by exactly one within range, later configs are valid and equal to the first in restart-only fields, and with the lock free the last notification names the present snapshot |
| ConfigRuns.AnswersTellWhatHappened | src/config/manager.rs:224-372 | over every interleaving a successful apply replaced only a source with the fingerprint of its base and returns a published snapshot with the fingerprint of its own save; a reload returns its base exactly when the fingerprint it read is the base's, and else a published snapshot one revision on with the fingerprint it read and the configuration it parsed |
| ConfigRuns.UndisturbedReload | src/config/manager.rs:314-382 | a reload that finds the locks free, with any edit before each of its looks at the source, ends as the sequential reload does: with its base when the fingerprint is the same, with the changed source published when it is valid, reloadable and stable, else with the error of the first check that fails and nothing published |
| ConfigRuns.ChangedSourceIsPublished | src/config/manager.rs:314-382 | a source that was edited, is valid, differs in nothing restart-only and is then left alone takes effect with the first undisturbed reload |
| ConfigRuns.UndisturbedApply | src/config/manager.rs:224-307 | an apply that finds the locks free, with any edit before each of its two looks at the source, ends as the sequential apply does: saved and published exactly when every check holds on both looks |
| Skills.IsServedRelativePath | src/skills.rs:395-413 | the loop over components decides: no hidden, unreadable or jumping component, and none of the six excluded directory names on the way |
| Skills.ServedIff | src/skills.rs:395-413 | the component-by-component predicate says so place by place |
| Skills.Walk | src/skills.rs:361-386 | the work-stack walk ends and finds exactly the files of the recursive listing |
| Skills.ListSkillFiles | src/skills.rs:361-390 | the result is the listing in the order of the path texts, cut after 200 files |
| Skills.AtMostPrecedes | src/skills.rs:388-390 | the order of two paths is decided where they first differ |
| Skills.PathTextJoins | src/skills.rs:382-384 | without backslashes a listed path is its names joined by slashes |
| Skills.ListedIsServed | src/skills.rs:361-413 | every listed file is a regular file the path predicate accepts |
| Skills.ServedIsListed | src/skills.rs:361-413 | every regular file the path predicate accepts, but the root description, is listed |
| Skills.ListingIff | src/skills.rs:361-413 | on any finite tree listing and path predicate agree |
| Skills.NoPathTwiceIff | src/skills.rs:361-390 | no path is listed twice exactly when no two different listed files share a path text |
| Skills.NoBackslashNoPathTwice | src/skills.rs:382-384 | without a backslash on the path of a listed file no path is listed twice |
| Skills.BackslashRepeatsPath | src/skills.rs:382-384 | a tree with a backslash in a name whose listing holds one path twice |
| Skills.ServedButNotListed | src/skills.rs:392-413 | what is served and not listed, before the cut, is only the description at the root |
| BotChain.BotChainState.CheckAndIncrement | src/channels/discord.rs:94-121 | accepts exactly when the channel has been quiet for the TTL or its chain is shorter than five, judged by its accepted times alone, and stored depths stay between one and five |
| BotChain.BotChainState.ResetChannel | src/channels/discord.rs:124-128 | forgets one channel and no other |
| BotChain.Decides | src/channels/discord.rs:92-121 | once expired entries are gone, the stored entry decides as the accepted times do |
| BotChain.ChainIsBounded | src/channels/discord.rs:92-121 | a chain of acceptances closer than the TTL never exceeds five |
| BotChain.SixAcceptsIncludeAGap | src/channels/discord.rs:92-121 | any six acceptances in a row on one channel without a reset include a gap of at least the TTL |
| BotChain.ChannelsAreIndependent | src/channels/discord.rs:92-128 | what happens on other channels changes nothing for this one |

## Left out

- The storage layer, turn lifecycle and model-iteration rows: a database call is one atomic transaction that works or
  fails; only the compare-and-swap on the session revision is modelled.
- LoopRunner.AgentLoop.Run: no other turn writes the session during the run; competing writers are treated in
  `PhaseStore`, for stores without compaction, and conflicts of staged follow-ups in `CommitStagedUserMessages`.
- LoopRunner.AgentLoop.Run: the wording of the loop's guards and the heuristic for declarative replies are parameters;
  usage logging, calibration updates, archives, metrics and most events are not modelled.
- CompactionTarget.SafetyCompact: the summarizer's answer is a parameter; building, shrinking and redacting its input
  and the archive file are not modelled, and estimates are reals without floating-point rounding.
- PhaseStore.PersistPhaseMessages: the snapshot is stored as the message list itself; of its JSON form and image assets
  only whether they can be read back is modelled. Rows are never deleted, and notices of failed turns, which loads skip,
  are no rows.
- Session.RepairOrphanToolOutputs: the conversion of stored rows into a transcript around `restore_tool_calls` is not
  modelled.
- Restore.RestoreToolCalls: the JSON text of a stored input is kept as text and not parsed.
- ModelStep.RetryTransientFailures: jitter is any number below the ceiling, recording an attempt only takes time, and
  streaming itself is one bit per request.
- Thinking.StripKeepsSaid: for replies whose blocks are nested or cross one another, what is left depends on the order
  of the passes; of those only each single pass is described (`StripTagBlocksLoop`, `StripIdentityIff`).
- ToolExecution.ToolExecutor.Execute: tool results, claims and finishing orders are parameters; hooks, durations,
  attachments and the content of ledger rows are not modelled.
- Memory.MemoryLoader.PublishBundle: I/O errors inside a live process are not modelled, only crashes; the lock map is
  the set of cached agents.
- MemoryReaders.ReadsAreNeverTorn: temp files and fsyncs do not show to other threads and are one step with the rename.
- ConfigRuns.AnswersTellWhatHappened: `save_config_with_secrets_if_unchanged` is one atomic step, as its contract
  says; an edit between its check and its write by a program that ignores the file lock is not modelled.
- ConfigManager.ConfigManager.ApplyCandidate: field checks and normalization of the configuration are one predicate,
  parsing and fingerprints are functions, and removed secrets are part of what the save writes.
- Skills.ListSkillFiles: I/O errors, file sizes read for serving and the canonical-path check of `read_skill_file` are
  not modelled; symbolic links are entries that are neither file nor directory.
- Discord, Telegram and voice networking, routing, slash commands, the command line and the web surface are left out;
  they hold no state of the kind proved here.
