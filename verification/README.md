# Verified model of the agent runtime

This project models the durable agent runtime in `packages/core/src` and the in-process task store of the A2A
server, and proves their protocol properties with Dafny 4.11. `dafny verify dfyconfig.toml` checks everything.

## What is modelled

**The durable run protocol** (`loop.ts`, `replay-hash.ts`, `discovery-tools.ts`). A session is an append-only event
log plus a checkpoint store. `RunMachine` is a step system: each step is what `runTurn`, `resumeTurn` or `runLoop`
does between two suspension points, with at most one append or one checkpoint. Model responses, tool batches,
suspensions, storage failures, aborts, validation verdicts and elapsed time are answers chosen freely by the
environment, and a crash may be the next thing that happens in every phase. A run is any finite sequence of answers,
over any number of queries, crashes and resumes; every theorem about `Run(c, inputs)` is about all of them. An answer
that does not fit the phase changes nothing. `RunProcess.Process` is the same protocol as a process that updates its
variables in place: `Drive` shows that it computes exactly `Run`, every method keeps all invariants (`Valid`), and
each handler meets a duty that `RunDuties` states without naming the step. What is read back from the log is moreover
said of the events themselves (`EventLaws`, `RunRebuild`), and what each answer makes of a run is said of the response,
the results and the counters alone (`RunOutcomes`). The theorems are in one file per topic:

| file | topic |
|---|---|
| `RunHash.dfy`, `RunSeed.dfy` | checkpoints, the rolling hash and how far a seed reaches |
| `RunCalls.dfy`, `RunWitness.dfy` | tool calls and their results |
| `RunWindow.dfy` | the model window, loaded tools and the manifest |
| `RunBudget.dfy`, `RunSpend.dfy` | tokens, money and turns; what a resume restores of them |
| `RunTerminal.dfy` | terminals, resumption of closed and of crashed runs, termination |
| `RunDuties.dfy` | what each handler owes to the session |
| `EventLaws.dfy`, `RunOutcomes.dfy` | what is read back from the log, and what each answer makes of a run |

Some fields are history (`base`, `at`, `pristine`, `prefix`): they record from which event something is counted, and
no step reads them to decide anything. They make it possible to state exactly where a promise stops on a session
with a second query.

**The other parts.** `Cost` is pricing and the ceilings, `ModelCall` the candidate loop of one turn (streaming,
fallbacks, retries, output limits), `OutputMeter` the UTF-8 meter and the stream rope, `SpawnTree` the shared budget of
a tree of sub-agents, `Compaction` the three compaction stages on the arithmetic of `Truncation`, `Permission` glob
matching and the decisions on it, `SessionLock` the promise-tail lock, `TaskStore` the A2A store and run slots, `Base64`
and `JpegHeader` the two decoders of image input. `Picking` says what it means to select from a sequence by position.

SHA-256 is symbolic: `Chain` is a free constructor, so hash equalities hold for every hash function, and inequalities
assume no collision. USD amounts are exact reals.

## Where the code and its documentation differ

- `compactMessages` documents that a tool call and its result are always kept or dropped together. The drop loop
  decides per message and stops as soon as the budget fits, so a pair can be split there: `Compaction.SplitPairRun`
  returns half a pair. Pairs with a protected member survive, and pairs are whole when the protected part alone
  exceeds the budget (`Compaction.ProtectedTooLarge`). Otherwise, with a token to spare where the protected part and
  the rest first fit, a pair is split exactly when it lies on both sides of that place (`Compaction.PairByPosition`);
  in general exactly when the guard differs at its members (`Compaction.PairSplitExactly`).
- The comment on resume seeding says that the last checkpoint always holds the hash of all earlier events. That holds
  of a session with one query. `runTurn` seeds every query with the empty hash, so on a durable run every later
  checkpoint, the rolling hash and every resume seed are right exactly when the session was empty before the query
  (`RunSeed.SeedDecides`), until a closing checkpoint makes them right (`RunSeed.ClosingDecides`).
- Re-dispatch is said to happen before the model can see a dangling call. A run closes with calls open when a ceiling
  is hit by a response that asks for tools, when a result or a suspension cannot be stored, and when the input is
  blocked on resume (`RunCalls.AbandonLeavesCallsOpen`); these are the only ways among endings with a terminal that is
  not a suspension (`RunCalls.OnlyAbandonsLeaveCallsOpen`). A later query then calls the model with them: at any model
  call all calls are answered exactly when those of the earlier runs are (`RunCalls.OpenCallsExactly`). Only a crash
  before that query's first response helps, since resumption looks for the last assistant event across runs and
  dispatches its open calls again (`RunTerminal.CrashRedispatchesOlder`).
- A resume is said to restore the spend of the run. A response is charged when it arrives and stored later, and in
  between the run may be aborted, its output blocked, or the store fail; a response over its limit is charged and
  never stored. If the terminal is not stored either, the resume starts without that response. The live usage is
  exactly the restored usage and the missed response (`RunSpend.SpendRestored`), so the two agree exactly unless the
  answer to the model call was one of these and its response used tokens (`RunSpend.BranchDecides`). On a session with
  several queries a process that was not resumed moreover counts its own run only (`RunSpend.UsageRestoredExactly`).
  `RunWitness.AbortedSpendWitness` calls the model again over a ceiling that had been passed.
- The comment on the spawn budget promises every descendant's spend. A child that ends on a failed append reports no
  USD figure, and one that throws, as when a checkpoint cannot be written, reports nothing. So the money is right
  exactly when no such child spent any itself, and the tokens exactly when no thrown child used any
  (`SpawnTree.RunRoot`, `SpawnTree.ThrownSpendWitness`).
- ITU-T T.81 puts at least one 0xFF byte before a marker code. The JPEG scan does without it, so it accepts more
  (`fill` may be 0 in `JpegHeader`).

## Model

| member | source | states |
|---|---|---|
| `ReplayHash.ReplayHash` | packages/core/src/replay-hash.ts:18-22 | the loop computes the left fold of the hash step over the events |
| `ReplayHash.FoldConcat` | packages/core/src/replay-hash.ts:8-22 | hashing a log is hashing its first part and chaining the rest onto that |
| `ReplayHash.SeedResume` | packages/core/src/loop.ts:2192-2208 | the resume loop chains exactly the events numbered at or above the checkpoint |
| `ReplayHash.SeedFromCheckpoint` | packages/core/src/loop.ts:2181-2208 | seeding from a checkpoint that is right for a prefix gives the hash of the whole log |
| `RunProcess.Process.StartQuery` | packages/core/src/loop.ts:1839-1871 | a stored query has a run id above every number in the log and no stored terminal; one that cannot be stored is told and leaves no trace |
| `RunProcess.Process.LogUser` | packages/core/src/loop.ts:1873-1914 | blocked input is never stored and ends in a guardrail terminal; what is stored is what the guardrails let through |
| `RunProcess.Process.EnterQuery` | packages/core/src/loop.ts:1928-1951 | the window is replayed; the seed computed by the loops is the fold of the query's own events, as its checkpoint says |
| `RunProcess.Process.Resume` | packages/core/src/loop.ts:1959-2032 | nothing is stored; a closed run tells its terminal, any other is reopened; the calls dispatched again are open, each once, and all that the run has open |
| `RunProcess.Process.Reopen` | packages/core/src/loop.ts:2066-2217 | usage, money, pending calls, window and hash are restored from the log and the checkpoints |
| `RunProcess.Process.TakeBatch` | packages/core/src/loop.ts:1762-1803 | taking a batch answers nothing yet, and its results are for distinct calls that are all open |
| `RunProcess.Process.AppendResult` | packages/core/src/loop.ts:1804-1830 | a stored result closes one open call and touches no other |
| `RunProcess.Process.TurnHead` | packages/core/src/loop.ts:1107-1160 | compaction changes no call and nothing that a resume would replay |
| `RunProcess.Process.PassGate` | packages/core/src/loop.ts:1162-1205 | the model is called only strictly under the ceilings, with a turn to spare and no call of the run open, on the window before it but for the reminder |
| `RunProcess.Process.Receive` | packages/core/src/loop.ts:1482-1600 | a stored response is charged to the log once, its calls are new and open and the only ones open in the run, the reminder is gone and the window is again the replay |
| `RunProcess.Process.FailCall` | packages/core/src/loop.ts:1448-1478 | an interrupted turn is stored with the partial text, no calls and no usage, and ends in an error unless aborted |
| `RunProcess.Process.Decide` | packages/core/src/loop.ts:1602-1760 | a run succeeds only strictly under its ceilings with all its calls answered; what it dispatches instead is open, each call once |
| `RunProcess.Process.PersistTerminal` | packages/core/src/loop.ts:812-846 | one result is told, last, and stored first unless it is an error; the stored terminal is the one every resume finds, and closes the run unless it is a suspension |
| `RunProcess.Process.CloseCheckpoint` | packages/core/src/loop.ts:821-828 | the closing checkpoint holds the hash of the whole log |
| `RunProcess.Process.SaveCheckpoint` | packages/core/src/loop.ts:864-894 | a checkpoint names the next sequence number and holds the fold of its segment of the log, the closing one of the whole log |
| `RunProcess.Process.Advance` | packages/core/src/loop.ts:947-1837 | whatever the answer is, all invariants are kept, at most one event or checkpoint is added, none is changed, and the fields become what the step system says |
| `RunProcess.Process.Drive` | packages/core/src/loop.ts:947-1837 | any sequence of answers keeps all invariants and leaves the process in the state the step system reaches |
| `RunOutcomes.QueryOutcome` | packages/core/src/loop.ts:1839-1871 | a query takes the next sequence number as its id and stores its start first; a store that fails is told at once |
| `RunOutcomes.GuardOutcome` | packages/core/src/loop.ts:1873-1914 | blocked input ends the run with what blocked it and is not stored; else the input is stored |
| `RunOutcomes.SeedOutcome` | packages/core/src/loop.ts:1928-1951 | the loop starts with the prefix and the conversation, a hash over the two own events, nothing counted, and the eager and loaded tools |
| `RunOutcomes.ClosedOutcome` | packages/core/src/loop.ts:1984-2032 | a run whose latest stored result is no suspension tells it again; a success without the structured output a schema asks for is validated |
| `RunOutcomes.ReopenOutcome` | packages/core/src/loop.ts:2066-2217 | any other run goes on under its id with the sums, the conversation, the newest user message patched, and its unanswered calls first |
| `RunOutcomes.HeadOutcome` | packages/core/src/loop.ts:1107-1160 | an abort ends the run; a compacted window replaces the old one once its event is stored; nothing else touches the window |
| `RunOutcomes.GateOutcome` | packages/core/src/loop.ts:1162-1205 | the reminder is said last; the first reached ceiling in the documented order ends the run, tokens and money counted with those of the sub-agents; otherwise the model is called |
| `RunOutcomes.ReplyOutcome` | packages/core/src/loop.ts:1482-1600 | a response is charged tokens, turn and money whatever becomes of it; then abort, blocked output, a failed store, or the event with what it cost |
| `RunOutcomes.FailOutcome` | packages/core/src/loop.ts:1448-1478 | what was streamed is stored without usage; an abort or an error ends the run, and only an over-limit response is charged |
| `RunOutcomes.DecideOutcome` | packages/core/src/loop.ts:1602-1760 | a ceiling that is now reached goes before everything; then the calls in order; then success, validation, or another try with what is wrong |
| `RunOutcomes.BatchOutcome` | packages/core/src/loop.ts:1762-1803 | a batch is taken when it answers the calls one by one in order, and changes only the spend of the sub-agents |
| `RunOutcomes.SuspendOutcome` | packages/core/src/loop.ts:1762-1803 | a suspended call is stored on first dispatch, and found stored when dispatched again |
| `RunOutcomes.ResultOutcome` | packages/core/src/loop.ts:1804-1830 | results are stored first to last, each said to the model; a successful load_tool result loads the tools it lists |
| `RunOutcomes.CheckpointOutcome` | packages/core/src/loop.ts:864-894 | the rolling hash is checkpointed under the next number and the run goes on, or ends as suspended or aborted; a throwing store ends the process |
| `RunOutcomes.EndOutcome` | packages/core/src/loop.ts:812-846 | the result is stored under the run id and told, at once or after the closing checkpoint; a failure tells an error with the same figures |
| `RunOutcomes.CloseOutcome` | packages/core/src/loop.ts:821-858 | the closing checkpoint holds the hash of the whole log before the result is told |
| `RunRebuild.RebuildMessages` | packages/core/src/loop.ts:732-769 | one message for each user, assistant and tool result event, in order, with the role of its kind, and none for any other event |
| `RunRebuild.PriorUsage` | packages/core/src/loop.ts:2067-2072 | the sum, class by class, of the usage of exactly the assistant events that bear one |
| `RunRebuild.PriorUsd` | packages/core/src/loop.ts:2073-2091 | when the cost of every response is known, their sum, each the logged figure or tokens times rates; else all tokens at the rates of the own model |
| `RunRebuild.FindPending` | packages/core/src/loop.ts:2093-2113 | in order, the tool_use blocks of the latest assistant event that no result in the log answers |
| `RunRebuild.FindRun` | packages/core/src/loop.ts:1980-1983 | the id of the latest started run |
| `RunRebuild.FindTerminal` | packages/core/src/loop.ts:1984-1987 | the latest terminal stored for the run, and none exactly when none was stored |
| `RunRebuild.PatchWindow` | packages/core/src/loop.ts:2171-2179 | the newest user message is replaced and all others stay |
| `RunRebuild.LastWritten` | packages/core/src/loop.ts:2181-2191 | the checkpoint with the highest sequence number, the newest among equals |
| `EventLaws.ReplayIsConversation` | packages/core/src/loop.ts:732-769 | a replayed log is its conversation: indices and messages match one to one, in order |
| `EventLaws.PendingAre` | packages/core/src/loop.ts:2093-2113 | pending calls are the blocks of the latest turn whose id no result event carries |
| `EventLaws.LoadedAre` | packages/core/src/discovery-tools.ts:108-120 | a name is loaded exactly when it is eager or some successful load_tool result in the log lists it |
| `EventLaws.LogUsageSums` | packages/core/src/loop.ts:2067-2072 | usage is summed over exactly the assistant events that bear one |
| `RunHash.HashInvAlways` | packages/core/src/loop.ts:947-1837 | in every run: numbering grows, every checkpoint and the rolling hash are folds of a segment of the log |
| `RunHash.CheckpointsFaithful` | packages/core/src/loop.ts:2181-2208 | one query, any crashes and resumes: every checkpoint is the replay hash of the events below its number |
| `RunHash.RollingFaithful` | packages/core/src/loop.ts:1033-1035 | one query: the live rolling hash is the replay hash of the whole log |
| `RunHash.ResumeFaithful` | packages/core/src/loop.ts:2181-2208 | one query: checkpoint plus delta equals the full rehash in whatever state a crash left the session |
| `RunHash.QuerySeedExact` | packages/core/src/loop.ts:1942-1945 | the seed of a query is the replay hash exactly when the session was empty before it |
| `RunHash.ClosingCheckpointFaithful` | packages/core/src/loop.ts:821-828 | after a closing checkpoint, resumption is seeded correctly whatever came before |
| `RunSeed.ResumeExact` | packages/core/src/loop.ts:2181-2208 | any queries: a resume is seeded with the replay hash exactly when its seed is counted from the session start |
| `RunSeed.SeedDecides` | packages/core/src/loop.ts:1942-1945 | from a query's seed checkpoint up to a terminal or a new query, every checkpoint, resume seed and rolling hash is right exactly when the session was empty before the query |
| `RunSeed.ClosingDecides` | packages/core/src/loop.ts:821-828 | after a closing checkpoint all of them are right until another query starts, suspensions and resumes included |
| `RunCalls.NoDoubleAnswer` | packages/core/src/loop.ts:2098-2113 | no call id ever gets two results, over any queries, crashes and resumes |
| `RunCalls.AnsweredAtModelCall` | packages/core/src/loop.ts:1037-1043 | one query: at every model call each issued call has exactly one result |
| `RunCalls.OpenCallsAreOlder` | packages/core/src/loop.ts:1037-1043 | any queries: unanswered calls at a model call were all issued before the current run |
| `RunCalls.OpenCallsExactly` | packages/core/src/loop.ts:1037-1043 | any queries: at a model call all calls are answered exactly when all calls before the current run's start are |
| `RunCalls.SuccessIsAnswered` | packages/core/src/loop.ts:1602-1660 | a run that succeeded or was aborted had all its calls answered |
| `RunCalls.PendingExact` | packages/core/src/loop.ts:2098-2113 | one query: what is dispatched again is exactly the set of unanswered calls, each once |
| `RunCalls.AbandonLeavesCallsOpen` | packages/core/src/loop.ts:1602-1634 | a ceiling after a response with calls, a result or suspension that cannot be stored, and input blocked on resume each close the run with its waiting calls unanswered |
| `RunCalls.OnlyAbandonsLeaveCallsOpen` | packages/core/src/loop.ts:1602-1634 | and no other step decides a terminal, suspensions aside, while a call of the run is open |
| `RunCalls.FirstCallSeesOpenCalls` | packages/core/src/loop.ts:1928-1951 | whatever is said, compacted and injected on the way, the first call of a later query sees exactly the calls and results that the earlier runs left |
| `RunWitness.SecondQueryWitness` | packages/core/src/loop.ts:1602-1634 | a reachable state in which the model is called with an unanswered call of an earlier query |
| `RunWindow.WindowIsReplay` | packages/core/src/loop.ts:1162-1177 | at every loop head the unrewritten window is its prefix and the conversation of the whole log, event by event |
| `RunWindow.WindowSinceRewrite` | packages/core/src/loop.ts:1113-1160 | after a compaction or rewrite: what that left and the conversation of exactly the later events |
| `RunWindow.ModelSeesReplay` | packages/core/src/loop.ts:1503-1506 | the model sees that conversation and at most one reminder, at the end |
| `RunWindow.LoadedIsRescan` | packages/core/src/loop.ts:960-979 | the incremental loaded set equals a rescan at every point of the loop, re-dispatch included |
| `RunWindow.LogOnlyGrows` | packages/core/src/loop.ts:771-790 | no step of any run changes or removes a logged event |
| `RunWindow.LoadedToolNames` | packages/core/src/discovery-tools.ts:108-120 | the scan unions the names of successful load_tool results with the eager core |
| `RunWindow.ManifestOnlyGrows` | packages/core/src/discovery-tools.ts:137-141 | with fixed schemas a later manifest keeps every earlier tool in order and is the filter by the rescanned log |
| `RunWindow.ManifestExactly` | packages/core/src/discovery-tools.ts:137-141 | at any point the model is shown, in order, exactly the tools that are eager or that a load_tool result in the log lists |
| `RunBudget.TokensBelowBeforeEachCall` | packages/core/src/loop.ts:1180-1205 | the run's logged tokens were below maxTokens when each logged response was asked for |
| `RunBudget.OvershootIsOneResponse` | packages/core/src/loop.ts:1608-1634 | the run's logged tokens exceed maxTokens by less than its last response |
| `RunBudget.MoneyBelowBeforeEachCall` | packages/core/src/loop.ts:1180-1205 | any queries with known costs: the run's logged money was below maxCostUsd before each response, across crashes; several queries need prices that are not negative |
| `RunBudget.ResumedUsdExact` | packages/core/src/loop.ts:2073-2091 | with an unpriced own model, restored money is right exactly when all logged costs are known or none is |
| `Cost.TokensTimesRates` | packages/core/src/loop.ts:553-566 | there is a figure exactly when the model has a price: uncached input, cached input and output tokens times their rates, cached ones beyond the input counted as input |
| `Cost.RatePerMillion` | packages/core/src/loop.ts:553-566 | a million tokens of one class cost the rate of that class, cached ones the input rate without one of their own |
| `Cost.CostAdds` | packages/core/src/loop.ts:553-566 | costs add up over usages |
| `Cost.CallCosts` | packages/core/src/loop.ts:1510-1524 | the charge is the larger of a valid provider figure and the table figure, and none without one |
| `Cost.PreflightStops` | packages/core/src/loop.ts:667-682 | the first ceiling in the documented order that is reached, and none exactly when none is |
| `RunSpend.UsageRestoredExactly` | packages/core/src/loop.ts:2067-2072 | in every state of every process: a resume would restore the live usage exactly when the events that the process does not count used as much as the response it charged and missed |
| `RunSpend.MoneyRestoredExactly` | packages/core/src/loop.ts:2073-2091 | the same of money when the logged costs are known |
| `RunSpend.SpendRestored` | packages/core/src/loop.ts:2067-2091 | a resumed process, or one query: live usage and money are the restored figures and the missed response, so usage is lost exactly when that used tokens |
| `RunSpend.BranchDecides` | packages/core/src/loop.ts:1448-1600 | of all answers to a model call, only an aborted, blocked, not stored or over-limit response that used tokens makes live and restorable usage differ |
| `RunSpend.MissedIsForgotten` | packages/core/src/loop.ts:2066-2072 | when such a process ends before its terminal is stored, the next one goes on with exactly that response's usage missing |
| `RunSpend.MoneyIsTokensTimesRates` | packages/core/src/loop.ts:1510-1524 | with responses charged by the table, the live money of every process is the sum over the responses it counts of tokens times rates |
| `RunWitness.AbortedSpendWitness` | packages/core/src/loop.ts:1526-1531 | reachable: two tokens charged, the run aborted, its checkpoint thrown; the resume has used nothing and calls the model over a ceiling of one token |
| `RunBudget.SuccessIsUnder` | packages/core/src/loop.ts:1602-1634 | a success is stored only strictly under every token, money and turn ceiling, the sub-agents' tokens included, as of the step that stores it |
| `RunBudget.TurnsBounded` | packages/core/src/loop.ts:1180-1205 | no segment takes more than maxTurns turns, and each call is made with a turn to spare |
| `RunTerminal.TerminalsOfARun` | packages/core/src/loop.ts:1984-1990 | of two terminals of one run the earlier is a suspension |
| `RunTerminal.ToldOnce` | packages/core/src/loop.ts:812-858 | a run that ends told exactly one result, last, and unless it is an error the one stored before, with or without an output schema; a crashed one told none |
| `RunTerminal.ResumeClosed` | packages/core/src/loop.ts:1978-2032 | resuming a closed run stores nothing and tells exactly the stored terminal |
| `RunTerminal.ClosedForever` | packages/core/src/loop.ts:1978-2032 | without a new query nothing ever adds to the log of a closed run |
| `RunTerminal.ResumeRebuildsWindow` | packages/core/src/loop.ts:2154-2179 | any queries, a crash in any phase before the terminal is stored: the resume starts with the pending calls or at the loop head, with the conversation the crashed turn had |
| `RunTerminal.CrashRedispatchesOlder` | packages/core/src/loop.ts:2093-2113 | a crash before a query's first response makes the resume dispatch the open calls of an earlier run again |
| `RunTerminal.StepDescends` | packages/core/src/loop.ts:1107-1837 | every step that changes the state uses up a turn, moves on within it, or shrinks the batch |
| `RunTerminal.SegmentEnds` | packages/core/src/loop.ts:1107-1837 | with an environment that keeps answering, every segment ends |
| `SpawnTree.SpawnAgent` | packages/core/src/agent.ts:879-924 | a spawn is launched exactly strictly under every ceiling that is set, and refused otherwise; then the budget grows by what its subtree spent less what was lost in it, each descendant once |
| `SpawnTree.RunAgent` | packages/core/src/loop.ts:917-933 | for each ending: each planned spawn at any depth was launched exactly when what was folded before it was under its ceilings; the budget grows by the descendants' spend less the lost part; what is reported is the own usage and the tree's money |
| `SpawnTree.RunRoot` | packages/core/src/loop.ts:569-589 | the same from an empty budget; its tokens are right exactly when no thrown descendant used any, its money exactly when no descendant without a figure spent any, and the root's figure likewise, whatever its own ending |
| `SpawnTree.SpawnsExactly` | packages/core/src/agent.ts:879-886 | a spawn at any place ran exactly when the sums over all that ran before it, less what was lost, on top of the budget at entry, were strictly under each ceiling set |
| `SpawnTree.LostExactly` | packages/core/src/loop.ts:771-790 | no money is lost exactly when every descendant without a USD figure or a result spent none itself |
| `SpawnTree.LostUsageExactly` | packages/core/src/agent.ts:899-918 | no tokens are lost exactly when no descendant that threw had used any itself |
| `SpawnTree.ThrownSpendWitness` | packages/core/src/loop.ts:1601-1602 | a child charged for any one response and then thrown out of its checkpoint: its tokens and money are in no figure of the parent |
| `ModelCall.Consume` | packages/core/src/loop.ts:1249-1292 | what a stream passes on, how it ends, and that the kept text is the passed-on text within the ceiling |
| `ModelCall.StreamOfLaw` | packages/core/src/loop.ts:1249-1292 | the deltas passed on are the first parts, unaborted and within the ceiling; the part after them says how the stream ended |
| `ModelCall.Complete` | packages/core/src/loop.ts:1376-1432 | all calls but the last failed with a transient error, unaborted, no limit; the last is the reason to stop: accepted, aborted, over the limit, permanent, or max(1, maxAttempts) calls made |
| `ModelCall.RetryLawIsExact` | packages/core/src/loop.ts:1376-1432 | and that says after how many calls the loop ends and how |
| `ModelCall.FirstFitIsReturned` | packages/core/src/loop.ts:1376-1432 | the first response that fits is returned when all calls before it failed with a transient error |
| `ModelCall.StreamGivesWay` | packages/core/src/loop.ts:1294-1372 | a stream gives way exactly when it ended or failed at once, without a delta, an abort or a limit |
| `ModelCall.RetriesGiveWay` | packages/core/src/loop.ts:1420-1446 | a retried candidate gives way exactly when a permanent error or the last allowed transient one ended it |
| `ModelCall.StreamDecides` | packages/core/src/loop.ts:1294-1372 | otherwise an abort goes before a limit, and a limit before the response; what was passed on is kept unless a response is accepted |
| `ModelCall.CallModel` | packages/core/src/loop.ts:1245-1446 | the first candidate that does not give way decides; one source of deltas; what is stored is what was received |
| `ModelCall.StoreInterrupted` | packages/core/src/loop.ts:896-914 | an empty text is not stored; a failed store ends the turn otherwise |
| `ModelCall.CallWithFallbacks` | packages/core/src/loop.ts:1245-1446 | at most (1 + fallbacks) * max(1, maxAttempts) model calls in a turn |
| `OutputMeter.BoundedUtf8Length` | packages/core/src/loop.ts:325-345 | the smaller of the UTF-8 length (RFC 3629, section 3) and the ceiling plus one |
| `OutputMeter.Utf8Step` | packages/core/src/loop.ts:325-345 | a surrogate pair costs 4 bytes, a lone surrogate 3 |
| `OutputMeter.BoundedOutputMeter.AddString` | packages/core/src/loop.ts:353-357 | rejected exactly when the running sum passes the ceiling |
| `OutputMeter.BoundedOutputMeter.AddValue` | packages/core/src/loop.ts:359-397 | accepted exactly when no part is too deep and the whole cost fits |
| `OutputMeter.ContainerCosts` | packages/core/src/loop.ts:359-397 | a container costs one byte and its parts; a field its key and its value |
| `OutputMeter.ShallowExactly` | packages/core/src/loop.ts:359-362 | too deep means more than 64 containers around some part |
| `OutputMeter.BoundedStreamText.Add` | packages/core/src/loop.ts:411-417 | a chunk is accepted exactly when it fits, and then is the last one |
| `OutputMeter.BoundedStreamText.ToString` | packages/core/src/loop.ts:419-429 | the concatenation of the accepted chunks, within the ceiling |
| `OutputMeter.Utf8Subadditive` | packages/core/src/loop.ts:401-430 | joining chunks never costs more, also where they split a surrogate pair |
| `Compaction.TailTokens` | packages/core/src/compaction.ts:129-133 | a quarter of the characters from an index on, rounded up |
| `Compaction.EstimateTokens` | packages/core/src/compaction.ts:44-48 | a quarter of the characters of the window, rounded up |
| `Compaction.BlocksSize` | packages/core/src/compaction.ts:28-37 | text and thinking count their characters, a call its name and input, an image none |
| `Compaction.CondenseKeepsEnds` | packages/core/src/compaction.ts:113-126 | a condensed result starts and ends as the original and names how much is missing |
| `Compaction.CondenseOmitsBinary` | packages/core/src/compaction.ts:113-117 | a binary payload leaves a note of its length |
| `Compaction.Stage1` | packages/core/src/compaction.ts:191-200 | only oversized tool results change, position by position |
| `Compaction.BuildPairingMap` | packages/core/src/compaction.ts:144-165 | each call id maps to its last issuing and last answering message |
| `Compaction.DirectlyProtected` | packages/core/src/compaction.ts:209-235 | exactly the system and user messages, the failures, and the non-system messages that fewer than keepRecentTurns others follow |
| `Compaction.RecentExactly` | packages/core/src/compaction.ts:209-216 | recent are exactly the non-system messages that fewer than `keep` others follow |
| `Compaction.RecentSize` | packages/core/src/compaction.ts:209-216 | there are `keep` of them, or as many as there are non-system messages |
| `Compaction.Protect` | packages/core/src/compaction.ts:237-271 | the least set that holds the direct ones and is closed under pairing; at most two passes with unique ids |
| `Compaction.LeastIsUnique` | packages/core/src/compaction.ts:237-271 | there is only one such set |
| `Compaction.Truncate` | packages/core/src/compaction.ts:273-291 | the loop keeps exactly the indices of the specification, in order |
| `Compaction.KeptExactly` | packages/core/src/compaction.ts:273-291 | the survivors are, in order, exactly the messages where the guard holds, that are protected, or that are not low signal |
| `Compaction.FitsFromThenOn` | packages/core/src/compaction.ts:277-281 | once the guard has held the result fits the budget, despite the two roundings |
| `Compaction.TruncationBound` | packages/core/src/compaction.ts:273-291 | the result keeps every protected message, drops only low signal, and fits or is exactly the protected set |
| `Compaction.ProtectedPairSurvives` | packages/core/src/compaction.ts:237-271 | a pair with a protected member survives whole |
| `Compaction.PairSplitExactly` | packages/core/src/compaction.ts:274-289 | an unprotected pair is split exactly when the guard differs at its two members |
| `Compaction.PairsWholeWithoutGuard` | packages/core/src/compaction.ts:274-289 | if the guard never holds, pairs are kept or dropped whole |
| `Compaction.GuardNeverExactly` | packages/core/src/compaction.ts:277-281 | the guard never holds exactly when the protected part and the rest fit nowhere, which needs no run of the loop to tell |
| `Compaction.ProtectedTooLarge` | packages/core/src/compaction.ts:274-289 | a protected part that alone exceeds the budget: nothing else of low signal survives and every pair is whole |
| `Compaction.PairByPosition` | packages/core/src/compaction.ts:274-289 | with a token to spare at the first fit, unprotected members of a pair survive exactly from that place on |
| `Compaction.SplitPairRun` | packages/core/src/compaction.ts:176-178 | an input on which compactMessages drops a call and keeps its result |
| `Truncation.GuardFrom` | packages/core/src/compaction.ts:277-281 | from sizes alone: with a token to spare at the first fit, the guard holds exactly from there on |
| `Truncation.FindFirstFit` | packages/core/src/compaction.ts:277-281 | the first place where the held part and the rest fit, found without running the loop |
| `Compaction.Coalesce` | packages/core/src/compaction.ts:299-327 | adjacent plain tool messages without call ids are merged, and the flag says whether any were |
| `Compaction.CoalescesGroups` | packages/core/src/compaction.ts:299-327 | the result is consecutive groups in order: messages as they were, and runs of plain tool messages with their texts a line each; no two neighbours could still merge |
| `Compaction.CoalesceIdentity` | packages/core/src/compaction.ts:299-327 | with call ids on all tool messages this stage changes nothing |
| `Compaction.CompactMessages` | packages/core/src/compaction.ts:179-331 | the result is the composition of the stages on the least protected set, with its sizes; each stage is named exactly when it changed something |
| `Compaction.CompactionBound` | packages/core/src/compaction.ts:179-331 | with call ids: the result fits the budget or is exactly the protected part of the condensed window |
| `Compaction.CompactionSize` | packages/core/src/compaction.ts:299-331 | coalescing adds exactly one character per merge, so what fitted exceeds the budget by no more than the merges |
| `Compaction.EvidenceSurvives` | packages/core/src/compaction.ts:218-235 | system and user messages, uncondensed failures, and every message that fewer than keepRecentTurns non-system messages follow, are never dropped |
| `Permission.GlobMatch` | packages/core/src/permission.ts:8-33 | true exactly when some substrings for the stars spell the id |
| `Permission.MatchesIsGapped` | packages/core/src/permission.ts:12-14 | spelling a pattern is finding its parts in order between gaps, the first at the start |
| `Permission.LeftmostSuffices` | packages/core/src/permission.ts:26-29 | taking the leftmost occurrence of a middle part loses no match |
| `Permission.LastPart` | packages/core/src/permission.ts:20-24 | the anchored end with the overlap check is exact |
| `Permission.ParsedEntry` | packages/core/src/permission.ts:44-50 | an entry has an argument glob exactly when it has a parenthesis |
| `Permission.SpelledEntry` | packages/core/src/permission.ts:44-50 | `name`, `name(arg)` and `name(arg` are read as name and argument |
| `Permission.BareNameDenies` | packages/core/src/permission.ts:56-61 | some bare entry spells the id |
| `Permission.ArgScopedDenies` | packages/core/src/permission.ts:72-86 | some entry with an argument glob spells id and input; an empty one spells every input |
| `Permission.ScopedDenies` | packages/core/src/permission.ts:72-86 | `name(arg)` denies exactly the calls whose tool and input it spells; `name()` and `name(` deny every call of the tool, a bare name none by its input |
| `Permission.Evaluate` | packages/core/src/permission.ts:100-127 | the decision, computed with the scan |
| `Permission.DecidesExactly` | packages/core/src/permission.ts:88-127 | denied exactly when barred by a bare entry or by plan mode, or left to a default that denies; allowed exactly when the allow list spells it, the mode bypasses the question, or the default allows; else asked |
| `Permission.AddedAllow` | packages/core/src/permission.ts:115-116 | one more allow glob allows exactly what it spells and nothing bars |
| `Permission.AddedAsk` | packages/core/src/permission.ts:118-119 | one more ask glob asks about exactly what it spells, nothing bars and no allow glob spells |
| `Permission.AddedDeny` | packages/core/src/permission.ts:108-110 | one more bare entry denies exactly the ids it spells under any mode; an argument entry changes nothing |
| `Permission.SchemaComposes` | packages/core/src/permission.ts:129-137 | filtering tools by a policy with more deny entries is filtering the filtered list by these entries: they hide what they spell and bring nothing back |
| `Permission.SchemaExactly` | packages/core/src/permission.ts:129-137 | the schema shows, in order, exactly the tools that are not denied |
| `SessionLock.OneHolder` | packages/core/src/agent.ts:649-668 | in every interleaving a session has at most one holder |
| `SessionLock.GrantedInArrivalOrder` | packages/core/src/agent.ts:655-660 | holders are granted in arrival order |
| `SessionLock.EnabledExactly` | packages/core/src/agent.ts:655-660 | a waiter can go on exactly when every older ticket of its session was released |
| `SessionLock.OldestWaiterEnabled` | packages/core/src/agent.ts:655-660 | when nobody holds, the oldest waiter can go on |
| `SessionLock.DeletedOnlyWhenIdle` | packages/core/src/agent.ts:665-667 | without a map entry there is no holder and no waiter for a newcomer to overtake |
| `SessionLock.ReleasedForGood` | packages/core/src/agent.ts:661-667 | a released ticket stays released in every continuation, and its release function never again changes anything, a newcomer's entry included |
| `SessionLock.StepChanges` | packages/core/src/agent.ts:649-668 | in every interleaving: a caller that asks waits, one whose elders have all released holds and is granted next, a holder releases, and nothing else changes a ticket |
| `SessionLock.Sessions.Enqueue` | packages/core/src/agent.ts:655-659 | the newcomer chains onto the stored tail and becomes the tail |
| `SessionLock.Sessions.Continue` | packages/core/src/agent.ts:660-661 | the waiter holds exactly when its predecessor is settled |
| `SessionLock.Sessions.Free` | packages/core/src/agent.ts:662-667 | the release opens the gate once and removes the entry only if it is still its own |
| `TaskStore.StoreIsNewest` | packages/a2a/src/server.ts:430-443 | storing any tasks in turn leaves the newest maxTasks of them, in order |
| `TaskStore.OwnersExactly` | packages/a2a/src/server.ts:422-428 | an owner is recorded exactly for the contexts with a stored owned task |
| `TaskStore.OwnerIsNewest` | packages/a2a/src/server.ts:631-633 | and it is the owner of the newest such task |
| `TaskStore.StoredTasks` | packages/a2a/src/server.ts:611-635 | both in every interleaving of requests |
| `TaskStore.RunSlots` | packages/a2a/src/server.ts:568-609 | in every interleaving, timeouts included, the counter covers the unsettled runs and stays within the limit |
| `TaskStore.ArrivesExactly` | packages/a2a/src/server.ts:560-571 | in every interleaving a request is taken exactly when a slot is free and the newest stored task of its context, if any, is the caller's |
| `TaskStore.RequestChanges` | packages/a2a/src/server.ts:580-609 | a run settles once, gives its slot back once after that, and its request closes once, by the answer or a timeout before the run settled |
| `TaskStore.StoresExactly` | packages/a2a/src/server.ts:600-635 | a task is stored exactly when an open request is answered whose run succeeded |
| `TaskStore.Tasks.DeleteTask` | packages/a2a/src/server.ts:422-428 | the task goes, and its context's owner with it unless another task shares the context |
| `TaskStore.Tasks.EvictIfNeeded` | packages/a2a/src/server.ts:430-443 | a full store loses its oldest settled task, or its oldest when none is settled |
| `TaskStore.Tasks.StoreTask` | packages/a2a/src/server.ts:631-633 | evict, append, record the owner |
| `Base64.DecodeImage` | packages/core/src/agent.ts:467-488 | exact errors; the length law; every nonempty byte sequence that fits comes back from its RFC 4648 encoding |
| `Base64.DecodeInto` | packages/core/src/agent.ts:474-487 | the loop fills the output with exactly the decoded bytes, every write in range |
| `Base64.RoundTrip` | packages/core/src/agent.ts:467-488 | decoding undoes the encoding of section 4 of RFC 4648 |
| `Base64.EncodeDecoded` | packages/core/src/agent.ts:465-488 | an accepted string is the encoding of its bytes exactly when no set bit hides behind the padding |
| `Base64.IndexInAlphabet` | packages/core/src/agent.ts:474-479 | the alphabet string is the table of RFC 4648 |
| `Base64.GroupBits` | packages/core/src/agent.ts:474-487 | the bits of three bytes are read from the left as four groups of six |
| `Base64.QuadBits` | packages/core/src/agent.ts:480-487 | and the bits of four sextets from the left as three bytes |
| `JpegHeader.Dimensions` | packages/core/src/agent.ts:507-528 | the nested loops compute the scan, end on every input and read in bounds |
| `JpegHeader.ReadDimensions` | packages/core/src/agent.ts:507-528 | a size is found exactly for an image start, well-formed segments and a first frame header of that size |
| `JpegHeader.MarkerTable` | packages/core/src/agent.ts:515-521 | the thirteen frame headers, the markers without a segment and the two that end the scan, by their codes |
| `JpegHeader.ScanPrinted` | packages/core/src/agent.ts:512-526 | printed segments and a frame header are scanned to that frame's height and width |
| `JpegHeader.ScanIsPrinted` | packages/core/src/agent.ts:512-526 | whatever the scan accepts is such a print |

## Left out

- Sessions whose log has no `run_started` event (written by older versions), corrupt event payloads, and a failing
  `buildInitialMessages`: a log without a run is left as it is.
- Model providers, tools, memory, stores, guardrails, output schemas, tracing, logging and the soft cost threshold:
  their answers are inputs, or they are absent. A response's content is taken as the guardrails left it, and boundary
  sanitising is not modelled.
- SHA-256, canonical JSON, JSON parsing and regular expressions: symbolic, or functions given as parameters.
- Floating point: USD amounts are exact reals, and the 0.6 and 0.2 of condensing are exact fractions.
- Assumptions on the environment: one writer per session, call ids new to the session, one result per dispatched call
  in order, sequence numbers that double as event ids, a checkpoint store that returns the highest sequence number,
  and appends and checkpoint writes that, when they fail, have stored nothing. The configuration of a session is the
  same for all its processes.
- The run protocol always has lazy tools configured, so the loaded set is always kept; without them it is unused.
- The texts of terminals other than the fixed ones, and the `details` of a terminal.
- The shared budget of sub-agents is an input of the run protocol: a resumed process starts with whatever it is given,
  because the accumulator is not persisted.
- RunBudget.TokensBelowBeforeEachCall: counts the tokens logged since the latest `run_started`; a second query counts
  from zero, as the code does.
- RunBudget.SuccessIsUnder: says nothing about wall-clock time, which is an input of each ceiling check.
- RunSpend.MoneyRestoredExactly: counts a missing figure as no money; `RunSpend.SpendRestored` tells the two apart.
- RunSeed.SeedDecides: stops at a stored terminal of the run, because from there the closing checkpoint decides; when
  that one is not written, `RunSeed.ResumeExact` and the counting base say what a later resume is worth.
- RunTerminal.SegmentEnds: assumes that every pending call, append and checkpoint is answered at some time.
- ModelCall.CallModel: the checks of a response against the output limits are inputs; the block walk that makes them
  is modelled only through `OutputMeter`. A stream or a retry loop is given by what it delivers.
- OutputMeter.BoundedOutputMeter.AddValue: values are finite trees, so the guard against cyclic objects is absent.
- Base64.DecodeImage: the shifts and ors of six-bit groups are written as sums, which is the same for disjoint bits.
- JpegHeader.ReadDimensions: a missing size stands for the thrown error; the PNG and GIF branches read fixed offsets
  and are absent.
- SessionLock.OneHolder: the map of one store; different stores do not share sessions.
- TaskStore.StoredTasks: needs `maxTasks` of at least 1, which option validation guarantees, and task ids that are new,
  as random ids are: a repeated id would replace the older task in the source's map and is a second task here. Task
  lookup, HTTP, authentication and timers are absent.
- `rank`, permission presets and the search tools of discovery would add only easy members.
