# Verification model of the PRD agent

Dafny models of the parts of the repository with the most state and branching, and proofs about them:

- the version diff of `src/lib/diff.ts` and the reading diff of `src/lib/readingDiff.ts`, with its
  Markdown block splitter (`Lcs`, `LineDiff`, `Folding`, `Markdown`, `MarkdownPatterns`, `BlockSplitter`,
  `BlockRules`, `TextRoundTrip`, `ReadingDiff`, `LongDocuments`);
- one run as a concurrent protocol: the workflow, its three parallel reviewers and the user's pause,
  resume and cancel calls, over the run manager's commits (`RunTypes`, `RunManager`, `Workflow`,
  `StepFlow`, `StatusSafety`, `RunShape`, `QualityGate`, `SpendingProofs`, `Charges`, `Provenance`,
  `Progress`, `Liveness`, `Cancelling`, `Generation`, `StructuredCall`, `PauseClock`), and many runs under
  one manager (`ManyRuns`);
- the event stores with their hot cache, restart and subscribers (`EventStore`, `Subscriber`), a run's
  log in them (`StoredLog`), and the run store with retention and restart (`RunStore`, `Survivors`);
- the client's view of a run and its simulation of the server (`Reducer`, `EventMeaning`, `ShownFindings`,
  `Simulation`, `LiveView`, `ShownReviews`, `Recovery`, `Reconnection`, `Rehearsal`).

`dafny verify dfyconfig.toml` checks everything.

## How the protocol is modelled

A step of the protocol is one commit or one transition, together with the checks made directly before
it. This assumes that no other coroutine runs between an uncontended lock's check and its commit.
`cancel_run` is three steps: `CANCEL_REQUESTED` goes on record, both signals are set, `CANCELLED` goes
on record. Provider answers are inputs: any text, usage, review or plan, a retryable error, another
error, or a deadline that passes. The theorems quantify over every run (`Workflow.IsRun`): every
sequence of enabled steps from the initial state, in any interleaving, for every budget and threshold.

Where a function computes something the source promises, what it computes is stated a second time without
it: the diff's trim by what it leaves, the blocks of a document by rules over its lines and these by the
patterns they come from, the gate by the findings of the three reviews, a call's usage by the replies it
received, and the shown reviews by the positions of their findings.

Scores and the threshold are integers in tenths, document text is a sequence of code units, and a
finding is its severity and whether it is blank. In the block splitter the line classifiers are written
out; the documents are strings.

## What the proofs found

- Past the 250,000-cell cap the line diff replaces the differing stretch wholesale. It is minimal if
  and only if the trimmed table fits or the two stretches share no line (`LineDiff.DiffIsMinimal`).
  Two documents of 502 lines that share 500 of them are reported without a single context row
  (`LongDocuments.LongRewriteIsNotMinimal`).
- The reading diff does not trim shared ends, so two documents with equal blocks whose table exceeds
  the cap are reported as fully replaced. `identical` (the source's `unchanged`) holds exactly when the
  block texts are equal and the table fits (`ReadingDiff.UnchangedMeansEqual`); a list of 500 equal items
  compared with itself is reported as changed (`LongDocuments.LongListDiffersFromItself`).
- From any snapshot the reviews a client shows are exact: every review the server has, with all its findings
  but the blank ones, whatever deltas were missed (`ShownReviews.ClientShowsReviews`).
- Once a cancel is signalled on a request on record the run ends `CANCELLED` whatever fails meanwhile, after
  at most one more superstep and two more generation streams (`Cancelling.SignalledRunsEndCancelled`,
  `Cancelling.CancelStopsSoon`).
- Over line sequences the block splitter's round trip always holds. Over texts it holds if and only if no
  rejoined line but the last ends in a carriage return of its own (`TextRoundTrip.TextSplitsBack`); so it
  holds for every text without two carriage returns before a line feed (`TextRoundTrip.PlainTextSplitsBack`).
- A restart stamps interrupted runs in the order it reads them, the last updated first, so the last
  updated get the oldest stamps. When more runs must go than had already ended, the load gives up the
  newest interrupted runs first. The newest interrupted runs survive if and only if the ended runs
  suffice to make room (`Survivors.NewestInterruptedSurviveIff`, `Survivors.NewerInterruptedIsLost`).
  Over all runs, by stored update time, the exact conditions are `Survivors.NewestStoredSurviveIff` and
  `Survivors.NewestStoredLostIff`.
- A snapshot whose partial text equals the whole text of the last version is loaded without its draft
  in flight, and a scored version with a blank finding is loaded with smaller severity counts than the
  server sent live, because the client normalizes before it counts. A snapshot shows the server's state
  exactly when neither is the case (`Simulation.LoadShowsIdeal`); both happen in reachable runs
  (`Rehearsal.CollisionIsReachable`, `Rehearsal.BlankFindingIsReachable`). Finished drafts are exact in
  every case. Starting from such a snapshot, the draft comes back with the next stream reset or finished
  document, the counts never (`Recovery.UncleanStartRecovers`).
- A restart of the backend fails an unfinished run and appends no event of it. A client that reconnects and
  is replayed the store goes on showing the run's last status, so it shows the server's status if and only
  if no restart has happened or the run had ended (`Reconnection.ReconnectShowsServer`); an interrupted run
  goes on looking alive (`Reconnection.InterruptedRunLooksAlive`). Finished drafts are exact all the same,
  and loading the run again shows the failure (`Reconnection.ReloadShowsServer`).
- While a run is paused `active_elapsed` reads the clock twice, and what it returns exceeds the time not
  spent paused by the gap between the readings (`PauseClock.Clock.ActiveElapsed`).
- A workflow parked with neither signal set is not always `PAUSED`: a cancel call may have put its
  request on record without having set its signals yet. That is the only exception, and it is reachable
  (`StatusSafety.ParkedMeansPaused`, `Rehearsal.ParkedIsNotAlwaysPaused`).

## Model

| member | source | states |
|---|---|---|
| Lcs.WalkIsLongest | src/lib/diff.ts:129-157 | the greedy walk keeps a longest common subsequence: attained, and no common subsequence, given by any positions, is longer |
| Lcs.TrimIsExact | src/lib/diff.ts:88-109 | cutting a shared prefix and suffix lowers the longest-common-subsequence bound by exactly their length, in both directions |
| Lcs.LongestMeansFewestChanges | src/lib/diff.ts:88-168 | a script keeping a longest common subsequence makes no more insertions and deletions than any valid script |
| Lcs.MiddleIsLongest | src/lib/diff.ts:114-157 | the script for the differing stretch is longest if and only if the table fits the cap or nothing is shared |
| Lcs.WalkRemovesFirst | src/lib/diff.ts:141-156 | because ties remove, no addition of the walk is directly followed by a removal |
| Lcs.LcsLengths | src/lib/diff.ts:61-76 | the flat 32-bit table, filled from its last cell back, holds the suffix length at every row and column; no entry is truncated |
| LineDiff.RowsAreFaithful | src/lib/diff.ts:88-168 | on the table path and over the cap, context plus removed rows spell the source, context plus added rows the target, and line numbers are exact positions |
| LineDiff.TrimTakesLongest | src/lib/diff.ts:93-108 | the trimmed prefix is the longest shared one and the trimmed suffix the longest shared one of what that leaves |
| LineDiff.TrimIsUnique | src/lib/diff.ts:93-108 | there is only one such trim |
| LineDiff.DiffIsMinimal | src/lib/diff.ts:88-168 | however the shared ends are trimmed, as long as nothing more could be: context rows number the longest common subsequence of the full documents if and only if what is left needs at most 250,000 cells or shares no line; exactly then no script changes less |
| LongDocuments.LongRewriteIsNotMinimal | src/lib/diff.ts:119-127 | two 502-line documents sharing 500 lines, past the cap: no context row, not minimal, and a shorter script exists |
| LineDiff.RowsRemoveFirst | src/lib/diff.ts:129-157 | between an added row and a later removed row there is always a context row |
| LineDiff.UnchangedMeansEqual | src/lib/diff.ts:243-259 | nothing is added or removed exactly when the line sequences are equal |
| LineDiff.TrimEnds | src/lib/diff.ts:93-108 | the two trimming loops find that trim |
| LineDiff.DiffRows | src/lib/diff.ts:88-168 | the loops over prefix, table walk and suffix emit exactly the specified rows |
| LineDiff.WalkRows | src/lib/diff.ts:127-157 | the walking loop with its two line counters emits the rows of the walk, in order and correctly numbered |
| Folding.FoldingUnfolds | src/lib/diff.ts:184-241 | hunks and markers laid end to end give back every row; a marker hides at least two context rows, none within three rows of a change; a hunk shows all others and carries the last section heading at or above its first change |
| Folding.FoldingAlternates | src/lib/diff.ts:207-238 | hunks and skip markers take turns |
| Folding.SegmentsFor | src/lib/diff.ts:184-241 | the in-place marking of kept rows and the segment loop produce that folding, with the heading in force at each hunk's first change |
| Folding.LinesSpellText | src/lib/diff.ts:50-55 | an empty text has no lines, any other is its lines joined by feeds |
| Folding.DiffLines | src/lib/diff.ts:243-259 | `identical` holds exactly for equal line sequences; otherwise the segments unfold a faithful row list and the counts are that list's |
| MarkdownPatterns.HeadingIsPattern | src/lib/readingDiff.ts:32 | a line is a heading with a level and a text exactly when it can be cut into the parts the pattern names |
| MarkdownPatterns.FenceIsPattern | src/lib/readingDiff.ts:33 | the same for a fence and its marker |
| MarkdownPatterns.RuleIsPattern | src/lib/readingDiff.ts:34 | the same for a rule, whose mark comes back at least twice |
| MarkdownPatterns.ItemIsPattern | src/lib/readingDiff.ts:35 | the same for a list item, bulleted or numbered with one to nine digits |
| MarkdownPatterns.DelimiterIsPattern | src/lib/readingDiff.ts:41-50 | the same for a table's delimiter row |
| MarkdownPatterns.BlankIsSpace | src/lib/readingDiff.ts:37-39 | a line is blank exactly when it holds nothing but white space |
| Markdown.TrimKeepsHeading | src/lib/readingDiff.ts:32-54 | trimming a heading line leaves it the same heading, and neither a fence nor blank |
| Markdown.SplitThenJoin | src/lib/diff.ts:50-55 | splitting at line feeds and joining again gives the text back, and no line holds a feed |
| Markdown.JoinIsInjective | src/lib/diff.ts:50-55 | different line sequences join to different texts |
| BlockSplitter.SplitKeepsContent | src/lib/readingDiff.ts:56-175 | no non-blank line is lost, duplicated or reordered by the splitter |
| BlockSplitter.SplitRoundTrip | src/lib/readingDiff.ts:56-175 | splitting, rejoining with one blank line and splitting again gives the same kinds, levels and texts, also with an unclosed fence |
| TextRoundTrip.TextSplitsBack | src/lib/readingDiff.ts:56-57 | over texts, splitting, rejoining and splitting again gives the same blocks if and only if no rejoined line but the last ends in a carriage return |
| TextRoundTrip.PlainTextSplitsBack | src/lib/readingDiff.ts:56-57 | every text without two carriage returns before a line feed comes back |
| TextRoundTrip.ReturnIsLost | src/lib/readingDiff.ts:56-57 | a five-character document that does not come back |
| BlockSplitter.SplitBlocks | src/lib/readingDiff.ts:56-175 | the line-driven loop computes that splitting for every document |
| BlockRules.SplitObeys | src/lib/readingDiff.ts:56-175 | the splitter's blocks obey the rules of each kind: what its first line is and is not, which lines it goes on over and what ends it |
| BlockRules.BlocksAreUnique | src/lib/readingDiff.ts:56-175 | no document obeys the rules in two ways |
| BlockRules.SplitIsTheBlocks | src/lib/readingDiff.ts:56-175 | a list of blocks obeys the rules for a text if and only if it is the splitter's |
| ReadingDiff.BlocksAreFaithful | src/lib/readingDiff.ts:236-278 | unchanged plus removed rows are the source's blocks, unchanged plus added rows spell the target's texts, over the cap too |
| ReadingDiff.BlockDiffIsMinimal | src/lib/readingDiff.ts:236-278 | unchanged blocks number the longest common subsequence of the block texts if and only if the table fits or nothing is shared; exactly then no script changes fewer blocks |
| ReadingDiff.BlocksRemoveFirst | src/lib/readingDiff.ts:252-276 | in every run of changed blocks the removed ones come first |
| ReadingDiff.UnchangedMeansEqual | src/lib/readingDiff.ts:236-278 | nothing is added or removed exactly when the block texts are equal and the table fits the cap |
| LongDocuments.LongListDiffersFromItself | src/lib/readingDiff.ts:236-251 | a text of 500 equal list items splits into 500 blocks and, compared with itself, is not identical |
| ReadingDiff.DiffBlocks | src/lib/readingDiff.ts:236-278 | the loops emit exactly the specified block rows |
| ReadingDiff.CollapseExpands | src/lib/readingDiff.ts:285-308 | collapsed rows are all changed blocks, unchanged ones where one or two stand together, and a marker with their number where three or more do |
| ReadingDiff.ExpansionIsUnique | src/lib/readingDiff.ts:285-308 | only one list of rows does that |
| ReadingDiff.SectionsShowTheRows | src/lib/readingDiff.ts:310-382 | cut at its section headings the row list is shown piece by piece, in order, by the listed sections: a changed piece with rows that expand to its body; only unnamed, unchanged pieces are left out |
| ReadingDiff.CutIsUnique | src/lib/readingDiff.ts:353-370 | there is one such cut, so sections and omissions are determined by the rows |
| ReadingDiff.SectionsAccountForEverything | src/lib/readingDiff.ts:310-382 | the listed sections' totals are the numbers of added and removed blocks, and their names are all section headings in order |
| ReadingDiff.CompareForReading | src/lib/readingDiff.ts:338-382 | `identical`, the counts and, row by row, the sections of two documents, from the text on |
| RunTypes.TerminalHasNoWayOut | backend/state_machine.py:5-92 | the terminal statuses are exactly those without a transition, and every other one can fail |
| RunTypes.EnteredFrom | backend/state_machine.py:5-92 | the table read by target: from which statuses each can be entered |
| RunTypes.TallySeverities | backend/schemas.py:227-236 | one pass counts every finding under exactly one severity |
| RunTypes.Overall | backend/schemas.py:217-224 | the overall score is the mean of the three, rounded to the nearest tenth |
| RunTypes.UsageIsMonoid | backend/telemetry.py:10-17 | adding usage is a commutative monoid, and totals add up under it |
| RunManager.ManagerFollowsTable | backend/run_manager.py:427-606 | every status the manager writes follows the table, including the unchecked write of `fail_run` |
| RunManager.CancelIsNeverIllegal | backend/run_manager.py:539-571 | a cancel request is refused exactly by runs that ended otherwise, and uninterrupted it ends `CANCELLED` |
| RunManager.PauseIsAccepted | backend/run_manager.py:473-497 | a pause is accepted exactly while the workflow is at work or a pause is under way, and kept quiet then |
| RunManager.ResumeIsAccepted | backend/run_manager.py:510-537 | a resume is accepted exactly by a paused run, stores the override and wakes whoever waits |
| RunManager.StageIsEntered | backend/run_manager.py:462-471 | entering a stage gives way to a pending pause or cancel, and otherwise goes along the table and says so |
| RunManager.ParkingIsEntered | backend/run_manager.py:499-508 | parking needs the table's leave and clears the signal it is about to wait for |
| RunManager.Manager.Store | backend/run_manager.py:374-425 | a commit numbers its event, appends it and stores the snapshot that knows the number, for that run only |
| RunManager.Manager.TransitionTo | backend/run_manager.py:427-460 | moves one run's status along the table, or refuses and changes nothing |
| RunManager.Manager.EnterStage | backend/run_manager.py:462-471 | a pending pause or cancel, or the same stage, keeps the state as it is |
| RunManager.Manager.Pause | backend/run_manager.py:473-497 | which statuses can be paused, and that a repeated request changes nothing |
| RunManager.Manager.ResumeRun | backend/run_manager.py:510-537 | only a paused run resumes, with its override stored and the waiter woken |
| RunManager.Manager.CancelRun | backend/run_manager.py:539-571 | request, signals and finalizing in order; a cancelled run is left alone, another ended or an unknown one refused |
| RunManager.Manager.Fail | backend/run_manager.py:573-606 | a run that has not ended fails, an ended one keeps its state |
| RunManager.Manager.AddUsageOf | backend/run_manager.py:646-685 | a node's usage and the total grow by the same amount, with one event |
| RunManager.Manager.AddTiming | backend/run_manager.py:608-644 | a call's timing is kept at the end of the list, without an event |
| ManyRuns.HandleAll | backend/run_manager.py:374-685 | after any interleaving of calls on any runs, general commits and transitions included, each run is what its own calls, in order, make of it |
| ManyRuns.UserStepsAreOperations | backend/run_manager.py:473-571 | the user's steps of the protocol are the manager's operations |
| ManyRuns.OperationsKeepRuns | backend/run_manager.py:374-685 | every operation keeps the log numbered and the status on the table, a general commit when its mutation leaves the status alone |
| ManyRuns.StepIsOneOperation | backend/workflow.py:231-828 | every step of the protocol is at most one operation of the manager on its run, and its general commits never touch status or spending |
| ManyRuns.RunIsOperations | backend/workflow.py:231-828 | every run of the protocol is a sequence of the manager's operations on one run, so under one manager each goes as if it were alone |
| StatusSafety.NoTransitionIsRefused | backend/workflow.py:231-828 | whatever pauses and resumes interleave, without a cancel request no transition the workflow asks for is refused |
| StatusSafety.TerminalIsForever | backend/run_manager.py:427-606 | over every run each status write follows the table and a terminal status is never left |
| StatusSafety.FinishedMeansTerminal | backend/workflow.py:114-193 | a finished workflow leaves a terminal status, and after a cancel request a cancelled or failed one |
| StatusSafety.ParkedMeansPaused | backend/workflow.py:742-768 | a workflow parked with neither signal set shows `PAUSED` exactly unless a cancel call is between its request and its signals |
| RunShape.RunShapeHolds | backend/workflow.py:310-351 | versions are numbered 1..n where n is the current iteration or one less, within the budget |
| QualityGate.GateIsSound | backend/workflow.py:638-741 | `COMPLETED` means the last version's three reviews have a mean at the threshold and none raised a must-fix finding; `MAX_ITERATIONS_REACHED` means the budget is spent and the mean falls short or some review raised one |
| QualityGate.DecisionIsTheGate | backend/workflow.py:724-768 | unless a cancel was asked for, a run completes exactly when its reviews pass, ends by budget exactly when they do not and it is spent, and otherwise parks when a pause was asked for and goes on if not |
| QualityGate.PauseIsSafePoint | backend/workflow.py:742-768 | a paused run's newest version is the current one and scored, its reviews did not pass, budget remains and no plan is pending |
| RunShape.BestIsEarliestMaximum | backend/workflow.py:650-671 | the stored best is the earliest version with the highest score, in every reachable state, and scores are computed from their own reviews |
| SpendingProofs.TokensAreConserved | backend/run_manager.py:608-685 | the total always equals the sum over nodes, and a node not between its two records has spent what its timings say, failed attempts included |
| Charges.TokensAreCharged | backend/run_manager.py:646-685 | over every run a node's tokens are what the provider's answers charged for the calls the run recorded, repaired answers and failed attempts included |
| Provenance.NothingIsInvented | backend/workflow.py:300-351 | every version's text and usage, every review and every plan of a reachable state is what a provider's answer held |
| Provenance.PlansReachVersions | backend/workflow.py:231-351 | the first version had no plan and each later one the plan announced after the version before it |
| Provenance.OverrideWaitsForPlan | backend/workflow.py:776-828 | the override on record is the last resume's until a plan is stored |
| Progress.RunIsBounded | backend/workflow.py:231-828 | every workflow step but a flushed delta uses up a rank, whatever the user does, so runs are bounded by their budget |
| Liveness.WorkflowGoesOnIff | backend/workflow.py:231-828 | in every reachable state the workflow can take a step towards its end if and only if it is neither done nor parked with neither signal set |
| Liveness.RunsCanFinish | backend/workflow.py:231-828 | every run can be brought to its end or to a pause by its workflow alone, in no more steps than its rank |
| Liveness.PauseParks | backend/workflow.py:776-783 | a pause asked for before the optimizer looks parks it |
| Liveness.LatePauseParks | backend/workflow.py:784-790 | one asked for while the optimizer's stage is set parks it too |
| Liveness.WakingLooksAtCancelFirst | backend/run_manager.py:724-735 | a parked workflow stops with a cancel even if it was resumed as well |
| Progress.BudgetBoundsSupersteps | backend/workflow.py:98-136 | at most 4n - 1 supersteps and 2n generation streams for n iterations; 19 for five, under the recursion limit |
| Progress.LateResultsAreRejected | backend/workflow.py:320-328 | once the cancel signal is set no later step of any node adds a version, a review, a plan or any text |
| Cancelling.SignalledRunsEndCancelled | backend/workflow.py:114-193 | once a request on record is signalled the run is never anything but requested or cancelled, and cancelled when its workflow is done |
| Cancelling.CancelStopsSoon | backend/workflow.py:195-203 | once the signal is set at most one more superstep and two more streams start |
| Cancelling.NodesLookAtCancel | backend/workflow.py:195-203 | on entering a node and inside each commit of its result a cancelled workflow raises and stores nothing |
| Cancelling.LateAnswersRaise | backend/workflow.py:204-229 | an answer that comes after the signal gets no further |
| Cancelling.NoReviewStarts | backend/workflow.py:501-503 | once the signal is set no reviewer calls a provider that was not calling it already |
| Cancelling.EveryCancelIsHeard | backend/run_manager.py:539-571 | every cancel of a run that has not ended, a repeated one too, is recorded, signalled and finalized |
| Cancelling.DeadlinesAreSeen | backend/workflow.py:195-203 | a passed deadline is seen at the same points and faults the node |
| Generation.StreamGeneration | backend/workflow.py:359-439 | every character streamed is in exactly one delta commit, in order, each made as soon as 128 code units or 50 milliseconds have gathered or at the end; the last reported usage is kept |
| Generation.FlushesSpellTheText | backend/workflow.py:457-480 | committing those deltas leaves exactly the streamed text in the snapshot, one event each |
| Generation.FirstFailureIsRetried | backend/workflow.py:245-305 | an attempt that breaks off with a retryable error is recorded, and a second stream opens for the same document from an empty text |
| Generation.SecondFailureIsFinal | backend/workflow.py:245-305 | a second failure, or one not worth a retry, ends the workflow as faulted |
| StructuredCall.CallIsPaidFor | backend/workflow.py:565-620 | what a structured call obtains is its last reply's value, at the price of every answer received for it |
| StructuredCall.CallStructured | backend/workflow.py:565-620 | the retry loop and the repair: which replies it receives in which order, and that price |
| PauseClock.TimeIsSplit | backend/run_manager.py:736-747 | active and paused time split a run's time and neither is negative |
| PauseClock.Clock.ActiveElapsed | backend/run_manager.py:736-744 | what is returned is the time not spent paused, plus the gap between the two clock readings while paused |
| PauseClock.Clock.Wake | backend/run_manager.py:521-523 | resuming banks the stretch since the park, if one is recorded |
| EventStore.MemoryReplayIsExact | backend/event_store.py:73-84 | the bounded cache returns the exact log suffix, or expires exactly when an event after the cursor was evicted |
| EventStore.MemoryEventStore.Append | backend/event_store.py:47-71 | appends to the log under the next number; the deque stays its newest part |
| EventStore.MemoryEventStore.Replay | backend/event_store.py:73-84 | the class's replay against its whole log |
| EventStore.ReplayIsComplete | backend/event_store.py:261-301 | a replay is all of the cache after the cursor when that reaches back and all of the table otherwise, in strictly increasing order and with every durable event; it expires exactly when there are durable events and neither source reaches back |
| EventStore.StoreIsAlwaysComplete | backend/event_store.py:191-301 | the same, expiry included, after any history of appends, evictions and restarts, with the rows exactly the durable events |
| EventStore.RecentIsComplete | backend/event_store.py:229-301 | a client that comes back before more events were appended than the cache holds is replayed all of them, deltas included |
| EventStore.RestartIsWarm | backend/event_store.py:209-227 | a restart warms the cache with as many of the newest rows as fit and numbers on past both sources |
| EventStore.SqliteEventStore.constructor | backend/event_store.py:191-227 | opening over a table keeps the retained runs' rows only and warms each cache from its newest rows |
| EventStore.SqliteEventStore.Append | backend/event_store.py:229-259 | deltas take a number and a cache slot but no row |
| EventStore.SqliteEventStore.Replay | backend/event_store.py:261-301 | the class's replay is complete for durable events |
| StoredLog.FirstDurableNeverExpires | backend/event_store.py:261-301 | a history that opens with a durable event never expires, for any cursor, whatever follows |
| StoredLog.RunCanBeReplayed | backend/event_store.py:229-301 | every reachable run's log, in a cache of any size and after any restarts, replays completely from every cursor |
| Subscriber.DeliveryIsExact | backend/event_store.py:86-122 | for any interleaving yielded sequences strictly increase and every durable event between start and cursor was yielded once |
| Subscriber.WaitingMeansCaughtUp | backend/event_store.py:86-122 | a subscriber with nothing to replay has yielded every durable event there is |
| RunStore.EvictableRunIds | backend/run_store.py:52-61 | exactly the oldest terminal runs needed, ties by id, never an active one |
| RunStore.EvictionMakesRoom | backend/run_store.py:63-79 | evicting them leaves room or no terminal run, and every active run |
| RunStore.RunStore.MakeRoom | backend/run_store.py:272-275 | map, locks and table lose the same runs, and then the incoming runs fit or only active runs remain |
| RunStore.RunStore.CleanupExpired | backend/run_store.py:298-301 | exactly the terminal runs whose time to live has passed are removed |
| RunStore.RunStore.Create | backend/run_store.py:277-283 | a duplicate, a full store or a failed write leaves map and table as they were |
| RunStore.RunStore.constructor | backend/run_store.py:202-244 | loading settles every unfinished run as failed, stamped when it is read, and keeps the runs with the newest stamps up to the limit |
| RunStore.RunStore.LoadSnapshots | backend/run_store.py:202-225 | the loop over the rows fills map and locks and collects the interrupted runs |
| RunStore.RunStore.Update | backend/run_store.py:285-286 | saving writes one run through to the table |
| Survivors.EndedRunsGoFirst | backend/run_store.py:202-244 | on a load, runs that had ended go before any interrupted one |
| Survivors.InterruptedSurvive | backend/run_store.py:202-244 | of two interrupted runs the one read later survives first |
| Survivors.NewestInterruptedSurviveIff | backend/run_store.py:202-244 | the last updated interrupted runs survive if and only if the ended runs suffice, or nothing is kept |
| Survivors.NewestStoredSurviveIff | backend/run_store.py:202-244 | while the ended runs suffice, the newest by stored time survive exactly when enough ended runs are no newer than every interrupted one |
| Survivors.NewestStoredLostIff | backend/run_store.py:202-244 | when they do not suffice, exactly when no run is newer than any interrupted one |
| Survivors.NewerInterruptedIsLost | backend/run_store.py:202-244 | two interrupted runs, room for one: the last updated is lost |
| Survivors.NewerEndedIsLost | backend/run_store.py:202-244 | a finished and an older interrupted run, room for one: the finished one is lost |
| Survivors.EndedGoInOrder | backend/run_store.py:52-61 | of ended runs the one updated first goes first, ties by id |
| RunStore.LoadMakesTerminal | backend/run_store.py:202-244 | after a load every run is terminal and at most the limit remain |
| RunStore.RunStore.Remove | backend/run_store.py:288-296 | map, lock and table lose the run together |
| RunStore.SecondLoadIsIdle | backend/run_store.py:202-244 | loading what a load left, at any later time, changes nothing |
| Reducer.NormalizedCountsAgree | src/lib/contracts.ts:80-118 | counting after normalizing agrees with the server's count exactly when no finding is blank |
| ShownFindings.NormalizeIsLegible | src/lib/contracts.ts:106-118 | normalizing shows exactly the findings that are not blank, each once and in order |
| Reducer.DraftsOnlyAdvance | src/lib/runReducer.ts:615-654 | whatever events come, no draft is lost or set back and a finished one takes no more text |
| Reducer.OwnBestIsEarliestMaximum | src/lib/runReducer.ts:693-722 | scores that come without a best leave the client to keep the earliest highest |
| Reducer.LoadingKeepsFinished | src/lib/runReducer.ts:836-850 | loading never shows a finished document as unfinished |
| Reducer.CompletedIsShownPassed | src/lib/runReducer.ts:487-516 | a completed run is shown as passed also without a stored evaluation |
| Reducer.UncombinedCountsAlike | src/lib/runReducer.ts:72-86 | an evaluation stored without its combined list is counted alike from its three reviews |
| Reducer.RepeatsAreIgnored | src/lib/runReducer.ts:883-891 | any delivery with old and repeated events in between shows what the events show once each |
| Reducer.EndedIgnoresAll | src/lib/runReducer.ts:883-891 | nothing moves a view that shows a terminal status |
| Reducer.BestFromSnapshot | src/lib/runReducer.ts:449-475 | the stored best or the scan over the versions, computed in one pass |
| Reducer.CollectReviews | src/lib/runReducer.ts:338-366 | the review entries collected version by version, then the current round's |
| Reducer.SeedDrafts | src/lib/runReducer.ts:817-849 | one finished draft per version and the in-flight draft under the code's guards |
| EventMeaning.StepIsExplained | backend/workflow.py:231-828 | every step of the protocol is silent to a client or appends exactly one event from which the whole shown change can be read off |
| Simulation.RecomputedBestAgrees | src/lib/runReducer.ts:449-475 | in every reachable state the client's own scan finds the best the server stored |
| Simulation.LoadShowsIdeal | src/lib/runReducer.ts:817-876 | loading a reachable snapshot shows the server's state if and only if its partial text does not equal the last version and no finding is blank |
| LiveView.DraftsFollow | src/lib/runReducer.ts:615-669 | an event takes the shown drafts from one state's to the next state's |
| LiveView.BoardFollows | src/lib/runReducer.ts:600-802 | an event takes status, reviews, scores, best and outcome from one state's to the next state's |
| LiveView.ClientSimulatesServer | src/lib/runReducer.ts:589-891 | a clean snapshot plus the later events, repeats included, shows the server's state up to and including the terminal event, and equals loading the later snapshot exactly when that one is clean |
| LiveView.FinishedDraftsStayExact | src/lib/runReducer.ts:589-891 | from any snapshot and whatever subset of deltas is dropped, finished drafts and status are the server's; so is the rest but the draft in flight when no finding was blank |
| ShownReviews.ClientShowsReviews | src/lib/runReducer.ts:338-366 | from any snapshot and whatever deltas are dropped, a review of a version is shown exactly when the server has one, with its role, its score and all its findings but the blank ones, in order |
| Recovery.UncleanStartRecovers | src/lib/runReducer.ts:589-891 | a client started from any snapshot shows a later state if and only if no finding was blank and a collided draft has since been reset or finished |
| Recovery.BoardIsShownIff | src/lib/runReducer.ts:693-722 | reviews, scores, best and outcome are shown exactly without a blank finding at the start: a badge is never recounted |
| Recovery.DraftsAreShownIff | src/lib/runReducer.ts:615-669 | the drafts are shown exactly when none was missed or the text was rewritten since |
| Recovery.CleanIsWhereToStart | src/lib/runReducer.ts:817-891 | a snapshot is a sound start for all later states exactly when it is clean |
| Reconnection.FirstRestartSettles | backend/run_store.py:202-225 | whatever the number of restarts, an unfinished run is settled by the first and an ended one never |
| Reconnection.ReconnectShowsServer | backend/main.py:167-176 | loading any snapshot of a run and replaying the store from its cursor, after any restarts, shows the finished drafts and the status the log ends with; that is the server's if and only if no restart has happened or the run had ended, and the rest is if and only if also no finding was blank |
| Reconnection.ReloadShowsServer | src/lib/runReducer.ts:817-876 | loading the run again after any restarts shows the server's status and finished drafts, and the rest but the draft in flight exactly without a blank finding |
| Reconnection.InterruptedRunLooksAlive | backend/run_store.py:202-225 | a whole run exists whose client, reconnecting after a restart, shows it generating while the server has failed it |
| LiveView.CollisionHappens | src/lib/runReducer.ts:836-850 | any later generation can stream exactly the last version's text, and loading then loses the draft in flight |
| LiveView.BlankFindingMiscounts | src/lib/runReducer.ts:72-86 | a blank must-fix finding counts for the gate and not for the badge |
| Rehearsal.CollisionIsReachable | src/lib/runReducer.ts:836-850 | a whole run exists, without blank findings, whose second document starts like its first and whose snapshot does not show the server's state |
| Rehearsal.BlankFindingIsReachable | src/lib/runReducer.ts:72-86 | a whole run exists, without colliding text, whose snapshot does not show the server's state: a blank finding was scored |
| Rehearsal.ParkedIsNotAlwaysPaused | backend/run_manager.py:539-556 | a whole run exists that is parked with neither signal set and shows `CANCEL_REQUESTED` |

## Left out

- Providers, prompts, language detection, HTTP adapters, routes, stream framing, React components and downloads: foreign calls and I/O.
- SQLite and JSON: a table is a map, each commit of it atomic; a run's rows are kept in insertion order, which is proved to be ascending.
- Timestamps, logging, cost estimates, `elapsed_seconds` in the snapshot, shutdown, heartbeats and coroutine handles.
- `node_statuses`, `active_node`, `pendingRevisionPlan`, `selectedVersion`, `STATUS_UPDATED` and connection state: the live and the snapshot path treat them differently on purpose.
- The source and target of a revision plan in the client: the plan's own `iteration` is supplied by a model.
- The text of findings, summaries and plans: a finding is its severity and whether it is blank; legacy string findings and missing payload fields of older servers are not modelled.
- Thresholds finer than a tenth; score, length and iteration bounds of the request schema; the 100-point scale.
- The workflow's nodes are a step relation rather than methods, because they interleave at every commit; in-place mutation of one shared snapshot object between commits is not captured.
- `create_run` with its capacity, admission and provider binding, and the cleanup loop around the run store.
- The snapshot's fields are grouped into documents and spending; the two signals of a run are membership in two sets.
- The two copies of the table and the walk in the two diff files are stated once, over any element type.
- Unicode white space beyond the characters listed in `Markdown`.
- Survivors.NewestInterruptedSurviveIff: assumes clock readings that rise from row to row and lie after every ended run's last update; a wall clock that is set back during a load is not covered, though the load itself is modelled for any readings.
- Survivors.NewestStoredSurviveIff: assumes the same clock.
- Survivors.NewestStoredLostIff: assumes the same clock.
- Reconnection.ReconnectShowsServer: is about restarts that keep the run; a run evicted on a load loses its events too, and is not found.
- Subscriber: the wait with its heartbeat is any number of turns of others; whether the last event is yielded before closing is not claimed.
- Generation.StreamGeneration: validation and trimming of the finished text, finish reasons and the deadline are inputs of the protocol instead.
