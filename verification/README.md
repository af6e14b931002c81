# Eventboat, verified

A Dafny model of Eventboat's durable execution spine, its group-commit writer, and the
graph, explain and scheduling algorithms around them, with machine-checked proofs of what
the design promises. `dafny verify dfyconfig.toml` checks the whole project.

## The system, and how it is modelled

**The spine.** An inbound message takes an admission slot, is appended to a durable spool,
is registered with the commit tracker, and fans out through a DAG; each branch ends in a
sink acknowledgement, a durable dead letter, a filter, an optional drop, or (for a row whose
entry node is gone) as undeliverable. The checkpoint crosses only a contiguous prefix of
finished messages, and a source's watermark is posted only after that checkpoint is durable.
A restart replays the spool beyond the checkpoint.

- `Commit` is the tracker as functions on values; `CommitTracker` is the same tracker as the
  mutable object it is, each method proved equal to its function. `Persistence` holds the
  checkpoint barrier with retention, the per-source watermark committer, and the stamps that
  steer replay. `Nodes` has the loops that call the tracker: fan-out, transforms, sink
  batches, admission. `Spool` is the reference store and its pages; `Abandon` walks those
  pages against the tracker, and `AbandonRuns` discharges its conditions over runs.
- `Spine` composes all of it into a state machine: durable state (rows, checkpoint,
  watermarks, dead letters, acknowledgements), volatile state (tracker, executions, gate,
  ledger, admissions, replay cursor, owed callbacks, committers), any interleaving of the
  engine's atomic sections, failing store writes, and a crash at any step, between the
  checkpoint write and the trim included. `SpineInvariant`, `SpineSteps` and `SpineRuns` prove
  the invariant step by step and then the theorems over every run. `SpineOrderly` has no loss without holding injections back, `SpineGate` that the
  admission gate cannot wedge, `SpineQuiet` the reads of Quiesced one after the other,
  `SpineEdges` what becomes of every edge a message matched and every output a transform
  returned, `SpineEntries` where rows enter and where watermarks come from. `SpineFindings` and `SpineWedge` give runs that end where a guarantee stops.

**The group-commit writer.** `GroupCommit` and `GroupStore` say what a drained queue is
planned into and what one committed transaction leaves, with numbered rows and retention
sweeps; `GroupEquivalence` compares that with committing the requests one by one.
`GroupWriter` is the writer's code over mutable fields; `WriterRuns` is the writer under
every interleaving of callers, failed transactions and shutdown; `WriterOrigins` traces each
stored value to the batch it was folded in, `WriterRefines` relates those runs to a
sequential store and says what a verdict means, `WriterDrain` runs a closed writer to its
end, and `WriterFindings` gives runs that end where a promise stops.

**Graph, meaning, explain.** `Graph` has cycle detection, topological order and the two
reachability walks as searches over mutable sets. `Dataflow` has the recursive meaning of a
graph and the concurrent engine over bounded channels; `DataflowRuns` proves schedule
independence, progress and termination, `DataflowBounds` that channels, workers and batches
keep their bounds; `DataflowRoutes` says without recursion what the outcomes are: the ends of
routes over edges whose conditions hold. `Explain` relates the dry-run walk to that meaning.

**Jobs.** `Jobs` has the schedule bisection and the catch-up decision, `JobRuns` run
admission under `overlap: skip` with crashes and restarts.

## Where the code gives less than its comments

Each of these is a proved statement, not an opinion.

- Injection is enabled before replay is over (engine.go:677, admission.go:269). A row
  injected early is registered a second time by the scan, which resets its count while its
  first branches are open: `SpineFindings.EarlyInjectionLoses` is a run that loses a required
  delivery. `SpineFindings.RegistrationConservesIff` is the exact condition at the call, and
  a run in which each registration meets it loses nothing, early injections or not:
  `SpineOrderly.OrderlyRunsLoseNothing`. Runs whose injections wait until replay is over are
  among those (`SpineOrderly.LateRunsAreOrderly`); the theorems of `SpineRuns` are about them.
- Early injections can also wedge the engine, against the comment at admission.go:39-41. What
  they injected finishes, is held back by a row replay has yet to register, and keeps the
  slots replay needs: `SpineWedge.EarlyInjectionWedges`. Without them the gate never wedges:
  `SpineGate.GateNeverWedges`.
- The flush position can move backwards when a checkpoint write fails below it, against the
  comment at engine.go:530-532: `Persistence.AttemptRegressesIff`, with the failing input in
  `Persistence.AttemptRegresses`.
- The checkpoint write and the trim are two transactions. A crash between them leaves any
  number of rows behind the checkpoint until the next run's first flush:
  `Persistence.CrashBeforeTrim`; `SpineRuns.RetentionBetweenIff` is the exact condition in
  between, `SpineRuns.RetentionOverRuns` the bound after every completed flush.
- A stop during replay counts as replay done, so Quiesced can answer true over an undispatched
  row: `SpineFindings.StoppedReplayLooksQuiet`; `SpineRuns.QuiescedIsSound` has the exact
  condition.
- Restart seeding moves the cursor without sweeping: `Commit.ResumeKeepsMaximalIff`, and
  `Commit.ResumeLeavesDrained` for a tracker on which that shows. With injections that wait
  for replay the engine only ever seeds a tracker nothing has touched, where it is harmless:
  `SpineRuns.ResumeFindsFreshTracker`.
- A message once injected at an inner node and injected again at a source re-enters at the
  inner node after a crash: `Persistence.ReplayReentersIff`, and the run
  `SpineFindings.StaleStampWins`.
- A waiter at or below the mark that was folded with a larger request shares the fate of the
  transaction: `WriterRuns.AnsweredAheadIff`, and the run `WriterFindings.CoveredYetRejected`.
- The writer's marks live as long as the store handle while a run numbers its emissions from
  one again, so a new run's source state may be answered with success and not stored; the
  same goes for a non-positive frontier: `GroupStore.StateStoredExactly`, and the run
  `WriterFindings.LowerStateDropped`.
- Reopening forgets the marks, so a lower checkpoint overwrites a higher one:
  `GroupStore.ReopenRegressesIff`, and the run `WriterFindings.ReopenRegresses`. The engine's
  own guard prevents such a write.
- Grouping can be observed in two ways, and in no other:
  `GroupEquivalence.GroupingIsUnobservableIff`. A tie between source states keeps the later
  request inside a group and the earlier one across groups (`GroupEquivalence.TieShows`). A
  group inserts its rows before it executes its statements (writer.go:479-487), so a sweep
  queued ahead of an append can delete the row that append gets, both callers being answered
  with success (`GroupEquivalence.SweepSwallowsAppend`, and the run
  `WriterFindings.AppendSweptWithSuccess`). The engine sweeps behind its checkpoint only,
  which rules the second one out: `GroupEquivalence.SweepsBehindAreAlike`.
- Over whole runs the same holds, except that what a tie leaves depends on which requests
  were drained together: the same two successes leave either state
  (`WriterFindings.TiesApart`, `WriterFindings.TiesTogether`). `WriterRefines.StoredPair` says
  which one, and `WriterRefines.RefinesExactlyIff` when the store is the sequential one.
- `explain` follows the first of several outputs only, and prints nothing at a node without
  out-edges: `Explain.ExplainIsMeaningIff`, with a split message in
  `Explain.SplitIsHalfExplained`.
- Under `overlap: skip`, a failed terminal write leaves a runnable record behind, and a
  restart resumes it beside the next run: `JobRuns.FailedWriteOverlaps`. A start can lead to
  two active runs exactly when it reads more than one runnable record:
  `JobRuns.StartKeepsOneIff`.

## Model

| member | source | states |
|---|---|---|
| SpineRuns.NoLoss | internal/engine/engine.go:527-764 | In every state of every run with crashes at any step, an accepted row at or below the durable checkpoint ended on every branch acknowledged by the sink of its edge, recorded as a durable dead letter, filtered by what its edges or a transform answered, dropped on an optional edge, or undeliverable because it names no node (or was canceled with a durable dead letter), and a row beyond it is still in the spool; rows from unnumbered emissions included, injections held back until replay is over |
| SpineOrderly.OrderlyRunsLoseNothing | internal/engine/admission.go:109-282 | The same without holding injections back, and with emission numbers used again: in every run in which each registration finds no branch of its row open, below the cursor included |
| SpineOrderly.LateRunsAreOrderly | internal/engine/engine.go:669-770 | When injections wait for replay and numbers are not used again, every registration finds no open branch |
| SpineRuns.WatermarkBehindCheckpoint | internal/engine/engine.go:534-581 | Every item of a source's input at or below its durable watermark was accepted as a row at or below the durable checkpoint and is settled, whatever order advances flush in and whichever writes fail |
| SpineEntries.WatermarkReaches | internal/engine/sourcecommit.go:59-126 | A completed flush posts what it owed, and a state write that succeeds moves the watermark at least that far; a failed one moves nothing |
| SpineEntries.PostIsMax | internal/engine/sourcecommit.go:59-76 | Posting keeps the highest positive frontier of each source and forgets none |
| SpineRuns.CheckpointNeverDecreases | internal/engine/engine.go:536-576 | Over any stretch of history, restarts included, the stored checkpoint does not decrease and only rows at or below it leave the spool |
| SpineRuns.RetentionOverRuns | internal/engine/engine.go:536-576 | With a crash possible between checkpoint write and trim, fewer than 2R rows remain at or below the checkpoint after every completed flush of every run, when one retention R is kept and trims succeed |
| SpineRuns.RetentionBetweenIff | internal/engine/engine.go:536-576 | Between the checkpoint write of a flush and its trim, the bound holds exactly when the advance stays within two windows of the last trim |
| SpineRuns.WindowOverRuns | internal/engine/engine.go:555-576 | In every state of every run that keeps one retention R, whichever writes fail, every row with a sequence above checkpoint - R is still in the spool |
| SpineRuns.BranchConservation | internal/engine/engine.go:1216-1254 | In every reachable state a registered message's count is the number of its open branches, wherever they are, stranded ones included; and it leaves the tracker only with none open or with a durable cancellation |
| SpineEdges.EdgesAreCarried | internal/engine/engine.go:1216-1254 | In every reachable state, each time a message was sent out on an edge it was turned into outputs at the far end or one of its branches is on, or ended on, that edge; each message that left a node was fanned out or still waits |
| SpineEdges.SentBranchesEndWell | internal/engine/nodes.go:51-276 | Once no branch of a row is open, what was sent out on a required edge was turned into outputs, acknowledged by that edge's sink, dead-lettered durably or filtered by that edge's transform; only what was sent out on an optional edge may have been dropped |
| SpineEdges.BranchOffers | internal/engine/nodes.go:187-276 | At a sink an instance can be acknowledged or dead-lettered, and dropped exactly on an optional edge; a transform may return any number of outputs; a message may leave a node over any of its edges |
| SpineEntries.EntriesFollowStamps | internal/engine/admission.go:109-260 | In every reachable state a message yet to enter the graph goes into the node its row's injection stamp names, or out of its row's source |
| SpineEntries.UndeliverableNamesNone | internal/engine/engine.go:723-770 | Only a row whose stamps name no node of the pipeline is given up as undeliverable |
| SpineRuns.PrefixIsMaximal | internal/engine/commit.go:196-222 | In every reachable state the prefix is stopped by the last arrival, a live message or a hole, and openBranches is the sum of the positive counts |
| SpineRuns.FrontierIsLongestPrefix | internal/engine/commit.go:338-376 | In every reachable state a source's frontier is the longest 1..f of this run's emissions that arrived and whose rows the prefix crossed |
| SpineRuns.SlotConservation | internal/engine/admission.go:115-231 | Slots taken are ledger entries plus admissions short of the ledger plus slots on their way back; giving one back never blocks; deliverable registered messages and rows in hand together never outnumber the high watermark |
| SpineGate.GateNeverWedges | internal/engine/admission.go:39-231 | In every reachable state with every slot taken and no stop asked for, a step that moves a message or its slot along is enabled |
| SpineWedge.EarlyInjectionWedges | internal/engine/admission.go:109-231 | A concrete run: a message injected before replay is over finishes and keeps the slot that the row below it needs; nothing the engine does on its own is enabled any more |
| SpineRuns.QuiescedIsSound | internal/engine/engine.go:941-950 | A true Quiesced means the prefix covers every accepted row exactly when no row is left unscanned by a replay that was cut short; then all are settled and persistence of that very prefix was attempted |
| SpineQuiet.QuiescedReadsAreSound | internal/engine/engine.go:941-950 | With the engine going on between the reads, a true Quiesced means that the rows accepted before the admissions were read are all below the prefix exactly when none was left unscanned by a replay cut short; then all are settled and persistence was attempted for a prefix that covers them |
| SpineRuns.ResumeFindsFreshTracker | internal/engine/engine.go:623-637 | In every reachable state before replay has started the tracker is as constructed, so seeding it leaves the prefix maximal |
| SpineRuns.StepKeeps | internal/engine/engine.go:669-830 | Every step of the spine keeps the invariant when injections wait for replay to be over |
| SpineFindings.EarlyInjectionLoses | internal/engine/admission.go:264-282 | A concrete run: a message injected before replay is over ends below the durable checkpoint with a required sink never served and nothing recorded |
| SpineFindings.RegistrationConservesIff | internal/engine/commit.go:80-94 | A registration leaves the count equal to the open branches exactly when the sequence had no open branch before |
| SpineFindings.StoppedReplayLooksQuiet | internal/engine/engine.go:744-770 | A concrete run: after a stop during replay Quiesced answers true although an accepted row was never dispatched |
| SpineFindings.StaleStampWins | internal/engine/admission.go:248-260 | A concrete run: a message injected at a source with the stamp of an older injection, crashed before dispatch, is replayed into the stamped node alone |
| Commit.StopFrom | internal/engine/commit.go:196-213 | The first sequence that is neither drained nor marked, with everything before it passable |
| Commit.HoleBarrier | internal/engine/commit.go:121-159 | A count change crosses a sequence only if it is registered and drained at the call's end, or marked; registered ones it crosses are reported to the commit hook |
| Commit.ForceBarrier | internal/engine/commit.go:167-180 | A forced removal crosses, past the message it removes, only drained or marked sequences; the drained ones are reported and the removed one is not |
| Commit.AddReports | internal/engine/commit.go:121-159 | The commit hook gets exactly the registered sequences crossed and a message that ended below the cursor, which is forgotten; the advance hook gets the cursor and all frontiers as they are afterwards |
| Commit.StragglerSweeps | internal/engine/commit.go:131-156 | A message that ends below the cursor takes every source reference under the cursor with it, and a reference taken makes the advance hook run |
| Commit.AddKeeps | internal/engine/commit.go:121-159 | Any delta, on either side of the cursor, keeps openBranches the sum of positive counts and leaves the prefix maximal |
| Commit.AdvanceKeeps | internal/engine/commit.go:196-222 | An advance ends maximal, crosses only drained or marked sequences, and commits exactly the registered ones it crossed |
| Commit.ArrivedKeeps | internal/engine/commit.go:80-94 | A registration keeps the tracker valid and the prefix maximal |
| Commit.ForceTerminalKeeps | internal/engine/commit.go:167-180 | A forced removal keeps the counter exact and leaves the prefix maximal |
| Commit.ResumeKeepsMaximalIff | internal/engine/commit.go:300-309 | Restart seeding leaves the prefix maximal exactly when the first sequence past the checkpoint is not already passable |
| Commit.ResumeLeavesDrained | internal/engine/commit.go:300-309 | On a tracker whose sequence 2 is registered and drained, seeding at 1 stops short of it |
| Commit.InsertKeepsOrder | internal/engine/commit.go:104-115 | An out-of-order registration is spliced in without losing a reference or the order by sequence |
| Commit.HeadIsExact | internal/engine/commit.go:227-250 | On the sorted queue, popping the head removes exactly the references at or below the sweep point |
| Commit.ArrivedExact | internal/engine/commit.go:80-115 | A live registration keeps every frontier the longest swept prefix and the queue exact |
| Commit.UnnumberedExact | internal/engine/commit.go:80-94 | Registering a row without an emission number lowers no frontier and changes nothing the frontiers say about numbered emissions |
| Commit.SweepExact | internal/engine/commit.go:227-250 | A sweep keeps every frontier the longest swept prefix 1..f and lowers none, although it deletes what it crossed |
| Commit.AddExact | internal/engine/commit.go:121-159 | Every count change, stragglers included, keeps the frontiers exact and monotone |
| Commit.ForceTerminalExact | internal/engine/commit.go:167-180 | A forced removal keeps the frontiers exact and monotone |
| CommitTracker.Tracker.Arrived | internal/engine/commit.go:80-94 | The object's new state is the registration of the old one |
| CommitTracker.Tracker.AddSrcRef | internal/engine/commit.go:104-115 | The append fast path and the binary search with its splice put the reference in its sorted place |
| CommitTracker.Tracker.Add | internal/engine/commit.go:121-159 | State and callbacks are those of the specified count change, with the straggler path |
| CommitTracker.Tracker.ForceTerminal | internal/engine/commit.go:167-180 | State, callbacks and the returned openness are those of the specified forced removal |
| CommitTracker.Tracker.Scan | internal/engine/commit.go:196-213 | The in-place scan stops at the specified sequence, deletes exactly what it crossed and reports the registered ones in order |
| CommitTracker.Tracker.Advance | internal/engine/commit.go:196-222 | Scan and sweep together are the specified advance |
| CommitTracker.Tracker.SweepSrcRefs | internal/engine/commit.go:227-250 | Popping, grouping and settling together are the specified sweep |
| CommitTracker.SrcTracker.Committed | internal/engine/commit.go:344-370 | The three loops move the frontier to the end of the run that arrived and committed and forget exactly that run |
| CommitTracker.Tracker.Snapshot | internal/engine/commit.go:316-320 | The constant-time counter is the true sum; zero means no message has an open branch |
| CommitTracker.Tracker.IsOutstanding | internal/engine/commit.go:276-281 | True exactly for a registered message with open branches |
| CommitTracker.Tracker.ResumeFrom | internal/engine/commit.go:300-309 | The object's new state is the seeded one |
| Persistence.PersistIsSafe | internal/engine/engine.go:527-582 | One advance never lowers the checkpoint, moves it only to a value written, never trims beyond it, and posts frontiers only behind a durable checkpoint |
| Persistence.RetentionBound | internal/engine/engine.go:555-576 | With successful trims, fewer than two windows lie between the trimmed position and the checkpoint after every advance |
| Persistence.WindowIsKept | internal/engine/engine.go:555-576 | One advance leaves the trim position or moves it to exactly checkpoint - R; it does move when the sweep is due, has something to take and succeeds |
| Persistence.CrashBeforeTrim | internal/engine/engine.go:536-576 | A retention of 10, an advance of 20 and a crash before the trim leave 30 rows behind the checkpoint |
| Persistence.AttemptRegressesIff | internal/engine/engine.go:536-551 | The flush position moves backwards exactly when a checkpoint write fails for an advance below it |
| Persistence.AttemptRegresses | internal/engine/engine.go:536-551 | Two failing advances, 10 then 8, lower it |
| Persistence.Persister.PersistCheckpoint | internal/engine/engine.go:527-582 | The fields and the store end as the specified advance, whose trim leaves the window behind the checkpoint (`Persistence.WindowIsKept`) |
| Persistence.Persister.ResumeCheckpoint | internal/engine/engine.go:623-637 | Seeding raises both barriers to the recovered checkpoint and establishes that the guard equals it |
| Persistence.SourceCommitter.Post | internal/engine/sourcecommit.go:59-76 | Keeps the highest frontier and never leaves unpersisted work without a wakeup, an attempt in flight or a failed attempt |
| Persistence.SourceCommitter.Begin | internal/engine/sourcecommit.go:107-113 | Takes the coalesced maximum and consumes the wakeup |
| Persistence.SourceCommitter.Finish | internal/engine/sourcecommit.go:114-126 | A failure keeps the pending frontier; a success stores exactly the one taken, never a lower one |
| Persistence.ReplayReentersIff | internal/engine/admission.go:248-260 | Replay re-enters a row where admission dispatched it exactly when it was admitted into the node or brought no stamp naming a known node |
| Nodes.AddUnits | internal/engine/commit.go:121-159 | A count change is exact on its message and invisible on every other |
| Nodes.FanOut | internal/engine/engine.go:1216-1243 | The edges delivered to are exactly those whose condition held, each once and in order, after the count is raised; the unit taken becomes exactly as many, or ends as filtered; other messages are untouched |
| Nodes.ProcessTransform | internal/engine/nodes.go:51-117 | The first attempt that did not fail decides: the unit becomes one unit for each output and edge that lets it through, or ends without outputs; if every attempt fails it is dead-lettered, or left uncommitted by a stop or an unrecorded dead letter |
| Nodes.WriteBatch | internal/engine/nodes.go:187-276 | An instance is acked exactly if it encodes and some attempt succeeded, dropped exactly if it encodes, no attempt succeeded, nothing stopped the attempts and its own edge is optional, recorded exactly if its record succeeded and it failed to encode or is required with no attempt succeeding, and stays otherwise; every message loses exactly its instances that do not stay |
| Nodes.Admission.Admit | internal/engine/admission.go:109-209 | Admission succeeds exactly with a slot in time and a sequence; it then holds one slot, is in the ledger, is registered, and a new row carries its replay stamps; a refusal leaves no trace, and slots never exceed the limit |
| Nodes.Admission.Release | internal/engine/admission.go:222-231 | A slot is given back at most once and never waited for |
| Nodes.ResolveEntry | internal/engine/admission.go:248-260 | The injection stamp wins over the source and a row naming no known node resolves to nothing; on what admission stamped it gives the admitted node back exactly when it was admitted into it or carried no stamp of a known node |
| Abandon.AbandonDrainsIff | internal/engine/engine.go:1086-1131 | A full Abandon leaves nothing outstanding exactly when every open message has its row beyond the prefix, and then the prefix reaches the last arrival exactly when there is no hole |
| Abandon.UnrecordedStay | internal/engine/engine.go:1099-1122 | What was not recorded keeps all its branches and stops the prefix |
| AbandonRuns.AbandonUnwedges | internal/engine/engine.go:1086-1131 | In every reachable state with replay complete and no admission in hand, a full Abandon leaves no open branch and takes the prefix to the last arrival |
| Abandon.Run | internal/engine/engine.go:1086-1131 | Succeeds exactly when the store answers every page read and every record, and has then recorded and forced out every open message with a row beyond the prefix, in order; a failed call recorded and forced out a prefix of them and used up its answers |
| Spool.MemStore.AppendSpool | internal/store/store.go:240-250 | A new row gets the next gap-free sequence |
| Spool.MemStore.SpoolWindow | internal/store/store.go:260-272 | The window is the first rows of the pipeline beyond the start, and more is reported exactly for a full page |
| Spool.MemStore.ReplayFrom | internal/store/store.go:274-284 | Visits all rows of the pipeline beyond the start, in order, until a callback fails |
| Spool.MemStore.ReplayPage | internal/store/store.go:286-301 | One bounded page, with the position reached when a callback fails |
| Spool.MemStore.ReplayPaged | internal/store/sqlite.go:240-251 | Page after page visits each row beyond the start exactly once, in order: what the one-shot form visits |
| Spool.Resume | internal/store/sqlite.go:258-303 | Restarting after the k-th row leaves exactly the rows after it |
| Spool.TrimmedReads | internal/store/store.go:303-320 | A retention sweep is invisible to other pipelines and to reads that start at or beyond it |
| Spool.PageVisits | internal/store/store.go:286-301 | A page visits the first rows beyond the start, as many as its limit and its callbacks allow; the position it reports, after a failing callback too, is where the rows not visited begin |
| Spool.MemStore.DeleteSpoolThrough | internal/store/store.go:306-320 | Drops exactly one pipeline's rows at or below the cutoff and counts them |
| GroupCommit.PlanConserves | internal/store/writer.go:392-440 | Every request of a batch lands in exactly one place of the plan |
| GroupCommit.PlanAppends | internal/store/writer.go:392-440 | The append chunks concatenate to the queue order, each of at most maxRows, only the last one short |
| GroupCommit.PlanEntries | internal/store/writer.go:392-440 | One entry per key, with that key's requests in order and its newest pair: largest rank, latest on ties, state and frontier together |
| GroupWriter.PlanWriteBatch | internal/store/writer.go:392-440 | The loop with its index maps computes that plan |
| GroupEquivalence.GroupingIsUnobservableIff | internal/store/writer.go:445-595 | Committing a batch as a group leaves the rows, statements, checkpoints and frontiers of committing its requests one by one; the stores are equal exactly when no key's largest new frontier came with two states and each appended row is swept grouped as it is swept one by one |
| GroupEquivalence.SweepsBehindAreAlike | internal/store/writer.go:479-487 | Sweeps that end below the next sequence, as the engine's do, delete the same rows either way |
| GroupEquivalence.SweepSwallowsAppend | internal/store/writer.go:479-487 | A sweep to 100 queued ahead of an append: one by one the row survives, grouped it is gone |
| GroupEquivalence.TieShows | internal/store/writer.go:392-440 | Two states for one frontier in one batch: grouped and one by one leave different stores |
| GroupStore.AloneIsItsGroup | internal/store/writer.go:463-510 | A group of one request does what a store that executes single requests does |
| GroupStore.AloneSweeps | internal/store/sqlite.go:318-324 | A sweep takes exactly its own pipeline's rows at or below its cutoff and leaves every other row as it was |
| GroupStore.CommitSweeps | internal/store/writer.go:479-487 | A transaction adds its rows from the next sequence on and leaves exactly the rows, old and new, that none of its sweeps names by pipeline and cutoff |
| GroupStore.ReopenRegressesIff | internal/store/writer.go:545-595 | After a reopen a checkpoint write lowers the stored value exactly when it is positive and below it |
| GroupStore.StateStoredExactly | internal/store/writer.go:531-595 | A source state reaches the store exactly when its frontier passes the handle's mark |
| WriterFindings.LowerStateDropped | internal/store/writer.go:520-541 | A concrete run: a second run's lower frontier is answered with success and its state is not stored |
| WriterFindings.ReopenRegresses | internal/store/writer.go:545-595 | A concrete run: over a store reopened at checkpoint 10 a write of 4 is stored |
| WriterRuns.ExactlyOnce | internal/store/writer.go:201-240 | In every run an accepted request is in exactly one place and no verdict is handed out twice |
| WriterRuns.AllAnsweredAtExit | internal/store/writer.go:304-343 | Once the writer has exited and shutdown has refused what it took, every accepted request has its verdict |
| WriterDrain.ClosedRunsMove | internal/store/writer.go:228-343 | After a close some step is enabled until the writer has exited and every refusal and signal is out |
| WriterDrain.ClosedRunsEnd | internal/store/writer.go:228-343 | From a close on a run is no longer than the work then left |
| WriterDrain.CloseAnswersAll | internal/store/writer.go:322-343 | A closed writer can always be run to its exit, and there every accepted request has its verdict |
| WriterDrain.ClosedStoreIsFinal | internal/store/writer.go:599-621 | From a close on the store does not change, not even by a transaction that was open, and success is told only to what had landed |
| WriterRefines.VerdictsTellTheTruth | internal/store/writer.go:463-541 | A nil verdict for an upsert means that the stored pair, state and frontier together, is one a success for that key asked for, at a frontier no smaller than the caller's and than any other success's; for rows and statements the verdict says exactly whether they were executed; a row answered with success landed under a sequence where the spool holds it, unless an executed sweep names its pipeline and a cutoff at or beyond that sequence |
| WriterFindings.AppendSweptWithSuccess | internal/store/writer.go:479-487 | A concrete run: a sweep and an append drained together are both answered with success and the row is gone |
| WriterRefines.RefinesSequentialStore | internal/store/writer.go:463-595 | In every run, failures and shutdown included, rows, statements, checkpoints and frontiers are what the requests answered with success leave when executed one by one in accept order; every value written is the whole pair of a success with the largest frontier; a key's value is the sequential one exactly when that frontier's earliest success and the latest request of its batch carry one state; the spool agrees wherever no executed sweep reaches a row of this handle |
| WriterRefines.RefinesExactlyIff | internal/store/writer.go:463-595 | When no sweep is queued beyond the rows already numbered, the spool is the sequential one, a row of this handle being gone exactly if an executed sweep names its pipeline and a cutoff at or beyond it; and the whole store is the sequential one exactly when every key's pair agrees |
| WriterRefines.OldRowsGoBySweep | internal/store/sqlite.go:318-324 | Over whole runs a row from before the store was opened goes exactly if an executed sweep names its pipeline and a cutoff at or beyond it |
| WriterRefines.StoredPair | internal/store/writer.go:392-595 | The stored pair is that of the latest largest request in the batch that was drained with the earliest success of the largest frontier |
| WriterRefines.OneStateAgrees | internal/store/writer.go:392-595 | If all successes at the largest frontier carry one state, the pair is the sequential store's |
| WriterFindings.TiesApart | internal/store/writer.go:520-541 | A concrete run: two successes with one frontier and two states, drained apart, leave the earlier state |
| WriterFindings.TiesTogether | internal/store/writer.go:392-440 | A concrete run: the same two successes, drained together, leave the later state |
| WriterRuns.AppendsLandInOrder | internal/store/writer.go:633-658 | Rows land in the order their requests were accepted, so successful appends are numbered in enqueue order |
| WriterRuns.NoLostWakeup | internal/store/writer.go:212-225 | A writer asleep with nobody about to signal has neither work nor a close to see |
| WriterRuns.AnsweredAheadIff | internal/store/writer.go:520-541 | A request is answered before the transaction exactly when every request of the batch for its key is at or below the mark |
| WriterFindings.CoveredYetRejected | internal/store/writer.go:520-541 | A concrete run: a checkpoint of 4, durable as part of 5, is queued with a 9 and rejected with it |
| WriterRuns.CommitLands | internal/store/writer.go:545-595 | A committed transaction lands every request it carried and takes nothing back |
| GroupWriter.Writer.ResolveSatisfied | internal/store/writer.go:520-541 | Answers the waiters of satisfied entries in order and unlinks them |
| GroupWriter.Writer.CommitGroup | internal/store/writer.go:463-510 | One transaction: store, marks and verdicts end as specified for its outcome |
| GroupWriter.Writer.Execute | internal/store/writer.go:445-458 | The statements ride the first chunk's transaction; the others follow in order |
| GroupWriter.Writer.InsertSpoolRows | internal/store/writer.go:633-658 | Counting back from the last id numbers the rows consecutively in queue order |
| GroupWriter.Writer.Shutdown | internal/store/writer.go:328-343 | Refuses exactly what is queued and wakes the writer |
| GroupWriter.TransactionRuns | internal/store/writer.go:463-510 | The code of one transaction is what the writer's steps from begin to the last verdict do |
| Graph.DetectCycle | internal/ir/ir.go:868-902 | A cycle is reported if and only if the resolved graph has one |
| Graph.TopoSort | internal/ir/ir.go:956-979 | A permutation of the nodes, each after all its upstreams if and only if the graph is acyclic |
| Graph.Resolve | internal/ir/ir.go:334-352 | Out-edges are exactly the resolvable references turned around, and an error is counted exactly when some reference is not resolvable |
| Graph.FeedsAre | internal/ir/ir.go:334-352 | The edges are exactly the references to nodes that are no sinks, and an error-free build has no other references |
| Graph.Build | internal/ir/ir.go:334-355 | Without reference errors, topo_cycle is reported exactly when the sorted order does not put every node after its upstreams |
| Dataflow.BuildDecidesWell | internal/ir/ir.go:334-355 | A net over the edges of an error-free build, ordered by its sorted nodes backwards, is well formed for the engine exactly when the build reported no cycle |
| Graph.TurnedCycles | internal/ir/ir.go:334-352 | Out-edges and in-edges have cycles together |
| Graph.DownstreamReaches | internal/ir/ir.go:1127-1153 | True if and only if a path meets a target with no barrier before it |
| Graph.UpstreamNodes | internal/ir/ir.go:1102-1120 | Exactly the nodes reachable against the edges, dangling references skipped |
| DataflowRuns.ScheduleIndependence | internal/engine/engine.go:1216-1254 | Whatever the interleaving over bounded channels, a run that comes to rest produced exactly the outcomes the recursive meaning gives its admissions |
| DataflowRoutes.OutcomesAreRoutes | internal/engine/engine.go:1216-1254 | At rest the outcomes are exactly the ends of routes of the admitted messages: over edges whose conditions hold, through transforms by one of their outputs, ending at a sink, a failed or empty transform, or where no edge lets the message through |
| DataflowRoutes.IntoIffRoute | internal/engine/engine.go:1216-1254 | The recursive meaning of a message holds exactly the ends of its routes |
| DataflowRoutes.MatchedEdges | internal/engine/engine.go:1218-1239 | A message leaves a node on exactly the out-edges whose condition holds, each once, in declaration order |
| DataflowRoutes.UnmatchedIsFiltered | internal/engine/engine.go:1233-1238 | A message that no edge of a node lets through is filtered there and nothing else comes of it |
| DataflowBounds.BoundsAreKept | internal/engine/nodes.go:33-178 | In every reachable state no channel holds more than its capacity, no node has more busy workers than workers, no batch exceeds its size |
| DataflowRuns.Progress | internal/engine/nodes.go:33-41 | With work in flight some transform or sink step is enabled despite full channels and busy workers |
| DataflowRuns.RunsEnd | internal/engine/nodes.go:105-116 | Without new admissions a run is at most as long as the work left, however many outputs each Apply returns |
| DataflowRuns.Settles | internal/engine/nodes.go:165-178 | Every state can be run to rest |
| Dataflow.StepKeeps | internal/engine/nodes.go:51-117 | No step changes the outcomes so far plus the outcomes to come |
| Dataflow.AdmitKeeps | internal/engine/engine.go:1193-1211 | An admission adds exactly its message's meaning |
| Explain.Walk | internal/explain/explain.go:93-186 | The walk with its edge loop describes the specified outcomes |
| Explain.ExplainIsMeaningIff | internal/explain/explain.go:93-186 | With every transform dry-run, a walk describes only outcomes the engine produces, and all of them exactly when each transform met yields at most one output and each node left has an out-edge |
| Explain.SplitIsHalfExplained | internal/explain/explain.go:119-139 | A transform with two outputs: the walk describes strictly less than is produced |
| Explain.ExplainsShown | internal/explain/explain.go:93-139 | A walk explains the graph in which a transform that is dry-run returns its first output only and any other passes messages through |
| Explain.ExplainedIs | internal/explain/explain.go:93-186 | So for any set of dry-run transforms a walk describes only outcomes of that graph, and all of them exactly when the message leaves no node without out-edges |
| Jobs.LastTickBefore | internal/jobs/jobs.go:287-304 | The bisection returns a tick in (after, now] within a second of the last one, and the last one when ticks are a second apart, in at most k + 1 probes for an outage of 2^k seconds |
| Jobs.MaybeCatchup | internal/jobs/jobs.go:245-285 | Fires the newest missed tick exactly when it lies in the window, and counts an episode exactly when a missed tick lies outside |
| JobRuns.AtMostOneActive | internal/jobs/jobs.go:355-441 | Under overlap: skip at most one run is active in every reachable state, crashes, resumes and failing writes included, when no start reads more than one runnable record |
| JobRuns.StartKeepsOneIff | internal/jobs/jobs.go:134-157 | From a start on no two runs can become active, on any schedule, exactly when it read at most one runnable record |
| JobRuns.WritesReadOne | internal/jobs/jobs.go:462-480 | While terminal writes succeed no start reads more than one |
| JobRuns.InFlightIsActive | internal/jobs/jobs.go:134-157 | While terminal writes succeed, after recovery and until a stop every record in flight belongs to an active run |
| JobRuns.InterruptedRunsAreRead | internal/jobs/jobs.go:134-157 | A run at work when the process dies has a pending or running record, failed writes or not, and the next start reads it; a start reads pending and running records and no other |
| JobRuns.StopIsABarrier | internal/jobs/jobs.go:165-188 | Once Stop returns no run is in flight, none is admitted and no record is created until another manager takes over |
| JobRuns.FailedWriteOverlaps | internal/jobs/jobs.go:462-480 | A concrete history: one failed terminal write, one more tick and a crash leave two runs active under overlap: skip |
| JobRuns.Manager.Spawn | internal/jobs/jobs.go:355-394 | Overlap check, parameter resolution, record and registration: a run is registered exactly when the set was empty, the inputs resolve, the record was written and the manager is not stopped |
| JobRuns.Manager.SpawnResume | internal/jobs/jobs.go:396-416 | Resume registers without an overlap check unless stopped; one whose parameters no longer resolve is written failed and never registered |
| JobRuns.Manager.Leave | internal/jobs/jobs.go:432-439 | The wait group reaches zero exactly when no run is registered |

## Left out

- NoLoss: assumes that injections wait until replay is over and that sources use an emission number at most once in a run; `SpineOrderly.OrderlyRunsLoseNothing` has it without either, under a condition that fails in `SpineFindings.EarlyInjectionLoses`. Proved for one engine per store with its own gate.
- FrontierIsLongestPrefix: says nothing about a source that uses an emission number again in the same run.
- WatermarkBehindCheckpoint: a source's Commit is taken at its word that the state it returns resumes right after the given frontier; the frontier is mapped to a position in the source's input.
- SlotConservation: rows whose entry node no longer exists take no slot and are not counted against the high watermark.
- QuiescedIsSound: takes Quiesced as one read of the state; `SpineQuiet.QuiescedReadsAreSound` takes its reads one after the other, and says nothing about rows accepted after the admissions were read. The sources-done flag is read as "started and none of their admissions left".
- RetentionOverRuns: a failing trim is excluded; until a later trim succeeds nothing bounds the rows left behind.
- ScheduleIndependence: transforms and edge conditions are deterministic and sink writes succeed; failing sinks, dead-letter retries and shutdown are in the spine's steps instead.
- VerdictsTellTheTruth: a commit whose outcome the driver reports wrongly is not modelled; a transaction commits or fails as a whole.
- AtMostOneActive: triggers come only after recovery, as the one caller that installs a manager guarantees.
- Spawn: `overlap: latest` and `overlap: all` are not modelled.
- Shutdown: the wait for the writer's exit is not part of the method; that the exit comes is `WriterDrain.CloseAnswersAll`.
- RefinesSequentialStore: where a sweep was queued beyond the rows already numbered, says nothing about the rows of this handle that it reaches; the engine queues none (`WriterRefines.RefinesExactlyIff`).
- GateNeverWedges: that a slot comes back needs the pipeline's own work to end, which is `DataflowRuns.RunsEnd` for acyclic graphs.
- LastTickBefore: a schedule always has a next tick; interval schedules relative to the query time are excluded, as is clock time-zone handling.
- Run: Abandon is proved to drain with no other tracker activity meanwhile; its interleaving with the running engine is part of the spine's steps (safety only), where it may record a message that has finished since it was read.
- Admit: one call at a time, with the end of its gate wait as an answer. The gate wait of a replayed row and its visit by the scan are one step in the spine; live and injected admissions wait in a step of their own.
- A batch write is one step per branch in the spine; the whole batch with its mixed edges is in Nodes.
- Spool sequences are consecutive per committed insert, as SQLite's AUTOINCREMENT gives them; SQL text, pragmas, file locks and time formats are not modelled.
- Codecs, expression languages, scripts, wasm, plugins and sink protocols are answers of unknown functions or nondeterministic outcomes.
- Backoff, timeouts, tickers and scheduler-yield probes are nondeterministic step choices.
- Concurrent engines on one store and the admission pool shared between runs: the tracker's contiguity does not hold there.
- Telemetry, spans, counters, tail, redaction, lint diagnostics other than reachability, configuration loading, CLI, LSP, MCP and the admin surface.
- Retention of dead letters and job runs, hooks, what parameters resolve to and skip_if_successful: real, but easy next to the rest.
- The source-to-sink path and orphan-node diagnostics of the topology check follow from the same reachability and are not restated.
