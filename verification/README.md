# apalis-diesel-postgres, verified

A Dafny model of a PostgreSQL task queue: workers claim tasks by marking rows,
start them, acknowledge them, and prove with a heartbeat that they are alive.
The model covers the protocol over the two tables `apalis.jobs` and
`apalis.workers`, what one process owes for the claims it holds, and the
sequential and concurrent parts around them.

To verify: `dafny verify dfyconfig.toml`.

## What is modelled

- **Rows** – one row of `apalis.jobs` and what every statement does to it.
- **Store** – both tables as a state machine. One event is one committed
  transaction; events come in any order and with any clock. Claim generations,
  charges, starts and issued claims are *observed* from how rows change, so no
  event can misreport itself.
- **Invariants, Protocol, Witnesses** – the invariant of every reachable store,
  the theorems over all runs, and concrete runs that show what they are about.
- **Statements** – what each statement matches and writes, in fields and numbers and
  without the functions the transactions are built from; the contracts of
  `Database` are stated in these words.
- **Database** – the transactions as methods of a class with the two tables as
  fields. Each decides from the tables alone and is proved to be its event of
  the store. Rows that another transaction holds and the fate of a `COMMIT`
  (confirmed, rejected, or unanswered and applied or not) are arguments.
- **Retention** – the purge and prune loops, with arbitrary transactions of
  others between and inside their batches.
- **Obligations, Coverage, Stranding, StrandedClaim** – one storage composed
  with the store: task streams, claim statements that may commit after their
  caller is gone, release obligations, dispatches, acknowledgements, and the
  guards that retire a worker's local lease when they are dropped armed. One
  move is one statement, one commit, or a piece of code without an await in it.
- **Retirement** – exactly when a process retires a name, move by move, and from
  the `COMMIT` of a claim statement to the stream that receives its answer.
- **Expiry** – what a retired lease is worth: once nobody renews its heartbeat, any
  sweep or takeover after the stale deadline ends every claim of the name. A
  retired heartbeat stream asks for no renewal any more
  (`LeaseStream.LeaseStream.PollNext`); one already under way may still commit.
- **Middleware, InOrder** – the code of one dispatch, one start, one
  acknowledgement and one release obligation, in place on the shared claim record
  and the tables; and the proof that each, run alone, is a sequence of the moves
  of `Obligations` and leaves the same rows, lease and marks behind.
- **Lease, WorkerLease, LeaseStream** – the heartbeat's registration waiter as
  interleaved atomic steps; the lease object, whose operations are those steps in
  program order; and the task stream that holds it.
- **Listener, SharedRegistry** – the shared LISTEN thread as interleaved critical
  sections, and the registry object that refines them.
- **Push, Sink, Completion, PollFetcher, Payload** – batch enqueue and conflict
  accounting, the buffered sink, the completion wait, the polling fetcher, and
  the truncation of stored error messages.

## Assumptions

- Task ids and registration tokens are fresh and never reused.
- Enqueued tasks have `max_attempts >= 1`.
- Only this crate writes the two tables.
- Registration is one atomic step, and a name that a storage retired locally is
  not registered again under its token. `Witnesses.ReRegistrationWouldConfuseClaims`
  shows that this cannot be dropped.
- In the store, an acknowledgement carries a claim record, or a caller's counter
  of at least one, with the budget of its own task.
  `Rows.AcknowledgementChargesIffCounted` and `Database.Tables.AckTask` say what
  any other counter or budget does.
- `lock_task` re-locks a `Running` row of the same worker on purpose; that is not
  a new start.
- Claims and starts that present this storage's token, or none, go through the
  storage; every yielded task is dispatched through the acknowledging
  middleware, which runs the handler, then the acknowledgement, then returns.
  The claim record a task carries is one of this storage, for that task.

## Two findings

- **A lock dispatch can strand a claim.** A task that reaches the locking
  middleware without lock fields but with a claim record is locked anew
  (src/ack.rs:3303-3308, src/ack.rs:3364-3398), and its guard can fail the row in
  two ways. (1) Until `lock_task` is answered the guard consults the *old*
  record. If that claim was acknowledged, and the dispatch is dropped or the
  outcome of its `COMMIT` is unknown, the guard does not retire the lease
  (src/ack.rs:133-143), and the new claim stays `Running` behind a live heartbeat.
  (2) The claim of the carried record may itself still wait for its start.
  Every error but an unknown outcome disarms the guard (src/ack.rs:3384-3389), a
  dispatch dropped before it is armed has none, and a guard under another worker
  name retires that name instead: the row stays `Queued` and nobody answers for it.
  `Stranding.EndedLockIsCoveredIffGuarded` gives the exact condition for every
  way a lock dispatch ends, `Stranding.DroppedLockIsCoveredIffUnacknowledged` for
  a statement that commits after the drop; `StrandedClaim.AnOldRecordStrandsTheNextClaim`
  and `StrandedClaim.AFailedLockStrandsTheYieldedClaim` are runs, and
  `Stranding.UnrecordedLocksStrandNothing` is a rule for callers: hand the lock
  path no claim record.
- **A short retention window does not bound a purge to its first backlog.** The
  cutoff is sampled once, so that a queue that keeps completing tasks cannot
  extend a purge (src/queries/retention.rs:39-40). But a completion is dated
  inside its statement (src/queries/ack.rs:57-60) and visible only at its `COMMIT`:
  one dated before the cutoff that commits between two batches joins the running
  purge, whatever ended the task (`Retention.CompletionJoinsIffNotLater`). The
  window rules this out if and only if it is longer than the longest time from
  such a date to its `COMMIT` (`Retention.WindowHoldsIffLongerThanLag`); a zero
  window never does. The loop ends all the same: `Retention.PurgeTerminalTasks`
  bounds its batches by the first backlog and the late completions.

Where comments and code disagree the model follows the code: the comments on
`PollTriage` and `triage_poll` speak of two consecutive polls
(src/queries/admin.rs:157-168), the code of a grace interval; and
docs/lifecycle.md:82 releases an undecodable payload from `Queued` only, the
statement also matches `Running` (src/queries/fetch.rs:199-203).

## Model

| member | source | states |
|---|---|---|
| Rows.FailurePathsAgree | src/queries/fetch.rs:186-204 | a failed acknowledgement, an undecodable release and a charged recovery charge exactly one attempt each and turn a task terminal at the same attempt |
| Rows.RecoveryHandsBack | src/queries/worker.rs:118-188 | a recovered row ends unowned and well formed, is charged exactly when it ran or the recovery charges unstarted claims, is killed and dated exactly when that exhausts its budget, and keeps what it recorded otherwise |
| Rows.UnstartedReleaseIsFree | src/queries/worker.rs:118-186 | a release hands an unstarted claim back with its attempts and result unchanged; every other recovery charges it |
| Rows.UnownedIsClaimableOnceDue | src/queries/fetch.rs:26 | a well-formed row is claimable exactly when it is unowned, unfinished and due, so no row waits that no claim can take |
| Rows.AcknowledgementChargesIffCounted | src/ack.rs:2806-2822 | an acknowledgement that matches charges one attempt if and only if its counter includes the execution; a counter of zero leaves the count alone |
| Invariants.EffectIsLawful | src/queries/worker.rs:145-188 | every transaction changes a row only by a claim, a start, one charge, or an uncharged hand-back by its own retired registration, and keeps the token of every claim that stays active |
| Invariants.StepKeepsInv | src/queries/worker.rs:306-352 | every transaction keeps row shape, referential integrity, fencing, the ledger of attempts, and the meaning of every issued claim |
| Invariants.ReachableStatesKeepInv | docs/lifecycle.md:71-90 | the invariant holds in every state reached from empty tables, by any interleaving |
| Protocol.RowsStayWellFormed | src/queries/worker.rs:162-179 | over all runs attempts stay within the budget, active rows have an owner and a registration, `done_at` is set exactly for ended rows |
| Protocol.FinishedRowIsFrozen | src/queries/mod.rs:43-44 | a `Done` or `Killed` row changes through nothing but a purge that names it |
| Protocol.FinishedForever | src/queries/mod.rs:43-44 | over any run a finished row is as it was, or gone |
| Protocol.GoneForGood | src/queries/retention.rs:57-92 | a deleted row never comes back |
| Protocol.ActiveRowsAreFenced | src/queries/worker.rs:60-88 | over all runs the registration of an active row exists and carries the token under which the row was claimed |
| Protocol.TokenChangeRecoversEveryClaim | src/queries/worker.rs:198-235 | a takeover or a release that changes a token ends every active claim of the name in the same transaction, and nothing else changes a token of a name with claims |
| Protocol.HeartbeatCoversOnlyItsOwnClaims | src/queries/worker.rs:396-419 | a renewed heartbeat covers no claim made under another token |
| Protocol.GuardsMatchTheClaim | src/queries/ack.rs:38-83 | a start, acknowledgement or undecodable release issued for a claim record matches if and only if the row is in that very claim generation, although epochs repeat |
| Protocol.NoAba | src/queries/fetch.rs:245-285 | the same over all runs; a statement of another generation changes nothing |
| Protocol.ExecutionsAreBounded | src/queries/worker.rs:137-188 | attempts are finished executions plus charged unstarted claims, and a task starts at most `max_attempts` times |
| Protocol.LeavingRunningChargesOnce | src/queries/ack.rs:57-66 | whoever ends an execution charges exactly one attempt |
| Protocol.OnlyReleaseIsUncharged | src/queries/worker.rs:118-126 | a claim that ends without a charge was unstarted and was handed back by the release of its own registration, unchanged but for its owner |
| Protocol.StartRecordForever | src/queries/fetch.rs:227-285 | the claim that started a given attempt of a row stays the one on record |
| Protocol.OneStartPerEpoch | src/queries/fetch.rs:245-285 | of two claims with the same epoch at most one record is ever started, and only that one restarts |
| Coverage.ClaimsEndOnce | src/queries/ack.rs:57-82 | after a matching acknowledgement or release of a claim no statement for it matches again, whatever runs in between |
| Witnesses.EpochsRepeat | src/lib.rs:147-156 | a concrete run in which two claims share owner, claim second and attempts, so the epoch alone identifies nothing |
| Witnesses.ReRegistrationWouldConfuseClaims | src/queries/fetch.rs:245-285 | without local retirement a stale claim would start the row of its successor |
| Database.ClaimOutcome | src/queries/fetch.rs:387-411 | a claim error is reported as unknown exactly when rows were claimed and the server did not reject the commit |
| Database.SelectBatch | src/queries/fetch.rs:28-88 | the claimed batch is the first `limit` eligible rows by priority and then schedule, each once |
| Database.Tables.Push | src/queries/push.rs:53-78 | adds exactly one row under a fresh id, pending, unowned, uncharged and due when asked, and changes no other |
| Database.Tables.HandOut | src/queries/fetch.rs:465-486 | malformed rows of a claimed batch are quarantined, the others delivered in order |
| Database.Tables.Claim | src/queries/fetch.rs:28-156 | takes the first waiting rows of the queue, pending ones and retries alike, that are due, unlocked and named, by priority and then schedule, and fewer than the limit only when there are no more; marks each `Queued` with owner and claim second and quarantines the malformed; hands out one record for each of the others, in order; an error other than an unknown outcome left no claim |
| Database.Tables.LockTask | src/queries/fetch.rs:296-353 | claims and starts one waiting row, or one its owner has in progress and whose claim time it keeps, or changes nothing; a malformed row rolls back; the outcome is unknown exactly when a matching statement's commit went unanswered |
| Database.Tables.StartTask | src/queries/fetch.rs:245-285 | moves a row to `Running` exactly when the epoch, token and status match, and reports whether it did |
| Database.Tables.AckTask | src/queries/ack.rs:33-83 | for any counter and budget, exactly when the epoch and token match: a success is written `Done`, a failure `Failed` while the counter is below the budget and `Killed` otherwise, each with counter, result and date; stale otherwise, and no other field or row moves |
| Database.Tables.FailUndecodableTask | src/queries/fetch.rs:158-215 | charges the row one attempt and writes it `Failed`, or `Killed` with its last attempt, exactly when the claim matches; reports one or zero rows |
| Database.Tables.RecoverOwned | src/queries/worker.rs:145-188 | each given row ends unowned and well formed, charged as the recovery says and killed exactly at its budget; every other row is untouched |
| Database.Tables.RegisterWorker | src/queries/worker.rs:306-352 | succeeds, when its lock is free, exactly for an absent name, its own token or a stale registration; then a lost incumbent's every claim, started or not, is handed back first |
| Database.Tables.ReleaseRegistration | src/queries/worker.rs:198-235 | hands back every claim of the name, started or not, counts them, and clears the token in one transaction |
| Database.Tables.ReenqueueOrphaned | src/queries/worker.rs:270-285 | hands back the claims, `Queued` and `Running`, whose owner's registration ran out, in id order of owners and rows; what it leaves out was locked, or comes after all it took with the limit used up |
| Database.Tables.KeepAlive | src/queries/worker.rs:396-419 | renews the heartbeat exactly when the token owns the registration, and changes nothing else |
| Database.Tables.RegisterAdmin | src/queries/admin.rs:710-768 | inserts or renews a registration without a token, and leaves one with a token alone |
| Database.Tables.PurgeBatch | src/queries/retention.rs:57-92 | deletes up to the limit of unlocked rows, finished or out of attempts, dated (or else scheduled) up to the cutoff, only those, and a short batch leaves none |
| Database.Tables.DeleteUnreferenced | src/queries/retention.rs:227-245 | deletes exactly the given registrations that no row names |
| Retention.Cutoff | src/queries/retention.rs:41-51 | the cutoff is the clock minus the window exactly when that can be represented, and the earliest timestamp otherwise |
| Retention.BacklogNeverGrowsOver | src/queries/retention.rs:36-41 | no run of other transactions that complete after the cutoff adds a row to the backlog |
| Retention.CompletionJoinsIffNotLater | src/queries/retention.rs:36-51 | a task ended by an acknowledgement, an undecodable release, a quarantine, a sweep, a takeover or a release joins the backlog if and only if that happened no later than the cutoff |
| Retention.BacklogGrowsByLateRows | src/queries/retention.rs:52-92 | a transaction adds to the backlog of a purge exactly the rows of its queue that it finishes with a date not after the cutoff |
| Retention.WindowHoldsIffLongerThanLag | src/queries/retention.rs:36-51 | in every reachable store, whatever commits after the cutoff was sampled leaves the backlog as it was, if and only if the window is longer than the longest time from a completion's date to its `COMMIT` |
| Retention.PurgeTerminalTasks | src/queries/retention.rs:105-128 | the loop ends within one batch more than rows in the first backlog and rows completed late, returns exactly the number of rows deleted, deletes only such rows, and leaves only rows its last batch found locked |
| Retention.LockedStaysUnreferenced | src/queries/retention.rs:167-225 | a registration locked and found unreferenced stays so while other transactions honour the lock |
| Retention.PruneKeepsReferences | src/queries/retention.rs:167-245 | whatever commits between the candidate snapshot, the locks, the second check and the delete, no referenced registration is deleted |
| Retention.ShortBatchMissesNothing | src/queries/retention.rs:167-225 | a candidate a short batch did not lock was held elsewhere, renewed, or gone |
| Retention.FirstSnapshotIsNotEnough | src/queries/retention.rs:167-245 | without the second check a claim in between would lose its registration |
| Retention.FullRoundCosts | src/queries/retention.rs:167-271 | a full batch leaves fewer registrations, or cost a claim or registration made meanwhile |
| Retention.PruneWorkers | src/queries/retention.rs:136-271 | a window shorter than the stale deadline deletes nothing; otherwise the loop ends within one batch more than registrations and interfering claims, counts what it deleted, and leaves no stale unreferenced registration once others are quiet |
| Stranding.NoStrandedClaim | src/ack.rs:116-143 | over every run whose lock dispatches end guarded, beside any other users of the tables, each active row claimed under the storage's token is held by a stream, a waiting task, a lock dispatch on its way or an armed dispatch (a started one by the dispatch that started it), or its name is retired; claims whose commit outcome was lost included |
| Stranding.EndedLockIsCoveredIffGuarded | src/ack.rs:3303-3398 | however a lock dispatch ends unconfirmed (refused, missed, unknown, or dropped at any point), a row that only it could answer for is covered if and only if its guard goes off under the row's own owner |
| Stranding.DroppedLockIsCoveredIffUnacknowledged | src/ack.rs:3303-3398 | a lock dispatch dropped before its statement commits leaves the claim that statement makes covered if and only if the task did not carry an acknowledged record |
| Stranding.UnrecordedLocksStrandNothing | src/ack.rs:3303-3398 | when the lock path is only handed tasks without a claim record, nothing is stranded in any run |
| Stranding.MoveKeepsCover | src/ack.rs:3274-3424 | every step of a stream, a dispatch, an acknowledgement or anybody else keeps what the process knows of its claims, and keeps every claim covered unless it ends a lock dispatch that leaves a claim behind unguarded |
| Expiry.EveryClaimIsAnsweredFor | src/queries/worker.rs:239-285 | over every careful run each owned row is covered, and one whose name is retired is ended by any sweep or takeover once the stale deadline has passed since the last heartbeat, whatever else ran meanwhile |
| Expiry.RetiredClaimsAreRecoverable | src/queries/worker.rs:306-352 | the same of any run of transactions: under a retired token nothing but a heartbeat moves a registration, so the deadline of its claims stands |
| StrandedClaim.AnOldRecordStrandsTheNextClaim | src/ack.rs:3364-3398 | a run after which a `Running` row is owned, nobody holds it, and its heartbeat lives on |
| StrandedClaim.AFailedLockStrandsTheYieldedClaim | src/ack.rs:3384-3389 | a run without any acknowledgement after which a `Queued` row is owned and nobody holds it, because a failed lock disarmed the guard |
| Stranding.HandlersStartedTheirClaim | src/ack.rs:3184-3250 | over every run, a handler runs only after its own confirmed statement found the very claim of its task and left it `Running`, and nothing of that claim waits for a start |
| Stranding.AtMostOneAcknowledgementWrites | src/ack.rs:2779-2837 | over every run at most one of all acknowledgements of a claim, concurrent, repeated or cancelled, changes the row |
| Stranding.RepeatsSeeTheMarker | src/ack.rs:2788-2805 | while one acknowledgement of a record writes, an earlier one that wrote was dropped or lost its answer, so a repeat of a success is refused before its statement |
| Stranding.NoHandlerAfterAcknowledgement | src/ack.rs:3332-3343 | once an acknowledgement wrote, no dispatch that had not issued its start, and none called later, is ever in the handler of that claim |
| Stranding.RefusedClaimWritesNothing | src/ack.rs:2779-2787 | acknowledging a claim whose starts were all refused changes nothing, retires nothing, and never writes later |
| Coverage.StreamMovesKeep | src/fetcher.rs:115-233 | every step of a task stream, its claim statements, its lost outcomes and its release obligation keeps every claim covered; `Retirement` says that it does so without retiring names it need not |
| Coverage.DispatchMovesKeep | src/ack.rs:3274-3424 | so does every step of a dispatch before its handler returns; a lock dispatch may end without its guard only where it leaves nothing behind |
| Coverage.AckMovesKeep | src/ack.rs:2744-2839 | an acknowledgement that ends wrote, lost its claim, was refused a start, or retired the lease |
| Coverage.ForeignMovesKeep | src/queries/worker.rs:89-100 | whatever runs under other tokens neither takes nor starts a row of this storage, nor uncovers one |
| Retirement.RetiresExactlyWhenOwing | src/ack.rs:116-143 | a process retires a name exactly when a claim statement's answer is unknown, a release lost its claim or failed for the last time, a registered stream or an armed dispatch of an unacknowledged record is dropped or left without an answer, or an acknowledgement fails or is dropped first; and no other name |
| Retirement.LostClaimsRetireTheirName | src/fetcher.rs:472-480 | whatever runs between the `COMMIT` of a claim statement and its receipt, the stream retires its name exactly when the statement had claimed a well-formed row and the `COMMIT` went unanswered, and buffers exactly the claims of a confirmed one |
| Retirement.StreamHoldsOn | src/fetcher.rs:115-233 | a registration arms the guard exactly when it succeeds; a claim that leaves the buffer was yielded or is being released, and a release is over exactly when it was answered or given up |
| Retirement.AnythingMayBeDropped | src/ack.rs:116-143 | the runs of these theorems hold nothing back: streams, dispatches and acknowledgements may be dropped at any point, and an issued statement may commit, with any fate, after its caller is gone |
| Retirement.OthersMayDoAnything | src/queries/worker.rs:89-100 | beside the storage any transaction may run that does not claim or start under its token, or under none |
| Middleware.Worker.DropObligation | src/ack.rs:116-143 | an armed obligation retires the lease unless the record it consults was acknowledged |
| Middleware.StartClaim | src/ack.rs:3168-3250 | starts exactly a claim that waits for a start or was started by this record, from parts that are whole; says who still owes it otherwise |
| Middleware.StartUnrecorded | src/ack.rs:3184-3250 | a task without a claim record starts, or starts again, exactly when its parts match the row |
| Middleware.UnrecordedStartStaysAtHome | src/ack.rs:3184-3250 | and that row is one its own worker claimed under its own token |
| Middleware.Acknowledge | src/ack.rs:2744-2839 | a refused start succeeds without a statement, a repeat is refused, and any other end, parts that cannot be turned into a statement included, marks the record or retires the lease |
| Middleware.AcknowledgeUnrecorded | src/ack.rs:2744-2839 | without a claim record, for any counter and budget, the row is written exactly when it matches, and every end but a confirmed write retires the lease |
| Middleware.AckEndsTheClaim | src/queries/ack.rs:57-82 | written or not, an acknowledgement statement leaves its claim over |
| Middleware.Dispatch | src/ack.rs:3274-3424 | however a dispatch ends, its claim does not wait for a start behind a live lease; a cancelled handler retires it; which ones are admitted |
| Middleware.DispatchLock | src/ack.rs:3364-3398 | an unconfirmed lock retires the lease exactly when the task carried no acknowledged record; any other failure disarms, having taken nothing |
| Middleware.ReleaseUndecodable | src/fetcher.rs:141-190 | the release loop waits 100, 200, 400, 800 and 1600 ms and gives up only with the sixth failure or three seconds after the first, with the row out of its claim or the lease retired |
| InOrder.AcknowledgeIsItsMoves | src/ack.rs:2744-2839 | the acknowledgement code, run alone, and its moves among interleaved ones leave the same rows, lease and marks |
| InOrder.DispatchIsItsMoves | src/ack.rs:3274-3424 | so do a whole dispatch and its moves, dropped in its handler or through its acknowledgement |
| InOrder.LockIsItsMoves | src/ack.rs:3364-3398 | so do a lock dispatch and its moves, which reach the handler exactly when the lock is confirmed |
| InOrder.ReleaseIsItsMove | src/fetcher.rs:141-190 | one attempt of the release obligation is one move, which ends the obligation unless it may be tried again |
| Lease.NoLostWakeup | src/lease.rs:152-188 | with every atomic step interleaved freely, a heartbeat that returned pending and whose condition holds was woken or is about to be |
| Lease.WakersAlwaysMove | src/lease.rs:81-103 | the thread that is about to wake it always has a next step that brings it closer |
| Lease.QuietMeansNothingMissed | src/lease.rs:104-113 | once every finisher is through, a heartbeat that was not woken waits for something that has not happened |
| Lease.PendingNeverUnderflows | src/lease.rs:74-90 | `pending` is exactly the number of attempts that have not left it, and never underflows |
| Lease.RefusalReleasesOnlyWhenSettled | src/lease.rs:104-113 | a refusal releases a heartbeat only when no attempt is pending and one unsettled at its creation has settled |
| WorkerLease.WorkerLease.BeginRegistration | src/lease.rs:71-80 | adds one pending attempt, and nothing else |
| WorkerLease.WorkerLease.CreateRegistration | src/lease.rs:104-113 | a waiter remembers how many attempts had settled when it was created |
| WorkerLease.WorkerLease.FinishRegistration | src/lease.rs:81-90 | the outcome is stored, the attempt counted as settled, then no longer pending, then the waiters are woken, in that order |
| WorkerLease.WorkerLease.Retire | src/lease.rs:65-68 | the retirement is stored before the waiters are taken and woken |
| WorkerLease.WorkerLease.IsSettled | src/lease.rs:156-163 | true exactly when the waiter's condition holds |
| WorkerLease.WorkerLease.PollRegistration | src/lease.rs:164-188 | ready exactly when the condition holds at the second check; otherwise the waker stays registered |
| LeaseStream.LeaseStream.PollNext | src/fetcher.rs:423-482 | a retired lease ends the stream without asking the wrapped one again; the first item of a registering stream settles the attempt, and arms the guard and marks the lease registered exactly when it is a success; exactly an unknown claim outcome retires |
| LeaseStream.LeaseStream.Drop | src/lease.rs:189-206 | dropping a registered stream retires its worker, dropping an unregistered one settles its attempt as refused and does not |
| Listener.ExactlyOneHolder | src/shared.rs:257-271 | the flag is set exactly while one spawner or thread holds the listener role, and there is never a second |
| Listener.NoSilentConsumer | src/shared.rs:205-230 | whenever no listener runs, every entry still registered has been told of its failure |
| Listener.RegistrationHasListener | src/shared.rs:321-357 | a registration leaves a listener running or starting |
| Listener.OpenConsumersStay | src/shared.rs:231-255 | no step removes an open consumer but its own drop |
| Listener.EmptyRegistryEndsTheListener | src/shared.rs:174-184 | an empty registry ends the listener and clears the flag, and a registered entry keeps it |
| Listener.FailureTellsEveryOpenEntry | src/shared.rs:205-230 | a failure clears the flag and tells every open entry, which stays registered |
| SharedRegistry.SharedRegistry.MakeShared | src/shared.rs:321-357 | adds the entry and claims the spawn in one critical section, and spawns exactly when no listener was alive |
| SharedRegistry.SharedRegistry.DeliverToQueue | src/shared.rs:231-255 | prunes closed consumers of the queue and nothing else |
| SharedRegistry.SharedRegistry.ExitListener | src/shared.rs:205-230 | publishes the error to every open entry and clears the flag in one critical section |
| SharedRegistry.SharedRegistry.ExitIfNobodyListens | src/shared.rs:134-204 | gives the role up exactly when no entry is registered |
| SharedRegistry.SharedRegistry.DropConsumer | src/shared.rs:399-413 | removes one entry, and the queue with its last one |
| Push.PrepareBatch | src/queries/push.rs:323-373 | rejects a batch exactly when one of its tasks would not have been accepted, and otherwise transposes it, task by task |
| Push.AcceptedWithinTheCaps | src/queries/push.rs:323-373 | the caps in numbers, and which one is reported |
| Push.LandsOnce | src/queries/push.rs:53-78 | a key lands once if it was submitted and not stored, and never otherwise |
| Push.FewerLandIffConflict | src/queries/push.rs:396-420 | fewer rows land than were submitted if and only if some key conflicts |
| Push.ConflictingKeys | src/queries/push.rs:421-443 | names, without repeats, exactly the keys with fewer inserted rows than submissions |
| Push.InsertReportingConflicts | src/queries/push.rs:396-451 | reports exactly the submitted keys that are stored or repeated, never none, and then stores nothing; otherwise stores every key |
| Push.ResubmittingOnePerKey | src/error.rs:60-77 | resubmitting one task per key conflicts only on stored keys |
| Sink.FlushTasks | src/queries/push.rs:158-212 | a batch that was never issued is handed back whole, an issued one that failed is uncertain, an acknowledged one is written |
| Sink.PgSink.TryPush | src/sink.rs:113-126 | accepts exactly valid tasks while there is room; a send that uses a readiness grant is never refused for capacity |
| Sink.PgSink.Complete | src/sink.rs:136-185 | until the sink fails, written, in-flight and buffered tasks are the accepted ones in order, also when a batch is handed back; validation never drops an accepted task |
| Sink.PgSink.PollFlush | src/sink.rs:136-185 | success means everything accepted is written; an uncertain write fails the sink for good |
| Sink.PgSink.PollReady | src/sink.rs:194-201 | ready at once with room and nothing in flight; a grant is given only with room for one more, and intermediate flushes keep it; pending only while a flush is |
| Sink.PgSink.PollClose | src/sink.rs:207-213 | a close that succeeds leaves nothing unwritten, and it succeeds when every flush does |
| Sink.PgSink.Retype | src/sink.rs:75-91 | a codec swap carries buffer, in-flight batch and failure over |
| Sink.PgSink.Clone | src/sink.rs:41-58 | a clone starts with an empty pipeline |
| Completion.DistinctIds | src/queries/admin.rs:219-226 | every waited id once, in its first order |
| Completion.TriagePoll | src/queries/admin.rs:164-217 | sorts every waited id by what the poll found, and dates absences from the poll that first missed the id |
| Completion.TriagePartitions | src/queries/admin.rs:164-217 | a poll splits the waited ids in two, losing and repeating none |
| Completion.WaitForCompletion | src/queries/admin.rs:228-310 | each distinct id is reported once, still waited for, or given up; a task is reported missing only when absent at every successful poll for 100 ms, and is not waited for beyond that; each idle poll sleeps 100 ms after progress and twice the last delay otherwise, up to 2 s; three failed polls in a row, and nothing else, end the wait early |
| PollFetcher.PgPollFetcher.PollNext | src/fetcher.rs:582-652 | every permit issues one fetch and every answer is taken; pending means that a signal or an answer was missing; the yielded tasks are the fetched ones in order with none lost or repeated, each failure is reported once, and an ended strategy reports once and never fetches again |
| Payload.TruncateErrorPayload | src/ack.rs:2700-2715 | keeps as many whole characters as fit in 8192 bytes and then the marker; a shorter text is stored as it is |
| Payload.BoundaryEndsAPrefix | src/ack.rs:2700-2715 | a character boundary of an encoded text ends a prefix of its characters |

## Left out

- SQL text, plans, indexes, Diesel, r2d2 and PostgreSQL internals: only each statement's predicate, effect and lock order is modelled.
- Migrations, schema verification, metrics and listing queries, JSON and row conversions, error texts and hints.
- Blocking bridges, thread spawning, the LISTEN transport and poisoned mutexes: nondeterministic success or failure.
- The worker loop, the Tracker and the poll strategies of apalis-core: assumed as stated above.
- Codecs and payload contents: decoding is an arbitrary partial function.
- Acknowledgement through `ack_with`, manual acknowledgement middleware and `PgAck::start` used without the middleware: their steps are those of `Middleware.StartClaim` and `Middleware.Acknowledge`, but their coverage is the consumer's to keep.
- Enqueue caps as integers and timestamp conversion: a `run_at` out of range is a task without one.
- Foreign-key races of the insert with a running migration, and `apalis.get_jobs`.
- Database.Tables.Push: one row per transaction in the store; batches, keys and their conflicts are modelled in the `Push` module on the keys of one queue.
- Database.Tables.AckTask: is the store's event only for a counter of at least one and the task's own budget, as acknowledgements with a claim record have them; a counter that does not count its execution is left out of the runs.
- Middleware.AcknowledgeUnrecorded: an acknowledgement that does not count its execution is written as the source writes it, but the store's invariant is then not promised.
- Retention.Cutoff: computes in whole microseconds; the rounding of double-precision epoch seconds is not modelled.
- Middleware.Dispatch: runs without another task in between; interleavings, drops and late commits are the moves of `Obligations`, to which `InOrder` ties it.
- Middleware.ReleaseUndecodable: takes the time since its first failure as an argument.
- Coverage.DispatchMovesKeep: leaves out the handler's return, which `Stranding.MoveKeepsCover` adds.
- Retention.PurgeTerminalTasks: assumes that transactions dated up to the cutoff have all committed before some batch, however late; a loop beside endlessly many of them would not end.
