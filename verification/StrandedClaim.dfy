/** A concrete run that strands a claim. A consumer acknowledges a task as
    failed, clears its lock fields, and dispatches the same `Parts` again: the
    lock path takes the row while the guard still consults the old record. */
module StrandedClaim {
  import opened Rows
  import opened Store
  import opened Invariants
  import opened Protocol
  import opened Database
  import opened Obligations
  import opened Coverage
  import opened Stranding
  import W = Witnesses

  const Record: RecordId := Fetched(W.FirstClaim)
  const Open: TaskStream := TaskStream(W.WORKER, W.QUEUE, true, true, {}, None)

  lemma OneMore(p: Process, moves: seq<Move>, m: Move)
    ensures Execute(p, moves + [m]) == Next(Execute(p, moves), m)
  {
    ExecuteAppends(p, moves, [m]);
    assert Execute(Next(Execute(p, moves), m), [m][1..]) == Next(Execute(p, moves), m);
  }

  ghost predicate Reached(p: Process) {
    exists moves :: Execute(Fresh(W.OLD), moves) == p
  }

  lemma Moved(p: Process, m: Move) returns (q: Process)
    requires Reached(p)
    ensures Reached(q) && q == Next(p, m)
  {
    var moves :| Execute(Fresh(W.OLD), moves) == p;
    OneMore(Fresh(W.OLD), moves, m);
    q := Next(p, m);
  }

  /** Nothing but the tables, the stream and its fetch has moved. */
  predicate OnlyFetching(p: Process) {
    && p.token == W.OLD && p.dispatches == map[] && p.acks == map[]
    && p.done == {} && p.started == {} && p.attempted == {}
  }

  lemma TaskEnqueued() returns (p: Process)
    ensures Reached(p) && OnlyFetching(p) && p.db == W.AfterEnqueue() && p.streams == map[] && p.fetches == map[]
    ensures p.waiting == {}
  {
    assert Execute(Fresh(W.OLD), []) == Fresh(W.OLD);
    p := Moved(Fresh(W.OLD), Elsewhere(Enqueue(W.TASK, W.QUEUE, 3, 0, 0)));
  }

  lemma StreamOpened() returns (p: Process)
    ensures Reached(p) && OnlyFetching(p) && p.db == W.AfterEnqueue() && p.fetches == map[] && p.waiting == {}
    ensures p.streams == map[0 := Open.(guarded := false)]
  {
    p := TaskEnqueued();
    p := Moved(p, InStream(OpenStream(0, W.WORKER, W.QUEUE)));
  }

  lemma StreamRegistered() returns (p: Process)
    ensures Reached(p) && OnlyFetching(p) && p.db == W.AfterRegister() && p.fetches == map[] && p.waiting == {}
    ensures p.streams == map[0 := Open]
  {
    p := StreamOpened();
    assert Enabled(W.AfterEnqueue(), Register(W.WORKER, W.QUEUE, W.OLD, 300_000_000, W.NOON));
    p := Moved(p, InStream(RegisterStream(0, 300_000_000, W.NOON)));
  }

  lemma ClaimIssued() returns (p: Process)
    ensures Reached(p) && OnlyFetching(p) && p.db == W.AfterRegister() && p.streams == map[0 := Open] && p.waiting == {}
    ensures p.fetches == map[0 := FetchJob(0, None)]
  {
    p := StreamRegistered();
    p := Moved(p, InStream(IssueFetch(0, 0)));
  }

  lemma NothingClaimedYet()
    ensures W.AfterRegister().claims == {}
  {
    assert W.AfterEnqueue().claims == {};
    W.FirstRegistered();
  }

  lemma OneClaimMade()
    ensures W.AfterClaim().claims - W.AfterRegister().claims == {W.FirstClaim}
  {
    NothingClaimedYet();
    W.FirstRegistered();
    W.FirstClaimed();
    OnlyTheFirstClaim(W.AfterRegister(), Fetch(W.WORKER, W.QUEUE, Some(W.OLD), {W.TASK}, {}, W.NOON + 1), W.FirstClaim);
  }

  /** With one task in the table, a step issues at most the claim of that task. */
  lemma OnlyTheFirstClaim(s: State, e: Event, c: Claim)
    requires s.claims == {} && Step(s, e).jobs.Keys == {c.task} && c in Step(s, e).claims
    ensures Step(s, e).claims == {c}
  {
  }

  /** The tables while the first claim waits for its start. */
  ghost predicate FirstClaimWaits(s: State) {
    && s.jobs == map[W.TASK := W.Owned] && s.retired == {} && W.FirstClaim in s.claims
    && s.workers == map[(W.WORKER, W.QUEUE) := Registration(Some(W.OLD), W.NOON)]
    && LedgerOf(s, W.TASK) == NoHistory.(gen := 1, claimToken := Some(W.OLD))
  }

  lemma ClaimCommitted() returns (p: Process)
    ensures Reached(p) && OnlyFetching(p) && FirstClaimWaits(p.db) && p.streams == map[0 := Open] && p.waiting == {}
    ensures p.fetches == map[0 := FetchJob(0, Some(FetchAnswer({W.FirstClaim}, true, false)))]
  {
    p := ClaimIssued();
    OneClaimMade();
    W.FirstRegistered();
    W.FirstClaimed();
    p := Moved(p, InStream(CommitFetch(0, {W.TASK}, {}, W.NOON + 1, Confirmed)));
  }

  lemma BatchReceived() returns (p: Process)
    ensures Reached(p) && OnlyFetching(p) && FirstClaimWaits(p.db) && p.fetches == map[] && p.waiting == {}
    ensures p.streams == map[0 := Open.(buffer := {W.FirstClaim})]
  {
    p := ClaimCommitted();
    assert Open.buffer + {W.FirstClaim} == {W.FirstClaim};
    p := Moved(p, InStream(ReceiveFetch(0)));
    assert p.fetches == map[];
  }

  /** The stream yields the first claim. */
  lemma TaskYielded() returns (p: Process)
    ensures Reached(p) && OnlyFetching(p) && FirstClaimWaits(p.db)
    ensures p.streams == map[0 := Open] && p.fetches == map[] && p.waiting == {W.FirstClaim}
  {
    p := BatchReceived();
    assert {W.FirstClaim} - {W.FirstClaim} == Open.buffer && p.waiting + {W.FirstClaim} == {W.FirstClaim};
    p := Moved(p, InStream(YieldTask(0, W.FirstClaim)));
  }

  // -------------------------------------------- an old record, acknowledged

  /** The acknowledgement of the first claim, at this point of its life. */
  predicate Acknowledging(p: Process, phase: AckPhase) {
    && p.token == W.OLD && p.dispatches == map[] && p.attempted == {} && p.done == {}
    && p.acks == map[0 := Acknowledgement(Record, false, true, false, phase)]
  }

  lemma AckCreated() returns (p: Process)
    ensures Reached(p) && Acknowledging(p, Created) && FirstClaimWaits(p.db)
  {
    p := TaskYielded();
    p := Moved(p, InAck(CreateAck(0, Record, false)));
  }

  lemma AckChecked() returns (p: Process)
    ensures Reached(p) && Acknowledging(p, Serialized) && FirstClaimWaits(p.db)
  {
    p := AckCreated();
    p := Moved(p, InAck(CheckAck(0)));
  }

  lemma AckEntered() returns (p: Process)
    ensures Reached(p) && Acknowledging(p, Writing) && FirstClaimWaits(p.db)
  {
    p := AckChecked();
    assert MutexFree(p, Record);
    p := Moved(p, InAck(EnterAck(0)));
  }

  const Retry: Row := Row(W.QUEUE, Failed, 1, 3, 0, 0, Some(W.WORKER), Some(Second(W.NOON)), Some(W.NOON + 2),
                          Some(HandlerFailed))

  ghost predicate ReadyToRetry(s: State) {
    && s.jobs == map[W.TASK := Retry] && s.retired == {} && W.FirstClaim in s.claims
    && s.workers == map[(W.WORKER, W.QUEUE) := Registration(Some(W.OLD), W.NOON)]
  }

  lemma FailsOnce(s: State, e: Event)
    requires FirstClaimWaits(s)
    requires e == Ack(W.TASK, W.QUEUE, W.WORKER, Second(W.NOON), 1, 3, false, Some(W.OLD), W.NOON + 2)
    ensures Enabled(s, e) && ReadyToRetry(Step(s, e))
  {
    assert Effect(s, e).jobs == map[W.TASK := Retry];
  }

  lemma AckCommitted() returns (p: Process)
    ensures Reached(p) && p.token == W.OLD && p.dispatches == map[] && p.done == {} && ReadyToRetry(p.db)
    ensures p.acks == map[0 := Acknowledgement(Record, false, true, true, Answered(true))]
  {
    p := AckEntered();
    FailsOnce(p.db, AckEvent(p, p.acks[0], W.NOON + 2));
    p := Moved(p, InAck(CommitAck(0, W.NOON + 2, Confirmed)));
  }

  /** Its execution failed, and the row waits for a retry. */
  lemma RecordMarked() returns (p: Process)
    ensures Reached(p) && p.token == W.OLD && p.dispatches == map[] && p.done == {Record} && ReadyToRetry(p.db)
  {
    p := AckCommitted();
    p := Moved(p, InAck(ReceiveAck(0)));
  }

  const Retried: Dispatch :=
    Dispatch(W.WORKER, W.TASK, None, Some(Record), None, true, true, false, Locking)

  /** The same task is dispatched again through the lock path. */
  lemma RetryLocking() returns (p: Process)
    ensures Reached(p) && p.token == W.OLD && p.dispatches == map[0 := Retried] && p.done == {Record}
    ensures ReadyToRetry(p.db)
  {
    p := RecordMarked();
    p := Moved(p, InDispatch(CallLock(0, W.WORKER, W.TASK, None, Some(Record))));
    assert p.dispatches == map[0 := Retried.(armed := false, phase := LockCalled)];
    p := Moved(p, InDispatch(ArmLock(0)));
  }

  lemma ReachedIsSound(p: Process)
    requires Reached(p)
    ensures Inv(p.db)
  {
    var moves :| Execute(Fresh(W.OLD), moves) == p;
    InitialIsSound();
    RunKeepsWrites(Fresh(W.OLD), moves);
  }

  lemma DropIsReached(p: Process, id: DispatchId, at: Instant, commit: Commit)
    requires Reached(p)
    ensures Reached(DropThenCommit(p, id, at, commit))
  {
    var dropped := Moved(p, InDispatch(DropDispatch(id)));
    var stranded := Moved(dropped, InDispatch(CommitLock(id, at, commit)));
  }

  lemma RetryLocks(p: Process)
    requires p.token == W.OLD && p.dispatches == map[0 := Retried] && p.done == {Record} && ReadyToRetry(p.db)
    ensures LockUnderWay(p, 0, W.NOON + 3) && DispatchesInv(p)
    ensures p.dispatches[0].armed && Excused(p, p.dispatches[0])
  {
  }

  /** Dropping that dispatch leaves its statement, and then its claim, alone. */
  lemma AnOldRecordStrandsTheNextClaim()
    ensures exists moves ::
              var p := Execute(Fresh(W.OLD), moves);
              Owned(p, W.TASK) && !Covered(p, W.TASK)
  {
    var p := RetryLocking();
    ReachedIsSound(p);
    RetryLocks(p);
    ExcusedDropStrands(p, 0, W.NOON + 3, Unanswered(true));
    DropIsReached(p, 0, W.NOON + 3, Unanswered(true));
  }

  // ------------------------------------------- a record, its claim unstarted

  /** Only the lock dispatch knows of the first claim. */
  predicate OnlyCarried(p: Process, d: Dispatch) {
    && p.token == W.OLD && p.done == {} && p.waiting == {} && p.fetches == map[] && p.streams == map[0 := Open]
    && p.dispatches == map[0 := d]
  }

  /** The yielded task itself is dispatched through the lock path. */
  lemma YieldedLocking() returns (p: Process)
    ensures Reached(p) && OnlyCarried(p, Retried) && FirstClaimWaits(p.db)
  {
    p := TaskYielded();
    p := Moved(p, InDispatch(CallLock(0, W.WORKER, W.TASK, None, Some(Record))));
    assert OnlyCarried(p, Retried.(armed := false, phase := LockCalled));
    p := Moved(p, InDispatch(ArmLock(0)));
  }

  /** Its statement is rejected, so nothing was claimed anew. */
  lemma LockRejected() returns (p: Process)
    ensures Reached(p) && OnlyCarried(p, Retried.(phase := LockAnswered(Missed))) && FirstClaimWaits(p.db)
  {
    p := YieldedLocking();
    p := Moved(p, InDispatch(CommitLock(0, W.NOON + 2, Rejected)));
  }

  lemma NobodyElseHas(p: Process)
    requires OnlyCarried(p, Retried.(phase := LockAnswered(Missed))) && FirstClaimWaits(p.db)
    ensures Owned(p, W.TASK) && LeftToDispatch(p, 0, W.TASK)
    ensures CanDispatch(p, ReceiveLock(0)) && EndsLock(p, ReceiveLock(0)) && !GuardGoesOff(p, ReceiveLock(0))
  {
  }

  /** No acknowledgement is needed: a yielded task that reaches the lock path with
      its record is stranded by the disarming answer to a statement that failed. */
  lemma AFailedLockStrandsTheYieldedClaim()
    ensures exists moves ::
              var p := Execute(Fresh(W.OLD), moves);
              Owned(p, W.TASK) && !Covered(p, W.TASK) && p.db.jobs[W.TASK].status.Queued?
  {
    var p := LockRejected();
    NobodyElseHas(p);
    EndedLockIsCoveredIffGuarded(p, ReceiveLock(0), W.TASK);
    LockEnds(p, ReceiveLock(0));
    var q := Moved(p, InDispatch(ReceiveLock(0)));
    assert q.db == p.db;
  }
}
