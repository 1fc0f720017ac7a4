/** The statements in fields and numbers: which rows each of them matches and what
    it writes, said once more without the functions the transactions are built
    from. The contracts of `Database` are stated in these words. */
module Statements {
  import opened Rows
  import opened Store
  import opened Invariants

  predicate InProgress(r: Row) {
    r.status in {Queued, Running}
  }

  predicate OwnedHere(r: Row, name: Name, queue: Queue) {
    r.owner == Some(name) && r.queue == queue
  }

  /** Registered and, if a token is presented, under that token. */
  predicate Presents(workers: map<Key, Registration>, name: Name, queue: Queue, token: Option<Token>) {
    (name, queue) in workers && (token == None || workers[(name, queue)].token == token)
  }

  predicate Expired(registration: Registration, staleAfter: int, at: Instant) {
    registration.lastSeen + staleAfter <= at
  }

  // ------------------------------------------------------------------ claims

  /** Retries included: `Failed` rows wait for a claim like `Pending` ones. */
  predicate Waits(r: Row, queue: Queue, at: Instant) {
    r.queue == queue && r.status in {Pending, Failed} && r.attempts < r.maxAttempts && r.runAt <= at
  }

  predicate ClaimWrites(before: Row, after: Row, name: Name, at: Instant) {
    after == before.(status := Queued, owner := Some(name), lockAt := Some(at / 1_000_000), doneAt := None)
  }

  predicate QuarantineWrites(before: Row, after: Row, at: Instant) {
    after == before.(status := Killed, attempts := before.attempts + 1, doneAt := Some(at), lastResult := Some(Malformed),
                     owner := None, lockAt := None)
  }

  predicate NotAfter(a: Row, b: Row) {
    b.priority < a.priority || (b.priority == a.priority && a.runAt <= b.runAt)
  }

  /** The rows a claim may take: waiting, not locked elsewhere, and named if names are given. */
  predicate Candidate(jobs: map<TaskId, Row>, queue: Queue, ids: Option<set<TaskId>>, busy: set<TaskId>, at: Instant,
                      id: TaskId) {
    id in jobs && Waits(jobs[id], queue, at) && id !in busy && (ids.Some? ==> id in ids.value)
  }

  /** A batch holds candidates only, each once and in claim order, and what a full
      batch leaves out comes no earlier than what it took. */
  ghost predicate TakesFirst(jobs: map<TaskId, Row>, queue: Queue, ids: Option<set<TaskId>>, busy: set<TaskId>, at: Instant,
                             limit: nat, batch: seq<TaskId>) {
    && |batch| <= limit
    && (forall i :: 0 <= i < |batch| ==> Candidate(jobs, queue, ids, busy, at, batch[i]))
    && (forall i, j :: 0 <= i < j < |batch| ==> batch[i] != batch[j] && NotAfter(jobs[batch[i]], jobs[batch[j]]))
    && (forall id :: Candidate(jobs, queue, ids, busy, at, id) && id !in batch ==>
          |batch| == limit && forall i :: 0 <= i < |batch| ==> NotAfter(jobs[batch[i]], jobs[id]))
  }

  /** The batch is claimed, its malformed rows are quarantined, and no other row moves. */
  ghost predicate ClaimsBatch(before: map<TaskId, Row>, after: map<TaskId, Row>, name: Name, batch: seq<TaskId>,
                              malformed: set<TaskId>, at: Instant) {
    && after.Keys == before.Keys
    && forall id :: id in before ==>
         if id !in batch then after[id] == before[id]
         else if id in malformed then QuarantineWrites(before[id], after[id], at)
         else ClaimWrites(before[id], after[id], name, at)
  }

  predicate LockMatches(r: Row, name: Name, at: Instant) {
    && r.runAt <= at
    && ((r.status in {Pending, Failed} && r.attempts < r.maxAttempts) || (InProgress(r) && r.owner == Some(name)))
  }

  /** A row its owner locks again keeps its claim time. */
  predicate LockWrites(before: Row, after: Row, name: Name, at: Instant) {
    after == before.(status := Running, owner := Some(name), doneAt := None,
                     lockAt := if InProgress(before) then before.lockAt else Some(at / 1_000_000))
  }

  // -------------------------------------------------------- claims under way

  /** The row is in progress in this claim. */
  predicate Claims(r: Row, queue: Queue, name: Name, lockAt: int) {
    InProgress(r) && OwnedHere(r, name, queue) && r.lockAt == Some(lockAt)
  }

  predicate StartFits(r: Row, queue: Queue, name: Name, lockAt: int, attempts: Option<int>, restart: bool) {
    && Claims(r, queue, name, lockAt) && (attempts.Some? ==> attempts.value == r.attempts)
    && (r.status == Running ==> restart)
  }

  /** The counter includes the execution, except that zero counts none. */
  predicate AckFits(r: Row, queue: Queue, name: Name, lockAt: int, counter: nat) {
    Claims(r, queue, name, lockAt) && r.attempts == if counter == 0 then 0 else counter - 1
  }

  predicate AckWrites(before: Row, after: Row, counter: nat, maxAttempts: int, ok: bool, at: Instant) {
    && after.attempts == counter && after.doneAt == Some(at)
    && (ok ==> after.status == Done && after.lastResult == Some(Succeeded))
    && (!ok ==> after.lastResult == Some(HandlerFailed)
                && after.status == if 0 <= maxAttempts && counter < maxAttempts then Failed else Killed)
    && after.queue == before.queue && after.maxAttempts == before.maxAttempts && after.runAt == before.runAt
    && after.priority == before.priority && after.owner == before.owner && after.lockAt == before.lockAt
  }

  predicate ReleaseWrites(before: Row, after: Row, at: Instant) {
    after == before.(status := if before.attempts + 1 < before.maxAttempts then Failed else Killed,
                     attempts := before.attempts + 1, doneAt := Some(at), lastResult := Some(Undecodable))
  }

  // ------------------------------------- the functions the code is built from

  lemma LockIsWritten(s: State, id: TaskId, name: Name, at: Instant)
    requires Kept(s) && id in s.jobs && Lockable(s.jobs[id], name, at)
    ensures LockMatches(s.jobs[id], name, at) && LockWrites(s.jobs[id], Locked(s.jobs[id], name, at), name, at)
  {
    ActiveRowsAreSound(s);
  }

  lemma ReleaseIsWritten(s: State, id: TaskId, name: Name, lockAt: int, attempts: int, at: Instant)
    requires Kept(s) && id in s.jobs && Undecoded(s.jobs[id], name, lockAt, attempts)
    ensures Claims(s.jobs[id], s.jobs[id].queue, name, lockAt) && s.jobs[id].attempts == attempts
    ensures ReleaseWrites(s.jobs[id], FailedUndecodable(s.jobs[id], at), at)
  {
    ActiveRowsAreSound(s);
  }

  // ---------------------------------------------------------------- recovery

  /** A claim whose owner's registration ran out, neither locked elsewhere. */
  predicate Orphan(jobs: map<TaskId, Row>, workers: map<Key, Registration>, queue: Queue, staleAfter: int, at: Instant,
                   busyNames: set<Name>, busyRows: set<TaskId>, id: TaskId) {
    && id in jobs && InProgress(jobs[id]) && jobs[id].queue == queue && id !in busyRows
    && jobs[id].owner.Some? && jobs[id].owner.value !in busyNames
    && (jobs[id].owner.value, queue) in workers && Expired(workers[(jobs[id].owner.value, queue)], staleAfter, at)
  }

  /** A sweep takes orphans of the owners `names`; an owner or a row that it leaves
      out comes after all those taken, and the limit is used up. */
  ghost predicate ChoosesFirst(jobs: map<TaskId, Row>, workers: map<Key, Registration>, queue: Queue, staleAfter: int,
                               at: Instant, busyNames: set<Name>, busyRows: set<TaskId>, limit: nat, names: set<Name>,
                               ids: set<TaskId>) {
    && |names| <= limit && |ids| <= limit
    && (forall id :: id in ids ==>
          Orphan(jobs, workers, queue, staleAfter, at, busyNames, busyRows, id) && jobs[id].owner.value in names)
    && (forall id :: Orphan(jobs, workers, queue, staleAfter, at, busyNames, busyRows, id) && id !in ids ==>
          if jobs[id].owner.value in names then |ids| == limit && forall x :: x in ids ==> x < id
          else |names| == limit && forall name :: name in names ==> name < jobs[id].owner.value)
  }

  /** These rows are handed back, and no other row moves. */
  ghost predicate HandsBack(before: map<TaskId, Row>, after: map<TaskId, Row>, ids: set<TaskId>, recovery: Recovery,
                            at: Instant) {
    && after.Keys == before.Keys
    && forall id :: id in before ==>
         if id in ids then HandedBack(before[id], after[id], recovery, at) else after[id] == before[id]
  }

  /** The claims of a registration. */
  function ClaimsHeld(jobs: map<TaskId, Row>, name: Name, queue: Queue): set<TaskId> {
    set id | id in jobs && InProgress(jobs[id]) && OwnedHere(jobs[id], name, queue)
  }

  /** Every claim of the registration is handed back, and no other row moves. */
  ghost predicate HandsBackClaims(before: map<TaskId, Row>, after: map<TaskId, Row>, name: Name, queue: Queue,
                                  recovery: Recovery, at: Instant) {
    && after.Keys == before.Keys
    && forall id :: id in before ==>
         if InProgress(before[id]) && OwnedHere(before[id], name, queue)
         then HandedBack(before[id], after[id], recovery, at) else after[id] == before[id]
  }

  // --------------------------------------------------------------- retention

  /** Ended for good, at or before the cutoff; aged by its schedule without a date. */
  predicate OldEnough(r: Row, queue: Queue, cutoff: Instant) {
    && r.queue == queue && (r.status in {Done, Killed} || (r.status == Failed && r.maxAttempts <= r.attempts))
    && (match r.doneAt case Some(date) => date <= cutoff case None => r.runAt <= cutoff)
  }
}
