/** One row of `apalis.jobs` and what every statement of the crate does to it.
    The functions follow the SQL; the lemmas say what those statements promise
    together. Names, queues, tokens and task ids are only ever compared, so they
    are numbers here. */
module Rows {
  type TaskId = nat
  type Name = nat
  type Queue = nat
  type Token = nat

  /** Microseconds since the Unix epoch, the resolution of `timestamptz`. */
  type Instant = int

  const MICROS_PER_SECOND: int := 1_000_000

  datatype Option<+T> = None | Some(value: T)

  /** `date_trunc('second', t)` as whole epoch seconds. */
  function Second(t: Instant): int {
    t / MICROS_PER_SECOND
  }

  function Min(a: int, b: int): int {
    if a <= b then a else b
  }

  datatype Status = Pending | Queued | Running | Done | Failed | Killed

  /** What `last_result` records, up to its message. */
  datatype Verdict = Succeeded | HandlerFailed | Undecodable | Malformed | HeartbeatTimeout | OwnerReleased

  datatype Row = Row(
    queue: Queue, status: Status, attempts: int, maxAttempts: int, runAt: Instant, priority: int,
    owner: Option<Name>, lockAt: Option<int>, doneAt: Option<Instant>, lastResult: Option<Verdict>)

  /** Why active claims are handed back. */
  datatype Recovery = StaleSweep | Takeover | Release {
    predicate ChargesUnstarted() {
      !Release?
    }

    function Reason(): Verdict {
      if Release? then OwnerReleased else HeartbeatTimeout
    }
  }

  /** Owned: claimed, started or not. */
  predicate Active(r: Row) {
    r.status.Queued? || r.status.Running?
  }

  /** Never leaves its state again. */
  predicate Finished(r: Row) {
    r.status.Done? || r.status.Killed?
  }

  /** The predicate shared by the completion wait and the purge. */
  predicate Terminal(r: Row) {
    Finished(r) || (r.status.Failed? && r.attempts >= r.maxAttempts)
  }

  /** Eligible for a fresh claim at `at`. */
  predicate Claimable(r: Row, at: Instant) {
    (r.status.Pending? || r.status.Failed?) && r.attempts < r.maxAttempts && r.runAt <= at
  }

  /** The shape every row keeps. */
  predicate RowInv(r: Row) {
    && 0 <= r.attempts <= r.maxAttempts
    && 1 <= r.maxAttempts
    && (!Finished(r) ==> r.attempts < r.maxAttempts)
    && (Active(r) ==> r.owner.Some?)
    && (r.status.Pending? ==> r.owner.None?)
    && (r.owner.Some? <==> r.lockAt.Some?)
    && (r.doneAt.Some? <==> r.status.Done? || r.status.Failed? || r.status.Killed?)
  }

  function Enqueued(queue: Queue, maxAttempts: int, runAt: Instant, priority: int): Row {
    Row(queue, Pending, 0, maxAttempts, runAt, priority, None, None, None, None)
  }

  /** `fetch_next`, `queue_by_id`. */
  function Claimed(r: Row, name: Name, at: Instant): Row {
    r.(status := Queued, owner := Some(name), lockAt := Some(Second(at)), doneAt := None)
  }

  /** A structurally malformed row, killed inside the transaction that claimed it. */
  function Quarantined(r: Row, at: Instant): Row {
    r.(status := Killed, attempts := Min(r.attempts + 1, r.maxAttempts), doneAt := Some(at),
       lastResult := Some(Malformed), owner := None, lockAt := None)
  }

  predicate Lockable(r: Row, name: Name, at: Instant) {
    && r.runAt <= at
    && (((r.status.Pending? || r.status.Failed?) && r.attempts < r.maxAttempts)
        || (Active(r) && r.owner == Some(name)))
  }

  /** `lock_task`: claims and starts at once, and keeps the claim time of a row
      the same worker already owns. */
  function Locked(r: Row, name: Name, at: Instant): Row {
    r.(status := Running,
       lockAt := if Active(r) && r.owner == Some(name) && r.lockAt.Some? then r.lockAt else Some(Second(at)),
       owner := Some(name), doneAt := None)
  }

  predicate Startable(r: Row, queue: Queue, name: Name, lockAt: int, attempts: Option<int>, restart: bool) {
    && r.queue == queue && r.owner == Some(name) && r.lockAt == Some(lockAt)
    && (attempts.None? || r.attempts == attempts.value)
    && (r.status.Queued? || (restart && r.status.Running?))
  }

  function Started(r: Row): Row {
    r.(status := Running)
  }

  /** `calculate_status`: the status an acknowledgement writes. */
  function CalculateStatus(maxAttempts: int, attempts: int, ok: bool): Status {
    if ok then Done
    else if maxAttempts >= 0 && maxAttempts > attempts then Failed
    else Killed
  }

  /** The counter an acknowledgement matches: `attempts.saturating_sub(1)`. */
  function StartedAttempts(counter: nat): nat {
    if counter == 0 then 0 else counter - 1
  }

  predicate Acknowledgeable(r: Row, queue: Queue, name: Name, lockAt: int, counter: nat) {
    && r.queue == queue && r.owner == Some(name) && r.lockAt == Some(lockAt)
    && r.attempts == StartedAttempts(counter) && Active(r)
  }

  function Acknowledged(r: Row, counter: nat, maxAttempts: int, ok: bool, at: Instant): Row {
    r.(status := CalculateStatus(maxAttempts, counter, ok), attempts := counter,
       lastResult := Some(if ok then Succeeded else HandlerFailed), doneAt := Some(at))
  }

  predicate Undecoded(r: Row, name: Name, lockAt: int, attempts: int) {
    Active(r) && r.owner == Some(name) && r.lockAt == Some(lockAt) && r.attempts == attempts
  }

  /** `fail_undecodable_task`. */
  function FailedUndecodable(r: Row, at: Instant): Row {
    r.(status := if r.attempts + 1 >= r.maxAttempts then Killed else Failed,
       attempts := Min(r.attempts + 1, r.maxAttempts), doneAt := Some(at), lastResult := Some(Undecodable))
  }

  /** `recover_owned`, for one of its candidate rows. */
  function Recovered(r: Row, recovery: Recovery, at: Instant): Row {
    var charged := r.status.Running? || recovery.ChargesUnstarted();
    var next := if charged then Min(r.attempts + 1, r.maxAttempts) else r.attempts;
    var dead := next >= r.maxAttempts;
    r.(status := if dead then Killed else Pending, doneAt := if dead then Some(at) else None,
       owner := None, lockAt := None, attempts := next,
       lastResult := if dead || (charged && r.lastResult.None?) then Some(recovery.Reason()) else r.lastResult)
  }

  /** What a recovery does to an active row, as its owner learns it. */
  ghost predicate HandedBack(before: Row, after: Row, recovery: Recovery, at: Instant) {
    var charged := before.status.Running? || !recovery.Release?;
    && RowInv(after) && after.owner.None? && after.lockAt.None?
    && after.attempts == before.attempts + (if charged then 1 else 0)
    && (if after.attempts == before.maxAttempts then after.status.Killed? && after.doneAt == Some(at)
        else after.status.Pending? && after.doneAt.None?)
    && after.lastResult == (if after.status.Killed? || (charged && before.lastResult.None?)
                            then Some(if recovery.Release? then OwnerReleased else HeartbeatTimeout) else before.lastResult)
    && after.queue == before.queue && after.maxAttempts == before.maxAttempts
    && after.runAt == before.runAt && after.priority == before.priority
  }

  lemma RecoveryHandsBack(r: Row, recovery: Recovery, at: Instant)
    requires RowInv(r) && Active(r)
    ensures HandedBack(r, Recovered(r, recovery, at), recovery, at)
  {
  }

  /** Ack failure, undecodable release and charged recovery agree on the attempt
      that ends a task, and each charges exactly one. */
  lemma FailurePathsAgree(r: Row, recovery: Recovery, at: Instant)
    requires RowInv(r) && Active(r)
    requires r.status.Running? || recovery.ChargesUnstarted()
    ensures var failed := Acknowledged(r, r.attempts + 1, r.maxAttempts, false, at);
            var undecodable := FailedUndecodable(r, at);
            var recovered := Recovered(r, recovery, at);
            && failed.attempts == undecodable.attempts == recovered.attempts == r.attempts + 1
            && (Terminal(failed) <==> r.attempts + 1 == r.maxAttempts)
            && (Terminal(undecodable) <==> r.attempts + 1 == r.maxAttempts)
            && (Terminal(recovered) <==> r.attempts + 1 == r.maxAttempts)
            && RowInv(failed) && RowInv(undecodable) && RowInv(recovered)
  {
  }

  /** A claim released before any handler started leaves no trace but the lost
      owner; every other recovery charges. */
  lemma UnstartedReleaseIsFree(r: Row, at: Instant)
    requires RowInv(r) && r.status.Queued?
    ensures Recovered(r, Release, at) == r.(status := Pending, owner := None, lockAt := None)
    ensures forall k: Recovery :: Recovered(r, k, at).attempts == r.attempts <==> k.Release?
  {
  }

  /** A row no one owns that is not finished is claimable as soon as it is due. */
  lemma UnownedIsClaimableOnceDue(r: Row, at: Instant)
    requires RowInv(r)
    ensures Claimable(r, at) <==> !Active(r) && !Finished(r) && r.runAt <= at
    ensures Terminal(r) <==> Finished(r)
  {
  }

  /** An acknowledgement that matches charges one attempt exactly when its
      counter includes the completed execution. A counter of zero, which only a
      hand-made `Attempt` can carry, rewrites the same count. */
  lemma AcknowledgementChargesIffCounted(
    r: Row, queue: Queue, name: Name, lockAt: int, counter: nat, ok: bool, at: Instant)
    requires RowInv(r) && Acknowledgeable(r, queue, name, lockAt, counter)
    ensures var acked := Acknowledged(r, counter, r.maxAttempts, ok, at);
            && (acked.attempts == r.attempts + 1 <==> counter >= 1)
            && (counter == 0 ==> acked.attempts == r.attempts == 0)
            && RowInv(acked)
  {
  }
}
