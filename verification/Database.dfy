/** The tables as the crate's transactions change them. Each method is one
    transaction: it decides from the tables alone, and its contract says which
    event of the store it was and what it reported. Rows another transaction
    holds (`SKIP LOCKED`) and the fate of a COMMIT are arguments. */
module Database {
  import opened Rows
  import opened Store
  import opened Invariants
  import opened Statements
  import opened Sequences

  datatype Error =
    | NotRegistered | AlreadyRegistered | TaskNotFound | StaleAcknowledgement | ForeignKey
    | InvalidArgument | MalformedRow | CommitRejected | ConnectionLost | ClaimOutcomeUnknown

  datatype Result<+T> = Ok(value: T) | Err(error: Error)

  /** What the client learns about a COMMIT, and whether it took effect. */
  datatype Commit = Confirmed | Rejected | Unanswered(applied: bool) {
    predicate Applied() {
      Confirmed? || (Unanswered? && applied)
    }

    function Report<T>(value: T): Result<T> {
      match this
      case Confirmed => Ok(value)
      case Rejected => Err(CommitRejected)
      case Unanswered(_) => Err(ConnectionLost)
    }
  }

  /** Only a server's rejection proves that a transaction did not commit. */
  predicate KnownCommitRejection(error: Error) {
    error.CommitRejected?
  }

  /** `claim_outcome`: an error after claiming rows is reported as unknown. */
  function ClaimOutcome<T>(result: Result<T>, claimed: bool): (r: Result<T>)
    ensures r.Ok? <==> result.Ok?
    ensures r == Err(ClaimOutcomeUnknown) <==>
            result == Err(ClaimOutcomeUnknown) || (result.Err? && claimed && result.error != CommitRejected)
  {
    if result.Err? && claimed && !KnownCommitRejection(result.error) then Err(ClaimOutcomeUnknown) else result
  }

  /** The claim record a claimed task carries in memory. */
  datatype ClaimRecord = ClaimRecord(
    task: TaskId, queue: Queue, owner: Name, lockAt: int, attempts: int, maxAttempts: int)

  function RecordOf(id: TaskId, r: Row): ClaimRecord
    requires r.owner.Some? && r.lockAt.Some?
  {
    ClaimRecord(id, r.queue, r.owner.value, r.lockAt.value, r.attempts, r.maxAttempts)
  }

  // -------------------------------------------------------------- selection

  /** `ORDER BY priority DESC, run_at ASC`. */
  predicate Precedes(a: Row, b: Row) {
    a.priority > b.priority || (a.priority == b.priority && a.runAt <= b.runAt)
  }

  function Elements<T>(s: seq<T>): set<T> {
    set x | x in s
  }

  ghost predicate Sorted(jobs: map<TaskId, Row>, batch: seq<TaskId>)
    requires Elements(batch) <= jobs.Keys
  {
    forall i, j :: 0 <= i < j < |batch| ==> Precedes(jobs[batch[i]], jobs[batch[j]])
  }

  ghost predicate AllPrecede(jobs: map<TaskId, Row>, batch: set<TaskId>, rest: set<TaskId>)
    requires batch <= jobs.Keys && rest <= jobs.Keys
  {
    forall x, y :: x in batch && y in rest ==> Precedes(jobs[x], jobs[y])
  }

  /** The first `limit` eligible rows in claim order. */
  ghost predicate IsBatch(jobs: map<TaskId, Row>, eligible: set<TaskId>, limit: nat, batch: seq<TaskId>) {
    && Elements(batch) <= eligible <= jobs.Keys && Distinct(batch)
    && |batch| == Min(limit, |eligible|)
    && Sorted(jobs, batch)
    && AllPrecede(jobs, Elements(batch), eligible - Elements(batch))
  }

  lemma AppendKeepsOrder(jobs: map<TaskId, Row>, batch: seq<TaskId>, id: TaskId, rest: set<TaskId>)
    requires Elements(batch) <= jobs.Keys && rest <= jobs.Keys && id in rest
    requires Distinct(batch) && Sorted(jobs, batch) && Elements(batch) !! rest
    requires AllPrecede(jobs, Elements(batch), rest) && AllPrecede(jobs, {id}, rest)
    ensures Elements(batch + [id]) == Elements(batch) + {id}
    ensures Distinct(batch + [id]) && Sorted(jobs, batch + [id])
    ensures AllPrecede(jobs, Elements(batch + [id]), rest - {id})
  {
    assert Elements(batch + [id]) == Elements(batch) + {id};
    forall i | 0 <= i < |batch|
      ensures batch[i] in Elements(batch) && batch[i] != id && Precedes(jobs[batch[i]], jobs[id])
    {
    }
  }

  method First(jobs: map<TaskId, Row>, eligible: set<TaskId>) returns (best: TaskId)
    requires eligible != {} && eligible <= jobs.Keys
    ensures best in eligible
    ensures forall id :: id in eligible ==> Precedes(jobs[best], jobs[id])
  {
    best :| best in eligible;
    var rest := eligible - {best};
    while rest != {}
      invariant rest < eligible && best in eligible - rest
      invariant forall id :: id in eligible - rest ==> Precedes(jobs[best], jobs[id])
      decreases rest
    {
      var id :| id in rest;
      rest := rest - {id};
      if !Precedes(jobs[best], jobs[id]) {
        best := id;
      }
    }
  }

  method SelectBatch(jobs: map<TaskId, Row>, eligible: set<TaskId>, limit: nat) returns (batch: seq<TaskId>)
    requires eligible <= jobs.Keys
    ensures IsBatch(jobs, eligible, limit, batch)
  {
    batch := [];
    var rest := eligible;
    while |batch| < limit && rest != {}
      invariant Elements(batch) <= eligible && rest == eligible - Elements(batch)
      invariant |batch| + |rest| == |eligible| && |batch| <= limit
      invariant Distinct(batch) && Sorted(jobs, batch) && AllPrecede(jobs, Elements(batch), rest)
      decreases rest
    {
      var id := First(jobs, rest);
      AppendKeepsOrder(jobs, batch, id, rest);
      batch := batch + [id];
      rest := rest - {id};
    }
  }

  /** Any `limit` of the candidates, in no particular order. */
  method Take<T(==)>(candidates: set<T>, limit: nat) returns (taken: set<T>)
    ensures taken <= candidates && |taken| == Min(limit, |candidates|)
    ensures |taken| < limit ==> taken == candidates
  {
    taken := {};
    var rest := candidates;
    while |taken| < limit && rest != {}
      invariant rest == candidates - taken && taken <= candidates
      invariant |taken| + |rest| == |candidates| && |taken| <= limit
      decreases rest
    {
      var x :| x in rest;
      taken, rest := taken + {x}, rest - {x};
    }
  }

  /** The first `limit` of the candidates in the order of their ids. */
  method TakeLeast(candidates: set<nat>, limit: nat) returns (taken: set<nat>)
    ensures taken <= candidates && |taken| == Min(limit, |candidates|)
    ensures FirstById(taken, candidates)
    ensures |taken| < limit ==> taken == candidates
  {
    taken := {};
    var rest := candidates;
    while |taken| < limit && rest != {}
      invariant rest == candidates - taken && taken <= candidates
      invariant |taken| + |rest| == |candidates| && |taken| <= limit
      invariant forall x, y :: x in taken && y in rest ==> x < y
      decreases rest
    {
      var x := Least(rest);
      taken, rest := taken + {x}, rest - {x};
    }
  }

  method Least(candidates: set<nat>) returns (least: nat)
    requires candidates != {}
    ensures least in candidates && forall x :: x in candidates ==> least <= x
  {
    least :| least in candidates;
    var rest := candidates - {least};
    while rest != {}
      invariant rest < candidates && least in candidates - rest
      invariant forall x :: x in candidates && x !in rest ==> least <= x
      decreases rest
    {
      var x :| x in rest;
      rest := rest - {x};
      if x < least {
        least := x;
      }
    }
  }

  /** `taken` comes first in the order of ids. */
  predicate FirstById(taken: set<nat>, candidates: set<nat>) {
    forall x, y :: x in taken && y in candidates - taken ==> x < y
  }

  /** The first of the candidate owners and the first of their claims are the first orphans. */
  lemma FirstAreChosen(jobs: map<TaskId, Row>, workers: map<Key, Registration>, queue: Queue, staleAfter: int, at: Instant,
                       busyNames: set<Name>, busyRows: set<TaskId>, limit: nat, owners: set<Name>, names: set<Name>,
                       claims: set<TaskId>, ids: set<TaskId>)
    requires names <= owners && FirstById(names, owners) && |names| <= limit && (|names| < limit ==> names == owners)
    requires ids <= claims && FirstById(ids, claims) && |ids| <= limit && (|ids| < limit ==> ids == claims)
    requires forall id :: Orphan(jobs, workers, queue, staleAfter, at, busyNames, busyRows, id) ==>
               jobs[id].owner.value in owners
    requires forall name :: name in owners ==>
               name !in busyNames && (name, queue) in workers && Expired(workers[(name, queue)], staleAfter, at)
    requires forall id :: id in claims <==>
               id in jobs && InProgress(jobs[id]) && jobs[id].queue == queue && id !in busyRows
               && jobs[id].owner.Some? && jobs[id].owner.value in names
    ensures ChoosesFirst(jobs, workers, queue, staleAfter, at, busyNames, busyRows, limit, names, ids)
  {
    forall id | Orphan(jobs, workers, queue, staleAfter, at, busyNames, busyRows, id) && id !in ids
      ensures if jobs[id].owner.value in names then |ids| == limit && forall x :: x in ids ==> x < id
              else |names| == limit && forall name :: name in names ==> name < jobs[id].owner.value
    {
      if jobs[id].owner.value in names {
        assert id in claims - ids;
      } else {
        assert jobs[id].owner.value in owners - names;
      }
    }
  }

  // ----------------------------------------------------------- transactions

  /** The rows a batch hands out, in order: everything but the quarantined. */
  function Delivered(jobs: map<TaskId, Row>, batch: seq<TaskId>, malformed: set<TaskId>): seq<ClaimRecord> {
    if batch == [] then []
    else
      var id := batch[|batch| - 1];
      Delivered(jobs, batch[..|batch| - 1], malformed)
      + if id in malformed || id !in jobs || jobs[id].owner.None? || jobs[id].lockAt.None? then []
        else [RecordOf(id, jobs[id])]
  }

  /** What a batch hands out is what the quarantine left owned. */
  lemma {:induction false} DeliveredAgrees(
    a: map<TaskId, Row>, b: map<TaskId, Row>, batch: seq<TaskId>, malformed: set<TaskId>)
    requires forall id :: id in batch && id !in malformed ==> id in a && id in b && a[id] == b[id]
    ensures Delivered(a, batch, malformed) == Delivered(b, batch, malformed)
    decreases |batch|
  {
    if batch != [] {
      assert batch[|batch| - 1] in batch;
      assert forall id :: id in batch[..|batch| - 1] ==> id in batch;
      DeliveredAgrees(a, b, batch[..|batch| - 1], malformed);
    }
  }

  lemma {:induction false} NothingDelivered(jobs: map<TaskId, Row>, batch: seq<TaskId>, malformed: set<TaskId>)
    requires forall id :: id in batch ==> id in jobs && jobs[id].owner.Some? && jobs[id].lockAt.Some?
    requires Delivered(jobs, batch, malformed) == []
    ensures Elements(batch) <= malformed
    decreases |batch|
  {
    if batch != [] {
      var front, last := batch[..|batch| - 1], batch[|batch| - 1];
      assert last in batch && batch == front + [last];
      assert forall id :: id in front ==> id in batch;
      assert last in malformed;
      NothingDelivered(jobs, front, malformed);
      assert Elements(batch) == Elements(front) + {last};
    }
  }

  /** One record for each row of the batch that was not quarantined, in the order of
      the batch, and each says what its row says. */
  ghost predicate HandsOver(tasks: seq<ClaimRecord>, jobs: map<TaskId, Row>, batch: seq<TaskId>, malformed: set<TaskId>) {
    && (forall k :: 0 <= k < |tasks| ==>
          && tasks[k].task in jobs && tasks[k].task in batch && tasks[k].task !in malformed
          && var r := jobs[tasks[k].task];
             && r.owner == Some(tasks[k].owner) && r.lockAt == Some(tasks[k].lockAt)
             && tasks[k] == ClaimRecord(tasks[k].task, r.queue, tasks[k].owner, tasks[k].lockAt, r.attempts, r.maxAttempts))
    && (forall id :: id in batch && id !in malformed ==> exists k :: 0 <= k < |tasks| && tasks[k].task == id)
    && (forall i, j :: 0 <= i < j < |tasks| ==> Before(batch, tasks[i].task, tasks[j].task))
  }

  ghost predicate Before(batch: seq<TaskId>, x: TaskId, y: TaskId) {
    exists a, b :: 0 <= a < b < |batch| && batch[a] == x && batch[b] == y
  }

  lemma BeforeInLonger(batch: seq<TaskId>, last: TaskId, x: TaskId, y: TaskId)
    ensures Before(batch, x, y) ==> Before(batch + [last], x, y)
    ensures x in batch && y == last ==> Before(batch + [last], x, y)
  {
    if Before(batch, x, y) {
      var a, b :| 0 <= a < b < |batch| && batch[a] == x && batch[b] == y;
      assert (batch + [last])[a] == x && (batch + [last])[b] == y;
    }
    if x in batch && y == last {
      var a :| 0 <= a < |batch| && batch[a] == x;
      assert (batch + [last])[a] == x && (batch + [last])[|batch|] == y;
    }
  }

  lemma {:induction false} DeliveredHandsOver(jobs: map<TaskId, Row>, batch: seq<TaskId>, malformed: set<TaskId>)
    requires forall id :: id in batch && id !in malformed ==> id in jobs && jobs[id].owner.Some? && jobs[id].lockAt.Some?
    ensures HandsOver(Delivered(jobs, batch, malformed), jobs, batch, malformed)
    decreases |batch|
  {
    if batch != [] {
      var front, last := batch[..|batch| - 1], batch[|batch| - 1];
      assert batch == front + [last];
      DeliveredHandsOver(jobs, front, malformed);
      OneMoreHandedOver(jobs, front, last, malformed);
    }
  }

  lemma OneMoreHandedOver(jobs: map<TaskId, Row>, front: seq<TaskId>, last: TaskId, malformed: set<TaskId>)
    requires last !in malformed ==> last in jobs && jobs[last].owner.Some? && jobs[last].lockAt.Some?
    requires HandsOver(Delivered(jobs, front, malformed), jobs, front, malformed)
    ensures HandsOver(Delivered(jobs, front + [last], malformed), jobs, front + [last], malformed)
  {
    var batch, some := front + [last], Delivered(jobs, front, malformed);
    var tasks := Delivered(jobs, batch, malformed);
    assert batch[..|batch| - 1] == front;
    assert tasks == if last in malformed then some else some + [RecordOf(last, jobs[last])];
    forall i, j | 0 <= i < j < |tasks|
      ensures Before(batch, tasks[i].task, tasks[j].task)
    {
      BeforeInLonger(front, last, tasks[i].task, tasks[j].task);
    }
    forall id | id in batch && id !in malformed
      ensures exists k :: 0 <= k < |tasks| && tasks[k].task == id
    {
      if id in front {
        var k :| 0 <= k < |some| && some[k].task == id;
        assert tasks[k].task == id;
      } else {
        assert tasks[|some|].task == id;
      }
    }
  }

  lemma {:induction false} DistinctSize(batch: seq<TaskId>)
    requires Distinct(batch)
    ensures |Elements(batch)| == |batch|
    decreases |batch|
  {
    if batch != [] {
      var front, last := batch[..|batch| - 1], batch[|batch| - 1];
      DistinctSize(front);
      assert batch == front + [last] && last !in front;
      assert Elements(batch) == Elements(front) + {last};
    }
  }

  /** A batch of the candidates takes the first of them. */
  lemma BatchTakesFirst(jobs: map<TaskId, Row>, eligible: set<TaskId>, queue: Queue, ids: Option<set<TaskId>>,
                        busy: set<TaskId>, at: Instant, limit: nat, batch: seq<TaskId>)
    requires IsBatch(jobs, eligible, limit, batch)
    requires forall id :: id in eligible <==> Candidate(jobs, queue, ids, busy, at, id)
    ensures TakesFirst(jobs, queue, ids, busy, at, limit, batch)
  {
    assert forall i :: 0 <= i < |batch| ==> batch[i] in Elements(batch);
    forall id | Candidate(jobs, queue, ids, busy, at, id) && id !in batch
      ensures |batch| == limit && forall i :: 0 <= i < |batch| ==> NotAfter(jobs[batch[i]], jobs[id])
    {
      assert id in eligible - Elements(batch);
      DistinctSize(batch);
      StrictSubsetSize(Elements(batch), eligible, id);
      assert forall i :: 0 <= i < |batch| ==> Precedes(jobs[batch[i]], jobs[id]);
    }
    assert forall i, j :: 0 <= i < j < |batch| ==> Precedes(jobs[batch[i]], jobs[batch[j]]);
  }

  lemma StrictSubsetSize(part: set<TaskId>, whole: set<TaskId>, x: TaskId)
    requires part <= whole && x in whole - part
    ensures |part| < |whole|
  {
    assert whole == part + (whole - part);
    assert |whole - part| > 0;
  }

  /** The fetch event claims its batch. */
  lemma FetchClaimsBatch(s: State, name: Name, queue: Queue, token: Option<Token>, batch: seq<TaskId>,
                         malformed: set<TaskId>, at: Instant)
    requires var e := FetchOf(name, queue, token, batch, malformed, at); Enabled(s, e)
    ensures ClaimsBatch(s.jobs, Effect(s, FetchOf(name, queue, token, batch, malformed, at)).jobs, name, batch, malformed, at)
  {
    var e := FetchOf(name, queue, token, batch, malformed, at);
    assert forall id :: id in batch <==> id in e.ids;
  }

  function ClaimedTable(jobs: map<TaskId, Row>, batch: seq<TaskId>, name: Name, at: Instant): (claimed: map<TaskId, Row>)
    ensures claimed.Keys == jobs.Keys
  {
    map id | id in jobs :: if id in batch then Claimed(jobs[id], name, at) else jobs[id]
  }

  function FetchOf(name: Name, queue: Queue, token: Option<Token>, batch: seq<TaskId>, malformed: set<TaskId>,
                   at: Instant): Event {
    Fetch(name, queue, token, Elements(batch), malformed * Elements(batch), at)
  }

  /** Claiming a batch and then quarantining its malformed rows is the fetch event. */
  lemma ClaimIsFetch(s: State, name: Name, queue: Queue, token: Option<Token>, batch: seq<TaskId>,
                     malformed: set<TaskId>, at: Instant, table: map<TaskId, Row>)
    requires forall id :: id in batch ==> id in s.jobs && s.jobs[id].queue == queue && Claimable(s.jobs[id], at)
    requires Holds(s, (name, queue), token)
    requires var claimed := ClaimedTable(s.jobs, batch, name, at);
             && table.Keys == claimed.Keys
             && forall id :: id in claimed ==>
                  table[id] == if id in batch && id in malformed then Quarantined(claimed[id], at) else claimed[id]
    ensures var e := FetchOf(name, queue, token, batch, malformed, at);
            Enabled(s, e) && Effect(s, e) == s.(jobs := table)
  {
    var e := FetchOf(name, queue, token, batch, malformed, at);
    assert forall id :: id in batch <==> id in e.ids;
    assert Effect(s, e).jobs == table;
  }

  /** A batch that is quarantined as a whole issues no claim. */
  lemma QuarantineIssuesNothing(s: State, e: Event)
    requires Inv(s) && e.Fetch? && Enabled(s, e) && e.ids <= e.malformed
    ensures Step(s, e).claims == s.claims
  {
    var next := Effect(s, e);
    forall id | id in next.jobs
      ensures !NewlyClaimed(s.jobs[id], next.jobs[id])
    {
    }
  }

  /** Deleting rows that are old enough is the purge event. */
  lemma DeletingIsPurge(s: State, queue: Queue, cutoff: Instant, ids: set<TaskId>)
    requires forall id :: id in ids ==> id in s.jobs && Purgeable(s.jobs[id], queue, cutoff)
    ensures var e := Purge(queue, ids, cutoff);
            Enabled(s, e) && Effect(s, e) == s.(jobs := map id | id in s.jobs && id !in ids :: s.jobs[id])
  {
  }

  lemma QuarantineClaimsNothing(s: State, e: Event)
    requires Kept(s) && e.Fetch? && Enabled(s, e) && e.ids <= e.malformed
    ensures Step(s, e).claims == s.claims
  {
    Unfolded(s);
    QuarantineIssuesNothing(s, e);
  }

  class Tables {
    var jobs: map<TaskId, Row>
    var workers: map<Key, Registration>
    ghost var retired: set<(Token, Name)>
    ghost var used: set<TaskId>
    ghost var ledger: map<TaskId, Ledger>
    ghost var claims: set<Claim>

    ghost function Snapshot(): State
      reads this
    {
      State(jobs, workers, retired, used, ledger, claims)
    }

    ghost predicate Valid()
      reads this
    {
      Kept(Snapshot())
    }

    constructor ()
      ensures Valid() && Snapshot() == Initial
    {
      jobs, workers, retired, used, ledger, claims := map[], map[], {}, {}, map[], {};
    }

    /** Record what the transaction just written did to the rows. */
    ghost method Book(before: State, e: Event)
      requires Kept(before) && Enabled(before, e) && Snapshot() == Effect(before, e)
      modifies this`ledger, this`claims
      ensures Valid() && Snapshot() == Step(before, e)
      ensures old(claims) <= claims
    {
      StepKeeps(before, e);
      ghost var after := Observe(before, Snapshot());
      ledger, claims := after.ledger, after.claims;
      assert Snapshot() == after;
      assert after == Step(before, e);
    }

    predicate Registered(name: Name, queue: Queue, token: Option<Token>)
      reads this
    {
      (name, queue) in workers && (token.None? || workers[(name, queue)].token == token)
    }

    /** The retirement of a name is local to a process; the tables do not move. */
    ghost method RetireLocally(token: Token, name: Name)
      modifies this`retired, this`ledger, this`claims
      ensures Snapshot() == Step(old(Snapshot()), Retire(token, name))
      ensures old(Valid()) ==> Valid()
    {
      ghost var before := Snapshot();
      retired := retired + {(token, name)};
      ghost var after := Observe(before, Snapshot());
      ledger, claims := after.ledger, after.claims;
      assert Snapshot() == after;
      if Kept(before) {
        StepKeeps(before, Retire(token, name));
      }
    }

    method Push(id: TaskId, queue: Queue, maxAttempts: int, runAt: Instant, priority: int)
      requires Valid() && id !in used && maxAttempts >= 1
      modifies this
      ensures Valid() && Snapshot() == Step(old(Snapshot()), Enqueue(id, queue, maxAttempts, runAt, priority))
      ensures jobs == old(jobs)[id := Row(queue, Pending, 0, maxAttempts, runAt, priority, None, None, None, None)]
    {
      ghost var before := Snapshot();
      jobs := jobs[id := Enqueued(queue, maxAttempts, runAt, priority)];
      used := used + {id};
      Book(before, Enqueue(id, queue, maxAttempts, runAt, priority));
    }

    /** `claimed_tasks`: quarantine the malformed rows of a claimed batch. */
    method HandOut(claimed: map<TaskId, Row>, batch: seq<TaskId>, malformed: set<TaskId>, at: Instant)
      returns (table: map<TaskId, Row>, tasks: seq<ClaimRecord>)
      requires Distinct(batch) && Elements(batch) <= claimed.Keys
      requires forall id :: id in batch ==> claimed[id].owner.Some? && claimed[id].lockAt.Some?
      ensures table.Keys == claimed.Keys
      ensures forall id :: id in claimed ==>
                table[id] == if id in batch && id in malformed then Quarantined(claimed[id], at) else claimed[id]
      ensures tasks == Delivered(claimed, batch, malformed)
    {
      table, tasks := claimed, [];
      for i := 0 to |batch|
        invariant table.Keys == claimed.Keys
        invariant forall id :: id in claimed ==>
                    table[id] == if id in batch[..i] && id in malformed then Quarantined(claimed[id], at) else claimed[id]
        invariant tasks == Delivered(claimed, batch[..i], malformed)
      {
        var id := batch[i];
        assert batch[..i + 1][..i] == batch[..i];
        assert id !in batch[..i];
        assert id in Elements(batch);
        if id in malformed {
          table := table[id := Quarantined(table[id], at)];
        } else {
          tasks := tasks + [RecordOf(id, table[id])];
        }
      }
      assert batch[..|batch|] == batch;
    }

    /** The rows a claim of this queue may take; a notified claim names its ids. */
    function Eligible(queue: Queue, ids: Option<set<TaskId>>, busy: set<TaskId>, at: Instant): set<TaskId>
      reads this
    {
      set id | id in jobs && jobs[id].queue == queue && Claimable(jobs[id], at) && id !in busy
               && (ids.None? || id in ids.value)
    }

    /** The writes of a claim, up to its COMMIT. */
    method WriteClaims(name: Name, queue: Queue, token: Option<Token>, batch: seq<TaskId>,
                       malformed: set<TaskId>, at: Instant, commit: Commit)
      returns (tasks: seq<ClaimRecord>)
      requires Valid() && Distinct(batch)
      requires forall id :: id in batch ==> id in jobs && jobs[id].queue == queue && Claimable(jobs[id], at)
      requires Holds(Snapshot(), (name, queue), token)
      modifies this
      ensures Valid()
      ensures Snapshot() == if !commit.Applied() then old(Snapshot())
                            else Step(old(Snapshot()), FetchOf(name, queue, token, batch, malformed, at))
      ensures commit.Applied() ==> tasks == Delivered(jobs, batch, malformed)
      ensures tasks == [] ==> claims == old(claims)
      ensures workers == old(workers)
      ensures if commit.Applied() then ClaimsBatch(old(jobs), jobs, name, batch, malformed, at) else jobs == old(jobs)
    {
      ghost var before := Snapshot();
      ghost var e := FetchOf(name, queue, token, batch, malformed, at);
      var claimed := ClaimedTable(jobs, batch, name, at);
      assert Elements(batch) <= claimed.Keys;
      var table;
      table, tasks := HandOut(claimed, batch, malformed, at);
      DeliveredAgrees(claimed, table, batch, malformed);
      ClaimIsFetch(before, name, queue, token, batch, malformed, at, table);
      FetchClaimsBatch(before, name, queue, token, batch, malformed, at);
      if tasks == [] {
        NothingDelivered(claimed, batch, malformed);
        QuarantineClaimsNothing(before, e);
      }
      if commit.Applied() {
        jobs := table;
        Book(before, e);
      }
    }

    /** `fetch_next` and `queue_by_id`. */
    method Claim(name: Name, queue: Queue, token: Option<Token>, ids: Option<set<TaskId>>, limit: nat,
                 busy: set<TaskId>, malformed: set<TaskId>, at: Instant, commit: Commit)
      returns (r: Result<seq<ClaimRecord>>, ghost batch: seq<TaskId>)
      requires Valid()
      modifies this
      ensures Valid()
      ensures r == Err(NotRegistered) <==> token.Some? && !Presents(old(workers), name, queue, token)
      ensures workers == old(workers)
      ensures r != Err(NotRegistered) ==> TakesFirst(old(jobs), queue, ids, busy, at, limit, batch)
      ensures if commit.Applied() && r !in {Err(NotRegistered), Err(ForeignKey)}
              then ClaimsBatch(old(jobs), jobs, name, batch, malformed, at) else jobs == old(jobs)
      ensures r.Ok? ==> HandsOver(r.value, jobs, batch, malformed)
      ensures r == Err(ForeignKey) <==> old(token.None? && (name, queue) !in workers) && batch != []
      ensures r in {Err(NotRegistered), Err(ForeignKey)} ==> Snapshot() == old(Snapshot())
      ensures r !in {Err(NotRegistered), Err(ForeignKey)} ==>
                && old(IsBatch(jobs, Eligible(queue, ids, busy, at), limit, batch))
                && Snapshot() == if !commit.Applied() then old(Snapshot())
                                 else Step(old(Snapshot()), FetchOf(name, queue, token, batch, malformed, at))
      ensures r.Ok? <==> commit.Confirmed? && r !in {Err(NotRegistered), Err(ForeignKey)}
      ensures r.Ok? ==> r.value == Delivered(jobs, batch, malformed)
      ensures r.Err? && r.error != ClaimOutcomeUnknown ==> claims == old(claims)
      ensures r == Err(ClaimOutcomeUnknown) ==> commit.Unanswered?
    {
      batch := [];
      if token.Some? && !Registered(name, queue, token) {
        return Err(NotRegistered), [];
      }
      var rows := SelectBatch(jobs, Eligible(queue, ids, busy, at), limit);
      batch := rows;
      BatchTakesFirst(jobs, Eligible(queue, ids, busy, at), queue, ids, busy, at, limit, rows);
      if rows != [] && (name, queue) !in workers {
        return Err(ForeignKey), rows;
      }
      if (name, queue) !in workers {
        return ClaimOutcome(commit.Report([]), false), rows;
      }
      assert forall id :: id in rows ==> id in Elements(rows);
      var tasks := WriteClaims(name, queue, token, rows, malformed, at, commit);
      if commit.Applied() {
        DeliveredHandsOver(jobs, rows, malformed);
      }
      r := ClaimOutcome(commit.Report(tasks), tasks != []);
    }

    /** `lock_task_with_token`: claim and start in one statement. A row that cannot
        be read back fails the transaction, which rolls back. */
    method LockTask(id: TaskId, name: Name, scope: Option<Queue>, token: Option<Token>, malformed: bool, at: Instant,
                    commit: Commit)
      returns (r: Result<ClaimRecord>)
      requires Valid()
      modifies this
      ensures Valid()
      ensures var e := Lock(id, name, scope, token, at);
              && Snapshot() == (if commit.Applied() && !malformed then Step(old(Snapshot()), e) else old(Snapshot()))
              && (r.Ok? <==> commit.Confirmed? && !malformed && Enabled(old(Snapshot()), e))
              && (r == Err(MalformedRow) <==> malformed && Enabled(old(Snapshot()), e))
              && (r.Ok? ==> id in jobs && jobs[id].owner == Some(name) && jobs[id].lockAt.Some?
                            && r.value == RecordOf(id, jobs[id]))
              && (r == Err(ClaimOutcomeUnknown) <==> !malformed && Enabled(old(Snapshot()), e) && commit.Unanswered?)
              && (r.Err? && r.error != ClaimOutcomeUnknown ==> Snapshot() == old(Snapshot()))
      ensures r.Ok? <==>
                && commit.Confirmed? && !malformed && id in old(jobs) && (scope.Some? ==> old(jobs)[id].queue == scope.value)
                && Presents(workers, name, old(jobs)[id].queue, token) && LockMatches(old(jobs)[id], name, at)
      ensures workers == old(workers)
      ensures jobs == old(jobs) ||
              (id in jobs && id in old(jobs) && LockWrites(old(jobs)[id], jobs[id], name, at) && jobs == old(jobs)[id := jobs[id]])
      ensures r.Ok? ==>
                && id in old(jobs) && LockWrites(old(jobs)[id], jobs[id], name, at)
                && r.value == ClaimRecord(id, jobs[id].queue, name, jobs[id].lockAt.value, jobs[id].attempts,
                                          jobs[id].maxAttempts)
    {
      ghost var before, e := Snapshot(), Lock(id, name, scope, token, at);
      if id !in jobs || (scope.Some? && jobs[id].queue != scope.value) {
        return Err(TaskNotFound);
      }
      var queue := jobs[id].queue;
      if token.Some? && !Registered(name, queue, token) {
        return Err(NotRegistered);
      }
      if !Lockable(jobs[id], name, at) {
        return Err(TaskNotFound);
      }
      if (name, queue) !in workers {
        return Err(ForeignKey);
      }
      if malformed {
        return Err(MalformedRow);
      }
      LockIsWritten(before, id, name, at);
      var row := Locked(jobs[id], name, at);
      if commit.Applied() {
        jobs := jobs[id := row];
        Book(before, e);
      }
      r := ClaimOutcome(commit.Report(RecordOf(id, row)), true);
    }

    /** `start_task`: whether the row was started. */
    method StartTask(id: TaskId, queue: Queue, name: Name, lockAt: int, attempts: Option<int>, restart: bool,
                     token: Option<Token>)
      returns (started: bool)
      requires Valid()
      modifies this
      ensures var e := Start(id, queue, name, lockAt, attempts, restart, token);
              && Valid() && Snapshot() == Step(old(Snapshot()), e)
              && (started <==> Enabled(old(Snapshot()), e))
      ensures started <==> id in old(jobs) && Presents(workers, name, queue, token)
                           && StartFits(old(jobs)[id], queue, name, lockAt, attempts, restart)
      ensures workers == old(workers)
      ensures jobs == if started then old(jobs)[id := old(jobs)[id].(status := Running)] else old(jobs)
    {
      ghost var before := Snapshot();
      started := id in jobs && Registered(name, queue, token)
                 && Startable(jobs[id], queue, name, lockAt, attempts, restart);
      if started {
        jobs := jobs[id := Started(jobs[id])];
        Book(before, Start(id, queue, name, lockAt, attempts, restart, token));
      }
    }

    /** `ack_task`, with the counter and status an acknowledgement computes. When
        the counter includes the execution being acknowledged and the budget is
        the task's own, it is the store's event; the row is written the same way
        whatever they are. */
    method AckTask(id: TaskId, queue: Queue, name: Name, lockAt: int, counter: nat, maxAttempts: int, ok: bool,
                   token: Option<Token>, at: Instant)
      returns (r: Result<()>)
      requires Valid()
      modifies this
      ensures r.Ok? <==> old((token.Some? ==> Registered(name, queue, token))
                             && id in jobs && Acknowledgeable(jobs[id], queue, name, lockAt, counter))
      ensures r.Ok? <==> (token.Some? ==> Presents(workers, name, queue, token))
                         && id in old(jobs) && AckFits(old(jobs)[id], queue, name, lockAt, counter)
      ensures r.Err? ==> r.error == StaleAcknowledgement && Snapshot() == old(Snapshot())
      ensures r.Ok? ==> jobs == old(jobs)[id := Acknowledged(old(jobs)[id], counter, maxAttempts, ok, at)]
      ensures r.Ok? ==> id in jobs && AckWrites(old(jobs)[id], jobs[id], counter, maxAttempts, ok, at)
                        && jobs == old(jobs)[id := jobs[id]]
      ensures retired == old(retired) && workers == old(workers) && old(claims) <= claims
      ensures counter >= 1 && (id in old(jobs) ==> maxAttempts == old(jobs)[id].maxAttempts) ==>
                Valid() && Snapshot() == Step(old(Snapshot()), Ack(id, queue, name, lockAt, counter, maxAttempts, ok, token, at))
    {
      ghost var before := Snapshot();
      if token.Some? && !Registered(name, queue, token) {
        return Err(StaleAcknowledgement);
      }
      if id !in jobs || !Acknowledgeable(jobs[id], queue, name, lockAt, counter) {
        return Err(StaleAcknowledgement);
      }
      WriteAck(id, queue, name, lockAt, counter, maxAttempts, ok, token, at);
      r := Ok(());
    }

    /** `ack_task` for an acknowledgement that counts its execution, without the
        history: the tables stay sound, and one row may change. */
    method AckCounted(id: TaskId, queue: Queue, name: Name, lockAt: int, counter: nat, maxAttempts: int, ok: bool,
                      token: Option<Token>, at: Instant)
      returns (matched: bool)
      requires Valid() && counter >= 1 && (id in jobs ==> maxAttempts == jobs[id].maxAttempts)
      modifies this
      ensures Valid() && retired == old(retired) && workers == old(workers) && old(claims) <= claims
      ensures matched <==> old((token.Some? ==> Registered(name, queue, token))
                               && id in jobs && Acknowledgeable(jobs[id], queue, name, lockAt, counter))
      ensures jobs == if matched then old(jobs)[id := Acknowledged(old(jobs)[id], counter, maxAttempts, ok, at)]
                      else old(jobs)
    {
      var r := AckTask(id, queue, name, lockAt, counter, maxAttempts, ok, token, at);
      matched := r.Ok?;
    }

    method WriteAck(id: TaskId, queue: Queue, name: Name, lockAt: int, counter: nat, maxAttempts: int, ok: bool,
                    token: Option<Token>, at: Instant)
      requires Valid() && (token.Some? ==> Registered(name, queue, token))
      requires id in jobs && Acknowledgeable(jobs[id], queue, name, lockAt, counter)
      modifies this
      ensures jobs == old(jobs)[id := Acknowledged(old(jobs)[id], counter, maxAttempts, ok, at)]
      ensures retired == old(retired) && workers == old(workers) && old(claims) <= claims
      ensures counter >= 1 && maxAttempts == old(jobs)[id].maxAttempts ==>
                Valid() && Snapshot() == Step(old(Snapshot()), Ack(id, queue, name, lockAt, counter, maxAttempts, ok, token, at))
    {
      ghost var before := Snapshot();
      jobs := jobs[id := Acknowledged(jobs[id], counter, maxAttempts, ok, at)];
      if counter >= 1 && maxAttempts == before.jobs[id].maxAttempts {
        Book(before, Ack(id, queue, name, lockAt, counter, maxAttempts, ok, token, at));
      }
    }

    /** `fail_undecodable_task`: how many rows were released. */
    method FailUndecodableTask(id: TaskId, name: Name, lockAt: int, attempts: int, token: Option<Token>, at: Instant)
      returns (released: nat)
      requires Valid()
      modifies this
      ensures var e := FailUndecodable(id, name, lockAt, attempts, token, at);
              && Valid() && Snapshot() == Step(old(Snapshot()), e)
              && released == if Enabled(old(Snapshot()), e) then 1 else 0
      ensures released == 1 <==>
                && id in old(jobs) && (token.Some? ==> Presents(workers, name, old(jobs)[id].queue, token))
                && Claims(old(jobs)[id], old(jobs)[id].queue, name, lockAt) && old(jobs)[id].attempts == attempts
      ensures workers == old(workers) && (released == 0 ==> jobs == old(jobs))
      ensures released == 1 ==>
                id in jobs && ReleaseWrites(old(jobs)[id], jobs[id], at) && jobs == old(jobs)[id := jobs[id]]
    {
      ghost var before := Snapshot();
      if id !in jobs || (token.Some? && !Registered(name, jobs[id].queue, token)) {
        return 0;
      }
      if !Undecoded(jobs[id], name, lockAt, attempts) {
        return 0;
      }
      ReleaseIsWritten(before, id, name, lockAt, attempts, at);
      jobs := jobs[id := Rows.FailedUndecodable(jobs[id], at)];
      Book(before, FailUndecodable(id, name, lockAt, attempts, token, at));
      released := 1;
    }

    /** `recover_owned`, for a candidate set that is already locked: each of its
        rows is handed back, charged as the recovery says, and killed exactly at
        its budget; no other row is touched. */
    method RecoverOwned(ids: set<TaskId>, recovery: Recovery, at: Instant)
      requires forall id :: id in ids ==> id in jobs && RowInv(jobs[id]) && Active(jobs[id])
      modifies this`jobs
      ensures jobs == RecoverAll(old(jobs), ids, recovery, at)
      ensures jobs.Keys == old(jobs).Keys
      ensures forall id :: id in ids ==> HandedBack(old(jobs)[id], jobs[id], recovery, at)
      ensures forall id :: id in jobs && id !in ids ==> jobs[id] == old(jobs)[id]
    {
      forall id | id in ids
        ensures HandedBack(jobs[id], Recovered(jobs[id], recovery, at), recovery, at)
      {
        RecoveryHandsBack(jobs[id], recovery, at);
      }
      jobs := RecoverAll(jobs, ids, recovery, at);
    }

    function OwnedClaims(key: Key): set<TaskId>
      reads this
    {
      set id | id in jobs && Active(jobs[id]) && OwnedBy(jobs[id], key)
    }

    /** Hand back every claim of a registration: how many there were. */
    method RecoverClaims(name: Name, queue: Queue, recovery: Recovery, at: Instant) returns (recovered: nat)
      requires forall id :: id in jobs ==> RowInv(jobs[id])
      modifies this`jobs
      ensures jobs == RecoverAll(old(jobs), old(OwnedClaims((name, queue))), recovery, at)
      ensures HandsBackClaims(old(jobs), jobs, name, queue, recovery, at)
      ensures recovered == |ClaimsHeld(old(jobs), name, queue)|
    {
      var owned := OwnedClaims((name, queue));
      assert owned == ClaimsHeld(jobs, name, queue);
      RecoverOwned(owned, recovery, at);
      recovered := |owned|;
    }

    /** The registration may be refreshed, or is free to be taken. */
    predicate MayRegister(key: Key, token: Token, staleAfter: int, at: Instant)
      reads this
    {
      key in workers ==> workers[key].token == Some(token) || Stale(workers[key], staleAfter, at)
    }

    /** `register_worker_blocking`; the advisory lock may be held elsewhere. The
        statement itself knows nothing of local retirement: one that was already
        in flight writes the same, and is the store's event when the name was
        not retired. */
    method RegisterWorker(name: Name, queue: Queue, token: Token, staleAfter: int, at: Instant, lockFree: bool)
      returns (r: Result<()>)
      requires Valid()
      modifies this
      ensures r.Ok? <==>
                lockFree && ((name, queue) in old(workers) ==>
                               old(workers)[(name, queue)].token == Some(token)
                               || Expired(old(workers)[(name, queue)], staleAfter, at))
      ensures r.Err? ==> r.error == AlreadyRegistered && Snapshot() == old(Snapshot())
      ensures r.Ok? ==> workers == old(workers)[(name, queue) := Registration(Some(token), at)]
      ensures if r.Ok? && (name, queue) in old(workers)
                 && (old(workers)[(name, queue)].token != Some(token) || Expired(old(workers)[(name, queue)], staleAfter, at))
              then HandsBackClaims(old(jobs), jobs, name, queue, Takeover, at) else jobs == old(jobs)
      ensures (token, name) !in old(retired) ==>
                && Valid()
                && Snapshot() == (if r.Ok? then Step(old(Snapshot()), Register(name, queue, token, staleAfter, at))
                                  else old(Snapshot()))
    {
      ghost var before := Snapshot();
      var key := (name, queue);
      if !lockFree || !MayRegister(key, token, staleAfter, at) {
        return Err(AlreadyRegistered);
      }
      if key in workers && (workers[key].token != Some(token) || Stale(workers[key], staleAfter, at)) {
        ActiveRowsAreSound(before);
        var _ := RecoverClaims(name, queue, Takeover, at);
      }
      workers := workers[key := Registration(Some(token), at)];
      if (token, name) !in retired {
        Book(before, Register(name, queue, token, staleAfter, at));
      }
      r := Ok(());
    }

    /** `release_worker_blocking`: how many claims were handed back. The storage
        retires the name locally before it calls this. */
    method ReleaseRegistration(name: Name, queue: Queue, token: Token, at: Instant) returns (r: Result<nat>)
      requires Valid() && (token, name) in retired
      modifies this
      ensures var e := Store.ReleaseWorker(name, queue, token, at);
              && Valid() && Snapshot() == Step(old(Snapshot()), e)
              && (r.Ok? <==> Enabled(old(Snapshot()), e))
      ensures r.Ok? <==> (name, queue) in old(workers) && old(workers)[(name, queue)].token == Some(token)
      ensures r.Ok? ==>
                && workers == old(workers)[(name, queue) := Registration(None, 0)]
                && HandsBackClaims(old(jobs), jobs, name, queue, Release, at)
                && r.value == |ClaimsHeld(old(jobs), name, queue)|
      ensures r.Err? ==> r.error == NotRegistered && jobs == old(jobs) && workers == old(workers)
    {
      ghost var before := Snapshot();
      var key := (name, queue);
      if key !in workers || workers[key].token != Some(token) {
        return Err(NotRegistered);
      }
      ActiveRowsAreSound(before);
      var recovered := RecoverClaims(name, queue, Release, at);
      workers := workers[key := Registration(None, 0)];
      Book(before, Store.ReleaseWorker(name, queue, token, at));
      r := Ok(recovered);
    }

    /** The stale registrations of a queue that own a claim and are not locked elsewhere. */
    function StaleOwners(queue: Queue, staleAfter: int, at: Instant, busy: set<Name>): set<Name>
      reads this
    {
      set key | key in workers && key.1 == queue && Stale(workers[key], staleAfter, at) && key.0 !in busy
                && OwnedClaims(key) != {} :: key.0
    }

    function ClaimsOf(queue: Queue, names: set<Name>, busy: set<TaskId>): set<TaskId>
      reads this
    {
      set id | id in jobs && Active(jobs[id]) && jobs[id].queue == queue
               && jobs[id].owner.Some? && jobs[id].owner.value in names && id !in busy
    }

    method SweepClaims(queue: Queue, ghost names: set<Name>, ids: set<TaskId>, staleAfter: int, at: Instant)
      requires Valid() && Enabled(Snapshot(), Sweep(queue, names, ids, staleAfter, at))
      modifies this
      ensures Valid() && Snapshot() == Step(old(Snapshot()), Sweep(queue, names, ids, staleAfter, at))
      ensures workers == old(workers) && HandsBack(old(jobs), jobs, ids, StaleSweep, at)
    {
      ghost var before := Snapshot();
      ActiveRowsAreSound(before);
      RecoverOwned(ids, StaleSweep, at);
      Book(before, Sweep(queue, names, ids, staleAfter, at));
    }

    lemma OrphansHaveStaleOwners(queue: Queue, staleAfter: int, at: Instant, busyNames: set<Name>, busyRows: set<TaskId>)
      ensures forall id :: Orphan(jobs, workers, queue, staleAfter, at, busyNames, busyRows, id) ==>
                jobs[id].owner.value in StaleOwners(queue, staleAfter, at, busyNames)
      ensures forall name :: name in StaleOwners(queue, staleAfter, at, busyNames) ==>
                name !in busyNames && (name, queue) in workers && Expired(workers[(name, queue)], staleAfter, at)
    {
      forall id | Orphan(jobs, workers, queue, staleAfter, at, busyNames, busyRows, id)
        ensures jobs[id].owner.value in StaleOwners(queue, staleAfter, at, busyNames)
      {
        assert id in OwnedClaims((jobs[id].owner.value, queue));
      }
    }

    /** The first stale owners and the first of their claims, in the order of their ids. */
    method ChooseOrphans(queue: Queue, staleAfter: int, limit: nat, busyNames: set<Name>, busyRows: set<TaskId>, at: Instant)
      returns (names: set<Name>, ids: set<TaskId>)
      ensures ChoosesFirst(jobs, workers, queue, staleAfter, at, busyNames, busyRows, limit, names, ids)
      ensures forall name :: name in names ==> (name, queue) in workers && Stale(workers[(name, queue)], staleAfter, at)
    {
      OrphansHaveStaleOwners(queue, staleAfter, at, busyNames, busyRows);
      names := TakeLeast(StaleOwners(queue, staleAfter, at, busyNames), limit);
      ids := TakeLeast(ClaimsOf(queue, names, busyRows), limit);
      FirstAreChosen(jobs, workers, queue, staleAfter, at, busyNames, busyRows, limit,
                     StaleOwners(queue, staleAfter, at, busyNames), names, ClaimsOf(queue, names, busyRows), ids);
    }

    /** `reenqueue_orphaned_blocking`: one bounded sweep. Below its limits it leaves
        no claim of a stale owner but the locked ones. */
    method ReenqueueOrphaned(queue: Queue, staleAfter: int, limit: nat, busyNames: set<Name>, busyRows: set<TaskId>,
                             at: Instant)
      returns (recovered: nat, ghost names: set<Name>, ghost ids: set<TaskId>)
      requires Valid()
      modifies this
      ensures Valid() && Snapshot() == Step(old(Snapshot()), Sweep(queue, names, ids, staleAfter, at))
      ensures ChoosesFirst(old(jobs), old(workers), queue, staleAfter, at, busyNames, busyRows, limit, names, ids)
      ensures recovered == |ids| && workers == old(workers) && HandsBack(old(jobs), jobs, ids, StaleSweep, at)
    {
      var chosen, rows := ChooseOrphans(queue, staleAfter, limit, busyNames, busyRows, at);
      names, ids := chosen, rows;
      SweepClaims(queue, chosen, rows, staleAfter, at);
      recovered := |rows|;
    }

    /** `keep_alive_blocking`. */
    method KeepAlive(name: Name, queue: Queue, token: Token, at: Instant) returns (r: Result<()>)
      requires Valid()
      modifies this
      ensures var e := Heartbeat(name, queue, token, at);
              && Valid() && Snapshot() == Step(old(Snapshot()), e)
              && (r.Ok? <==> Enabled(old(Snapshot()), e))
      ensures r.Ok? <==> (name, queue) in old(workers) && old(workers)[(name, queue)].token == Some(token)
      ensures jobs == old(jobs)
      ensures workers == if r.Ok? then old(workers)[(name, queue) := Registration(Some(token), at)] else old(workers)
    {
      ghost var before := Snapshot();
      var key := (name, queue);
      if key !in workers || workers[key].token != Some(token) {
        return Err(NotRegistered);
      }
      workers := workers[key := workers[key].(lastSeen := at)];
      Book(before, Heartbeat(name, queue, token, at));
      r := Ok(());
    }

    /** `register_worker_admin`: inserts or renews a token-free row, and leaves a
        row that carries a token alone. */
    method RegisterAdmin(name: Name, queue: Queue, at: Instant)
      requires Valid()
      modifies this
      ensures Valid() && Snapshot() == Step(old(Snapshot()), AdminRegister(name, queue, at))
      ensures jobs == old(jobs)
      ensures workers == if (name, queue) in old(workers) && old(workers)[(name, queue)].token.Some? then old(workers)
                         else old(workers)[(name, queue) := Registration(None, at)]
    {
      ghost var before := Snapshot();
      var key := (name, queue);
      if key !in workers {
        workers := workers[key := Registration(None, at)];
      } else {
        var held := workers[key];
        workers := workers[key := held.(lastSeen := if held.token.None? then at else held.lastSeen)];
      }
      Book(before, AdminRegister(name, queue, at));
    }

    function PurgeableRows(queue: Queue, cutoff: Instant): set<TaskId>
      reads this
    {
      set id | id in jobs && Purgeable(jobs[id], queue, cutoff)
    }

    lemma PurgeableInFields(queue: Queue, cutoff: Instant)
      ensures forall id :: id in PurgeableRows(queue, cutoff) <==> id in jobs && OldEnough(jobs[id], queue, cutoff)
    {
    }

    method DeleteRows(queue: Queue, cutoff: Instant, ids: set<TaskId>)
      requires Valid() && ids <= PurgeableRows(queue, cutoff)
      modifies this
      ensures Valid() && Snapshot() == Step(old(Snapshot()), Purge(queue, ids, cutoff))
      ensures jobs == (map id | id in old(jobs) && id !in ids :: old(jobs)[id]) && workers == old(workers)
      ensures PurgeableRows(queue, cutoff) == old(PurgeableRows(queue, cutoff)) - ids
    {
      ghost var before := Snapshot();
      DeletingIsPurge(before, queue, cutoff, ids);
      jobs := map id | id in jobs && id !in ids :: jobs[id];
      Book(before, Purge(queue, ids, cutoff));
    }

    /** `purge_terminal_batch`: how many rows were deleted. */
    method PurgeBatch(queue: Queue, cutoff: Instant, limit: nat, busy: set<TaskId>)
      returns (deleted: nat, ghost ids: set<TaskId>)
      requires Valid()
      modifies this
      ensures var e := Purge(queue, ids, cutoff);
              Valid() && Snapshot() == Step(old(Snapshot()), e)
      ensures deleted == |ids| <= limit
      ensures forall id :: id in ids ==> id in old(jobs) && id !in busy && OldEnough(old(jobs)[id], queue, cutoff)
      ensures deleted < limit ==>
                forall id :: id in old(jobs) && id !in busy && OldEnough(old(jobs)[id], queue, cutoff) ==> id in ids
      ensures jobs == map id | id in old(jobs) && id !in ids :: old(jobs)[id]
      ensures PurgeableRows(queue, cutoff) == old(PurgeableRows(queue, cutoff)) - ids
      ensures workers == old(workers)
    {
      PurgeableInFields(queue, cutoff);
      var rows := Take(PurgeableRows(queue, cutoff) - busy, limit);
      ids := rows;
      DeleteRows(queue, cutoff, rows);
      deleted := |rows|;
    }

    /** `delete_unreferenced_registrations`: how many were deleted. */
    method DeleteUnreferenced(queue: Queue, names: set<Name>) returns (deleted: nat, ghost gone: set<Name>)
      requires Valid()
      modifies this
      ensures forall name :: name in gone <==>
                name in names && (name, queue) in old(workers) && forall id :: id in jobs ==> !OwnedHere(jobs[id], name, queue)
      ensures jobs == old(jobs)
      ensures workers == map key | key in old(workers) && !(key.1 == queue && key.0 in gone) :: old(workers)[key]
      ensures Valid() && Snapshot() == Step(old(Snapshot()), Prune(queue, gone))
      ensures deleted == |gone|
    {
      ghost var before := Snapshot();
      var rows := jobs;
      var free := set name | name in names && (name, queue) in workers
                             && !(exists id :: id in rows && OwnedBy(rows[id], (name, queue)));
      gone := free;
      workers := map key | key in workers && !(key.1 == queue && key.0 in free) :: workers[key];
      Book(before, Prune(queue, gone));
      deleted := |free|;
    }
  }
}
