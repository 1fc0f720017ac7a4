/** The code that starts and acknowledges one claim, as it runs when nothing
    else runs in between: which marks it sets, which statement it issues, when
    it disarms its guard, and what its guard does otherwise. Interleavings of
    these steps are the subject of `Obligations`. */
module Middleware {
  import opened Rows
  import opened Store
  import opened Invariants
  import opened Protocol
  import opened Database

  datatype Failure =
    | AlreadyAcknowledged | ClaimLost | NotClaimed | WorkerRetired | InvalidParts | Stale | Unconfirmed

  datatype Outcome = Acked | AckFailed(failure: Failure)

  /** `StartRefusal`: whether the claim may still be owned and not started. */
  datatype Start = Started | Refused(failure: Failure, stillOwed: bool)

  /** The record every clone of a claimed task shares. */
  class ClaimAttempt {
    const claim: Claim
    var done: bool
    var started: bool
    var startAttempted: bool

    constructor (claim: Claim)
      ensures this.claim == claim && !done && !started && !startAttempted
    {
      this.claim := claim;
      done, started, startAttempted := false, false, false;
    }

    predicate StartRefused()
      reads this
    {
      startAttempted && !started
    }
  }

  /** One worker name of a storage: its tables, its token, its local lease. */
  class Worker {
    const tables: Tables
    const name: Name
    const token: Token
    var retired: bool

    constructor (tables: Tables, name: Name, token: Token)
      ensures this.tables == tables && this.name == name && this.token == token && !retired
    {
      this.tables, this.name, this.token, retired := tables, name, token, false;
    }

    ghost predicate Valid()
      reads this, tables
    {
      tables.Valid() && (retired ==> (token, name) in tables.retired)
    }

    /** A claim handed out under this registration; once acknowledged it is over. */
    ghost predicate Owns(attempt: ClaimAttempt)
      reads this, tables, attempt
    {
      var c := attempt.claim;
      && c in tables.claims && c.token == Some(token) && c.owner == name && c.attempts >= 0
      && (attempt.done ==> !InClaim(tables.Snapshot(), c))
    }

    /** The drop of a `ClaimObligation`: armed, it retires the lease, unless the
        record it consults was acknowledged. */
    method DropObligation(armed: bool, record: ClaimAttempt?)
      modifies this, tables
      ensures old(Valid()) ==> Valid()
      ensures retired <==> old(retired) || (armed && !(record != null && old(record.done)))
      ensures tables.Snapshot() == if armed && !(record != null && old(record.done))
                                   then Step(old(tables.Snapshot()), Retire(token, name)) else old(tables.Snapshot())
      ensures tables.jobs == old(tables.jobs)
    {
      var lives := armed;
      if record != null && record.done {
        lives := false;
      }
      if lives {
        retired := true;
        tables.RetireLocally(token, name);
      }
    }
  }

  /** All that the code of one claim can change: rows, the lease, and the marks
      on the claim record. */
  datatype View = View(jobs: map<TaskId, Row>, retired: bool, done: bool, started: bool, attempted: bool)

  function Look(worker: Worker, attempt: ClaimAttempt): View
    reads worker, worker.tables, attempt
  {
    View(worker.tables.jobs, worker.retired, attempt.done, attempt.started, attempt.startAttempted)
  }

  function StartOf(c: Claim, restart: bool): Event {
    Store.Start(c.task, c.queue, c.owner, c.lockAt, Some(c.attempts), restart, c.token)
  }

  function AckOf(c: Claim, counter: nat, ok: bool, at: Instant): Event {
    Ack(c.task, c.queue, c.owner, c.lockAt, counter, c.maxAttempts, ok, c.token, at)
  }

  /** The claim can be started: it was not yet, or its own record says it was. */
  predicate Startable(s: State, c: Claim, restart: bool) {
    InClaim(s, c) && (s.jobs[c.task].status.Queued? || restart)
  }

  lemma StartMatches(s: State, c: Claim, restart: bool)
    requires Kept(s) && c in s.claims
    ensures Enabled(s, StartOf(c, restart)) <==> Startable(s, c, restart)
  {
    Unfolded(s);
    GuardsMatchTheClaim(s, c, StartOf(c, restart));
  }

  lemma AckMatches(s: State, c: Claim, ok: bool, at: Instant)
    requires Kept(s) && c in s.claims && c.attempts >= 0
    ensures Enabled(s, AckOf(c, c.attempts + 1, ok, at)) <==> InClaim(s, c)
    ensures c.task in s.jobs ==> c.maxAttempts == s.jobs[c.task].maxAttempts
  {
    Unfolded(s);
    assert ClaimInv(s, c);
    GuardsMatchTheClaim(s, c, AckOf(c, c.attempts + 1, ok, at));
  }

  /** Written or not, an acknowledgement statement leaves its claim over. */
  lemma AckEndsTheClaim(s: State, c: Claim, ok: bool, at: Instant)
    requires Kept(s) && c in s.claims && c.attempts >= 0
    ensures c in Step(s, AckOf(c, c.attempts + 1, ok, at)).claims && !InClaim(Step(s, AckOf(c, c.attempts + 1, ok, at)), c)
  {
    Unfolded(s);
    AckMatches(s, c, ok, at);
  }

  function StartedTable(jobs: map<TaskId, Row>, c: Claim, matched: bool): map<TaskId, Row> {
    if matched && c.task in jobs then jobs[c.task := Rows.Started(jobs[c.task])] else jobs
  }

  /** A start that matches writes its row and leaves the claim in progress. */
  lemma StartWrites(s: State, c: Claim, restart: bool)
    requires Kept(s) && c in s.claims
    ensures Step(s, StartOf(c, restart)).jobs == StartedTable(s.jobs, c, Startable(s, c, restart))
    ensures c in Step(s, StartOf(c, restart)).claims
    ensures InClaim(Step(s, StartOf(c, restart)), c) <==> InClaim(s, c)
  {
    StartMatches(s, c, restart);
  }

  /** The start statement; `commit` is the fate of its transaction. */
  method SendStart(worker: Worker, c: Claim, restart: bool, commit: Commit) returns (matched: bool)
    requires worker.Valid() && c in worker.tables.claims
    modifies worker.tables
    ensures worker.Valid()
    ensures worker.tables.Snapshot() ==
            if commit.Applied() then Step(old(worker.tables.Snapshot()), StartOf(c, restart))
            else old(worker.tables.Snapshot())
    ensures matched <==> commit.Applied() && Startable(old(worker.tables.Snapshot()), c, restart)
  {
    matched := false;
    if commit.Applied() {
      StartMatches(worker.tables.Snapshot(), c, restart);
      matched := worker.tables.StartTask(c.task, c.queue, c.owner, c.lockAt, Some(c.attempts), restart, c.token);
    }
  }

  /** What the statement checks says whether the claim is still in progress. */
  lemma AckChecksItsClaim(s: State, c: Claim)
    requires Kept(s) && c in s.claims
    ensures 0 <= c.attempts && (c.task in s.jobs ==> c.maxAttempts == s.jobs[c.task].maxAttempts)
    ensures InClaim(s, c) <==>
              && (c.token.Some? ==> (c.owner, c.queue) in s.workers && s.workers[(c.owner, c.queue)].token == c.token)
              && c.task in s.jobs && Acknowledgeable(s.jobs[c.task], c.queue, c.owner, c.lockAt, c.attempts + 1)
  {
    Unfolded(s);
    assert ClaimInv(s, c);
    GuardsMatchTheClaim(s, c, AckOf(c, c.attempts + 1, true, 0));
  }

  /** The row a matching acknowledgement of the claim writes; any other statement
      leaves the table alone. */
  function AckedTable(jobs: map<TaskId, Row>, c: Claim, matched: bool, ok: bool, at: Instant): map<TaskId, Row> {
    if matched && c.task in jobs && c.attempts >= 0
    then jobs[c.task := Acknowledged(jobs[c.task], c.attempts + 1, c.maxAttempts, ok, at)] else jobs
  }

  /** The acknowledgement statement, when its transaction takes effect. */
  method CommitAck(tables: Tables, c: Claim, ok: bool, at: Instant) returns (matched: bool)
    requires tables.Valid() && c in tables.claims
    modifies tables
    ensures tables.Valid() && tables.retired == old(tables.retired) && tables.workers == old(tables.workers)
    ensures matched <==> InClaim(old(tables.Snapshot()), c)
    ensures tables.jobs == AckedTable(old(tables.jobs), c, matched, ok, at)
  {
    AckChecksItsClaim(tables.Snapshot(), c);
    matched := tables.AckCounted(c.task, c.queue, c.owner, c.lockAt, c.attempts + 1, c.maxAttempts, ok, c.token, at);
  }

  method SendAck(worker: Worker, c: Claim, ok: bool, at: Instant, commit: Commit) returns (matched: bool)
    requires worker.Valid() && c in worker.tables.claims
    modifies worker.tables
    ensures worker.Valid()
    ensures matched <==> commit.Applied() && InClaim(old(worker.tables.Snapshot()), c)
    ensures worker.tables.jobs == AckedTable(old(worker.tables.jobs), c, matched, ok, at)
  {
    matched := false;
    if commit.Applied() {
      matched := CommitAck(worker.tables, c, ok, at);
    }
  }

  /** `start_claim`. `whole` says whether the task's parts name a task, a queue and
      a claim time, and carry a count that fits its column. */
  method StartClaim(worker: Worker, attempt: ClaimAttempt, whole: bool, commit: Commit) returns (r: Start)
    requires worker.Valid() && worker.Owns(attempt)
    modifies worker.tables, attempt
    ensures worker.Valid() && attempt.done == old(attempt.done)
    ensures r == Refused(AlreadyAcknowledged, false) <==> old(attempt.done)
    ensures r == Refused(WorkerRetired, false) <==> !attempt.done && worker.retired
    ensures r == Refused(InvalidParts, true) <==> !attempt.done && !worker.retired && !whole
    ensures r == Refused(Unconfirmed, true) <==> !attempt.done && !worker.retired && whole && !commit.Confirmed?
    ensures r.Started? <==>
              && !attempt.done && !worker.retired && whole && commit.Confirmed?
              && Startable(old(worker.tables.Snapshot()), attempt.claim, old(attempt.started))
    ensures r.Refused? && r.stillOwed ==> r.failure == Unconfirmed || r.failure == InvalidParts
    ensures attempt.startAttempted <==> old(attempt.startAttempted) || !attempt.done
    ensures attempt.started <==> old(attempt.started) || r.Started?
    ensures worker.tables.Snapshot() ==
            if attempt.done || worker.retired || !whole || !commit.Applied() then old(worker.tables.Snapshot())
            else Step(old(worker.tables.Snapshot()), StartOf(attempt.claim, old(attempt.started)))
  {
    var c, restart := attempt.claim, attempt.started;
    if attempt.done {
      return Refused(AlreadyAcknowledged, false);
    }
    attempt.startAttempted := true;
    if worker.retired {
      return Refused(WorkerRetired, false);
    }
    if !whole {
      return Refused(InvalidParts, true);
    }
    var matched := SendStart(worker, c, restart, commit);
    if !commit.Confirmed? {
      return Refused(Unconfirmed, true);
    }
    if !matched {
      return Refused(ClaimLost, false);
    }
    attempt.started := true;
    r := Started;
  }

  /** `start_claim` for a task without a claim record: it is matched by owner and
      claim time alone, and starts whether or not it was started before. */
  method StartUnrecorded(worker: Worker, id: TaskId, queue: Queue, lockAt: int, commit: Commit) returns (r: Start)
    requires worker.Valid()
    modifies worker.tables
    ensures worker.Valid()
    ensures r == Refused(WorkerRetired, false) <==> worker.retired
    ensures r == Refused(Unconfirmed, true) <==> !worker.retired && !commit.Confirmed?
    ensures r.Started? <==>
              && !worker.retired && commit.Confirmed?
              && Enabled(old(worker.tables.Snapshot()), StartOfParts(worker, id, queue, lockAt))
    ensures r.Started? || r == Refused(WorkerRetired, false) || r == Refused(Unconfirmed, true) || r == Refused(ClaimLost, false)
    ensures worker.tables.Snapshot() ==
            if worker.retired || !commit.Applied() then old(worker.tables.Snapshot())
            else Step(old(worker.tables.Snapshot()), StartOfParts(worker, id, queue, lockAt))
  {
    if worker.retired {
      return Refused(WorkerRetired, false);
    }
    var matched := false;
    if commit.Applied() {
      matched := worker.tables.StartTask(id, queue, worker.name, lockAt, None, true, Some(worker.token));
    }
    if !commit.Confirmed? {
      return Refused(Unconfirmed, true);
    }
    r := if matched then Started else Refused(ClaimLost, false);
  }

  function StartOfParts(worker: Worker, id: TaskId, queue: Queue, lockAt: int): Event {
    Store.Start(id, queue, worker.name, lockAt, None, true, Some(worker.token))
  }

  /** A task without a claim record can only start a row its worker owns. */
  lemma UnrecordedStartStaysAtHome(s: State, worker: Worker, id: TaskId, queue: Queue, lockAt: int)
    requires Kept(s) && Enabled(s, StartOfParts(worker, id, queue, lockAt))
    ensures id in s.jobs && Active(s.jobs[id]) && s.jobs[id].owner == Some(worker.name)
    ensures LedgerOf(s, id).claimToken == Some(worker.token)
  {
    Unfolded(s);
  }

  /** The acknowledgement after its checks: the marker is set with the answer,
      and any other end retires the lease. */
  method WriteAcknowledgement(worker: Worker, attempt: ClaimAttempt, ok: bool, at: Instant, commit: Commit)
    returns (r: Outcome)
    requires worker.Valid() && worker.Owns(attempt) && !attempt.done
    modifies worker, worker.tables, attempt`done
    ensures worker.Valid()
    ensures r.Acked? <==> commit.Confirmed? && InClaim(old(worker.tables.Snapshot()), attempt.claim)
    ensures r.AckFailed? ==> r.failure == if commit.Confirmed? then Stale else Unconfirmed
    ensures attempt.done <==> r.Acked?
    ensures worker.retired <==> old(worker.retired) || !r.Acked?
    ensures worker.tables.jobs ==
            AckedTable(old(worker.tables.jobs), attempt.claim,
                       commit.Applied() && InClaim(old(worker.tables.Snapshot()), attempt.claim), ok, at)
  {
    var matched := SendAck(worker, attempt.claim, ok, at, commit);
    SettleAck(worker, attempt, commit.Confirmed? && matched);
    r := if attempt.done then Acked else AckFailed(if commit.Confirmed? then Stale else Unconfirmed);
  }

  /** The answer: a success marks the record and disarms, anything else is the
      drop of an armed obligation. */
  method SettleAck(worker: Worker, attempt: ClaimAttempt, success: bool)
    requires worker.Valid() && !attempt.done
    modifies worker, worker.tables, attempt`done
    ensures worker.Valid() && attempt.done == success && worker.tables.jobs == old(worker.tables.jobs)
    ensures worker.retired <==> old(worker.retired) || !success
    ensures success ==> worker.tables.Snapshot() == old(worker.tables.Snapshot())
  {
    var armed := true;
    if success {
      attempt.done := true;
      armed := false;
    }
    worker.DropObligation(armed, attempt);
  }

  /** What an acknowledgement leaves behind, if `current` says whether its claim is
      still in progress. */
  function AfterAck(v: View, c: Claim, current: bool, whole: bool, ok: bool, at: Instant, commit: Commit): View {
    if v.done || (v.attempted && !v.started) then v
    else
      var written := whole && commit.Applied() && current;
      v.(jobs := AckedTable(v.jobs, c, written, ok, at),
         done := written && commit.Confirmed?,
         retired := v.retired || !(written && commit.Confirmed?))
  }

  /** `PgAck::ack`. A success means the claim is over, or was refused its start;
      a failure means the lease is retired or the claim was acknowledged before.
      `whole` says whether parts and result can be turned into a statement. */
  method Acknowledge(worker: Worker, attempt: ClaimAttempt, whole: bool, ok: bool, at: Instant, commit: Commit)
    returns (r: Outcome)
    requires worker.Valid() && worker.Owns(attempt)
    modifies worker, worker.tables, attempt`done
    ensures worker.Valid()
    ensures old(attempt.StartRefused()) ==> r.Acked?
    ensures r == AckFailed(AlreadyAcknowledged) <==> !old(attempt.StartRefused()) && old(attempt.done)
    ensures old(attempt.StartRefused() || attempt.done) ==>
              && worker.tables.Snapshot() == old(worker.tables.Snapshot())
              && worker.retired == old(worker.retired) && attempt.done == old(attempt.done)
    ensures !old(attempt.StartRefused() || attempt.done) ==>
              && (r.Acked? <==> whole && commit.Confirmed? && InClaim(old(worker.tables.Snapshot()), attempt.claim))
              && (r == AckFailed(InvalidParts) <==> !whole)
              && (attempt.done <==> r.Acked?) && (worker.retired <==> old(worker.retired) || !r.Acked?)
    ensures worker.tables.jobs ==
            AckedTable(old(worker.tables.jobs), attempt.claim,
                       !old(attempt.StartRefused() || attempt.done) && whole && commit.Applied()
                       && InClaim(old(worker.tables.Snapshot()), attempt.claim), ok, at)
    ensures Look(worker, attempt) ==
            AfterAck(old(Look(worker, attempt)), attempt.claim, InClaim(old(worker.tables.Snapshot()), attempt.claim), whole,
                     ok, at, commit)
  {
    if attempt.StartRefused() {
      return Acked;
    }
    if attempt.done {
      return AckFailed(AlreadyAcknowledged);
    }
    if !whole {
      worker.DropObligation(true, attempt);
      return AckFailed(InvalidParts);
    }
    r := WriteAcknowledgement(worker, attempt, ok, at, commit);
  }

  /** The counter includes the execution it acknowledges, and the budget is the
      row's own: what an acknowledgement of this store's claims carries. */
  predicate Counted(jobs: map<TaskId, Row>, id: TaskId, counter: nat, maxAttempts: int) {
    counter >= 1 && (id in jobs ==> maxAttempts == jobs[id].maxAttempts)
  }

  /** `PgAck::ack` for parts without a claim record: the caller's counter and
      budget are taken as they are, whatever they are. */
  method AcknowledgeUnrecorded(worker: Worker, id: TaskId, queue: Queue, lockAt: int, counter: nat, maxAttempts: int,
                               ok: bool, at: Instant, commit: Commit)
    returns (r: Outcome)
    requires worker.Valid()
    modifies worker, worker.tables
    ensures var jobs := old(worker.tables.jobs);
            var matches := id in jobs && old(worker.tables.Registered(worker.name, queue, Some(worker.token)))
                           && Acknowledgeable(jobs[id], queue, worker.name, lockAt, counter);
            && (r.Acked? <==> commit.Confirmed? && matches)
            && worker.tables.jobs == (if commit.Applied() && matches
                                      then jobs[id := Acknowledged(jobs[id], counter, maxAttempts, ok, at)] else jobs)
            && (!(commit.Applied() && matches) || Counted(jobs, id, counter, maxAttempts) ==> worker.Valid())
    ensures worker.retired <==> old(worker.retired) || !r.Acked?
  {
    var matched := false;
    if commit.Applied() {
      var written := worker.tables.AckTask(id, queue, worker.name, lockAt, counter, maxAttempts, ok, Some(worker.token), at);
      matched := written.Ok?;
    }
    if commit.Confirmed? && matched {
      return Acked;
    }
    worker.DropObligation(true, null);
    r := AckFailed(if commit.Confirmed? then Stale else Unconfirmed);
  }

  // -------------------------------------------------------------- dispatches

  datatype Dispatched = NotAdmitted(failure: Failure) | Cancelled | Returned(acknowledged: Outcome)

  lemma ClaimsStay(s: State, e: Event)
    ensures s.claims <= Step(s, e).claims
  {
  }

  /** A claim that could not be started is not waiting for one afterwards. */
  lemma MissedStartWaitsForNothing(s: State, c: Claim, restart: bool)
    requires Kept(s) && c in s.claims && !Startable(s, c, restart)
    ensures Step(s, StartOf(c, restart)) == s
    ensures !(InClaim(s, c) && s.jobs[c.task].status.Queued?)
  {
    Unfolded(s);
    StartMatches(s, c, restart);
  }

  /** Whether `call` reaches the handler. */
  predicate Admits(v: View, startable: bool, whole: bool, commit: Commit) {
    !v.done && !v.retired && whole && commit.Confirmed? && startable
  }

  /** What `call` leaves behind up to its handler, if `startable` says whether the
      start statement would match. */
  function AfterCall(v: View, c: Claim, startable: bool, whole: bool, commit: Commit): View {
    if v.done then v
    else if v.retired then v.(attempted := true)
    else
      v.(jobs := StartedTable(v.jobs, c, whole && commit.Applied() && startable),
         attempted := true,
         started := v.started || Admits(v, startable, whole, commit),
         retired := !whole || !commit.Confirmed?)
  }

  /** `LockTaskService::call` for a task the fetcher claimed, up to its handler: a
      refusal ends the guard, disarmed or not. */
  method Enter(worker: Worker, attempt: ClaimAttempt, whole: bool, commit: Commit) returns (r: Start)
    requires worker.Valid() && worker.Owns(attempt)
    modifies worker, worker.tables, attempt
    ensures worker.Valid()
    ensures r.Started? <==>
              Admits(old(Look(worker, attempt)), Startable(old(worker.tables.Snapshot()), attempt.claim, old(attempt.started)),
                     whole, commit)
    ensures r.Refused? && r.failure == AlreadyAcknowledged <==> old(attempt.done)
    ensures r.Refused? ==> worker.retired || !WaitsForStart(worker.tables.Snapshot(), attempt.claim)
    ensures r.Started? ==> worker.Owns(attempt) && InClaim(worker.tables.Snapshot(), attempt.claim)
    ensures Look(worker, attempt) ==
            AfterCall(old(Look(worker, attempt)), attempt.claim,
                      Startable(old(worker.tables.Snapshot()), attempt.claim, old(attempt.started)), whole, commit)
  {
    var armed := !attempt.done;
    ghost var before, restart := worker.tables.Snapshot(), attempt.started;
    StartWrites(before, attempt.claim, restart);
    r := StartClaim(worker, attempt, whole, commit);
    if r.Refused? {
      if !r.stillOwed {
        armed := false;
      }
      RefusalOwesNothing(before, attempt.claim, restart);
      worker.DropObligation(armed, attempt);
    }
  }

  /** What a whole dispatch leaves behind. */
  function AfterDispatch(v: View, c: Claim, startable: bool, whole: bool, handler: Option<bool>, at: Instant, start: Commit,
                         ack: Commit): View {
    var entered := AfterCall(v, c, startable, whole, start);
    if !Admits(v, startable, whole, start) then entered
    else if handler.None? then entered.(retired := true)
    else AfterAck(entered, c, true, whole, handler.value, at, ack)
  }

  /** The dispatch with its handler and acknowledgement; `handler` is `None` when
      the future is dropped meanwhile. Whatever happens, the claim does not wait
      for a start that will not come: it was started, or is over, or the lease is
      retired. */
  method Dispatch(worker: Worker, attempt: ClaimAttempt, whole: bool, handler: Option<bool>, at: Instant, start: Commit,
                  ack: Commit)
    returns (r: Dispatched)
    requires worker.Valid() && worker.Owns(attempt)
    modifies worker, worker.tables, attempt
    ensures worker.Valid()
    ensures r == NotAdmitted(AlreadyAcknowledged) <==> old(attempt.done)
    ensures r.NotAdmitted? ==>
              worker.retired || !WaitsForStart(worker.tables.Snapshot(), attempt.claim)
    ensures !r.NotAdmitted? <==>
              Admits(old(Look(worker, attempt)), Startable(old(worker.tables.Snapshot()), attempt.claim, old(attempt.started)),
                     whole, start)
    ensures !r.NotAdmitted? ==> attempt.started
    ensures r.Cancelled? ==> worker.retired && handler.None?
    ensures r == Returned(Acked) ==> attempt.done
    ensures r.Returned? && r.acknowledged.AckFailed? ==> worker.retired
    ensures Look(worker, attempt) ==
            AfterDispatch(old(Look(worker, attempt)), attempt.claim,
                          Startable(old(worker.tables.Snapshot()), attempt.claim, old(attempt.started)), whole, handler, at,
                          start, ack)
  {
    var entered := Enter(worker, attempt, whole, start);
    if entered.Refused? {
      return NotAdmitted(entered.failure);
    }
    if handler.None? {
      worker.DropObligation(true, attempt);
      return Cancelled;
    }
    var acknowledged := Acknowledge(worker, attempt, whole, handler.value, at, ack);
    r := Returned(acknowledged);
  }

  predicate WaitsForStart(s: State, c: Claim) {
    InClaim(s, c) && s.jobs[c.task].status.Queued?
  }

  lemma RefusalOwesNothing(s: State, c: Claim, restart: bool)
    requires Kept(s) && c in s.claims
    ensures !Startable(s, c, restart) ==> !WaitsForStart(Step(s, StartOf(c, restart)), c)
  {
    Unfolded(s);
    if !Startable(s, c, restart) {
      MissedStartWaitsForNothing(s, c, restart);
    }
  }

  /** The rows and the lease after a lock dispatch up to its handler; `acknowledged`
      is what the guard reads on the record the task arrived with. */
  function AfterLock(s: State, retired: bool, e: Event, acknowledged: bool, malformed: bool, commit: Commit):
    (map<TaskId, Row>, bool)
  {
    (if retired || malformed || !commit.Applied() then s.jobs else Step(s, e).jobs,
     retired || (Enabled(s, e) && !malformed && commit.Unanswered? && !acknowledged))
  }

  datatype Locked = Admitted(task: ClaimRecord) | NotLocked(failure: Failure)

  /** `call` for a task nobody claimed for this worker, up to its handler:
      `lock_task` claims and starts it. `carried` is the record the task arrived
      with, and until the claim is confirmed it is what the guard consults: an
      unconfirmed claim retires the lease exactly when that record is not an
      acknowledged one. */
  method DispatchLock(worker: Worker, id: TaskId, scope: Option<Queue>, carried: ClaimAttempt?, malformed: bool,
                      at: Instant, commit: Commit)
    returns (r: Locked)
    requires worker.Valid()
    modifies worker, worker.tables
    ensures worker.Valid()
    ensures r == NotLocked(WorkerRetired) <==> old(worker.retired)
    ensures r.Admitted? <==>
              && !old(worker.retired) && commit.Confirmed? && !malformed
              && Enabled(old(worker.tables.Snapshot()), Lock(id, worker.name, scope, Some(worker.token), at))
    ensures r.Admitted? ==> id in worker.tables.jobs && r.task.owner == worker.name && r.task.task == id
    ensures r == NotLocked(Unconfirmed) ==> (worker.retired <==> carried == null || !old(carried.done))
    ensures r.Admitted? || r == NotLocked(NotClaimed) ==> !worker.retired
    ensures r == NotLocked(NotClaimed) || r == NotLocked(WorkerRetired) ==>
              worker.tables.Snapshot() == old(worker.tables.Snapshot())
    ensures r.NotLocked? ==> r.failure in {WorkerRetired, Unconfirmed, NotClaimed}
    ensures (worker.tables.jobs, worker.retired) ==
            AfterLock(old(worker.tables.Snapshot()), old(worker.retired),
                      Lock(id, worker.name, scope, Some(worker.token), at), carried != null && old(carried.done), malformed,
                      commit)
  {
    if worker.retired {
      return NotLocked(WorkerRetired);
    }
    var armed := true;
    var locked := worker.tables.LockTask(id, worker.name, scope, Some(worker.token), malformed, at, commit);
    if locked.Ok? {
      return Admitted(locked.value);
    }
    if locked.error != ClaimOutcomeUnknown {
      armed := false;
    }
    worker.DropObligation(armed, carried);
    r := NotLocked(if locked.error == ClaimOutcomeUnknown then Unconfirmed else NotClaimed);
  }

  // ------------------------------------------------------ undecodable tasks

  const RELEASE_RETRY_LIMIT: nat := 5
  const RELEASE_RETRY_BASE_DELAY: nat := 100   // milliseconds
  const RELEASE_RETRY_BUDGET: int := 3_000   // milliseconds

  /** `release_retry_delay`, in milliseconds. */
  function ReleaseRetryDelay(failures: nat): (delay: nat)
    ensures failures >= 2 ==> delay == 2 * ReleaseRetryDelay(failures - 1)
  {
    if failures <= 1 then RELEASE_RETRY_BASE_DELAY else 2 * ReleaseRetryDelay(failures - 1)
  }

  /** The delays before the retries of a release that was tried so many times. */
  function RetryDelays(tries: nat): (delays: seq<nat>)
    ensures |delays| == if tries == 0 then 0 else tries - 1
  {
    if tries <= 1 then [] else RetryDelays(tries - 1) + [ReleaseRetryDelay(tries - 1)]
  }

  /** 100 ms, doubled before each further retry. */
  lemma DelaysInNumbers(tries: nat)
    requires 1 <= tries <= 6
    ensures RetryDelays(tries) == [100, 200, 400, 800, 1_600][..tries - 1]
  {
    if tries > 1 {
      DelaysInNumbers(tries - 1);
      assert ReleaseRetryDelay(tries - 1) == [100, 200, 400, 800, 1_600][tries - 2];
    }
  }

  predicate ReleaseExhausted(failures: nat, sinceFirstFailure: int) {
    failures > RELEASE_RETRY_LIMIT || sinceFirstFailure >= RELEASE_RETRY_BUDGET
  }

  datatype Release = Released | Lost | GaveUp

  function ReleaseOf(c: Claim, at: Instant): Event {
    FailUndecodable(c.task, c.owner, c.lockAt, c.attempts, c.token, at)
  }

  /** The row a release of the claim writes, if it matches. */
  function ReleasedTable(jobs: map<TaskId, Row>, c: Claim, matched: bool, at: Instant): map<TaskId, Row> {
    if matched && c.task in jobs then jobs[c.task := Rows.FailedUndecodable(jobs[c.task], at)] else jobs
  }

  /** The rows and the lease after one attempt to release a claim. */
  function AfterRelease(jobs: map<TaskId, Row>, retired: bool, c: Claim, current: bool, fate: Commit, exhausted: bool,
                        at: Instant): (map<TaskId, Row>, bool)
  {
    (ReleasedTable(jobs, c, fate.Applied() && current, at),
     retired || (if fate.Confirmed? then !current else exhausted))
  }

  lemma ReleaseMatches(s: State, c: Claim, at: Instant)
    requires Kept(s) && c in s.claims
    ensures Enabled(s, ReleaseOf(c, at)) <==> InClaim(s, c)
    ensures c in Step(s, ReleaseOf(c, at)).claims && !InClaim(Step(s, ReleaseOf(c, at)), c)
    ensures Step(s, ReleaseOf(c, at)).jobs == ReleasedTable(s.jobs, c, InClaim(s, c), at)
  {
    Unfolded(s);
    GuardsMatchTheClaim(s, c, ReleaseOf(c, at));
  }

  /** The release statement: whether it found the claim. */
  method SendRelease(worker: Worker, c: Claim, at: Instant) returns (released: bool)
    requires worker.Valid() && c in worker.tables.claims
    modifies worker.tables
    ensures worker.Valid() && c in worker.tables.claims
    ensures released <==> InClaim(old(worker.tables.Snapshot()), c)
    ensures !InClaim(worker.tables.Snapshot(), c)
    ensures worker.tables.jobs == ReleasedTable(old(worker.tables.jobs), c, released, at)
  {
    ghost var before, e := worker.tables.Snapshot(), ReleaseOf(c, at);
    ReleaseMatches(before, c, at);
    assert e == FailUndecodable(c.task, c.owner, c.lockAt, c.attempts, c.token, at);
    var count := worker.tables.FailUndecodableTask(c.task, c.owner, c.lockAt, c.attempts, c.token, at);
    released := count > 0;
  }

  method TryRelease(worker: Worker, c: Claim, fate: Commit, at: Instant) returns (released: bool)
    requires worker.Valid() && c in worker.tables.claims
    modifies worker.tables
    ensures worker.Valid() && c in worker.tables.claims
    ensures released <==> fate.Applied() && InClaim(old(worker.tables.Snapshot()), c)
    ensures fate.Applied() ==> !InClaim(worker.tables.Snapshot(), c)
    ensures !fate.Applied() ==> worker.tables.Snapshot() == old(worker.tables.Snapshot())
    ensures worker.tables.jobs == ReleasedTable(old(worker.tables.jobs), c, released, at)
  {
    released := false;
    if fate.Applied() {
      released := SendRelease(worker, c, at);
    }
  }

  /** The lease is retired; no claim is touched. */
  method RetireLease(worker: Worker)
    requires worker.Valid()
    modifies worker, worker.tables
    ensures worker.Valid() && worker.retired && old(worker.tables.claims) <= worker.tables.claims
    ensures worker.tables.jobs == old(worker.tables.jobs)
  {
    ghost var before := worker.tables.Snapshot();
    ClaimsStay(before, Retire(worker.token, worker.name));
    worker.DropObligation(true, null);
  }

  /** One attempt of the release obligation: how it ended, if it did. */
  method AttemptRelease(worker: Worker, c: Claim, fate: Commit, exhausted: bool, at: Instant)
    returns (r: Option<Release>)
    requires worker.Valid() && c in worker.tables.claims
    modifies worker, worker.tables
    ensures worker.Valid() && c in worker.tables.claims
    ensures r == Some(Released) <==> fate.Confirmed? && InClaim(old(worker.tables.Snapshot()), c)
    ensures r == Some(Lost) <==> fate.Confirmed? && !InClaim(old(worker.tables.Snapshot()), c)
    ensures r == Some(GaveUp) <==> !fate.Confirmed? && exhausted
    ensures worker.retired <==> old(worker.retired) || r == Some(Lost) || r == Some(GaveUp)
    ensures r.Some? ==> worker.retired || !InClaim(worker.tables.Snapshot(), c)
    ensures (worker.tables.jobs, worker.retired) ==
            AfterRelease(old(worker.tables.jobs), old(worker.retired), c, InClaim(old(worker.tables.Snapshot()), c), fate,
                         exhausted, at)
  {
    var released := TryRelease(worker, c, fate, at);
    if fate.Confirmed? && released {
      return Some(Released);
    }
    if fate.Confirmed? {
      RetireLease(worker);
      return Some(Lost);
    }
    if exhausted {
      RetireLease(worker);
      return Some(GaveUp);
    }
    r := None;
  }

  /** The release obligation of an undecodable task, retried until it is
      discharged. It ends within six statements, and then the row is out of the
      claim or the lease is retired. `fates` gives the fate of each transaction,
      and `elapsed` the time since the first failure. */
  method ReleaseUndecodable(worker: Worker, c: Claim, fates: nat -> Commit, elapsed: nat -> int, at: Instant)
    returns (r: Release, tries: nat, delays: seq<nat>)
    requires worker.Valid() && c in worker.tables.claims
    modifies worker, worker.tables
    ensures worker.Valid() && 1 <= tries <= RELEASE_RETRY_LIMIT + 1
    ensures worker.retired || !InClaim(worker.tables.Snapshot(), c)
    ensures r.Released? ==> fates(tries - 1).Confirmed? && worker.retired == old(worker.retired)
    ensures r.Lost? ==> fates(tries - 1).Confirmed? && worker.retired
    ensures r.GaveUp? ==> worker.retired && !fates(tries - 1).Confirmed?
    ensures forall i :: 0 <= i < tries - 1 ==> !fates(i).Confirmed?
    ensures |delays| == tries - 1 && forall i :: 0 <= i < |delays| ==> delays[i] == [100, 200, 400, 800, 1_600][i]
    ensures forall i :: 1 <= i < tries ==> i <= 5 && elapsed(i) < 3_000
    ensures r.GaveUp? ==> tries == 6 || elapsed(tries) >= 3_000
    ensures fates(0).Confirmed? ==> (r.Released? <==> InClaim(old(worker.tables.Snapshot()), c))
  {
    tries, delays := 0, [];
    while true
      invariant worker.Valid() && c in worker.tables.claims
      invariant tries <= RELEASE_RETRY_LIMIT && worker.retired == old(worker.retired)
      invariant forall i :: 0 <= i < tries ==> !fates(i).Confirmed?
      invariant tries == 0 ==> worker.tables.Snapshot() == old(worker.tables.Snapshot())
      invariant delays == RetryDelays(tries)
      invariant forall i :: 1 <= i <= tries ==> elapsed(i) < 3_000
      decreases RELEASE_RETRY_LIMIT - tries
    {
      if tries > 0 {
        delays := delays + [ReleaseRetryDelay(tries)];
      }
      var ended := AttemptRelease(worker, c, fates(tries), ReleaseExhausted(tries + 1, elapsed(tries + 1)), at);
      tries := tries + 1;
      if ended.Some? {
        DelaysInNumbers(tries);
        return ended.value, tries, delays;
      }
    }
  }
}
