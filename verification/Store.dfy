/** The two tables as a state machine: one event per committed transaction, in
    any order and with any clock. The history (claim generations, charges,
    starts, issued claims) is observed from how the rows change, whatever the
    event was, so no event can misreport itself. */
module Store {
  import opened Rows

  type Key = (Name, Queue)

  datatype Registration = Registration(token: Option<Token>, lastSeen: Instant)

  /** What happened to one task so far. */
  datatype Ledger = Ledger(
    gen: nat,                    // claims so far
    claimToken: Option<Token>,   // token of the registration when the last claim was made
    starts: nat,                 // entries into Running from another status
    exits: nat,                  // exits from Running
    unstarted: int,              // attempts charged while not Running
    startGen: map<int, nat>)     // attempts value at an entry -> the claim that entered

  /** A claim as it was handed out: the epoch it recorded, and its generation. */
  datatype Claim = Claim(
    task: TaskId, gen: nat, queue: Queue, owner: Name, lockAt: int, attempts: int, maxAttempts: int,
    token: Option<Token>)

  datatype State = State(
    jobs: map<TaskId, Row>,
    workers: map<Key, Registration>,
    retired: set<(Token, Name)>,   // names a storage retired locally
    used: set<TaskId>,
    ledger: map<TaskId, Ledger>,
    claims: set<Claim>)

  const Initial: State := State(map[], map[], {}, {}, map[], {})

  datatype Event =
    | Enqueue(id: TaskId, queue: Queue, maxAttempts: int, runAt: Instant, priority: int)
    | Fetch(name: Name, queue: Queue, token: Option<Token>, ids: set<TaskId>, malformed: set<TaskId>, at: Instant)
    | Lock(id: TaskId, name: Name, scope: Option<Queue>, token: Option<Token>, at: Instant)
    | Start(id: TaskId, queue: Queue, name: Name, lockAt: int, attempts: Option<int>, restart: bool,
            token: Option<Token>)
    | Ack(id: TaskId, queue: Queue, name: Name, lockAt: int, counter: nat, maxAttempts: int, ok: bool,
          token: Option<Token>, at: Instant)
    | FailUndecodable(id: TaskId, name: Name, lockAt: int, claimAttempts: int, token: Option<Token>,
                      at: Instant)
    | Register(name: Name, queue: Queue, newToken: Token, staleAfter: int, at: Instant)
    | Sweep(queue: Queue, names: set<Name>, ids: set<TaskId>, staleAfter: int, at: Instant)
    | ReleaseWorker(name: Name, queue: Queue, oldToken: Token, at: Instant)
    | Heartbeat(name: Name, queue: Queue, beatToken: Token, at: Instant)
    | AdminRegister(name: Name, queue: Queue, at: Instant)
    | Retire(retiredToken: Token, name: Name)
    | Purge(queue: Queue, ids: set<TaskId>, cutoff: Instant)
    | Prune(queue: Queue, names: set<Name>)

  function RegisteredToken(s: State, key: Key): Option<Token> {
    if key in s.workers then s.workers[key].token else None
  }

  /** `worker_registration(..) == Current`: registered, and owned by the token if one is presented. */
  predicate Holds(s: State, key: Key, token: Option<Token>) {
    key in s.workers && (token.None? || s.workers[key].token == token)
  }

  predicate Stale(registration: Registration, staleAfter: int, at: Instant) {
    at - registration.lastSeen >= staleAfter
  }

  predicate OwnedBy(r: Row, key: Key) {
    r.owner == Some(key.0) && r.queue == key.1
  }

  predicate Referenced(s: State, key: Key) {
    exists id :: id in s.jobs && OwnedBy(s.jobs[id], key)
  }

  /** Old enough for a purge with this cutoff. */
  predicate Purgeable(r: Row, queue: Queue, cutoff: Instant) {
    && r.queue == queue && Terminal(r)
    && ((r.doneAt.Some? && r.doneAt.value <= cutoff) || (r.doneAt.None? && r.runAt <= cutoff))
  }

  /** The guard of each transaction: the cases where it changes a table. */
  predicate Enabled(s: State, e: Event) {
    match e
    case Enqueue(id, _, maxAttempts, _, _) => id !in s.used && maxAttempts >= 1
    case Fetch(name, queue, token, ids, malformed, at) =>
      && Holds(s, (name, queue), token)
      && malformed <= ids
      && (forall id :: id in ids ==> id in s.jobs && s.jobs[id].queue == queue && Claimable(s.jobs[id], at))
    case Lock(id, name, scope, token, at) =>
      && id in s.jobs && (scope.None? || s.jobs[id].queue == scope.value)
      && Holds(s, (name, s.jobs[id].queue), token)
      && Lockable(s.jobs[id], name, at)
    case Start(id, queue, name, lockAt, attempts, restart, token) =>
      id in s.jobs && Holds(s, (name, queue), token) && Startable(s.jobs[id], queue, name, lockAt, attempts, restart)
    case Ack(id, queue, name, lockAt, counter, maxAttempts, _, token, _) =>
      && id in s.jobs
      && (token.Some? ==> Holds(s, (name, queue), token))
      && Acknowledgeable(s.jobs[id], queue, name, lockAt, counter)
      && counter >= 1 && maxAttempts == s.jobs[id].maxAttempts
    case FailUndecodable(id, name, lockAt, attempts, token, _) =>
      && id in s.jobs
      && (token.Some? ==> Holds(s, (name, s.jobs[id].queue), token))
      && Undecoded(s.jobs[id], name, lockAt, attempts)
    case Register(name, queue, newToken, staleAfter, at) =>
      && (newToken, name) !in s.retired
      && ((name, queue) in s.workers ==>
            || s.workers[(name, queue)].token == Some(newToken)
            || Stale(s.workers[(name, queue)], staleAfter, at))
    case Sweep(queue, names, ids, staleAfter, at) =>
      && (forall name :: name in names ==>
            (name, queue) in s.workers && Stale(s.workers[(name, queue)], staleAfter, at))
      && (forall id :: id in ids ==>
            id in s.jobs && Active(s.jobs[id]) && s.jobs[id].queue == queue && s.jobs[id].owner.Some?
            && s.jobs[id].owner.value in names)
    case ReleaseWorker(name, queue, oldToken, _) =>
      RegisteredToken(s, (name, queue)) == Some(oldToken) && (oldToken, name) in s.retired
    case Heartbeat(name, queue, beatToken, _) => RegisteredToken(s, (name, queue)) == Some(beatToken)
    case AdminRegister(_, _, _) => true
    case Retire(_, _) => true
    case Purge(queue, ids, cutoff) =>
      forall id :: id in ids ==> id in s.jobs && Purgeable(s.jobs[id], queue, cutoff)
    case Prune(queue, names) =>
      forall name :: name in names ==> (name, queue) in s.workers && !Referenced(s, (name, queue))
  }

  function RecoverAll(jobs: map<TaskId, Row>, ids: set<TaskId>, recovery: Recovery, at: Instant): map<TaskId, Row> {
    map id | id in jobs :: if id in ids then Recovered(jobs[id], recovery, at) else jobs[id]
  }

  /** Every active claim of a name, as takeover and release recover them. */
  function ActiveClaims(s: State, key: Key): set<TaskId> {
    set id | id in s.jobs && Active(s.jobs[id]) && OwnedBy(s.jobs[id], key)
  }

  function ClaimRow(r: Row, name: Name, malformed: bool, at: Instant): Row {
    if malformed then Quarantined(Claimed(r, name, at), at) else Claimed(r, name, at)
  }

  /** Whether a registration with this token takes the name over first. */
  predicate LosesClaims(s: State, key: Key, token: Token, staleAfter: int, at: Instant) {
    key in s.workers && (s.workers[key].token != Some(token) || Stale(s.workers[key], staleAfter, at))
  }

  /** What the transaction writes to the tables; the history follows from `Observe`. */
  function Effect(s: State, e: Event): (next: State)
    requires Enabled(s, e)
  {
    match e
    case Enqueue(id, queue, maxAttempts, runAt, priority) =>
      s.(jobs := s.jobs[id := Enqueued(queue, maxAttempts, runAt, priority)], used := s.used + {id})
    case Fetch(name, _, _, ids, malformed, at) =>
      s.(jobs := map id | id in s.jobs ::
                   if id in ids then ClaimRow(s.jobs[id], name, id in malformed, at) else s.jobs[id])
    case Lock(id, name, _, _, at) => s.(jobs := s.jobs[id := Locked(s.jobs[id], name, at)])
    case Start(id, _, _, _, _, _, _) => s.(jobs := s.jobs[id := Started(s.jobs[id])])
    case Ack(id, _, _, _, counter, maxAttempts, ok, _, at) =>
      s.(jobs := s.jobs[id := Acknowledged(s.jobs[id], counter, maxAttempts, ok, at)])
    case FailUndecodable(id, _, _, _, _, at) => s.(jobs := s.jobs[id := Rows.FailedUndecodable(s.jobs[id], at)])
    case Register(name, queue, newToken, staleAfter, at) =>
      var jobs := if LosesClaims(s, (name, queue), newToken, staleAfter, at)
                  then RecoverAll(s.jobs, ActiveClaims(s, (name, queue)), Takeover, at) else s.jobs;
      s.(jobs := jobs, workers := s.workers[(name, queue) := Registration(Some(newToken), at)])
    case Sweep(_, _, ids, _, at) => s.(jobs := RecoverAll(s.jobs, ids, StaleSweep, at))
    case ReleaseWorker(name, queue, _, at) =>
      s.(jobs := RecoverAll(s.jobs, ActiveClaims(s, (name, queue)), Release, at),
         workers := s.workers[(name, queue) := Registration(None, 0)])
    case Heartbeat(name, queue, beatToken, at) =>
      s.(workers := s.workers[(name, queue) := Registration(Some(beatToken), at)])
    case AdminRegister(name, queue, at) =>
      if (name, queue) in s.workers && s.workers[(name, queue)].token.Some? then s
      else s.(workers := s.workers[(name, queue) := Registration(None, at)])
    case Retire(retiredToken, name) => s.(retired := s.retired + {(retiredToken, name)})
    case Purge(_, ids, _) => s.(jobs := map id | id in s.jobs && id !in ids :: s.jobs[id])
    case Prune(queue, names) =>
      s.(workers := map key | key in s.workers && !(key.1 == queue && key.0 in names) :: s.workers[key])
  }

  // ---------------------------------------------------------------- history

  predicate NewlyClaimed(before: Row, after: Row) {
    !Active(before) && Active(after)
  }

  function ObserveRow(before: Row, after: Row, l: Ledger, token: Option<Token>): Ledger {
    var gen := if NewlyClaimed(before, after) then l.gen + 1 else l.gen;
    var entered := after.status.Running? && !before.status.Running?;
    Ledger(gen,
           if NewlyClaimed(before, after) then token else l.claimToken,
           if entered then l.starts + 1 else l.starts,
           if before.status.Running? && !after.status.Running? then l.exits + 1 else l.exits,
           if before.status.Running? then l.unstarted else l.unstarted + after.attempts - before.attempts,
           if entered then l.startGen[after.attempts := gen] else l.startGen)
  }

  function OwnerToken(s: State, r: Row): Option<Token> {
    if r.owner.Some? then RegisteredToken(s, (r.owner.value, r.queue)) else None
  }

  const NoHistory: Ledger := Ledger(0, None, 0, 0, 0, map[])

  function LedgerOf(s: State, id: TaskId): Ledger {
    if id in s.ledger then s.ledger[id] else NoHistory
  }

  /** The claim an active row carries. */
  function CurrentClaim(s: State, id: TaskId): Claim
    requires id in s.jobs && s.jobs[id].owner.Some? && s.jobs[id].lockAt.Some?
  {
    var r := s.jobs[id];
    Claim(id, LedgerOf(s, id).gen, r.queue, r.owner.value, r.lockAt.value, r.attempts, r.maxAttempts,
          LedgerOf(s, id).claimToken)
  }

  function IssuedClaims(s: State, next: State): set<Claim> {
    set id | id in next.jobs && id in s.jobs && NewlyClaimed(s.jobs[id], next.jobs[id])
             && next.jobs[id].owner.Some? && next.jobs[id].lockAt.Some? :: CurrentClaim(next, id)
  }

  function ObservedLedger(s: State, next: State): map<TaskId, Ledger> {
    map id | id in next.jobs ::
      if id in s.jobs then ObserveRow(s.jobs[id], next.jobs[id], LedgerOf(s, id), OwnerToken(next, next.jobs[id]))
      else NoHistory
  }

  function Observe(s: State, next: State): State {
    var booked := next.(ledger := ObservedLedger(s, next));
    booked.(claims := next.claims + IssuedClaims(s, booked))
  }

  /** One transaction, or nothing when its guard does not match. */
  function Step(s: State, e: Event): State {
    if Enabled(s, e) then Observe(s, Effect(s, e)) else s
  }

  function Run(s: State, events: seq<Event>): State
    decreases |events|
  {
    if events == [] then s else Run(Step(s, events[0]), events[1..])
  }

  // -------------------------------------------------------------- invariant

  /** The owner of a row that names one is registered for its queue. */
  predicate OwnerRegistered(s: State, r: Row) {
    r.owner.Some? ==> (r.owner.value, r.queue) in s.workers
  }

  /** An active row was claimed under the token that registers its owner now. */
  ghost predicate Fenced(s: State) {
    forall id :: id in s.jobs && Active(s.jobs[id]) ==> LedgerOf(s, id).claimToken == OwnerToken(s, s.jobs[id])
  }

  function InFlight(r: Row): int {
    if r.status.Running? then 1 else 0
  }

  ghost predicate LedgerInv(r: Row, l: Ledger) {
    && r.attempts == l.exits + l.unstarted
    && l.starts == l.exits + InFlight(r)
    && 0 <= l.unstarted
    && |l.startGen| == l.starts
    && (forall a :: a in l.startGen ==> 0 <= a && (a < r.attempts || (a == r.attempts && r.status.Running?)))
    && (r.status.Running? ==> r.attempts in l.startGen && l.startGen[r.attempts] == l.gen)
  }

  /** The row is still in the very claim `c`. */
  predicate InClaim(s: State, c: Claim) {
    c.task in s.jobs && Active(s.jobs[c.task]) && LedgerOf(s, c.task).gen == c.gen
  }

  /** A claim handed back without a charge: its token can never hold the name again. */
  predicate Superseded(s: State, c: Claim) {
    c.token.Some? && (c.token.value, c.owner) in s.retired && RegisteredToken(s, (c.owner, c.queue)) != c.token
  }

  ghost predicate ClaimInv(s: State, c: Claim) {
    && c.task in s.used && 0 <= c.attempts
    && (c.task in s.jobs ==>
          var r, l := s.jobs[c.task], LedgerOf(s, c.task);
          && c.gen <= l.gen && c.maxAttempts == r.maxAttempts && c.queue == r.queue && c.attempts <= r.attempts
          && (InClaim(s, c) ==>
                r.owner == Some(c.owner) && r.lockAt == Some(c.lockAt) && r.attempts == c.attempts
                && l.claimToken == c.token)
          && (!InClaim(s, c) && r.attempts == c.attempts && !Finished(r) ==> Superseded(s, c)))
  }

  ghost predicate TablesInv(s: State) {
    && s.jobs.Keys <= s.used
    && (forall id :: id in s.jobs ==> RowInv(s.jobs[id]) && OwnerRegistered(s, s.jobs[id]))
  }

  ghost predicate LedgersInv(s: State) {
    forall id :: id in s.jobs ==> LedgerInv(s.jobs[id], LedgerOf(s, id))
  }

  ghost predicate ClaimsInv(s: State) {
    && (forall c :: c in s.claims ==> ClaimInv(s, c))
    && (forall id :: id in s.jobs && Active(s.jobs[id]) && s.jobs[id].owner.Some? && s.jobs[id].lockAt.Some? ==>
          CurrentClaim(s, id) in s.claims)
  }

  ghost predicate Inv(s: State) {
    TablesInv(s) && LedgersInv(s) && Fenced(s) && ClaimsInv(s)
  }
}
