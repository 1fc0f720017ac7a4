/** One storage and what its process owes: task streams, dispatches through the
    locking middleware, and acknowledgements, each holding a guard that retires
    the worker's local lease when it is dropped armed. The storage runs beside
    the database and everything else that writes to it; every step below is
    one statement, one commit, or one piece of code without an await in it. */
module Obligations {
  import opened Rows
  import opened Store
  import opened Database

  type StreamId = nat
  type JobId = nat
  type DispatchId = nat
  type AckId = nat

  /** The shared `ClaimAttempt` of a claim: one for a fetched task, and one for
      each dispatch that locked its task itself. */
  datatype RecordId = Fetched(claim: Claim) | Relocked(claim: Claim, locker: DispatchId)

  /** A registered stream holds its guard until it is dropped. */
  datatype TaskStream = TaskStream(
    name: Name, queue: Queue, open: bool, guarded: bool, buffer: set<Claim>, releasing: Option<Claim>)

  /** A claim statement: the batch it committed stays with it until the stream
      receives the answer. */
  datatype FetchJob = FetchJob(stream: StreamId, answer: Option<FetchAnswer>)

  datatype FetchAnswer = FetchAnswer(claims: set<Claim>, confirmed: bool, unknown: bool)

  datatype Reply = Matched | Missed | Unknown

  datatype Phase =
    | Called                         // claimed by the fetcher; nothing checked yet
    | Admitted(restart: bool)        // `has_started` was read
    | Starting(restart: bool)        // start statement issued
    | StartAnswered(reply: Reply)
    | LockCalled                     // not claimed for this worker yet
    | Locking                        // guard armed, `lock_task` issued
    | LockAnswered(reply: Reply)
    | Handling
    | Acknowledging(ack: AckId)
    | Ended

  /** `claim` is what the dispatch runs, `ran` whether its own statement moved the
      row to `Running`; `carried` is the record its guard consults when dropped. */
  datatype Dispatch = Dispatch(
    name: Name, task: TaskId, scope: Option<Queue>, carried: Option<RecordId>, claim: Option<Claim>,
    live: bool, armed: bool, ran: bool, phase: Phase)

  datatype AckPhase = Created | Serialized | Writing | Answered(ok: bool) | Skipped | Closed

  /** An acknowledgement future; armed for as long as it lives. */
  datatype Acknowledgement = Acknowledgement(record: RecordId, ok: bool, live: bool, wrote: bool, phase: AckPhase)

  datatype Process = Process(
    db: State,
    token: Token,
    streams: map<StreamId, TaskStream>,
    fetches: map<JobId, FetchJob>,
    waiting: set<Claim>,             // yielded, not dispatched yet
    dispatches: map<DispatchId, Dispatch>,
    acks: map<AckId, Acknowledgement>,
    done: set<RecordId>,
    started: set<RecordId>,
    attempted: set<RecordId>)

  function Fresh(token: Token): Process {
    Process(Initial, token, map[], map[], {}, map[], map[], {}, {}, {})
  }

  datatype StreamMove =
    | OpenStream(stream: StreamId, name: Name, queue: Queue)
    | RegisterStream(stream: StreamId, staleAfter: int, at: Instant)
    | IssueFetch(stream: StreamId, job: JobId)
    | CommitFetch(job: JobId, ids: set<TaskId>, malformed: set<TaskId>, at: Instant, commit: Commit)
    | ReceiveFetch(job: JobId)
    | YieldTask(stream: StreamId, c: Claim)
    | FailDecode(stream: StreamId, c: Claim)
    | TryRelease(stream: StreamId, at: Instant, commit: Commit, exhausted: bool)
    | DropStream(stream: StreamId)

  datatype DispatchMove =
    | Call(dispatch: DispatchId, record: RecordId)
    | Admit(dispatch: DispatchId)
    | BeginStart(dispatch: DispatchId)
    | CommitStart(dispatch: DispatchId, commit: Commit)
    | ReceiveStart(dispatch: DispatchId)
    | CallLock(dispatch: DispatchId, name: Name, task: TaskId, scope: Option<Queue>, carried: Option<RecordId>)
    | ArmLock(dispatch: DispatchId)
    | CommitLock(dispatch: DispatchId, at: Instant, commit: Commit)
    | ReceiveLock(dispatch: DispatchId)
    | FinishHandler(dispatch: DispatchId, ack: AckId, ok: bool)
    | Return(dispatch: DispatchId)
    | DropDispatch(dispatch: DispatchId)

  datatype AckMove =
    | CreateAck(ack: AckId, record: RecordId, ok: bool)
    | CheckAck(ack: AckId)
    | EnterAck(ack: AckId)
    | CommitAck(ack: AckId, at: Instant, commit: Commit)
    | ReceiveAck(ack: AckId)
    | DropAck(ack: AckId)

  datatype Move =
    | Elsewhere(event: Event)
    | InStream(streamMove: StreamMove)
    | InDispatch(dispatchMove: DispatchMove)
    | InAck(ackMove: AckMove)

  // ---------------------------------------------------------------- leases

  predicate IsRetired(p: Process, name: Name) {
    (p.token, name) in p.db.retired
  }

  function RetireLease(p: Process, name: Name): Process {
    p.(db := Step(p.db, Retire(p.token, name)))
  }

  /** The drop of a `ClaimObligation`. */
  function Settle(p: Process, name: Name, armed: bool, record: Option<RecordId>): Process {
    if armed && !(record.Some? && record.value in p.done) then RetireLease(p, name) else p
  }

  function SetStream(p: Process, id: StreamId, s: TaskStream): Process {
    p.(streams := p.streams[id := s])
  }

  function SetDispatch(p: Process, id: DispatchId, d: Dispatch): Process {
    p.(dispatches := p.dispatches[id := d])
  }

  function SetAck(p: Process, id: AckId, a: Acknowledgement): Process {
    p.(acks := p.acks[id := a])
  }

  /** The dispatch future ends without leaving anything to lose. */
  function Disarm(p: Process, id: DispatchId): Process
    requires id in p.dispatches
  {
    SetDispatch(p, id, p.dispatches[id].(live := false, armed := false, phase := Ended))
  }

  /** The dispatch future ends, or is dropped, with its guard as it is. A
      statement it issued may still commit. */
  function Abandon(p: Process, id: DispatchId): Process
    requires id in p.dispatches
  {
    var d := p.dispatches[id];
    Settle(SetDispatch(p, id, d.(live := false)), d.name, d.armed, d.carried)
  }

  // ---------------------------------------------------------------- others

  /** What runs outside this storage: anything that neither claims nor starts
      under its token, or without any. */
  predicate Foreign(p: Process, e: Event) {
    match e
    case Fetch(_, _, token, _, _, _) => token.Some? && token.value != p.token
    case Lock(_, _, _, token, _) => token.Some? && token.value != p.token
    case Start(_, _, _, _, _, _, token) => token.Some? && token.value != p.token
    case _ => true
  }

  // --------------------------------------------------------------- streams

  /** The registration is a stream's first item; it arms the guard, or fails the stream. */
  function RegisterStreamOf(p: Process, id: StreamId, staleAfter: int, at: Instant): Process
    requires id in p.streams
  {
    var s := p.streams[id];
    var e := Register(s.name, s.queue, p.token, staleAfter, at);
    SetStream(p.(db := Step(p.db, e)), id, if Enabled(p.db, e) then s.(guarded := true) else s.(open := false))
  }

  function FetchEvent(p: Process, s: TaskStream, ids: set<TaskId>, malformed: set<TaskId>, at: Instant): Event {
    Fetch(s.name, s.queue, Some(p.token), ids, malformed, at)
  }

  function CommitFetchOf(
    p: Process, job: JobId, ids: set<TaskId>, malformed: set<TaskId>, at: Instant, commit: Commit): Process
    requires job in p.fetches && p.fetches[job].stream in p.streams
  {
    var e := FetchEvent(p, p.streams[p.fetches[job].stream], ids, malformed, at);
    var db := if commit.Applied() then Step(p.db, e) else p.db;
    var unknown := Enabled(p.db, e) && !(ids <= malformed) && commit.Unanswered?;
    p.(db := db,
       fetches := p.fetches[job := p.fetches[job].(answer :=
                                  Some(FetchAnswer(db.claims - p.db.claims, commit.Confirmed?, unknown)))])
  }

  /** A lost COMMIT outcome retires; a batch that arrived is buffered. */
  function ReceiveFetchOf(p: Process, job: JobId): Process
    requires job in p.fetches && p.fetches[job].stream in p.streams && p.fetches[job].answer.Some?
  {
    var id, answer := p.fetches[job].stream, p.fetches[job].answer.value;
    var s := p.streams[id];
    var q := p.(fetches := p.fetches - {job});
    if answer.confirmed then SetStream(q, id, s.(buffer := s.buffer + answer.claims))
    else if answer.unknown then RetireLease(q, s.name)
    else q
  }

  /** A decoded task goes to the consumer. */
  function YieldTaskOf(p: Process, id: StreamId, c: Claim): Process
    requires id in p.streams
  {
    var s := p.streams[id];
    SetStream(p.(waiting := p.waiting + {c}), id, s.(buffer := s.buffer - {c}))
  }

  /** An undecodable task leaves the stream an obligation to release it. */
  function FailDecodeOf(p: Process, id: StreamId, c: Claim): Process
    requires id in p.streams
  {
    var s := p.streams[id];
    SetStream(p, id, s.(buffer := s.buffer - {c}, releasing := Some(c)))
  }

  function ReleaseEvent(p: Process, c: Claim, at: Instant): Event {
    FailUndecodable(c.task, c.owner, c.lockAt, c.attempts, Some(p.token), at)
  }

  /** One attempt to fail an undecodable row: released, lost, failed, or failed
      for the last time. */
  function TryReleaseOf(p: Process, id: StreamId, at: Instant, commit: Commit, exhausted: bool): Process
    requires id in p.streams && p.streams[id].releasing.Some?
  {
    var s := p.streams[id];
    var e := ReleaseEvent(p, s.releasing.value, at);
    var q := p.(db := if commit.Applied() then Step(p.db, e) else p.db);
    var discharged := SetStream(q, id, s.(releasing := None));
    if commit.Confirmed? && Enabled(p.db, e) then discharged
    else if commit.Confirmed? || exhausted then RetireLease(discharged, s.name)
    else q
  }

  function DropStreamOf(p: Process, id: StreamId): Process
    requires id in p.streams
  {
    var s := p.streams[id];
    Settle(SetStream(p, id, s.(open := false)), s.name, s.guarded, None)
  }

  // ------------------------------------------------------------ dispatches

  /** `call` for a task the fetcher claimed: the guard is armed here unless the
      acknowledgement already committed. */
  function CallOf(p: Process, id: DispatchId, r: RecordId): Process {
    var d := Dispatch(r.claim.owner, r.claim.task, None, Some(r), Some(r.claim), true, r !in p.done, false, Called);
    SetDispatch(p.(waiting := if r.Fetched? then p.waiting - {r.claim} else p.waiting), id, d)
  }

  function AdmitOf(p: Process, id: DispatchId): Process
    requires id in p.dispatches && p.dispatches[id].carried.Some?
  {
    var d := p.dispatches[id];
    if d.carried.value in p.done then Disarm(p, id)
    else SetDispatch(p, id, d.(phase := Admitted(d.carried.value in p.started)))
  }

  /** The checks of `start_claim` before its statement. */
  function BeginStartOf(p: Process, id: DispatchId): Process
    requires id in p.dispatches && p.dispatches[id].carried.Some? && p.dispatches[id].phase.Admitted?
  {
    var d := p.dispatches[id];
    var r := d.carried.value;
    if r in p.done then Disarm(p, id)
    else
      var q := p.(attempted := p.attempted + {r});
      if IsRetired(p, d.name) then Disarm(q, id)
      else SetDispatch(q, id, d.(phase := Starting(d.phase.restart)))
  }

  function StartEvent(p: Process, c: Claim, restart: bool): Event {
    Start(c.task, c.queue, c.owner, c.lockAt, Some(c.attempts), restart, Some(p.token))
  }

  function ReplyOf(commit: Commit, matched: bool): Reply {
    if !commit.Confirmed? then Unknown else if matched then Matched else Missed
  }

  function CommitStartOf(p: Process, id: DispatchId, commit: Commit): Process
    requires id in p.dispatches && p.dispatches[id].phase.Starting? && p.dispatches[id].claim.Some?
  {
    var d := p.dispatches[id];
    var e := StartEvent(p, d.claim.value, d.phase.restart);
    SetDispatch(p.(db := if commit.Applied() then Step(p.db, e) else p.db), id,
                d.(ran := commit.Applied() && Enabled(p.db, e),
                   phase := StartAnswered(ReplyOf(commit, Enabled(p.db, e)))))
  }

  /** A claim that runs elsewhere owes nothing; an unknown outcome does. */
  function ReceiveStartOf(p: Process, id: DispatchId): Process
    requires id in p.dispatches && p.dispatches[id].carried.Some? && p.dispatches[id].phase.StartAnswered?
  {
    var d := p.dispatches[id];
    match d.phase.reply
    case Matched => SetDispatch(p.(started := p.started + {d.carried.value}), id, d.(phase := Handling))
    case Missed => Disarm(p, id)
    case Unknown => Abandon(p, id)
  }

  /** `call` for a task that does not read as claimed for this worker. Its record,
      if it carries one, is the one the guard will consult; nothing is armed yet. */
  function CallLockOf(
    p: Process, id: DispatchId, name: Name, task: TaskId, scope: Option<Queue>, carried: Option<RecordId>): Process
  {
    SetDispatch(p.(waiting := if carried.Some? && carried.value.Fetched? then p.waiting - {carried.value.claim} else p.waiting),
                id, Dispatch(name, task, scope, carried, None, true, false, false, LockCalled))
  }

  function ArmLockOf(p: Process, id: DispatchId): Process
    requires id in p.dispatches
  {
    var d := p.dispatches[id];
    if IsRetired(p, d.name) then Disarm(p, id) else SetDispatch(p, id, d.(armed := true, phase := Locking))
  }

  function LockEvent(p: Process, d: Dispatch, at: Instant): Event {
    Lock(d.task, d.name, d.scope, Some(p.token), at)
  }

  function CommitLockOf(p: Process, id: DispatchId, at: Instant, commit: Commit): Process
    requires id in p.dispatches
  {
    var d := p.dispatches[id];
    var e := LockEvent(p, d, at);
    var locked := Enabled(p.db, e);
    var db := if commit.Applied() then Step(p.db, e) else p.db;
    var reply := if !locked then Missed else if commit.Confirmed? then Matched
                 else if commit.Unanswered? then Unknown else Missed;
    var claimed := commit.Applied() && locked && d.task in db.jobs
                   && db.jobs[d.task].owner.Some? && db.jobs[d.task].lockAt.Some?;
    SetDispatch(p.(db := db), id,
                d.(claim := if claimed then Some(CurrentClaim(db, d.task)) else None,
                   ran := claimed, phase := LockAnswered(reply)))
  }

  /** A locked task gets a record of its own, already started. */
  function ReceiveLockOf(p: Process, id: DispatchId): Process
    requires id in p.dispatches && p.dispatches[id].phase.LockAnswered?
    requires p.dispatches[id].phase.reply.Matched? ==> p.dispatches[id].claim.Some?
  {
    var d := p.dispatches[id];
    match d.phase.reply
    case Matched =>
      var r := Relocked(d.claim.value, id);
      SetDispatch(p.(started := p.started + {r}), id, d.(carried := Some(r), phase := Handling))
    case Missed => Disarm(p, id)
    case Unknown => Abandon(p, id)
  }

  // ------------------------------------------------------- acknowledgements

  function CreateAckOf(p: Process, id: AckId, r: RecordId, ok: bool): Process {
    SetAck(p, id, Acknowledgement(r, ok, true, false, Created))
  }

  /** The inner service acknowledges what its handler returned, before it returns. */
  function FinishHandlerOf(p: Process, id: DispatchId, ack: AckId, ok: bool): Process
    requires id in p.dispatches && p.dispatches[id].carried.Some?
  {
    var d := p.dispatches[id];
    SetDispatch(CreateAckOf(p, ack, d.carried.value, ok), id, d.(phase := Acknowledging(ack)))
  }

  /** `start_refused`: attempted, and never started. */
  predicate StartRefused(p: Process, r: RecordId) {
    r in p.attempted && r !in p.started
  }

  function CheckAckOf(p: Process, id: AckId): Process
    requires id in p.acks
  {
    var a := p.acks[id];
    SetAck(p, id, if StartRefused(p, a.record) then a.(live := false, phase := Skipped) else a.(phase := Serialized))
  }

  /** Holds the record's mutex. */
  predicate Holding(p: Process, id: AckId) {
    id in p.acks && p.acks[id].live && (p.acks[id].phase.Writing? || p.acks[id].phase.Answered?)
  }

  predicate MutexFree(p: Process, r: RecordId) {
    forall id :: id in p.acks && p.acks[id].record == r ==> !Holding(p, id)
  }

  function EnterAckOf(p: Process, id: AckId): Process
    requires id in p.acks
  {
    var a := p.acks[id];
    SetAck(p, id, if a.record in p.done then a.(live := false, phase := Closed) else a.(phase := Writing))
  }

  function AckEvent(p: Process, a: Acknowledgement, at: Instant): Event {
    var c := a.record.claim;
    Ack(c.task, c.queue, c.owner, c.lockAt, if c.attempts >= 0 then c.attempts + 1 else 0, c.maxAttempts, a.ok,
        Some(p.token), at)
  }

  function CommitAckOf(p: Process, id: AckId, at: Instant, commit: Commit): Process
    requires id in p.acks
  {
    var a := p.acks[id];
    var e := AckEvent(p, a, at);
    SetAck(p.(db := if commit.Applied() then Step(p.db, e) else p.db), id,
           a.(wrote := commit.Applied() && Enabled(p.db, e),
              phase := Answered(commit.Confirmed? && Enabled(p.db, e))))
  }

  /** The acknowledgement future ends, or is dropped, armed. */
  function AbandonAck(p: Process, id: AckId): Process
    requires id in p.acks
  {
    var a := p.acks[id];
    Settle(SetAck(p, id, a.(live := false)), a.record.claim.owner, true, Some(a.record))
  }

  function ReceiveAckOf(p: Process, id: AckId): Process
    requires id in p.acks && p.acks[id].phase.Answered?
  {
    var a := p.acks[id];
    if a.phase.ok then SetAck(p.(done := p.done + {a.record}), id, a.(live := false)) else AbandonAck(p, id)
  }

  // ------------------------------------------------------------------ steps

  /** A claim handed out under this storage's token. */
  predicate Issued(p: Process, r: RecordId) {
    r.claim in p.db.claims && r.claim.token == Some(p.token)
  }

  predicate CanStream(p: Process, m: StreamMove) {
    match m
    case OpenStream(id, _, _) => id !in p.streams
    case RegisterStream(id, _, _) => id in p.streams && p.streams[id].open && !p.streams[id].guarded
    case IssueFetch(id, job) => id in p.streams && p.streams[id].open && p.streams[id].guarded && job !in p.fetches
    case CommitFetch(job, _, _, _, _) => job in p.fetches && p.fetches[job].stream in p.streams && p.fetches[job].answer.None?
    case ReceiveFetch(job) =>
      && job in p.fetches && p.fetches[job].stream in p.streams && p.fetches[job].answer.Some?
      && p.streams[p.fetches[job].stream].open
    case YieldTask(id, c) => id in p.streams && p.streams[id].open && c in p.streams[id].buffer
    case FailDecode(id, c) =>
      id in p.streams && p.streams[id].open && c in p.streams[id].buffer && p.streams[id].releasing.None?
    case TryRelease(id, _, _, _) => id in p.streams && p.streams[id].open && p.streams[id].releasing.Some?
    case DropStream(id) => id in p.streams && p.streams[id].open
  }

  function StreamStep(p: Process, m: StreamMove): Process
    requires CanStream(p, m)
  {
    match m
    case OpenStream(id, name, queue) => SetStream(p, id, TaskStream(name, queue, true, false, {}, None))
    case RegisterStream(id, staleAfter, at) => RegisterStreamOf(p, id, staleAfter, at)
    case IssueFetch(id, job) => p.(fetches := p.fetches[job := FetchJob(id, None)])
    case CommitFetch(job, ids, malformed, at, commit) => CommitFetchOf(p, job, ids, malformed, at, commit)
    case ReceiveFetch(job) => ReceiveFetchOf(p, job)
    case YieldTask(id, c) => YieldTaskOf(p, id, c)
    case FailDecode(id, c) => FailDecodeOf(p, id, c)
    case TryRelease(id, at, commit, exhausted) => TryReleaseOf(p, id, at, commit, exhausted)
    case DropStream(id) => DropStreamOf(p, id)
  }

  predicate Live(p: Process, id: DispatchId) {
    id in p.dispatches && p.dispatches[id].live
  }

  predicate CanDispatch(p: Process, m: DispatchMove) {
    match m
    case Call(id, r) => id !in p.dispatches && Issued(p, r)
    case Admit(id) => Live(p, id) && p.dispatches[id].phase.Called? && p.dispatches[id].carried.Some?
    case BeginStart(id) => Live(p, id) && p.dispatches[id].phase.Admitted? && p.dispatches[id].carried.Some?
    case CommitStart(id, _) => id in p.dispatches && p.dispatches[id].phase.Starting? && p.dispatches[id].claim.Some?
    case ReceiveStart(id) =>
      Live(p, id) && p.dispatches[id].phase.StartAnswered? && p.dispatches[id].carried.Some?
    case CallLock(id, _, task, _, carried) =>
      id !in p.dispatches && (carried.Some? ==> Issued(p, carried.value) && carried.value.claim.task == task)
    case ArmLock(id) => Live(p, id) && p.dispatches[id].phase.LockCalled?
    case CommitLock(id, _, _) => id in p.dispatches && p.dispatches[id].phase.Locking?
    case ReceiveLock(id) =>
      && Live(p, id) && p.dispatches[id].phase.LockAnswered?
      && (p.dispatches[id].phase.reply.Matched? ==> p.dispatches[id].claim.Some?)
    case FinishHandler(id, ack, _) =>
      && Live(p, id) && p.dispatches[id].phase.Handling? && ack !in p.acks
      && p.dispatches[id].carried.Some? && Issued(p, p.dispatches[id].carried.value)
    case Return(id) =>
      && Live(p, id) && p.dispatches[id].phase.Acknowledging?
      && p.dispatches[id].phase.ack in p.acks && !p.acks[p.dispatches[id].phase.ack].live
    case DropDispatch(id) => Live(p, id)
  }

  function DispatchStep(p: Process, m: DispatchMove): Process
    requires CanDispatch(p, m)
  {
    match m
    case Call(id, r) => CallOf(p, id, r)
    case Admit(id) => AdmitOf(p, id)
    case BeginStart(id) => BeginStartOf(p, id)
    case CommitStart(id, commit) => CommitStartOf(p, id, commit)
    case ReceiveStart(id) => ReceiveStartOf(p, id)
    case CallLock(id, name, task, scope, carried) => CallLockOf(p, id, name, task, scope, carried)
    case ArmLock(id) => ArmLockOf(p, id)
    case CommitLock(id, at, commit) => CommitLockOf(p, id, at, commit)
    case ReceiveLock(id) => ReceiveLockOf(p, id)
    case FinishHandler(id, ack, ok) => FinishHandlerOf(p, id, ack, ok)
    case Return(id) => Disarm(p, id)
    case DropDispatch(id) => Abandon(p, id)
  }

  predicate CanAck(p: Process, m: AckMove) {
    match m
    case CreateAck(id, r, _) => id !in p.acks && Issued(p, r)
    case CheckAck(id) => id in p.acks && p.acks[id].live && p.acks[id].phase.Created?
    case EnterAck(id) => id in p.acks && p.acks[id].live && p.acks[id].phase.Serialized? && MutexFree(p, p.acks[id].record)
    case CommitAck(id, _, _) => id in p.acks && p.acks[id].phase.Writing?
    case ReceiveAck(id) => id in p.acks && p.acks[id].live && p.acks[id].phase.Answered?
    case DropAck(id) => id in p.acks && p.acks[id].live
  }

  function AckStep(p: Process, m: AckMove): Process
    requires CanAck(p, m)
  {
    match m
    case CreateAck(id, r, ok) => CreateAckOf(p, id, r, ok)
    case CheckAck(id) => CheckAckOf(p, id)
    case EnterAck(id) => EnterAckOf(p, id)
    case CommitAck(id, at, commit) => CommitAckOf(p, id, at, commit)
    case ReceiveAck(id) => ReceiveAckOf(p, id)
    case DropAck(id) => AbandonAck(p, id)
  }

  /** One move, or nothing when it is not possible. */
  function Next(p: Process, m: Move): Process {
    match m
    case Elsewhere(event) => if Foreign(p, event) then p.(db := Step(p.db, event)) else p
    case InStream(move) => if CanStream(p, move) then StreamStep(p, move) else p
    case InDispatch(move) => if CanDispatch(p, move) then DispatchStep(p, move) else p
    case InAck(move) => if CanAck(p, move) then AckStep(p, move) else p
  }

  function Execute(p: Process, moves: seq<Move>): Process
    decreases |moves|
  {
    if moves == [] then p else Execute(Next(p, moves[0]), moves[1..])
  }

  /** Moves after moves. */
  lemma {:induction false} ExecuteAppends(p: Process, first: seq<Move>, second: seq<Move>)
    ensures Execute(p, first + second) == Execute(Execute(p, first), second)
    decreases |first|
  {
    if first == [] {
      assert first + second == second;
    } else {
      assert (first + second)[1..] == first[1..] + second;
      ExecuteAppends(Next(p, first[0]), first[1..], second);
    }
  }

  // --------------------------------------------------------------- covered

  /** Held by a registered stream: buffered, or failing its row. */
  predicate StreamKeeps(p: Process, id: StreamId, c: Claim) {
    && id in p.streams
    && var s := p.streams[id];
       s.open && s.guarded && s.name == c.owner && (c in s.buffer || s.releasing == Some(c))
  }

  /** Committed by a claim statement whose answer the stream still awaits. */
  predicate FetchKeeps(p: Process, job: JobId, c: Claim) {
    && job in p.fetches && p.fetches[job].stream in p.streams
    && var s := p.streams[p.fetches[job].stream];
       && s.open && s.guarded && s.name == c.owner
       && p.fetches[job].answer.Some? && c in p.fetches[job].answer.value.claims
  }

  /** Under the armed guard of a live dispatch. */
  predicate DispatchKeeps(p: Process, id: DispatchId, c: Claim) {
    && id in p.dispatches
    && var d := p.dispatches[id];
       d.live && d.armed && d.name == c.owner && d.claim == Some(c)
  }

  predicate InLock(phase: Phase) {
    phase.LockCalled? || phase.Locking? || phase.LockAnswered?
  }

  /** In the hands of a live lock dispatch that arrived with the claim's record.
      Like a waiting task it is on its way, and not under that dispatch's guard. */
  predicate LockCarries(p: Process, id: DispatchId, c: Claim) {
    && id in p.dispatches
    && var d := p.dispatches[id];
       d.live && InLock(d.phase) && d.carried.Some? && d.carried.value.claim == c
  }

  /** Someone in this process will still answer for the claim. */
  ghost predicate Held(p: Process, c: Claim) {
    || (exists id :: StreamKeeps(p, id, c))
    || (exists job :: FetchKeeps(p, job, c))
    || c in p.waiting
    || (exists id :: DispatchKeeps(p, id, c))
    || (exists id :: LockCarries(p, id, c))
  }

  /** The dispatch that moved the row to `Running` still answers for it. */
  ghost predicate HeldByStarter(p: Process, c: Claim) {
    exists id :: DispatchKeeps(p, id, c) && p.dispatches[id].ran
  }

  /** An active row claimed under the token. */
  predicate OwnedUnder(s: State, token: Token, id: TaskId) {
    && id in s.jobs && Active(s.jobs[id]) && s.jobs[id].owner.Some? && s.jobs[id].lockAt.Some?
    && LedgerOf(s, id).claimToken == Some(token)
  }

  predicate Owned(p: Process, id: TaskId) {
    OwnedUnder(p.db, p.token, id)
  }

  /** Not stranded: an unstarted claim is held somewhere, a started one by the
      dispatch that started it, or the lease of its name is retired. */
  ghost predicate Covered(p: Process, id: TaskId)
    requires Owned(p, id)
  {
    var c := CurrentClaim(p.db, id);
    IsRetired(p, c.owner) || if p.db.jobs[id].status.Queued? then Held(p, c) else HeldByStarter(p, c)
  }
}
