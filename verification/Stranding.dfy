/** The obligations of a storage over whole runs: no claim is stranded, no claim
    is acknowledged twice, and no claim that is over is started. */
module Stranding {
  import opened Rows
  import opened Store
  import opened Invariants
  import opened Protocol
  import opened Database
  import opened Obligations
  import opened Coverage

  // ------------------------------------------------------------------- runs

  /** `t` follows `s` by at most two transactions, these in this order. */
  predicate Took(s: State, t: State, e: Event, last: Event) {
    t == s || t == Step(s, e) || t == Step(Step(s, e), last) || t == Step(s, last)
  }

  /** What a process does to the tables by itself: up to two transactions, none of
      them a heartbeat. */
  ghost predicate Transacted(s: State, t: State) {
    exists e: Event, last: Event :: !e.Heartbeat? && !last.Heartbeat? && Took(s, t, e, last)
  }

  lemma TransactionsAdvance(s: State, t: State, e: Event, last: Event)
    requires Inv(s) && Took(s, t, e, last)
    ensures Inv(t) && Advanced(s, t)
  {
    if t == Step(s, e) {
      StepKeepsInv(s, e);
      StepAdvances(s, e);
    } else if t == Step(s, last) {
      StepKeepsInv(s, last);
      StepAdvances(s, last);
    } else if t != s {
      StepKeepsInv(s, e);
      StepAdvances(s, e);
      StepKeepsInv(Step(s, e), last);
      StepAdvances(Step(s, e), last);
    }
  }

  function NameOf(p: Process, id: DispatchId): Name {
    if id in p.dispatches then p.dispatches[id].name else 0
  }

  lemma StreamMovesTransact(p: Process, m: StreamMove)
    requires CanStream(p, m)
    ensures Transacted(p.db, StreamStep(p, m).db)
  {
    var t := StreamStep(p, m).db;
    match m
    case RegisterStream(id, staleAfter, at) =>
      assert Took(p.db, t, Register(p.streams[id].name, p.streams[id].queue, p.token, staleAfter, at), Retire(0, 0));
    case CommitFetch(job, ids, malformed, at, _) =>
      assert Took(p.db, t, FetchEvent(p, p.streams[p.fetches[job].stream], ids, malformed, at), Retire(0, 0));
    case ReceiveFetch(job) =>
      assert Took(p.db, t, Retire(0, 0), Retire(p.token, p.streams[p.fetches[job].stream].name));
    case TryRelease(id, at, _, _) =>
      assert Took(p.db, t, ReleaseEvent(p, p.streams[id].releasing.value, at), Retire(p.token, p.streams[id].name));
    case DropStream(id) =>
      assert Took(p.db, t, Retire(0, 0), Retire(p.token, p.streams[id].name));
    case _ =>
      assert Took(p.db, t, Retire(0, 0), Retire(0, 0));
  }

  predicate MayRetire(m: DispatchMove) {
    m.ReceiveStart? || m.ReceiveLock? || m.DropDispatch?
  }

  lemma AbandonOnlyRetires(p: Process, id: DispatchId)
    requires id in p.dispatches
    ensures Abandon(p, id).db == p.db || Abandon(p, id).db == Step(p.db, Retire(p.token, NameOf(p, id)))
  {
  }

  /** Apart from their own statements, dispatches only retire their name. */
  lemma DispatchMovesOnlyRetire(p: Process, m: DispatchMove)
    requires CanDispatch(p, m) && MayRetire(m)
    ensures var t := DispatchStep(p, m).db;
            t == p.db || t == Step(p.db, Retire(p.token, NameOf(p, m.dispatch)))
  {
    AbandonOnlyRetires(p, m.dispatch);
    if !m.DropDispatch? {
      match p.dispatches[m.dispatch].phase.reply
      case Unknown => assert DispatchStep(p, m) == Abandon(p, m.dispatch);
      case Matched =>
      case Missed => assert DispatchStep(p, m) == Disarm(p, m.dispatch);
    }
  }

  lemma OtherDispatchMovesRunNothing(p: Process, m: DispatchMove)
    requires CanDispatch(p, m) && !m.CommitStart? && !m.CommitLock? && !MayRetire(m)
    ensures DispatchStep(p, m).db == p.db
  {
  }

  lemma DispatchMovesTransact(p: Process, m: DispatchMove)
    requires CanDispatch(p, m)
    ensures Transacted(p.db, DispatchStep(p, m).db)
  {
    var t := DispatchStep(p, m).db;
    match m
    case CommitStart(id, _) =>
      var d := p.dispatches[id];
      assert Took(p.db, t, StartEvent(p, d.claim.value, d.phase.restart), Retire(0, 0));
    case CommitLock(id, at, _) =>
      assert Took(p.db, t, LockEvent(p, p.dispatches[id], at), Retire(0, 0));
    case _ =>
      if MayRetire(m) {
        DispatchMovesOnlyRetire(p, m);
      } else {
        OtherDispatchMovesRunNothing(p, m);
      }
      assert Took(p.db, t, Retire(0, 0), Retire(p.token, NameOf(p, m.dispatch)));
  }

  /** An acknowledgement that ends retires the name of its claim, or nothing. */
  lemma EndedAcksOnlyRetire(p: Process, m: AckMove)
    requires CanAck(p, m) && (m.ReceiveAck? || m.DropAck?)
    ensures var t := AckStep(p, m).db;
            t == p.db || t == Step(p.db, Retire(p.token, p.acks[m.ack].record.claim.owner))
  {
  }

  lemma AckMovesTransact(p: Process, m: AckMove)
    requires CanAck(p, m)
    ensures Transacted(p.db, AckStep(p, m).db)
  {
    var t := AckStep(p, m).db;
    if m.CommitAck? {
      assert Took(p.db, t, AckEvent(p, p.acks[m.ack], m.at), Retire(0, 0));
    } else if m.ReceiveAck? || m.DropAck? {
      EndedAcksOnlyRetire(p, m);
      assert Took(p.db, t, Retire(0, 0), Retire(p.token, p.acks[m.ack].record.claim.owner));
    } else {
      assert Took(p.db, t, Retire(0, 0), Retire(0, 0));
    }
  }

  lemma NothingTransacted(s: State)
    ensures Transacted(s, s)
  {
    assert Took(s, s, Retire(0, 0), Retire(0, 0));
  }

  lemma OwnMovesTransact(p: Process, m: Move)
    requires !m.Elsewhere?
    ensures Transacted(p.db, Next(p, m).db)
  {
    NothingTransacted(p.db);
    match m
    case InStream(move) =>
      if CanStream(p, move) {
        StreamMovesTransact(p, move);
      }
    case InDispatch(move) =>
      if CanDispatch(p, move) {
        DispatchMovesTransact(p, move);
      }
    case InAck(move) =>
      if CanAck(p, move) {
        AckMovesTransact(p, move);
      }
  }

  lemma NextAdvances(p: Process, m: Move)
    requires Inv(p.db)
    ensures Inv(Next(p, m).db) && Advanced(p.db, Next(p, m).db)
  {
    if m.Elsewhere? {
      TransactionsAdvance(p.db, Next(p, m).db, m.event, m.event);
    } else {
      OwnMovesTransact(p, m);
      var e: Event, last: Event :| !e.Heartbeat? && !last.Heartbeat? && Took(p.db, Next(p, m).db, e, last);
      TransactionsAdvance(p.db, Next(p, m).db, e, last);
    }
  }

  lemma DispatchMoveKeeps(p: Process, m: DispatchMove)
    requires Inv(p.db) && ProcessInv(p) && CanDispatch(p, m)
    ensures ProcessInv(DispatchStep(p, m))
    ensures Careful(p, InDispatch(m)) && Covering(p) ==> Covering(DispatchStep(p, m))
  {
    if m.FinishHandler? {
      FinishingKeeps(p, m.dispatch, m.ack, m.ok);
    } else {
      DispatchMovesKeep(p, m);
      DispatchFrameKeeps(p, DispatchStep(p, m), m.dispatch);
    }
  }

  lemma StreamMoveKeeps(p: Process, m: StreamMove)
    requires Inv(p.db) && ProcessInv(p) && CanStream(p, m)
    ensures ProcessInv(StreamStep(p, m)) && (Covering(p) ==> Covering(StreamStep(p, m)))
  {
    StreamMovesKeep(p, m);
    FrameKeepsRecords(p, StreamStep(p, m));
  }

  /** Every step keeps what the process knows. It keeps every claim covered too,
      unless it ends a lock dispatch carelessly. */
  lemma MoveKeepsCover(p: Process, m: Move)
    requires Inv(p.db) && ProcessInv(p)
    ensures ProcessInv(Next(p, m)) && (Careful(p, m) && Covering(p) ==> Covering(Next(p, m)))
  {
    match m
    case Elsewhere(event) =>
      if Foreign(p, event) {
        ForeignMovesKeep(p, event);
      }
    case InStream(move) =>
      if CanStream(p, move) {
        StreamMoveKeeps(p, move);
      }
    case InDispatch(move) =>
      if CanDispatch(p, move) {
        DispatchMoveKeeps(p, move);
      }
    case InAck(move) =>
      if CanAck(p, move) {
        AckMovesKeep(p, move);
        AckFrameKeeps(p, AckStep(p, move), move.ack);
      }
  }

  /** No lock dispatch ends carelessly. */
  ghost predicate CarefulRun(p: Process, moves: seq<Move>)
    decreases |moves|
  {
    moves == [] || (Careful(p, moves[0]) && CarefulRun(Next(p, moves[0]), moves[1..]))
  }

  lemma {:induction false} RunKeepsProcess(p: Process, moves: seq<Move>)
    requires Inv(p.db) && ProcessInv(p)
    ensures var q := Execute(p, moves);
            Inv(q.db) && ProcessInv(q) && (CarefulRun(p, moves) && Covering(p) ==> Covering(q))
    decreases |moves|
  {
    if moves != [] {
      NextAdvances(p, moves[0]);
      MoveKeepsCover(p, moves[0]);
      RunKeepsProcess(Next(p, moves[0]), moves[1..]);
    }
  }

  /** Over every run, beside any other users of the tables, an active row claimed
      under the storage's token is held by someone in the process, if it was
      started then by the dispatch that started it, or its name is retired. */
  lemma NoStrandedClaim(token: Token, moves: seq<Move>, id: TaskId)
    requires CarefulRun(Fresh(token), moves)
    requires Owned(Execute(Fresh(token), moves), id)
    ensures Covered(Execute(Fresh(token), moves), id)
  {
    InitialIsSound();
    RunKeepsProcess(Fresh(token), moves);
  }

  /** A handler runs only after its own statement, confirmed, found the very claim
      of its task and left it `Running`; a restart or a re-lock may have found it
      there. Nothing of that claim is waiting to be started any more. */
  lemma HandlersStartedTheirClaim(token: Token, moves: seq<Move>, id: DispatchId)
    requires id in Execute(Fresh(token), moves).dispatches
    requires Execute(Fresh(token), moves).dispatches[id].phase.Handling?
    ensures var p := Execute(Fresh(token), moves);
            var d := p.dispatches[id];
            d.ran && OwnsRecord(p, d) && d.carried.value in p.started && Unstartable(p.db, d.carried.value.claim)
  {
    InitialIsSound();
    RunKeepsProcess(Fresh(token), moves);
    var p := Execute(Fresh(token), moves);
    assert DispatchInv(p, p.dispatches[id]);
  }

  // ---------------------------------------------------- the exact exceptions

  /** Somebody but this dispatch holds the row's claim, or started it. */
  ghost predicate HeldElsewhere(p: Process, id: DispatchId, c: Claim) {
    || (exists k :: StreamKeeps(p, k, c))
    || (exists job :: FetchKeeps(p, job, c))
    || c in p.waiting
    || (exists k :: k != id && DispatchKeeps(p, k, c))
    || (exists k :: k != id && LockCarries(p, k, c))
  }

  ghost predicate StartedElsewhere(p: Process, id: DispatchId, c: Claim) {
    exists k :: k != id && DispatchKeeps(p, k, c) && p.dispatches[k].ran
  }

  /** Nothing but this dispatch stands between the row and being stranded. */
  ghost predicate LeftToDispatch(p: Process, id: DispatchId, i: TaskId)
    requires Owned(p, i)
  {
    var c := CurrentClaim(p.db, i);
    && !IsRetired(p, c.owner)
    && if p.db.jobs[i].status.Queued? then !HeldElsewhere(p, id, c) else !StartedElsewhere(p, id, c)
  }

  /** However a lock dispatch ends without a confirmed lock (refused by a retired
      name, told that it missed or that the outcome is unknown, or dropped at
      any point), a row that only it could answer for is covered afterwards
      exactly when its guard goes off and the row is the guard's own name's. */
  lemma EndedLockIsCoveredIffGuarded(p: Process, m: DispatchMove, i: TaskId)
    requires CanDispatch(p, m) && EndsLock(p, m)
    requires Owned(p, i) && LeftToDispatch(p, m.dispatch, i)
    ensures var q := Next(p, InDispatch(m));
            Owned(q, i) && (Covered(q, i) <==> GuardGoesOff(p, m) && p.db.jobs[i].owner == Some(p.dispatches[m.dispatch].name))
  {
    LockEnds(p, m);
    var q := DispatchStep(p, m);
    var c := CurrentClaim(p.db, i);
    RetiredRowsStay(p, q, p.dispatches[m.dispatch].name, i);
    NobodyElseHolds(p, q, m.dispatch, c);
  }

  /** What the end of a dispatch does: the future is gone, and its name retired
      or not. */
  ghost predicate Ends(p: Process, q: Process, id: DispatchId, retires: bool)
    requires id in p.dispatches
  {
    && q.token == p.token && q.streams == p.streams && q.fetches == p.fetches && q.waiting == p.waiting
    && TouchesOne(p, q, id) && !q.dispatches[id].live
    && q.db == if retires then Step(p.db, Retire(p.token, p.dispatches[id].name)) else p.db
  }

  lemma AbandonEnds(p: Process, id: DispatchId)
    requires id in p.dispatches
    ensures Ends(p, Abandon(p, id), id, p.dispatches[id].armed && !Excused(p, p.dispatches[id]))
  {
  }

  lemma LockEnds(p: Process, m: DispatchMove)
    requires CanDispatch(p, m) && EndsLock(p, m)
    ensures Ends(p, DispatchStep(p, m), m.dispatch, GuardGoesOff(p, m))
  {
    if m.DropDispatch? || (m.ReceiveLock? && p.dispatches[m.dispatch].phase.reply.Unknown?) {
      AbandonEnds(p, m.dispatch);
      assert DispatchStep(p, m) == Abandon(p, m.dispatch);
    } else {
      assert DispatchStep(p, m) == Disarm(p, m.dispatch);
    }
  }

  lemma RetiredRowsStay(p: Process, q: Process, name: Name, i: TaskId)
    requires q.token == p.token && Owned(p, i)
    requires q.db == p.db || q.db == Step(p.db, Retire(p.token, name))
    ensures Owned(q, i) && CurrentClaim(q.db, i) == CurrentClaim(p.db, i) && q.db.jobs[i] == p.db.jobs[i]
    ensures q.db != p.db ==> q.db.retired == p.db.retired + {(p.token, name)}
    ensures q.db == Step(p.db, Retire(p.token, name)) ==> IsRetired(q, name)
  {
  }

  lemma NobodyElseHolds(p: Process, q: Process, id: DispatchId, c: Claim)
    requires id in p.dispatches && q.streams == p.streams && q.fetches == p.fetches && q.waiting == p.waiting
    requires TouchesOne(p, q, id) && !q.dispatches[id].live
    ensures Held(q, c) ==> HeldElsewhere(p, id, c)
    ensures HeldByStarter(q, c) ==> StartedElsewhere(p, id, c)
  {
    if k :| StreamKeeps(q, k, c) {
      assert StreamKeeps(p, k, c);
    }
    if k :| FetchKeeps(q, k, c) {
      assert FetchKeeps(p, k, c);
    }
    if k :| DispatchKeeps(q, k, c) {
      assert k != id && DispatchKeeps(p, k, c);
    }
    if k :| LockCarries(q, k, c) {
      assert k != id && LockCarries(p, k, c);
    }
    if k :| DispatchKeeps(q, k, c) && q.dispatches[k].ran {
      assert k != id && DispatchKeeps(p, k, c);
    }
  }

  /** A lock dispatch whose statement, on its way, will take or start the row. */
  predicate LockUnderWay(p: Process, id: DispatchId, at: Instant) {
    && Live(p, id) && p.dispatches[id].phase.Locking? && !IsRetired(p, p.dispatches[id].name)
    && Enabled(p.db, LockEvent(p, p.dispatches[id], at)) && !p.db.jobs[p.dispatches[id].task].status.Running?
  }

  /** The dispatch is dropped, and then its statement commits. */
  function DropThenCommit(p: Process, id: DispatchId, at: Instant, commit: Commit): Process {
    Next(Next(p, InDispatch(DropDispatch(id))), InDispatch(CommitLock(id, at, commit)))
  }

  /** A row that such a dispatch takes after it was dropped, free before or
      claimed and unstarted, is covered exactly when the task did not carry an
      acknowledged record: otherwise the guard still consults that old record,
      and lets the lease live. */
  lemma DroppedLockIsCoveredIffUnacknowledged(p: Process, id: DispatchId, at: Instant, commit: Commit)
    requires Inv(p.db) && ProcessInv(p) && LockUnderWay(p, id, at) && commit.Applied()
    ensures var d, q := p.dispatches[id], DropThenCommit(p, id, at, commit);
            Owned(q, d.task) && (Covered(q, d.task) <==> !Excused(p, d))
  {
    assert LockInv(p, p.dispatches[id]);
    if Excused(p, p.dispatches[id]) {
      ExcusedDropStrands(p, id, at, commit);
    } else {
      TrustedDropRetires(p, id, at, commit);
    }
  }

  lemma ExcusedDropStrands(p: Process, id: DispatchId, at: Instant, commit: Commit)
    requires Inv(p.db) && DispatchesInv(p) && LockUnderWay(p, id, at) && commit.Applied()
    requires p.dispatches[id].armed && Excused(p, p.dispatches[id])
    ensures var d, q := p.dispatches[id], DropThenCommit(p, id, at, commit);
            Owned(q, d.task) && !Covered(q, d.task)
  {
    DroppedLock(p, id);
    CommittedAfterDrop(Next(p, InDispatch(DropDispatch(id))), id, at, commit);
    ExcusedLockStrands(p, DropThenCommit(p, id, at, commit), id, LockEvent(p, p.dispatches[id], at));
  }

  lemma TrustedDropRetires(p: Process, id: DispatchId, at: Instant, commit: Commit)
    requires Inv(p.db) && LockUnderWay(p, id, at) && commit.Applied()
    requires p.dispatches[id].armed && !Excused(p, p.dispatches[id])
    ensures var d, q := p.dispatches[id], DropThenCommit(p, id, at, commit);
            Owned(q, d.task) && Covered(q, d.task)
  {
    var d := p.dispatches[id];
    var r := Next(p, InDispatch(DropDispatch(id)));
    DroppedLock(p, id);
    CommittedAfterDrop(r, id, at, commit);
    RetirementLetsLock(p.db, Retire(p.token, d.name), LockEvent(p, d, at));
    NextAdvances(p, InDispatch(DropDispatch(id)));
    LockedClaim(r.db, LockEvent(p, d, at));
    LockKeepsRetirements(r.db, LockEvent(p, d, at));
  }

  lemma LockKeepsRetirements(s: State, e: Event)
    requires e.Lock?
    ensures Step(s, e).retired == s.retired
  {
  }

  lemma DroppedLock(p: Process, id: DispatchId)
    requires Live(p, id) && p.dispatches[id].phase.Locking? && p.dispatches[id].armed
    ensures var d, r := p.dispatches[id], Next(p, InDispatch(DropDispatch(id)));
            && r.dispatches == p.dispatches[id := d.(live := false)] && r.token == p.token && r.done == p.done
            && r.db == (if Excused(p, d) then p.db else Step(p.db, Retire(p.token, d.name)))
            && (!Excused(p, d) ==> IsRetired(r, d.name))
  {
  }

  lemma CommittedAfterDrop(r: Process, id: DispatchId, at: Instant, commit: Commit)
    requires id in r.dispatches && r.dispatches[id].phase.Locking? && commit.Applied()
    ensures var d, q := r.dispatches[id], Next(r, InDispatch(CommitLock(id, at, commit)));
            && q.db == Step(r.db, LockEvent(r, d, at)) && q.token == r.token
            && q.dispatches == r.dispatches[id := q.dispatches[id]] && q.dispatches[id].live == d.live
  {
  }

  lemma RetirementLetsLock(s: State, retire: Event, e: Event)
    requires retire.Retire? && e.Lock? && Enabled(s, e)
    ensures Enabled(Step(s, retire), e)
  {
  }

  /** No dispatch has started the claim a lock statement is about to start. */
  lemma LockStartsSomethingNew(s: State, e: Event, token: Token)
    requires Inv(s) && e.Lock? && e.token == Some(token) && Enabled(s, e) && !s.jobs[e.id].status.Running?
    ensures var t := Step(s, e);
            && OwnedUnder(t, token, e.id) && t.jobs[e.id].status.Running? && CurrentClaim(t, e.id).owner == e.name
            && !Unstartable(s, CurrentClaim(t, e.id)) && t.retired == s.retired
  {
    LockedClaim(s, e);
    StepFollows(s, e, token);
    LockKeepsRetirements(s, e);
    var c := CurrentClaim(Step(s, e), e.id);
    assert c in s.claims ==> InClaim(s, c) && s.jobs[c.task].status.Queued?;
  }

  lemma ExcusedLockStrands(p: Process, q: Process, id: DispatchId, e: Event)
    requires Inv(p.db) && DispatchesInv(p) && id in p.dispatches
    requires e.Lock? && e.token == Some(p.token) && Enabled(p.db, e) && !p.db.jobs[e.id].status.Running?
    requires q.token == p.token && q.db == Step(p.db, e) && !IsRetired(p, e.name)
    requires q.dispatches.Keys == p.dispatches.Keys && !q.dispatches[id].live
    requires forall k :: k in p.dispatches && k != id ==> q.dispatches[k] == p.dispatches[k]
    ensures Owned(q, e.id) && !Covered(q, e.id)
  {
    LockStartsSomethingNew(p.db, e, p.token);
    NobodyStarted(p, q, id, CurrentClaim(q.db, e.id));
  }

  /** A dispatch that ran a claim knows that nobody waits to start it. */
  lemma NobodyStarted(p: Process, q: Process, id: DispatchId, c: Claim)
    requires DispatchesInv(p) && id in p.dispatches && !Unstartable(p.db, c)
    requires q.dispatches.Keys == p.dispatches.Keys && !q.dispatches[id].live
    requires forall k :: k in p.dispatches && k != id ==> q.dispatches[k] == p.dispatches[k]
    ensures !HeldByStarter(q, c)
  {
    forall k
      ensures !(DispatchKeeps(q, k, c) && q.dispatches[k].ran)
    {
      if k in p.dispatches {
        assert DispatchInv(p, p.dispatches[k]);
      }
    }
  }

  // -------------------------------------------------------- acknowledgements

  /** An acknowledgement that wrote is past its statement, and its claim is over. */
  ghost predicate WriteInv(p: Process, a: Acknowledgement) {
    && Issued(p, a.record)
    && (a.wrote ==> a.phase.Answered? && Dead(p.db, a.record.claim))
  }

  predicate BothWrote(p: Process, x: AckId, y: AckId) {
    && x in p.acks && y in p.acks && p.acks[x].wrote && p.acks[y].wrote
    && p.acks[x].record.claim == p.acks[y].record.claim
  }

  predicate BothHold(p: Process, x: AckId, y: AckId) {
    Holding(p, x) && Holding(p, y) && p.acks[x].record == p.acks[y].record
  }

  /** At most one acknowledgement of a claim writes, and at most one at a time is
      between its check of the marker and the answer to its statement. */
  ghost predicate WritesInv(p: Process) {
    && (forall id :: id in p.acks ==> WriteInv(p, p.acks[id]))
    && (forall x, y :: BothWrote(p, x, y) ==> x == y)
    && (forall x, y :: BothHold(p, x, y) ==> x == y)
    && (forall id :: Holding(p, id) ==> p.acks[id].record !in p.done)
  }

  /** One acknowledgement changes. It takes the mutex only when it is free and
      the marker is not set, and sets the marker only by giving the mutex back. */
  ghost predicate AckChanges(p: Process, q: Process, id: AckId) {
    && q.token == p.token && Advanced(p.db, q.db)
    && q.acks.Keys == p.acks.Keys + {id}
    && (forall k :: k in p.acks && k != id ==> q.acks[k] == p.acks[k])
    && (if id in p.acks then q.acks[id].record == p.acks[id].record else Issued(p, q.acks[id].record))
    && (Holding(q, id) ==> Holding(p, id) || (MutexFree(p, q.acks[id].record) && q.acks[id].record !in p.done))
    && (q.done == p.done || (q.done == p.done + {q.acks[id].record} && Holding(p, id) && !Holding(q, id)))
  }

  lemma AckChangeKeepsWrites(p: Process, q: Process, id: AckId)
    requires WritesInv(p) && AckChanges(p, q, id)
    requires q.acks[id].wrote ==>
               && q.acks[id].phase.Answered? && Dead(q.db, q.acks[id].record.claim)
               && ((id in p.acks && p.acks[id].wrote) || !Dead(p.db, q.acks[id].record.claim))
    ensures WritesInv(q)
  {
    forall k | k in q.acks
      ensures WriteInv(q, q.acks[k])
    {
      assert k in p.acks ==> WriteInv(p, p.acks[k]);
    }
    forall x, y | BothWrote(q, x, y)
      ensures x == y
    {
      assert x != id && y != id ==> BothWrote(p, x, y);
      assert x in p.acks && x != id ==> WriteInv(p, p.acks[x]);
      assert y in p.acks && y != id ==> WriteInv(p, p.acks[y]);
      assert x != y ==> !BothWrote(p, x, y);
    }
    forall x, y | BothHold(q, x, y)
      ensures x == y
    {
      assert x != y ==> !BothHold(p, x, y);
    }
    forall k | Holding(q, k)
      ensures q.acks[k].record !in q.done
    {
      assert k != id ==> Holding(p, k);
      assert k != id ==> !BothHold(p, k, id);
    }
  }

  lemma SameAcksKeepWrites(p: Process, q: Process)
    requires WritesInv(p) && q.token == p.token && Advanced(p.db, q.db) && q.acks == p.acks && q.done == p.done
    ensures WritesInv(q)
  {
    forall k | k in q.acks
      ensures WriteInv(q, q.acks[k])
    {
      assert WriteInv(p, p.acks[k]);
    }
    forall x, y
      ensures BothWrote(q, x, y) ==> x == y
      ensures BothHold(q, x, y) ==> x == y
    {
      assert BothWrote(p, x, y) ==> x == y;
      assert BothHold(p, x, y) ==> x == y;
    }
    forall k | Holding(q, k)
      ensures q.acks[k].record !in q.done
    {
      assert Holding(p, k);
    }
  }

  /** What an acknowledgement's statement finds is decided by its claim alone. */
  lemma AckMatchesItsClaim(p: Process, id: AckId, at: Instant)
    requires Inv(p.db) && id in p.acks && Issued(p, p.acks[id].record)
    ensures Enabled(p.db, AckEvent(p, p.acks[id], at)) <==> !Dead(p.db, p.acks[id].record.claim)
    ensures var t := Step(p.db, AckEvent(p, p.acks[id], at)); Dead(t, p.acks[id].record.claim)
  {
    var c, e := p.acks[id].record.claim, AckEvent(p, p.acks[id], at);
    assert ClaimInv(p.db, c);
    GuardsMatchTheClaim(p.db, c, e);
    if Enabled(p.db, e) {
      AckEndsItsClaim(p.db, e, c);
    }
  }

  lemma CommittedAckKeepsWrites(p: Process, id: AckId, at: Instant, commit: Commit)
    requires Inv(p.db) && WritesInv(p) && CanAck(p, CommitAck(id, at, commit))
    ensures WritesInv(CommitAckOf(p, id, at, commit))
  {
    var q := CommitAckOf(p, id, at, commit);
    assert WriteInv(p, p.acks[id]);
    AckMatchesItsClaim(p, id, at);
    StepAdvances(p.db, AckEvent(p, p.acks[id], at));
    AckChangeKeepsWrites(p, q, id);
  }

  /** Creating, checking and entering an acknowledgement write nothing. */
  lemma PlainAckMovesKeepWrites(p: Process, m: AckMove)
    requires WritesInv(p) && CanAck(p, m) && (m.CreateAck? || m.CheckAck? || m.EnterAck?)
    ensures WritesInv(AckStep(p, m))
  {
    if m.ack in p.acks {
      assert WriteInv(p, p.acks[m.ack]);
    }
    AckChangeKeepsWrites(p, AckStep(p, m), m.ack);
  }

  /** Neither does the end of one, whether it marks its record or retires. */
  lemma EndingAckKeepsWrites(p: Process, q: Process, id: AckId)
    requires WritesInv(p) && id in p.acks && p.acks[id].live && q.token == p.token && Advanced(p.db, q.db)
    requires q.acks == p.acks[id := p.acks[id].(live := false)]
    requires q.done == p.done || (q.done == p.done + {p.acks[id].record} && Holding(p, id))
    ensures WritesInv(q)
  {
    assert WriteInv(p, p.acks[id]);
    AckChangeKeepsWrites(p, q, id);
  }

  lemma EndOfAck(p: Process, m: AckMove)
    requires CanAck(p, m) && (m.ReceiveAck? || m.DropAck?)
    ensures var q, id := AckStep(p, m), m.ack;
            && p.acks[id].live && q.token == p.token && q.acks == p.acks[id := p.acks[id].(live := false)]
            && (q.done == p.done || (q.done == p.done + {p.acks[id].record} && Holding(p, id)))
  {
  }

  lemma OtherAckMovesKeepWrites(p: Process, m: AckMove)
    requires Inv(p.db) && WritesInv(p) && CanAck(p, m) && !m.CommitAck?
    ensures WritesInv(AckStep(p, m))
  {
    if m.ReceiveAck? || m.DropAck? {
      NextAdvances(p, InAck(m));
      EndOfAck(p, m);
      EndingAckKeepsWrites(p, AckStep(p, m), m.ack);
    } else {
      PlainAckMovesKeepWrites(p, m);
    }
  }

  lemma FinishingKeepsWrites(p: Process, m: DispatchMove)
    requires WritesInv(p) && m.FinishHandler? && CanDispatch(p, m)
    ensures WritesInv(DispatchStep(p, m))
  {
    AckChangeKeepsWrites(p, DispatchStep(p, m), m.ack);
  }

  lemma StreamMovesTouchStreams(p: Process, m: StreamMove)
    requires CanStream(p, m)
    ensures var q := StreamStep(p, m);
            q.token == p.token && q.dispatches == p.dispatches && q.acks == p.acks && q.done == p.done
  {
  }

  lemma AckMovesTouchAcks(p: Process, m: AckMove)
    requires CanAck(p, m)
    ensures var q := AckStep(p, m);
            q.token == p.token && q.dispatches == p.dispatches
  {
  }

  /** What a dispatch move leaves alone. */
  predicate TouchesOne(p: Process, q: Process, id: DispatchId) {
    && q.token == p.token && q.done == p.done
    && id in q.dispatches && q.dispatches == p.dispatches[id := q.dispatches[id]]
  }

  lemma AbandonTouchesOne(p: Process, id: DispatchId)
    requires id in p.dispatches
    ensures TouchesOne(p, Abandon(p, id), id) && Abandon(p, id).acks == p.acks
  {
  }

  lemma RetiringMovesTouchOne(p: Process, m: DispatchMove)
    requires CanDispatch(p, m) && MayRetire(m)
    ensures TouchesOne(p, DispatchStep(p, m), m.dispatch) && DispatchStep(p, m).acks == p.acks
  {
    AbandonTouchesOne(p, m.dispatch);
    if !m.DropDispatch? {
      match p.dispatches[m.dispatch].phase.reply
      case Unknown => assert DispatchStep(p, m) == Abandon(p, m.dispatch);
      case Matched =>
      case Missed => assert DispatchStep(p, m) == Disarm(p, m.dispatch);
    }
  }

  lemma StatementsTouchOne(p: Process, m: DispatchMove)
    requires CanDispatch(p, m) && (m.CommitStart? || m.CommitLock?)
    ensures TouchesOne(p, DispatchStep(p, m), m.dispatch) && DispatchStep(p, m).acks == p.acks
  {
  }

  lemma ChecksTouchOne(p: Process, m: DispatchMove)
    requires CanDispatch(p, m) && (m.Admit? || m.ArmLock? || m.Return?)
    ensures TouchesOne(p, DispatchStep(p, m), m.dispatch) && DispatchStep(p, m).acks == p.acks
  {
    match m
    case Admit(id) => AdmitChecks(p, id);
    case ArmLock(id) => ArmArms(p, id);
    case Return(id) => assert DispatchStep(p, m) == Disarm(p, id);
  }

  lemma BeginStartTouchesOne(p: Process, id: DispatchId)
    requires CanDispatch(p, BeginStart(id))
    ensures TouchesOne(p, BeginStartOf(p, id), id) && BeginStartOf(p, id).acks == p.acks
  {
  }

  lemma CallsTouchOne(p: Process, m: DispatchMove)
    requires CanDispatch(p, m) && (m.Call? || m.CallLock? || m.FinishHandler?)
    ensures TouchesOne(p, DispatchStep(p, m), m.dispatch)
    ensures !m.FinishHandler? ==> DispatchStep(p, m).acks == p.acks
  {
  }

  lemma DispatchMovesTouchOne(p: Process, m: DispatchMove)
    requires CanDispatch(p, m)
    ensures TouchesOne(p, DispatchStep(p, m), m.dispatch)
    ensures !m.FinishHandler? ==> DispatchStep(p, m).acks == p.acks
  {
    if MayRetire(m) {
      RetiringMovesTouchOne(p, m);
    } else if m.CommitStart? || m.CommitLock? {
      StatementsTouchOne(p, m);
    } else if m.Call? || m.CallLock? || m.FinishHandler? {
      CallsTouchOne(p, m);
    } else if m.BeginStart? {
      BeginStartTouchesOne(p, m.dispatch);
    } else {
      ChecksTouchOne(p, m);
    }
  }

  lemma OtherMovesLeaveAcks(p: Process, m: Move)
    requires !m.InAck? && !(m.InDispatch? && m.dispatchMove.FinishHandler?)
    ensures var q := Next(p, m); q.acks == p.acks && q.done == p.done && q.token == p.token
  {
    if m.InStream? && CanStream(p, m.streamMove) {
      StreamMovesTouchStreams(p, m.streamMove);
    }
    if m.InDispatch? && CanDispatch(p, m.dispatchMove) {
      DispatchMovesTouchOne(p, m.dispatchMove);
    }
  }

  lemma MoveKeepsWrites(p: Process, m: Move)
    requires Inv(p.db) && WritesInv(p)
    ensures WritesInv(Next(p, m))
  {
    NextAdvances(p, m);
    if m.InAck? {
      if CanAck(p, m.ackMove) {
        if m.ackMove.CommitAck? {
          CommittedAckKeepsWrites(p, m.ackMove.ack, m.ackMove.at, m.ackMove.commit);
        } else {
          OtherAckMovesKeepWrites(p, m.ackMove);
        }
      }
    } else if m.InDispatch? && m.dispatchMove.FinishHandler? {
      if CanDispatch(p, m.dispatchMove) {
        FinishingKeepsWrites(p, m.dispatchMove);
      }
    } else {
      OtherMovesLeaveAcks(p, m);
      SameAcksKeepWrites(p, Next(p, m));
    }
  }

  lemma {:induction false} RunKeepsWrites(p: Process, moves: seq<Move>)
    requires Inv(p.db) && WritesInv(p)
    ensures Inv(Execute(p, moves).db) && WritesInv(Execute(p, moves))
    decreases |moves|
  {
    if moves != [] {
      NextAdvances(p, moves[0]);
      MoveKeepsWrites(p, moves[0]);
      RunKeepsWrites(Next(p, moves[0]), moves[1..]);
    }
  }

  /** Over every run, of all acknowledgements of one claim, concurrent, repeated
      or cancelled, at most one changed the row. */
  lemma AtMostOneAcknowledgementWrites(token: Token, moves: seq<Move>, x: AckId, y: AckId)
    requires BothWrote(Execute(Fresh(token), moves), x, y)
    ensures x == y
  {
    InitialIsSound();
    RunKeepsWrites(Fresh(token), moves);
  }

  /** While one acknowledgement of a record is writing, another of the same
      record that wrote was dropped, or its answer was lost: a repeat of an
      acknowledgement that succeeded never gets as far as a stale result. */
  lemma RepeatsSeeTheMarker(token: Token, moves: seq<Move>, x: AckId, y: AckId)
    requires var p := Execute(Fresh(token), moves);
             && Holding(p, x) && y in p.acks && x != y && p.acks[y].record == p.acks[x].record && p.acks[y].wrote
    ensures var p := Execute(Fresh(token), moves);
            !p.acks[y].live && p.acks[y].record !in p.done
  {
    InitialIsSound();
    RunKeepsWrites(Fresh(token), moves);
    var p := Execute(Fresh(token), moves);
    assert WriteInv(p, p.acks[y]);
    assert p.acks[y].live ==> BothHold(p, x, y);
  }

  // ---------------------------------------------------------- over means over

  /** Not past the statement that starts it, or told that it missed. */
  predicate NotStarted(phase: Phase) {
    BeforeStart(phase) || (phase.StartAnswered? && !phase.reply.Matched?) || phase.Ended?
  }

  /** The dispatch does not exist, runs another claim, or did not start this one. */
  predicate Barred(p: Process, id: DispatchId, c: Claim) {
    id in p.dispatches && p.dispatches[id].claim == Some(c) ==> NotStarted(p.dispatches[id].phase)
  }

  lemma MissedStartStaysBarred(p: Process, m: DispatchMove, c: Claim)
    requires Inv(p.db) && Dead(p.db, c) && c.token == Some(p.token) && Barred(p, m.dispatch, c)
    requires CanDispatch(p, m) && m.CommitStart?
    ensures Barred(CommitStartOf(p, m.dispatch, m.commit), m.dispatch, c)
  {
    if p.dispatches[m.dispatch].claim == Some(c) {
      GuardsMatchTheClaim(p.db, c, StartEvent(p, c, p.dispatches[m.dispatch].phase.restart));
    }
  }

  /** A lock statement makes or finds a claim that is in progress. */
  lemma LockFindsNoDeadClaim(p: Process, m: DispatchMove, c: Claim)
    requires Inv(p.db) && Dead(p.db, c) && CanDispatch(p, m) && m.CommitLock?
    ensures Barred(CommitLockOf(p, m.dispatch, m.at, m.commit), m.dispatch, c)
  {
    var e := LockEvent(p, p.dispatches[m.dispatch], m.at);
    if Enabled(p.db, e) {
      LockedClaim(p.db, e);
      ClaimsOnlyAdvance(p.db, e, c);
    }
  }

  lemma OwnMoveStaysBarred(p: Process, m: DispatchMove, c: Claim)
    requires Inv(p.db) && Dead(p.db, c) && c.token == Some(p.token) && Barred(p, m.dispatch, c) && CanDispatch(p, m)
    ensures Barred(DispatchStep(p, m), m.dispatch, c)
  {
    if m.CommitStart? {
      MissedStartStaysBarred(p, m, c);
    } else if m.CommitLock? {
      LockFindsNoDeadClaim(p, m, c);
    } else if MayRetire(m) {
      RetiringMoveStaysBarred(p, m, c);
    } else {
      OtherMoveStaysBarred(p, m, c);
    }
  }

  lemma CheckStaysBarred(p: Process, m: DispatchMove, c: Claim)
    requires Barred(p, m.dispatch, c) && CanDispatch(p, m) && (m.Admit? || m.BeginStart?)
    ensures Barred(DispatchStep(p, m), m.dispatch, c)
  {
    if m.Admit? {
      AdmitChecks(p, m.dispatch);
    } else {
      BeginStartChecks(p, m.dispatch);
    }
  }

  lemma ArmStaysBarred(p: Process, m: DispatchMove, c: Claim)
    requires Barred(p, m.dispatch, c) && CanDispatch(p, m) && (m.ArmLock? || m.Return?)
    ensures Barred(DispatchStep(p, m), m.dispatch, c)
  {
  }

  lemma OtherMoveStaysBarred(p: Process, m: DispatchMove, c: Claim)
    requires Barred(p, m.dispatch, c) && CanDispatch(p, m) && !MayRetire(m) && !m.CommitStart? && !m.CommitLock?
    ensures Barred(DispatchStep(p, m), m.dispatch, c)
  {
    if m.Admit? || m.BeginStart? {
      CheckStaysBarred(p, m, c);
    } else if m.ArmLock? || m.Return? {
      ArmStaysBarred(p, m, c);
    }
  }

  lemma RetiringMoveStaysBarred(p: Process, m: DispatchMove, c: Claim)
    requires Barred(p, m.dispatch, c) && CanDispatch(p, m) && MayRetire(m)
    ensures Barred(DispatchStep(p, m), m.dispatch, c)
  {
    if !m.DropDispatch? {
      match p.dispatches[m.dispatch].phase.reply
      case Unknown => assert DispatchStep(p, m) == Abandon(p, m.dispatch);
      case Matched =>
      case Missed => assert DispatchStep(p, m) == Disarm(p, m.dispatch);
    }
  }

  lemma BarredStaysBarred(p: Process, m: Move, id: DispatchId, c: Claim)
    requires Inv(p.db) && Dead(p.db, c) && c.token == Some(p.token) && Barred(p, id, c)
    ensures Barred(Next(p, m), id, c) && Next(p, m).token == p.token
  {
    if m.InStream? && CanStream(p, m.streamMove) {
      StreamMovesTouchStreams(p, m.streamMove);
    }
    if m.InAck? && CanAck(p, m.ackMove) {
      AckMovesTouchAcks(p, m.ackMove);
    }
    if m.InDispatch? && CanDispatch(p, m.dispatchMove) {
      DispatchMovesTouchOne(p, m.dispatchMove);
      if m.dispatchMove.dispatch == id {
        OwnMoveStaysBarred(p, m.dispatchMove, c);
      }
    }
  }

  lemma {:induction false} BarredForever(p: Process, moves: seq<Move>, id: DispatchId, c: Claim)
    requires Inv(p.db) && Dead(p.db, c) && c.token == Some(p.token) && Barred(p, id, c)
    ensures Barred(Execute(p, moves), id, c)
    decreases |moves|
  {
    if moves != [] {
      BarredStaysBarred(p, moves[0], id, c);
      NextAdvances(p, moves[0]);
      BarredForever(Next(p, moves[0]), moves[1..], id, c);
    }
  }

  /** Once an acknowledgement of a claim wrote, no dispatch that had not issued
      its start by then, and none called later, is ever in the handler of that
      claim or acknowledges it. */
  lemma NoHandlerAfterAcknowledgement(
    token: Token, before: seq<Move>, after: seq<Move>, ack: AckId, id: DispatchId)
    requires var p := Execute(Fresh(token), before);
             ack in p.acks && p.acks[ack].wrote && Barred(p, id, p.acks[ack].record.claim)
    ensures var p := Execute(Fresh(token), before);
            var q := Execute(p, after);
            id in q.dispatches && q.dispatches[id].claim == Some(p.acks[ack].record.claim) ==>
              !q.dispatches[id].phase.Handling? && !q.dispatches[id].phase.Acknowledging?
  {
    InitialIsSound();
    RunKeepsWrites(Fresh(token), before);
    var p := Execute(Fresh(token), before);
    assert WriteInv(p, p.acks[ack]);
    BarredForever(p, after, id, p.acks[ack].record.claim);
  }

  // ------------------------------------------------------------ refused starts

  /** Over, skipped, and nothing written. */
  predicate WroteNothing(p: Process, id: AckId) {
    id in p.acks && !p.acks[id].live && p.acks[id].phase.Skipped? && !p.acks[id].wrote
  }

  lemma {:induction false} SkippedForever(p: Process, moves: seq<Move>, id: AckId)
    requires WroteNothing(p, id)
    ensures WroteNothing(Execute(p, moves), id)
    decreases |moves|
  {
    if moves != [] {
      SkippedStays(p, moves[0], id);
      SkippedForever(Next(p, moves[0]), moves[1..], id);
    }
  }

  /** A move of one acknowledgement leaves the others alone. */
  lemma AckMovesTouchOneAck(p: Process, m: AckMove, id: AckId)
    requires CanAck(p, m) && id in p.acks && id != m.ack
    ensures id in AckStep(p, m).acks && AckStep(p, m).acks[id] == p.acks[id]
  {
  }

  lemma SkippedStays(p: Process, m: Move, id: AckId)
    requires WroteNothing(p, id)
    ensures WroteNothing(Next(p, m), id)
  {
    if m.InAck? {
      if CanAck(p, m.ackMove) {
        AckMovesTouchOneAck(p, m.ackMove, id);
      }
    } else if m.InDispatch? && m.dispatchMove.FinishHandler? {
      assert CanDispatch(p, m.dispatchMove) ==> m.dispatchMove.ack != id;
    } else {
      OtherMovesLeaveAcks(p, m);
    }
  }

  /** An acknowledgement of a claim whose starts were all refused succeeds
      without a statement, retires nothing, and never writes. */
  lemma RefusedClaimWritesNothing(token: Token, before: seq<Move>, after: seq<Move>, id: AckId)
    requires var p := Execute(Fresh(token), before);
             CanAck(p, CheckAck(id)) && StartRefused(p, p.acks[id].record)
    ensures var p := Execute(Fresh(token), before);
            var q := Next(p, InAck(CheckAck(id)));
            q.db == p.db && WroteNothing(q, id) && WroteNothing(Execute(q, after), id)
  {
    InitialIsSound();
    RunKeepsWrites(Fresh(token), before);
    var p := Execute(Fresh(token), before);
    assert WriteInv(p, p.acks[id]);
    SkippedForever(Next(p, InAck(CheckAck(id))), after, id);
  }

  // ------------------------------------------------- what a caller can check

  /** A task handed to the lock path carries no record of an earlier claim. */
  predicate LocksUnrecorded(m: Move) {
    m.InDispatch? && m.dispatchMove.CallLock? ==> m.dispatchMove.carried.None?
  }

  predicate LockCarriesNothing(d: Dispatch) {
    InLock(d.phase) ==> d.carried.None?
  }

  ghost predicate LocksCarryNothing(p: Process) {
    forall id :: id in p.dispatches ==> LockCarriesNothing(p.dispatches[id])
  }

  lemma LockMoveCarriesNothing(p: Process, m: DispatchMove)
    requires CanDispatch(p, m) && (m.CallLock? || m.ArmLock? || m.CommitLock?) && LocksUnrecorded(InDispatch(m))
    requires m.dispatch in p.dispatches ==> LockCarriesNothing(p.dispatches[m.dispatch])
    ensures m.dispatch in DispatchStep(p, m).dispatches
    ensures LockCarriesNothing(DispatchStep(p, m).dispatches[m.dispatch])
  {
  }

  lemma CheckIsNoLock(p: Process, id: DispatchId)
    ensures CanDispatch(p, Admit(id)) ==>
              id in AdmitOf(p, id).dispatches && !InLock(AdmitOf(p, id).dispatches[id].phase)
    ensures CanDispatch(p, BeginStart(id)) ==>
              id in BeginStartOf(p, id).dispatches && !InLock(BeginStartOf(p, id).dispatches[id].phase)
  {
  }

  lemma EndMoveIsNoLock(p: Process, m: DispatchMove)
    requires CanDispatch(p, m) && (m.Call? || m.CommitStart? || m.FinishHandler? || m.Return?)
    ensures m.dispatch in DispatchStep(p, m).dispatches
    ensures !InLock(DispatchStep(p, m).dispatches[m.dispatch].phase)
  {
  }

  lemma RetiringMoveCarriesNothing(p: Process, m: DispatchMove)
    requires CanDispatch(p, m) && MayRetire(m) && LockCarriesNothing(p.dispatches[m.dispatch])
    ensures m.dispatch in DispatchStep(p, m).dispatches
    ensures LockCarriesNothing(DispatchStep(p, m).dispatches[m.dispatch])
  {
    AbandonCarriesNothing(p, m.dispatch);
    if !m.DropDispatch? {
      match p.dispatches[m.dispatch].phase.reply
      case Unknown => assert DispatchStep(p, m) == Abandon(p, m.dispatch);
      case Matched =>
      case Missed => assert DispatchStep(p, m) == Disarm(p, m.dispatch);
    }
  }

  lemma AbandonCarriesNothing(p: Process, id: DispatchId)
    requires id in p.dispatches && LockCarriesNothing(p.dispatches[id])
    ensures id in Abandon(p, id).dispatches && LockCarriesNothing(Abandon(p, id).dispatches[id])
  {
  }

  lemma MoveCarriesNothing(p: Process, m: Move)
    requires LocksCarryNothing(p) && LocksUnrecorded(m)
    ensures LocksCarryNothing(Next(p, m))
  {
    if m.InStream? && CanStream(p, m.streamMove) {
      StreamMovesTouchStreams(p, m.streamMove);
    }
    if m.InAck? && CanAck(p, m.ackMove) {
      AckMovesTouchAcks(p, m.ackMove);
    }
    if m.InDispatch? && CanDispatch(p, m.dispatchMove) {
      DispatchMovesTouchOne(p, m.dispatchMove);
      if MayRetire(m.dispatchMove) {
        RetiringMoveCarriesNothing(p, m.dispatchMove);
      } else if m.dispatchMove.CallLock? || m.dispatchMove.ArmLock? || m.dispatchMove.CommitLock? {
        LockMoveCarriesNothing(p, m.dispatchMove);
      } else if m.dispatchMove.BeginStart? || m.dispatchMove.Admit? {
        CheckIsNoLock(p, m.dispatchMove.dispatch);
      } else {
        EndMoveIsNoLock(p, m.dispatchMove);
      }
    }
  }

  /** Such a dispatch leaves only claims of its own name, under an armed guard. */
  lemma UnrecordedEndIsCareful(p: Process, m: Move)
    requires ProcessInv(p) && LocksCarryNothing(p)
    ensures Careful(p, m)
  {
    if m.InDispatch? && EndsLock(p, m.dispatchMove) {
      assert DispatchInv(p, p.dispatches[m.dispatchMove.dispatch]);
      assert LockCarriesNothing(p.dispatches[m.dispatchMove.dispatch]);
    }
  }

  lemma {:induction false} UnrecordedIsCareful(p: Process, moves: seq<Move>)
    requires Inv(p.db) && ProcessInv(p) && LocksCarryNothing(p) && forall m :: m in moves ==> LocksUnrecorded(m)
    ensures CarefulRun(p, moves)
    decreases |moves|
  {
    if moves != [] {
      UnrecordedEndIsCareful(p, moves[0]);
      MoveCarriesNothing(p, moves[0]);
      NextAdvances(p, moves[0]);
      MoveKeepsCover(p, moves[0]);
      UnrecordedIsCareful(Next(p, moves[0]), moves[1..]);
    }
  }

  /** A storage whose lock path is only ever handed tasks without a claim record
      strands nothing. */
  lemma UnrecordedLocksStrandNothing(token: Token, moves: seq<Move>, id: TaskId)
    requires forall m :: m in moves ==> LocksUnrecorded(m)
    requires Owned(Execute(Fresh(token), moves), id)
    ensures Covered(Execute(Fresh(token), moves), id)
  {
    InitialIsSound();
    UnrecordedIsCareful(Fresh(token), moves);
    NoStrandedClaim(token, moves, id);
  }
}
