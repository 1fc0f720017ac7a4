/** The code of one claim, run alone, is a sequence of the moves of `Obligations`:
    both leave the same rows, lease and marks behind. */
module InOrder {
  import opened Rows
  import opened Store
  import opened Invariants
  import opened Database
  import opened Obligations
  import Middleware

  /** The view of the code on the process: rows, lease, and the record's marks. */
  function Look(p: Process, r: RecordId): Middleware.View {
    Middleware.View(p.db.jobs, IsRetired(p, r.claim.owner), r in p.done, r in p.started, r in p.attempted)
  }

  lemma ExecuteOne(p: Process, m: Move)
    ensures Execute(p, [m]) == Next(p, m)
  {
    assert Execute(Next(p, m), [m][1..]) == Next(p, m);
  }

  lemma ExecuteTwo(p: Process, a: Move, b: Move)
    ensures Execute(p, [a, b]) == Next(Next(p, a), b)
  {
    assert [a, b] == [a] + [b];
    ExecuteAppends(p, [a], [b]);
    ExecuteOne(p, a);
    ExecuteOne(Next(p, a), b);
  }

  lemma ExecuteFour(p: Process, a: Move, b: Move, c: Move, d: Move)
    ensures Execute(p, [a, b, c, d]) == Next(Next(Next(Next(p, a), b), c), d)
  {
    assert [a, b, c, d] == [a, b] + [c, d];
    ExecuteAppends(p, [a, b], [c, d]);
    ExecuteTwo(p, a, b);
    ExecuteTwo(Next(Next(p, a), b), c, d);
  }

  // ------------------------------------------------------- acknowledgements

  /** An acknowledgement that was just created for a record nobody else is writing. */
  predicate AckCreated(p: Process, id: AckId, r: RecordId, ok: bool) {
    && id in p.acks && p.acks[id] == Acknowledgement(r, ok, true, false, Created)
    && Issued(p, r) && MutexFree(p, r)
  }

  /** `PgAck::ack` after its call; parts that cannot be turned into a statement
      end it before one is issued. */
  function AckMoves(id: AckId, whole: bool, at: Instant, commit: Commit): seq<Move> {
    if whole then [InAck(CheckAck(id)), InAck(EnterAck(id)), InAck(CommitAck(id, at, commit)), InAck(ReceiveAck(id))]
    else [InAck(CheckAck(id)), InAck(DropAck(id))]
  }

  predicate AckIs(p: Process, id: AckId, a: Acknowledgement) {
    id in p.acks && p.acks[id] == a
  }

  predicate AckGone(p: Process, id: AckId) {
    id in p.acks && !p.acks[id].live
  }

  /** The moves of one acknowledgement, where they are possible. */
  lemma AckMoveIs(p: Process, id: AckId, at: Instant, commit: Commit)
    requires id in p.acks && p.acks[id].live
    ensures var a := p.acks[id];
            && (a.phase.Created? ==> Next(p, InAck(CheckAck(id))) == CheckAckOf(p, id))
            && (a.phase.Serialized? && MutexFree(p, a.record) ==> Next(p, InAck(EnterAck(id))) == EnterAckOf(p, id))
            && (a.phase.Writing? ==> Next(p, InAck(CommitAck(id, at, commit))) == CommitAckOf(p, id, at, commit))
            && (a.phase.Answered? ==> Next(p, InAck(ReceiveAck(id))) == ReceiveAckOf(p, id))
            && Next(p, InAck(DropAck(id))) == AbandonAck(p, id)
  {
  }

  /** An acknowledgement that ended makes no further move. */
  lemma EndedAckIsStill(p: Process, id: AckId, at: Instant, commit: Commit)
    requires id in p.acks && !p.acks[id].live && !p.acks[id].phase.Writing?
    ensures Next(p, InAck(EnterAck(id))) == p && Next(p, InAck(CommitAck(id, at, commit))) == p
    ensures Next(p, InAck(ReceiveAck(id))) == p && Next(p, InAck(DropAck(id))) == p
  {
  }

  /** The event of an acknowledgement is its statement. */
  lemma AckWrites(s: State, c: Claim, ok: bool, at: Instant)
    requires Kept(s) && c in s.claims
    ensures 0 <= c.attempts
    ensures var e := Middleware.AckOf(c, c.attempts + 1, ok, at);
            && (Enabled(s, e) <==> InClaim(s, c))
            && Step(s, e).retired == s.retired
            && Step(s, e).jobs == Middleware.AckedTable(s.jobs, c, InClaim(s, c), ok, at)
  {
    Middleware.AckChecksItsClaim(s, c);
    Middleware.AckMatches(s, c, ok, at);
  }

  lemma CommitWrites(p: Process, id: AckId, r: RecordId, ok: bool, at: Instant, commit: Commit)
    requires Kept(p.db) && Issued(p, r) && AckIs(p, id, Acknowledgement(r, ok, true, false, Writing))
    ensures var q, current := CommitAckOf(p, id, at, commit), InClaim(p.db, r.claim);
            && AckIs(q, id, Acknowledgement(r, ok, true, commit.Applied() && current, Answered(commit.Confirmed? && current)))
            && Look(q, r) == Look(p, r).(jobs := Middleware.AckedTable(p.db.jobs, r.claim, commit.Applied() && current, ok, at))
            && q.dispatches == p.dispatches
  {
    AckWrites(p.db, r.claim, ok, at);
    assert AckEvent(p, p.acks[id], at) == Middleware.AckOf(r.claim, r.claim.attempts + 1, ok, at);
  }

  lemma RetireOnlyRetires(p: Process, name: Name)
    ensures var q := RetireLease(p, name);
            && q == p.(db := q.db) && q.db.jobs == p.db.jobs && IsRetired(q, name)
  {
  }

  lemma AnswerSettles(p: Process, id: AckId, r: RecordId)
    requires id in p.acks && p.acks[id].record == r && p.acks[id].phase.Answered?
    ensures var q, ok := ReceiveAckOf(p, id), p.acks[id].phase.ok;
            && Look(q, r) == Look(p, r).(done := ok || r in p.done, retired := IsRetired(p, r.claim.owner) || (!ok && r !in p.done))
            && q.dispatches == p.dispatches && AckGone(q, id)
  {
    RetireOnlyRetires(SetAck(p, id, p.acks[id].(live := false)), r.claim.owner);
  }

  /** The moves after the first check. */
  function Written(p: Process, id: AckId, at: Instant, commit: Commit): Process {
    Next(Next(Next(p, InAck(EnterAck(id))), InAck(CommitAck(id, at, commit))), InAck(ReceiveAck(id)))
  }

  lemma WriteRuns(p: Process, id: AckId, at: Instant, commit: Commit)
    requires id in p.acks && p.acks[id].live && p.acks[id].phase.Serialized? && MutexFree(p, p.acks[id].record)
    requires p.acks[id].record !in p.done
    ensures Written(p, id, at, commit) == ReceiveAckOf(CommitAckOf(EnterAckOf(p, id), id, at, commit), id)
  {
    AckMoveIs(p, id, at, commit);
    AckMoveIs(EnterAckOf(p, id), id, at, commit);
    AckMoveIs(CommitAckOf(EnterAckOf(p, id), id, at, commit), id, at, commit);
  }

  lemma RepeatIsClosed(p: Process, id: AckId, at: Instant, commit: Commit)
    requires id in p.acks && p.acks[id].live && p.acks[id].phase.Serialized? && MutexFree(p, p.acks[id].record)
    requires p.acks[id].record in p.done
    ensures Written(p, id, at, commit) == EnterAckOf(p, id)
  {
    AckMoveIs(p, id, at, commit);
    EndedAckIsStill(EnterAckOf(p, id), id, at, commit);
  }

  /** The mutex, the marker, the statement and its answer. */
  lemma WriteIsItsMoves(p: Process, id: AckId, r: RecordId, ok: bool, at: Instant, commit: Commit)
    requires Kept(p.db) && AckIs(p, id, Acknowledgement(r, ok, true, false, Serialized))
    requires Issued(p, r) && MutexFree(p, r) && !StartRefused(p, r)
    ensures var q := Written(p, id, at, commit);
            && Look(q, r) == Middleware.AfterAck(Look(p, r), r.claim, InClaim(p.db, r.claim), true, ok, at, commit)
            && q.dispatches == p.dispatches && AckGone(q, id)
  {
    var p1 := EnterAckOf(p, id);
    if r in p.done {
      RepeatIsClosed(p, id, at, commit);
    } else {
      WriteRuns(p, id, at, commit);
      CommitWrites(p1, id, r, ok, at, commit);
      AnswerSettles(CommitAckOf(p1, id, at, commit), id, r);
    }
  }

  lemma DropSettles(p: Process, id: AckId, r: RecordId)
    requires id in p.acks && p.acks[id].record == r
    ensures var q := AbandonAck(p, id);
            && Look(q, r) == Look(p, r).(retired := IsRetired(p, r.claim.owner) || r !in p.done)
            && q.dispatches == p.dispatches && AckGone(q, id)
  {
    RetireOnlyRetires(SetAck(p, id, p.acks[id].(live := false)), r.claim.owner);
  }

  lemma AckRuns(p: Process, id: AckId, at: Instant, commit: Commit)
    requires id in p.acks && p.acks[id].live && p.acks[id].phase.Created?
    ensures Execute(p, AckMoves(id, true, at, commit)) == Written(CheckAckOf(p, id), id, at, commit)
    ensures Execute(p, AckMoves(id, false, at, commit)) == Next(CheckAckOf(p, id), InAck(DropAck(id)))
  {
    AckMoveIs(p, id, at, commit);
    ExecuteFour(p, InAck(CheckAck(id)), InAck(EnterAck(id)), InAck(CommitAck(id, at, commit)), InAck(ReceiveAck(id)));
    ExecuteTwo(p, InAck(CheckAck(id)), InAck(DropAck(id)));
  }

  /** The first check looks at two marks and touches only its acknowledgement. */
  lemma CheckLooks(p: Process, id: AckId, r: RecordId, ok: bool)
    requires AckCreated(p, id, r, ok)
    ensures var q := CheckAckOf(p, id);
            && q == p.(acks := q.acks) && Issued(q, r) && MutexFree(q, r) && Look(q, r) == Look(p, r)
            && AckIs(q, id, if StartRefused(p, r) then Acknowledgement(r, ok, false, false, Skipped)
                            else Acknowledgement(r, ok, true, false, Serialized))
  {
  }

  lemma RefusedAckIsStill(p: Process, id: AckId, at: Instant, commit: Commit)
    requires id in p.acks && !p.acks[id].live && !p.acks[id].phase.Writing?
    ensures Written(p, id, at, commit) == p && Next(p, InAck(DropAck(id))) == p
  {
    EndedAckIsStill(p, id, at, commit);
  }

  /** `PgAck::ack` after its first check. */
  lemma CheckedIsItsMoves(p: Process, id: AckId, r: RecordId, whole: bool, ok: bool, at: Instant, commit: Commit)
    requires Kept(p.db) && AckIs(p, id, Acknowledgement(r, ok, true, false, Serialized))
    requires Issued(p, r) && MutexFree(p, r) && !StartRefused(p, r)
    ensures var q := if whole then Written(p, id, at, commit) else Next(p, InAck(DropAck(id)));
            && Look(q, r) == Middleware.AfterAck(Look(p, r), r.claim, InClaim(p.db, r.claim), whole, ok, at, commit)
            && q.dispatches == p.dispatches && AckGone(q, id)
  {
    if whole {
      WriteIsItsMoves(p, id, r, ok, at, commit);
    } else {
      AckMoveIs(p, id, at, commit);
      DropSettles(p, id, r);
    }
  }

  /** `PgAck::ack` leaves exactly what its moves leave. */
  lemma AcknowledgeIsItsMoves(
    p: Process, id: AckId, r: RecordId, whole: bool, ok: bool, at: Instant, commit: Commit)
    requires Kept(p.db) && AckCreated(p, id, r, ok)
    ensures var q := Execute(p, AckMoves(id, whole, at, commit));
            && Look(q, r) == Middleware.AfterAck(Look(p, r), r.claim, InClaim(p.db, r.claim), whole, ok, at, commit)
            && q.dispatches == p.dispatches && AckGone(q, id)
  {
    var p1 := CheckAckOf(p, id);
    AckRuns(p, id, at, commit);
    CheckLooks(p, id, r, ok);
    if StartRefused(p, r) {
      RefusedAckIsStill(p1, id, at, commit);
    } else {
      CheckedIsItsMoves(p1, id, r, whole, ok, at, commit);
    }
  }

  // ------------------------------------------------------------ dispatches

  /** `call` up to its handler; a start that is not issued for want of parts is
      one that changes nothing and is never confirmed. */
  function EnterMoves(id: DispatchId, r: RecordId, whole: bool, commit: Commit): seq<Move> {
    [InDispatch(Call(id, r))] +
    [InDispatch(Admit(id)), InDispatch(BeginStart(id)), InDispatch(CommitStart(id, if whole then commit else Rejected)),
     InDispatch(ReceiveStart(id))]
  }

  predicate DispatchIs(p: Process, id: DispatchId, d: Dispatch) {
    id in p.dispatches && p.dispatches[id] == d
  }

  predicate DispatchGone(p: Process, id: DispatchId) {
    id in p.dispatches && !p.dispatches[id].live && !p.dispatches[id].phase.Starting?
  }

  function Arrived(r: RecordId, armed: bool, ran: bool, phase: Phase): Dispatch {
    Dispatch(r.claim.owner, r.claim.task, None, Some(r), Some(r.claim), true, armed, ran, phase)
  }

  /** The moves of a dispatch up to its handler, where they are possible. */
  lemma EnterMoveIs(p: Process, id: DispatchId, commit: Commit)
    requires Live(p, id) && p.dispatches[id].carried.Some? && p.dispatches[id].claim.Some?
    ensures var d := p.dispatches[id];
            && (d.phase.Called? ==> Next(p, InDispatch(Admit(id))) == AdmitOf(p, id))
            && (d.phase.Admitted? ==> Next(p, InDispatch(BeginStart(id))) == BeginStartOf(p, id))
            && (d.phase.Starting? ==> Next(p, InDispatch(CommitStart(id, commit))) == CommitStartOf(p, id, commit))
            && (d.phase.StartAnswered? ==> Next(p, InDispatch(ReceiveStart(id))) == ReceiveStartOf(p, id))
  {
  }

  lemma GoneDispatchIsStill(p: Process, id: DispatchId, commit: Commit)
    requires DispatchGone(p, id)
    ensures Next(p, InDispatch(BeginStart(id))) == p && Next(p, InDispatch(CommitStart(id, commit))) == p
    ensures Next(p, InDispatch(ReceiveStart(id))) == p && Next(p, InDispatch(DropDispatch(id))) == p
  {
  }

  /** The moves from a dispatch's call to its handler. */
  function Entered(p: Process, id: DispatchId, commit: Commit): Process {
    Next(Next(Next(Next(p, InDispatch(Admit(id))), InDispatch(BeginStart(id))), InDispatch(CommitStart(id, commit))),
         InDispatch(ReceiveStart(id)))
  }

  lemma StartIsItsStatement(s: State, c: Claim, restart: bool)
    requires Kept(s) && c in s.claims
    ensures var e := Middleware.StartOf(c, restart);
            && (Enabled(s, e) <==> Middleware.Startable(s, c, restart))
            && Step(s, e).retired == s.retired && c in Step(s, e).claims && Kept(Step(s, e))
            && Step(s, e).jobs == Middleware.StartedTable(s.jobs, c, Middleware.Startable(s, c, restart))
            && (InClaim(Step(s, e), c) <==> InClaim(s, c))
  {
    Middleware.StartMatches(s, c, restart);
    Middleware.StartWrites(s, c, restart);
    StepKeeps(s, Middleware.StartOf(c, restart));
  }

  /** The start statement. */
  lemma StartWrites(p: Process, id: DispatchId, r: RecordId, restart: bool, commit: Commit)
    requires Kept(p.db) && Issued(p, r) && DispatchIs(p, id, Arrived(r, true, false, Starting(restart)))
    ensures var q, startable := CommitStartOf(p, id, commit), Middleware.Startable(p.db, r.claim, restart);
            && DispatchIs(q, id, Arrived(r, true, commit.Applied() && startable, StartAnswered(ReplyOf(commit, startable))))
            && Look(q, r) == Look(p, r).(jobs := Middleware.StartedTable(p.db.jobs, r.claim, commit.Applied() && startable))
            && q.acks == p.acks && Kept(q.db) && Issued(q, r) && (InClaim(q.db, r.claim) <==> InClaim(p.db, r.claim))
  {
    StartIsItsStatement(p.db, r.claim, restart);
    assert StartEvent(p, r.claim, restart) == Middleware.StartOf(r.claim, restart);
  }

  /** Its answer. */
  lemma StartSettles(p: Process, id: DispatchId, r: RecordId, ran: bool, reply: Reply)
    requires r !in p.done && DispatchIs(p, id, Arrived(r, true, ran, StartAnswered(reply)))
    ensures var q := ReceiveStartOf(p, id);
            && Look(q, r) == Look(p, r).(started := r in p.started || reply.Matched?,
                                         retired := IsRetired(p, r.claim.owner) || reply.Unknown?)
            && q.acks == p.acks && q.db.claims == p.db.claims
            && if reply.Matched? then q.db == p.db && DispatchIs(q, id, Arrived(r, true, ran, Handling))
               else DispatchGone(q, id)
  {
    RetireOnlyRetires(SetDispatch(p, id, p.dispatches[id].(live := false)), r.claim.owner);
  }

  lemma EnterRuns(p: Process, id: DispatchId, r: RecordId, whole: bool, commit: Commit)
    requires id !in p.dispatches && Issued(p, r)
    ensures Execute(p, EnterMoves(id, r, whole, commit)) ==
            Entered(CallOf(p, id, r), id, if whole then commit else Rejected)
  {
    var fate := if whole then commit else Rejected;
    var rest := [InDispatch(Admit(id)), InDispatch(BeginStart(id)), InDispatch(CommitStart(id, fate)),
                 InDispatch(ReceiveStart(id))];
    assert Next(p, InDispatch(Call(id, r))) == CallOf(p, id, r);
    ExecuteOne(p, InDispatch(Call(id, r)));
    ExecuteAppends(p, [InDispatch(Call(id, r))], rest);
    ExecuteFour(CallOf(p, id, r), rest[0], rest[1], rest[2], rest[3]);
  }

  /** The two checks before the start statement. */
  lemma AdmissionLooks(p: Process, id: DispatchId, r: RecordId, commit: Commit)
    requires r !in p.done && DispatchIs(p, id, Arrived(r, true, false, Called))
    ensures var q := BeginStartOf(AdmitOf(p, id), id);
            && Next(Next(p, InDispatch(Admit(id))), InDispatch(BeginStart(id))) == q
            && Look(q, r) == Look(p, r).(attempted := true)
            && q.db == p.db && q.token == p.token && q.acks == p.acks
            && if IsRetired(p, r.claim.owner) then DispatchGone(q, id)
               else DispatchIs(q, id, Arrived(r, true, false, Starting(r in p.started)))
  {
    EnterMoveIs(p, id, commit);
    EnterMoveIs(AdmitOf(p, id), id, commit);
  }

  lemma AcknowledgedIsTurnedAway(p: Process, id: DispatchId, r: RecordId, commit: Commit)
    requires r in p.done && DispatchIs(p, id, Arrived(r, false, false, Called))
    ensures var q := Entered(p, id, commit);
            Look(q, r) == Look(p, r) && q.db == p.db && q.acks == p.acks && DispatchGone(q, id)
  {
    EnterMoveIs(p, id, commit);
    GoneDispatchIsStill(AdmitOf(p, id), id, commit);
  }

  lemma StartRuns(p: Process, id: DispatchId, r: RecordId, restart: bool, commit: Commit)
    requires DispatchIs(p, id, Arrived(r, true, false, Starting(restart)))
    ensures Next(Next(p, InDispatch(CommitStart(id, commit))), InDispatch(ReceiveStart(id))) ==
            ReceiveStartOf(CommitStartOf(p, id, commit), id)
  {
    EnterMoveIs(p, id, commit);
    EnterMoveIs(CommitStartOf(p, id, commit), id, commit);
  }

  /** A dispatch whose record is not acknowledged, from its call to its handler. */
  lemma OpenIsItsMoves(p: Process, id: DispatchId, r: RecordId, commit: Commit)
    requires Kept(p.db) && Issued(p, r) && r !in p.done && DispatchIs(p, id, Arrived(r, true, false, Called))
    ensures var q, startable := Entered(p, id, commit), Middleware.Startable(p.db, r.claim, r in p.started);
            && Look(q, r) == Middleware.AfterCall(Look(p, r), r.claim, startable, true, commit)
            && AtHandler(p, q, id, r, Middleware.Admits(Look(p, r), startable, true, commit))
  {
    var p1 := BeginStartOf(AdmitOf(p, id), id);
    AdmissionLooks(p, id, r, commit);
    if IsRetired(p, r.claim.owner) {
      GoneDispatchIsStill(p1, id, commit);
    } else {
      var restart, startable := r in p.started, Middleware.Startable(p.db, r.claim, r in p.started);
      StartRuns(p1, id, r, restart, commit);
      StartWrites(p1, id, r, restart, commit);
      StartSettles(CommitStartOf(p1, id, commit), id, r, commit.Applied() && startable, ReplyOf(commit, startable));
    }
  }

  /** Where a dispatch is when its start was or was not admitted. */
  ghost predicate AtHandler(p: Process, q: Process, id: DispatchId, r: RecordId, admitted: bool) {
    && q.acks == p.acks
    && if admitted then Kept(q.db) && Issued(q, r) && InClaim(q.db, r.claim) && DispatchIs(q, id, Arrived(r, true, true, Handling))
       else DispatchGone(q, id)
  }

  /** `call` up to its handler leaves exactly what its moves leave. */
  lemma EnterIsItsMoves(p: Process, id: DispatchId, r: RecordId, whole: bool, commit: Commit)
    requires Kept(p.db) && id !in p.dispatches && Issued(p, r)
    ensures var q, startable := Execute(p, EnterMoves(id, r, whole, commit)), Middleware.Startable(p.db, r.claim, r in p.started);
            && Look(q, r) == Middleware.AfterCall(Look(p, r), r.claim, startable, whole, commit)
            && AtHandler(p, q, id, r, Middleware.Admits(Look(p, r), startable, whole, commit))
  {
    var fate := if whole then commit else Rejected;
    var p1 := CallOf(p, id, r);
    EnterRuns(p, id, r, whole, commit);
    if r in p.done {
      AcknowledgedIsTurnedAway(p1, id, r, fate);
    } else {
      OpenIsItsMoves(p1, id, r, fate);
    }
  }

  function AfterHandler(id: DispatchId, ack: AckId, whole: bool, ok: bool, at: Instant, commit: Commit): seq<Move> {
    [InDispatch(FinishHandler(id, ack, ok))] + (AckMoves(ack, whole, at, commit) + [InDispatch(Return(id))])
  }

  /** A whole dispatch: dropped in its handler, or through its acknowledgement. */
  function DispatchMoves(id: DispatchId, r: RecordId, ack: AckId, whole: bool, handler: Option<bool>, at: Instant,
                         start: Commit, commit: Commit): seq<Move> {
    EnterMoves(id, r, whole, start) +
    if handler.None? then [InDispatch(DropDispatch(id))]
    else AfterHandler(id, ack, whole, handler.value, at, commit)
  }

  /** A dispatch that was turned away makes no further move. */
  lemma TurnedAwayIsStill(p: Process, id: DispatchId, ack: AckId, whole: bool, ok: bool, at: Instant, commit: Commit)
    requires DispatchGone(p, id) && ack !in p.acks
    ensures Execute(p, AfterHandler(id, ack, whole, ok, at, commit)) == p
  {
    var finish, giveBack, acks := InDispatch(FinishHandler(id, ack, ok)), InDispatch(Return(id)), AckMoves(ack, whole, at, commit);
    assert Next(p, finish) == p && Next(p, giveBack) == p;
    forall i | 0 <= i < |acks| ensures Next(p, acks[i]) == p { }
    NoMoveIsPossible(p, acks);
    ExecuteAppends(p, acks, [giveBack]);
    ExecuteAppends(p, [finish], acks + [giveBack]);
    ExecuteOne(p, finish);
    ExecuteOne(p, giveBack);
  }

  lemma {:induction false} NoMoveIsPossible(p: Process, moves: seq<Move>)
    requires forall i :: 0 <= i < |moves| ==> Next(p, moves[i]) == p
    ensures Execute(p, moves) == p
    decreases |moves|
  {
    if moves != [] {
      NoMoveIsPossible(p, moves[1..]);
    }
  }

  /** The handler's result is acknowledged before the dispatch returns. */
  lemma HandlerHandsOver(p: Process, id: DispatchId, r: RecordId, ack: AckId, ok: bool)
    requires Kept(p.db) && Issued(p, r) && DispatchIs(p, id, Arrived(r, true, true, Handling))
    requires ack !in p.acks && MutexFree(p, r)
    ensures var q := FinishHandlerOf(p, id, ack, ok);
            && Next(p, InDispatch(FinishHandler(id, ack, ok))) == q && q.db == p.db && Look(q, r) == Look(p, r)
            && AckCreated(q, ack, r, ok) && DispatchIs(q, id, Arrived(r, true, true, Acknowledging(ack)))
  {
  }

  lemma ReturnDisarms(p: Process, id: DispatchId, r: RecordId, ack: AckId)
    requires DispatchIs(p, id, Arrived(r, true, true, Acknowledging(ack))) && AckGone(p, ack)
    ensures Next(p, InDispatch(Return(id))) == Disarm(p, id) && Look(Disarm(p, id), r) == Look(p, r)
  {
  }

  lemma HandlerReturns(p: Process, id: DispatchId, r: RecordId, ack: AckId, whole: bool, ok: bool, at: Instant, commit: Commit)
    requires Kept(p.db) && Issued(p, r) && DispatchIs(p, id, Arrived(r, true, true, Handling))
    requires ack !in p.acks && MutexFree(p, r)
    ensures Look(Execute(p, AfterHandler(id, ack, whole, ok, at, commit)), r) ==
            Middleware.AfterAck(Look(p, r), r.claim, InClaim(p.db, r.claim), whole, ok, at, commit)
  {
    var finish, giveBack, acks := InDispatch(FinishHandler(id, ack, ok)), InDispatch(Return(id)), AckMoves(ack, whole, at, commit);
    var p1 := FinishHandlerOf(p, id, ack, ok);
    var p2 := Execute(p1, acks);
    HandlerHandsOver(p, id, r, ack, ok);
    ExecuteOne(p, finish);
    ExecuteAppends(p, [finish], acks + [giveBack]);
    ExecuteAppends(p1, acks, [giveBack]);
    AcknowledgeIsItsMoves(p1, ack, r, whole, ok, at, commit);
    ReturnDisarms(p2, id, r, ack);
    ExecuteOne(p2, giveBack);
  }

  /** A handler dropped on its way retires the lease. */
  lemma DropRetires(p: Process, id: DispatchId, r: RecordId)
    requires r !in p.done && DispatchIs(p, id, Arrived(r, true, true, Handling))
    ensures Look(Next(p, InDispatch(DropDispatch(id))), r) == Look(p, r).(retired := true)
  {
    RetireOnlyRetires(SetDispatch(p, id, p.dispatches[id].(live := false)), r.claim.owner);
    assert Next(p, InDispatch(DropDispatch(id))) == Abandon(p, id);
  }

  /** `LockTaskService::call` for a task the fetcher claimed, with its handler and
      acknowledgement, leaves exactly what its moves leave. */
  lemma DispatchIsItsMoves(p: Process, id: DispatchId, r: RecordId, ack: AckId, whole: bool, handler: Option<bool>,
                           at: Instant, start: Commit, commit: Commit)
    requires Kept(p.db) && Issued(p, r) && id !in p.dispatches && ack !in p.acks && MutexFree(p, r)
    ensures Look(Execute(p, DispatchMoves(id, r, ack, whole, handler, at, start, commit)), r) ==
            Middleware.AfterDispatch(Look(p, r), r.claim, Middleware.Startable(p.db, r.claim, r in p.started), whole, handler, at,
                                     start, commit)
  {
    var q := Execute(p, EnterMoves(id, r, whole, start));
    EnterIsItsMoves(p, id, r, whole, start);
    var rest := if handler.None? then [InDispatch(DropDispatch(id))] else AfterHandler(id, ack, whole, handler.value, at, commit);
    ExecuteAppends(p, EnterMoves(id, r, whole, start), rest);
    if handler.None? {
      ExecuteOne(q, rest[0]);
      if DispatchGone(q, id) {
        GoneDispatchIsStill(q, id, start);
      } else {
        DropRetires(q, id, r);
      }
    } else if DispatchGone(q, id) {
      TurnedAwayIsStill(q, id, ack, whole, handler.value, at, commit);
    } else {
      HandlerReturns(q, id, r, ack, whole, handler.value, at, commit);
    }
  }

  // ------------------------------------------------------- lock dispatches

  /** `call` for a task nobody claimed for this worker, up to its handler; a
      malformed row rolls its statement back. */
  function LockMoves(id: DispatchId, name: Name, task: TaskId, scope: Option<Queue>, carried: Option<RecordId>,
                     malformed: bool, at: Instant, commit: Commit): seq<Move> {
    [InDispatch(CallLock(id, name, task, scope, carried)), InDispatch(ArmLock(id)),
     InDispatch(CommitLock(id, at, if malformed then Rejected else commit)), InDispatch(ReceiveLock(id))]
  }

  function ToLock(name: Name, task: TaskId, scope: Option<Queue>, carried: Option<RecordId>, armed: bool, phase: Phase): Dispatch {
    Dispatch(name, task, scope, carried, None, true, armed, false, phase)
  }

  predicate Acknowledged(p: Process, carried: Option<RecordId>) {
    carried.Some? && carried.value in p.done
  }

  lemma LockMoveIs(p: Process, id: DispatchId, at: Instant, commit: Commit)
    requires Live(p, id)
    ensures var d := p.dispatches[id];
            && (d.phase.LockCalled? ==> Next(p, InDispatch(ArmLock(id))) == ArmLockOf(p, id))
            && (d.phase.Locking? ==> Next(p, InDispatch(CommitLock(id, at, commit))) == CommitLockOf(p, id, at, commit))
            && (d.phase.LockAnswered? && (d.phase.reply.Matched? ==> d.claim.Some?) ==>
                  Next(p, InDispatch(ReceiveLock(id))) == ReceiveLockOf(p, id))
            && (d.phase.Ended? ==> Next(p, InDispatch(CommitLock(id, at, commit))) == p)
  {
  }

  /** Up to its statement a lock dispatch touches only itself and the waiting tasks. */
  lemma LockArms(p: Process, id: DispatchId, name: Name, task: TaskId, scope: Option<Queue>, carried: Option<RecordId>)
    ensures var q := ArmLockOf(CallLockOf(p, id, name, task, scope, carried), id);
            && q.db == p.db && q.token == p.token && q.done == p.done
            && if IsRetired(p, name) then id in q.dispatches && !q.dispatches[id].live && q.dispatches[id].phase.Ended?
               else DispatchIs(q, id, ToLock(name, task, scope, carried, true, Locking))
  {
  }

  lemma LockRuns(p: Process, id: DispatchId, name: Name, task: TaskId, scope: Option<Queue>, carried: Option<RecordId>,
                 malformed: bool, at: Instant, commit: Commit)
    requires id !in p.dispatches && (carried.Some? ==> Issued(p, carried.value) && carried.value.claim.task == task)
    ensures var fate := if malformed then Rejected else commit;
            Execute(p, LockMoves(id, name, task, scope, carried, malformed, at, commit)) ==
            Next(Next(ArmLockOf(CallLockOf(p, id, name, task, scope, carried), id), InDispatch(CommitLock(id, at, fate))),
                 InDispatch(ReceiveLock(id)))
  {
    var fate := if malformed then Rejected else commit;
    var call := InDispatch(CallLock(id, name, task, scope, carried));
    assert Next(p, call) == CallLockOf(p, id, name, task, scope, carried);
    LockMoveIs(CallLockOf(p, id, name, task, scope, carried), id, at, fate);
    ExecuteFour(p, call, InDispatch(ArmLock(id)), InDispatch(CommitLock(id, at, fate)), InDispatch(ReceiveLock(id)));
  }

  /** The statement keeps every lease and leaves the row it took with its claim. */
  lemma LockTakes(s: State, id: TaskId, name: Name, scope: Option<Queue>, token: Token, at: Instant)
    ensures var e := Lock(id, name, scope, Some(token), at);
            && Step(s, e).retired == s.retired
            && (Enabled(s, e) ==>
                  id in Step(s, e).jobs && Step(s, e).jobs[id].owner.Some? && Step(s, e).jobs[id].lockAt.Some?)
  {
  }

  function LockReply(locked: bool, fate: Commit): Reply {
    if !locked then Missed else if fate.Confirmed? then Matched else if fate.Unanswered? then Unknown else Missed
  }

  predicate LockIs(d: Dispatch, name: Name, carried: Option<RecordId>, reply: Reply) {
    && d.live && d.armed && d.name == name && d.carried == carried && d.phase == LockAnswered(reply)
    && (reply.Matched? ==> d.claim.Some?)
  }

  lemma LockWrites(p: Process, id: DispatchId, name: Name, task: TaskId, scope: Option<Queue>, carried: Option<RecordId>,
                   at: Instant, fate: Commit)
    requires DispatchIs(p, id, ToLock(name, task, scope, carried, true, Locking))
    ensures var q, e := CommitLockOf(p, id, at, fate), Lock(task, name, scope, Some(p.token), at);
            && q.db.jobs == (if fate.Applied() then Step(p.db, e).jobs else p.db.jobs)
            && q.db.retired == p.db.retired && q.done == p.done && q.token == p.token
            && id in q.dispatches && LockIs(q.dispatches[id], name, carried, LockReply(Enabled(p.db, e), fate))
  {
    LockTakes(p.db, task, name, scope, p.token, at);
    assert LockEvent(p, p.dispatches[id], at) == Lock(task, name, scope, Some(p.token), at);
  }

  lemma LockSettles(p: Process, id: DispatchId, name: Name, carried: Option<RecordId>, reply: Reply)
    requires id in p.dispatches && LockIs(p.dispatches[id], name, carried, reply)
    ensures var q := ReceiveLockOf(p, id);
            && q.db.jobs == p.db.jobs && id in q.dispatches
            && (q.dispatches[id].phase.Handling? <==> reply.Matched?)
            && (IsRetired(q, name) <==> IsRetired(p, name) || (reply.Unknown? && !Acknowledged(p, carried)))
  {
    RetireOnlyRetires(SetDispatch(p, id, p.dispatches[id].(live := false)), name);
  }

  /** The statement and its answer. */
  lemma ArmedLockIsItsMoves(p: Process, id: DispatchId, name: Name, task: TaskId, scope: Option<Queue>,
                            carried: Option<RecordId>, at: Instant, fate: Commit)
    requires DispatchIs(p, id, ToLock(name, task, scope, carried, true, Locking)) && !IsRetired(p, name)
    ensures var q, e := Next(Next(p, InDispatch(CommitLock(id, at, fate))), InDispatch(ReceiveLock(id))),
                        Lock(task, name, scope, Some(p.token), at);
            && (q.db.jobs, IsRetired(q, name)) == Middleware.AfterLock(p.db, false, e, Acknowledged(p, carried), false, fate)
            && id in q.dispatches && (q.dispatches[id].phase.Handling? <==> fate.Confirmed? && Enabled(p.db, e))
  {
    var p1 := CommitLockOf(p, id, at, fate);
    LockMoveIs(p, id, at, fate);
    LockWrites(p, id, name, task, scope, carried, at, fate);
    LockMoveIs(p1, id, at, fate);
    LockSettles(p1, id, name, carried, LockReply(Enabled(p.db, Lock(task, name, scope, Some(p.token), at)), fate));
  }

  /** `call` for a task nobody claimed for this worker, up to its handler, leaves
      exactly what its moves leave. */
  lemma LockIsItsMoves(p: Process, id: DispatchId, name: Name, task: TaskId, scope: Option<Queue>,
                       carried: Option<RecordId>, malformed: bool, at: Instant, commit: Commit)
    requires id !in p.dispatches && (carried.Some? ==> Issued(p, carried.value) && carried.value.claim.task == task)
    ensures var q, e := Execute(p, LockMoves(id, name, task, scope, carried, malformed, at, commit)),
                        Lock(task, name, scope, Some(p.token), at);
            && (q.db.jobs, IsRetired(q, name)) ==
               Middleware.AfterLock(p.db, IsRetired(p, name), e, Acknowledged(p, carried), malformed, commit)
            && id in q.dispatches
            && (q.dispatches[id].phase.Handling? <==>
                  !IsRetired(p, name) && !malformed && commit.Confirmed? && Enabled(p.db, e))
  {
    var fate := if malformed then Rejected else commit;
    var p1 := ArmLockOf(CallLockOf(p, id, name, task, scope, carried), id);
    LockArms(p, id, name, task, scope, carried);
    LockRuns(p, id, name, task, scope, carried, malformed, at, commit);
    if IsRetired(p, name) {
      EndedLockIsStill(p1, id, at, fate);
    } else {
      ArmedLockIsItsMoves(p1, id, name, task, scope, carried, at, fate);
    }
  }

  lemma EndedLockIsStill(p: Process, id: DispatchId, at: Instant, fate: Commit)
    requires id in p.dispatches && !p.dispatches[id].live && p.dispatches[id].phase.Ended?
    ensures Next(p, InDispatch(CommitLock(id, at, fate))) == p && Next(p, InDispatch(ReceiveLock(id))) == p
  {
  }

  // ------------------------------------------------------ undecodable tasks

  predicate Releasing(p: Process, id: StreamId, c: Claim) {
    && id in p.streams && p.streams[id].open && p.streams[id].name == c.owner && p.streams[id].releasing == Some(c)
    && c in p.db.claims && c.token == Some(p.token)
  }

  lemma ReleaseMoveIs(p: Process, id: StreamId, c: Claim, at: Instant, fate: Commit, exhausted: bool)
    requires Releasing(p, id, c)
    ensures Next(p, InStream(TryRelease(id, at, fate, exhausted))) == TryReleaseOf(p, id, at, fate, exhausted)
    ensures ReleaseEvent(p, c, at) == Middleware.ReleaseOf(c, at)
  {
  }

  lemma ReleaseWrites(s: State, c: Claim, at: Instant)
    requires Kept(s) && c in s.claims
    ensures var e := Middleware.ReleaseOf(c, at);
            && (Enabled(s, e) <==> InClaim(s, c)) && Step(s, e).retired == s.retired
            && Step(s, e).jobs == Middleware.ReleasedTable(s.jobs, c, InClaim(s, c), at)
  {
    Middleware.ReleaseMatches(s, c, at);
  }

  /** The answer to an attempt, given what its statement did to the tables. */
  lemma ReleaseSettles(p: Process, id: StreamId, c: Claim, at: Instant, fate: Commit, exhausted: bool)
    requires Releasing(p, id, c)
    ensures var q, e := TryReleaseOf(p, id, at, fate, exhausted), ReleaseEvent(p, c, at);
            && q.db.jobs == (if fate.Applied() then Step(p.db, e).jobs else p.db.jobs)
            && (Step(p.db, e).retired == p.db.retired ==>
                  (IsRetired(q, c.owner) <==>
                     IsRetired(p, c.owner) || (if fate.Confirmed? then !Enabled(p.db, e) else exhausted)))
            && id in q.streams && (q.streams[id].releasing.None? <==> fate.Confirmed? || exhausted)
  {
    var q := p.(db := if fate.Applied() then Step(p.db, ReleaseEvent(p, c, at)) else p.db);
    RetireOnlyRetires(SetStream(q, id, p.streams[id].(releasing := None)), c.owner);
  }

  /** One attempt to release a claim leaves exactly what its move leaves; it ends
      the obligation unless it failed and may be tried again. */
  lemma ReleaseIsItsMove(p: Process, id: StreamId, c: Claim, at: Instant, fate: Commit, exhausted: bool)
    requires Kept(p.db) && Releasing(p, id, c)
    ensures var q := Next(p, InStream(TryRelease(id, at, fate, exhausted)));
            && (q.db.jobs, IsRetired(q, c.owner)) ==
               Middleware.AfterRelease(p.db.jobs, IsRetired(p, c.owner), c, InClaim(p.db, c), fate, exhausted, at)
            && id in q.streams && (q.streams[id].releasing.None? <==> fate.Confirmed? || exhausted)
  {
    ReleaseWrites(p.db, c, at);
    ReleaseMoveIs(p, id, c, at, fate, exhausted);
    ReleaseSettles(p, id, c, at, fate, exhausted);
  }
}
