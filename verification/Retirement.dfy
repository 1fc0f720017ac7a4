/** Exactly when a process gives a lease up, and what its task streams hold. The
    cover of `Coverage` would also be kept by a process that retired its names
    too often; these laws say that it does not. */
module Retirement {
  import opened Rows
  import opened Store
  import opened Database
  import opened Obligations
  import opened Stranding

  // ------------------------------------------------------------- retirements

  predicate IsDone(p: Process, record: Option<RecordId>) {
    record.Some? && record.value in p.done
  }

  /** The name a stream retires: its claim statement may have left claims that nobody
      answers for, its release lost the claim or failed for the last time, or it
      is dropped after its registration. */
  function StreamRetires(p: Process, m: StreamMove): set<Name>
    requires CanStream(p, m)
  {
    match m
    case ReceiveFetch(job) =>
      if p.fetches[job].answer.value.unknown && !p.fetches[job].answer.value.confirmed
      then {p.streams[p.fetches[job].stream].name} else {}
    case TryRelease(id, at, commit, exhausted) =>
      var c := p.streams[id].releasing.value;
      var lost := commit == Confirmed
                  && !Enabled(p.db, FailUndecodable(c.task, c.owner, c.lockAt, c.attempts, Some(p.token), at));
      if lost || (commit != Confirmed && exhausted) then {p.streams[id].name} else {}
    case DropStream(id) => if p.streams[id].guarded then {p.streams[id].name} else {}
    case _ => {}
  }

  /** The name a dispatch retires: it was told that an outcome is unknown, or was
      dropped, with its guard armed and its record not acknowledged. */
  function DispatchRetires(p: Process, m: DispatchMove): set<Name>
    requires CanDispatch(p, m)
  {
    match m
    case ReceiveStart(id) =>
      if p.dispatches[id].phase == StartAnswered(Unknown) && p.dispatches[id].armed && !IsDone(p, p.dispatches[id].carried)
      then {p.dispatches[id].name} else {}
    case ReceiveLock(id) =>
      if p.dispatches[id].phase == LockAnswered(Unknown) && p.dispatches[id].armed && !IsDone(p, p.dispatches[id].carried)
      then {p.dispatches[id].name} else {}
    case DropDispatch(id) =>
      if p.dispatches[id].armed && !IsDone(p, p.dispatches[id].carried) then {p.dispatches[id].name} else {}
    case _ => {}
  }

  /** The name an acknowledgement retires: it failed, or was dropped, before its
      record was acknowledged. */
  function AckRetires(p: Process, m: AckMove): set<Name>
    requires CanAck(p, m)
  {
    match m
    case ReceiveAck(id) =>
      if p.acks[id].phase == Answered(false) && p.acks[id].record !in p.done then {p.acks[id].record.claim.owner} else {}
    case DropAck(id) => if p.acks[id].record !in p.done then {p.acks[id].record.claim.owner} else {}
    case _ => {}
  }

  /** The names these moves of the process's own retire, and no others. */
  ghost predicate Retires(p: Process, q: Process, names: set<Name>) {
    forall token, name :: (token, name) in q.db.retired <==> (token, name) in p.db.retired || (token == p.token && name in names)
  }

  lemma StatementsRetireNothing(s: State, e: Event)
    ensures !e.Retire? ==> Step(s, e).retired == s.retired
    ensures e.Retire? ==> Step(s, e).retired == s.retired + {(e.retiredToken, e.name)}
  {
  }

  lemma ReleaseRetires(p: Process, id: StreamId, at: Instant, commit: Commit, exhausted: bool)
    requires CanStream(p, TryRelease(id, at, commit, exhausted))
    ensures Retires(p, TryReleaseOf(p, id, at, commit, exhausted), StreamRetires(p, TryRelease(id, at, commit, exhausted)))
  {
    var e := ReleaseEvent(p, p.streams[id].releasing.value, at);
    StatementsRetireNothing(p.db, e);
    StatementsRetireNothing(if commit.Applied() then Step(p.db, e) else p.db, Retire(p.token, p.streams[id].name));
  }

  lemma StreamRetiresExactly(p: Process, m: StreamMove)
    requires CanStream(p, m)
    ensures Retires(p, StreamStep(p, m), StreamRetires(p, m))
  {
    match m
    case RegisterStream(id, staleAfter, at) =>
      StatementsRetireNothing(p.db, Register(p.streams[id].name, p.streams[id].queue, p.token, staleAfter, at));
    case CommitFetch(job, ids, malformed, at, _) =>
      StatementsRetireNothing(p.db, FetchEvent(p, p.streams[p.fetches[job].stream], ids, malformed, at));
    case ReceiveFetch(job) =>
      StatementsRetireNothing(p.db, Retire(p.token, p.streams[p.fetches[job].stream].name));
    case TryRelease(id, at, commit, exhausted) => ReleaseRetires(p, id, at, commit, exhausted);
    case DropStream(id) => StatementsRetireNothing(p.db, Retire(p.token, p.streams[id].name));
    case _ =>
  }

  lemma AbandonRetires(p: Process, id: DispatchId)
    requires id in p.dispatches
    ensures var d := p.dispatches[id];
            Retires(p, Abandon(p, id), if d.armed && !IsDone(p, d.carried) then {d.name} else {})
  {
    StatementsRetireNothing(p.db, Retire(p.token, p.dispatches[id].name));
  }

  lemma EndingDispatchRetires(p: Process, m: DispatchMove)
    requires CanDispatch(p, m) && MayRetire(m)
    ensures Retires(p, DispatchStep(p, m), DispatchRetires(p, m))
  {
    AbandonRetires(p, m.dispatch);
    if !m.DropDispatch? {
      match p.dispatches[m.dispatch].phase.reply
      case Unknown => assert DispatchStep(p, m) == Abandon(p, m.dispatch);
      case Matched =>
      case Missed => assert DispatchStep(p, m) == Disarm(p, m.dispatch);
    }
  }

  lemma DispatchRetiresExactly(p: Process, m: DispatchMove)
    requires CanDispatch(p, m)
    ensures Retires(p, DispatchStep(p, m), DispatchRetires(p, m))
  {
    match m
    case CommitStart(id, _) =>
      var d := p.dispatches[id];
      StatementsRetireNothing(p.db, StartEvent(p, d.claim.value, d.phase.restart));
    case CommitLock(id, at, _) => StatementsRetireNothing(p.db, LockEvent(p, p.dispatches[id], at));
    case _ =>
      if MayRetire(m) {
        EndingDispatchRetires(p, m);
      } else {
        OtherDispatchMovesRunNothing(p, m);
      }
  }

  lemma AckRetiresExactly(p: Process, m: AckMove)
    requires CanAck(p, m)
    ensures Retires(p, AckStep(p, m), AckRetires(p, m))
  {
    if m.CommitAck? {
      StatementsRetireNothing(p.db, AckEvent(p, p.acks[m.ack], m.at));
    } else if m.ReceiveAck? || m.DropAck? {
      StatementsRetireNothing(p.db, Retire(p.token, p.acks[m.ack].record.claim.owner));
    }
  }

  /** The names a move of the process's own retires. */
  function NamesRetired(p: Process, m: Move): set<Name> {
    match m
    case Elsewhere(_) => {}
    case InStream(move) => if CanStream(p, move) then StreamRetires(p, move) else {}
    case InDispatch(move) => if CanDispatch(p, move) then DispatchRetires(p, move) else {}
    case InAck(move) => if CanAck(p, move) then AckRetires(p, move) else {}
  }

  /** A process retires a name exactly when somebody in it ends owing a claim that
      it can no longer answer for. */
  lemma RetiresExactlyWhenOwing(p: Process, m: Move)
    requires !m.Elsewhere?
    ensures Retires(p, Next(p, m), NamesRetired(p, m))
  {
    match m
    case InStream(move) =>
      if CanStream(p, move) {
        StreamRetiresExactly(p, move);
      }
    case InDispatch(move) =>
      if CanDispatch(p, move) {
        DispatchRetiresExactly(p, move);
      }
    case InAck(move) =>
      if CanAck(p, move) {
        AckRetiresExactly(p, move);
      }
  }

  // ------------------------------------------------------ from COMMIT to stream

  /** What the COMMIT of a claim statement leaves for its stream. */
  lemma CommitAnswers(p: Process, job: JobId, ids: set<TaskId>, malformed: set<TaskId>, at: Instant, commit: Commit)
    requires CanStream(p, CommitFetch(job, ids, malformed, at, commit))
    ensures var s, q := p.streams[p.fetches[job].stream], StreamStep(p, CommitFetch(job, ids, malformed, at, commit));
            && q.streams == p.streams && q.fetches.Keys == p.fetches.Keys && q.token == p.token
            && q.fetches[job].stream == p.fetches[job].stream && q.fetches[job].answer.Some?
            && var answer := q.fetches[job].answer.value;
               && (answer.confirmed <==> commit == Confirmed)
               && (answer.unknown <==>
                     commit.Unanswered? && !(ids <= malformed)
                     && Enabled(p.db, Fetch(s.name, s.queue, Some(p.token), ids, malformed, at)))
               && answer.claims == q.db.claims - p.db.claims
  {
  }

  /** The answer waits for its stream, whatever runs meanwhile. */
  ghost predicate Waits(p: Process, q: Process, job: JobId) {
    && job in p.fetches && job in q.fetches && q.fetches[job] == p.fetches[job]
    && p.fetches[job].stream in p.streams && p.fetches[job].stream in q.streams
    && q.streams[p.fetches[job].stream].name == p.streams[p.fetches[job].stream].name
    && q.token == p.token
  }

  predicate HasAnswer(p: Process, job: JobId) {
    job in p.fetches && p.fetches[job].answer.Some? && p.fetches[job].stream in p.streams
  }

  lemma StreamLetsWait(p: Process, m: StreamMove, job: JobId)
    requires HasAnswer(p, job) && CanStream(p, m) && m != ReceiveFetch(job)
    ensures Waits(p, StreamStep(p, m), job)
  {
  }

  lemma AbandonLeavesStreams(p: Process, id: DispatchId)
    requires id in p.dispatches
    ensures Abandon(p, id).fetches == p.fetches && Abandon(p, id).streams == p.streams && Abandon(p, id).token == p.token
  {
  }

  predicate SameStreams(p: Process, q: Process) {
    q.fetches == p.fetches && q.streams == p.streams && q.token == p.token
  }

  lemma EndingDispatchLeavesStreams(p: Process, m: DispatchMove)
    requires CanDispatch(p, m) && MayRetire(m)
    ensures SameStreams(p, DispatchStep(p, m))
  {
    AbandonLeavesStreams(p, m.dispatch);
    if !m.DropDispatch? {
      match p.dispatches[m.dispatch].phase.reply
      case Unknown => assert DispatchStep(p, m) == Abandon(p, m.dispatch);
      case Matched =>
      case Missed => assert DispatchStep(p, m) == Disarm(p, m.dispatch);
    }
  }

  lemma DispatchLeavesStreams(p: Process, m: DispatchMove)
    requires CanDispatch(p, m)
    ensures SameStreams(p, DispatchStep(p, m))
  {
    if MayRetire(m) {
      EndingDispatchLeavesStreams(p, m);
    }
  }

  lemma AckLeavesStreams(p: Process, m: AckMove)
    requires CanAck(p, m)
    ensures SameStreams(p, AckStep(p, m))
  {
  }

  lemma MoveLetsWait(p: Process, m: Move, job: JobId)
    requires HasAnswer(p, job) && m != InStream(ReceiveFetch(job))
    ensures Waits(p, Next(p, m), job)
  {
    match m
    case Elsewhere(_) =>
    case InStream(move) =>
      if CanStream(p, move) {
        StreamLetsWait(p, move, job);
      }
    case InDispatch(move) =>
      if CanDispatch(p, move) {
        DispatchLeavesStreams(p, move);
      }
    case InAck(move) =>
      if CanAck(p, move) {
        AckLeavesStreams(p, move);
      }
  }

  lemma {:induction false} AnswerWaits(p: Process, moves: seq<Move>, job: JobId)
    requires HasAnswer(p, job) && InStream(ReceiveFetch(job)) !in moves
    ensures Waits(p, Execute(p, moves), job)
    decreases |moves|
  {
    if moves != [] {
      assert moves[0] in moves;
      MoveLetsWait(p, moves[0], job);
      AnswerWaits(Next(p, moves[0]), moves[1..], job);
    }
  }

  /** From the COMMIT of a claim statement to the stream that receives its answer,
      whatever runs in between: the name is retired exactly when the statement
      had claimed a well-formed row and its COMMIT went unanswered, and a
      confirmed COMMIT buffers exactly the claims it issued. */
  lemma LostClaimsRetireTheirName(p: Process, job: JobId, ids: set<TaskId>, malformed: set<TaskId>, at: Instant,
                                  commit: Commit, between: seq<Move>)
    requires CanStream(p, CommitFetch(job, ids, malformed, at, commit)) && InStream(ReceiveFetch(job)) !in between
    requires var q := Execute(Next(p, InStream(CommitFetch(job, ids, malformed, at, commit))), between);
             CanStream(q, ReceiveFetch(job))
    ensures var id := p.fetches[job].stream;
            var committed := Next(p, InStream(CommitFetch(job, ids, malformed, at, commit)));
            var q := Execute(committed, between);
            var r := Next(q, InStream(ReceiveFetch(job)));
            var fetch := Fetch(p.streams[id].name, p.streams[id].queue, Some(p.token), ids, malformed, at);
            && id in q.streams && id in r.streams
            && Retires(q, r, if commit.Unanswered? && !(ids <= malformed) && Enabled(p.db, fetch)
                             then {p.streams[id].name} else {})
            && r.streams[id].buffer ==
               q.streams[id].buffer + (if commit == Confirmed then committed.db.claims - p.db.claims else {})
  {
    var m := CommitFetch(job, ids, malformed, at, commit);
    var committed := Next(p, InStream(m));
    assert committed == StreamStep(p, m);
    CommitAnswers(p, job, ids, malformed, at, commit);
    AnswerWaits(committed, between, job);
    var q := Execute(committed, between);
    StreamRetiresExactly(q, ReceiveFetch(job));
    ReceivedIsBuffered(q, job);
  }

  /** A confirmed answer puts exactly its claims into the buffer. */
  lemma ReceivedIsBuffered(p: Process, job: JobId)
    requires CanStream(p, ReceiveFetch(job))
    ensures var id, answer, q := p.fetches[job].stream, p.fetches[job].answer.value, Next(p, InStream(ReceiveFetch(job)));
            && q == StreamStep(p, ReceiveFetch(job))
            && id in q.streams && q.streams.Keys == p.streams.Keys && q.fetches == p.fetches - {job}
            && q.streams == p.streams[id := q.streams[id]]
            && q.streams[id] == p.streams[id].(buffer := p.streams[id].buffer + if answer.confirmed then answer.claims else {})
  {
  }

  // -------------------------------------------------- what a stream holds on to

  /** The stream of a move, and where the claims it is handed stay: a registration
      that succeeds arms the guard and one that is refused ends the stream; a claim
      that leaves the buffer is yielded, or is the one being released. */
  lemma StreamHoldsOn(p: Process, m: StreamMove)
    requires CanStream(p, m) && (m.RegisterStream? || m.YieldTask? || m.FailDecode? || m.TryRelease? || m.DropStream?)
    ensures var s, q := p.streams[m.stream], StreamStep(p, m);
            && q.streams.Keys == p.streams.Keys && q.streams == p.streams[m.stream := q.streams[m.stream]]
            && q.fetches == p.fetches && q.dispatches == p.dispatches && q.acks == p.acks && q.done == p.done
            && var t := q.streams[m.stream];
               && t.name == s.name && t.queue == s.queue
               && (m.RegisterStream? ==>
                     var registered := Enabled(p.db, Register(s.name, s.queue, p.token, m.staleAfter, m.at));
                     && t.guarded == registered && t.open == registered && t.buffer == s.buffer
                     && t.releasing == s.releasing && q.waiting == p.waiting)
               && (m.YieldTask? ==> t == s.(buffer := s.buffer - {m.c}) && q.waiting == p.waiting + {m.c})
               && (m.FailDecode? ==> t == s.(buffer := s.buffer - {m.c}, releasing := Some(m.c)) && q.waiting == p.waiting)
               && (m.TryRelease? ==>
                     && t == s.(releasing := if m.commit == Confirmed || m.exhausted then None else s.releasing)
                     && q.waiting == p.waiting)
               && (m.DropStream? ==> t == s.(open := false) && q.waiting == p.waiting)
  {
    match m
    case RegisterStream(_, _, _) =>
    case YieldTask(_, _) =>
    case FailDecode(_, _) =>
    case TryRelease(id, at, commit, exhausted) => TriedReleaseHoldsOn(p, id, at, commit, exhausted);
    case DropStream(_) =>
  }

  lemma TriedReleaseHoldsOn(p: Process, id: StreamId, at: Instant, commit: Commit, exhausted: bool)
    requires CanStream(p, TryRelease(id, at, commit, exhausted))
    ensures var s, q := p.streams[id], TryReleaseOf(p, id, at, commit, exhausted);
            && q.streams == p.streams[id := s.(releasing := if commit == Confirmed || exhausted then None else s.releasing)]
            && q.fetches == p.fetches && q.dispatches == p.dispatches && q.acks == p.acks && q.done == p.done
            && q.waiting == p.waiting
  {
    assert p.streams[id := p.streams[id]] == p.streams;
  }

  // ----------------------------------------------------------- what may happen

  /** A stream, a dispatch and an acknowledgement may be dropped at any point, and a
      statement that was issued may still commit, with any fate, after its caller
      is gone. */
  lemma AnythingMayBeDropped(p: Process, at: Instant, commit: Commit)
    ensures forall id :: id in p.streams && p.streams[id].open ==> CanStream(p, DropStream(id))
    ensures forall id :: id in p.dispatches && p.dispatches[id].live ==> CanDispatch(p, DropDispatch(id))
    ensures forall id :: id in p.acks && p.acks[id].live ==> CanAck(p, DropAck(id))
    ensures forall job, ids, malformed ::
              job in p.fetches && p.fetches[job].answer == None && p.fetches[job].stream in p.streams ==>
                CanStream(p, CommitFetch(job, ids, malformed, at, commit))
    ensures forall id :: id in p.dispatches && p.dispatches[id].phase.Starting? && p.dispatches[id].claim != None ==>
              CanDispatch(p, CommitStart(id, commit))
    ensures forall id :: id in p.dispatches && p.dispatches[id].phase == Locking ==> CanDispatch(p, CommitLock(id, at, commit))
    ensures forall id :: id in p.acks && p.acks[id].phase == Writing ==> CanAck(p, CommitAck(id, at, commit))
  {
  }

  /** An open stream may yield any claim it buffers, or fail it when it is not
      releasing another; a registered one may claim; an answer may be received. */
  lemma AnOpenStreamMayGoOn(p: Process, id: StreamId)
    requires id in p.streams && p.streams[id].open
    ensures forall c :: c in p.streams[id].buffer ==>
              CanStream(p, YieldTask(id, c)) && (p.streams[id].releasing == None ==> CanStream(p, FailDecode(id, c)))
    ensures forall job :: p.streams[id].guarded && job !in p.fetches ==> CanStream(p, IssueFetch(id, job))
    ensures forall job :: job in p.fetches && p.fetches[job].stream == id && p.fetches[job].answer != None ==>
              CanStream(p, ReceiveFetch(job))
    ensures forall staleAfter, at :: !p.streams[id].guarded ==> CanStream(p, RegisterStream(id, staleAfter, at))
  {
  }

  /** Others may do anything but claim or start under this token, or under none. */
  lemma OthersMayDoAnything(p: Process, e: Event)
    ensures !e.Fetch? && !e.Lock? && !e.Start? ==> Foreign(p, e)
    ensures e.Fetch? || e.Lock? || e.Start? ==> (Foreign(p, e) <==> e.token != None && e.token != Some(p.token))
    ensures Foreign(p, e) ==> Next(p, Elsewhere(e)) == p.(db := Step(p.db, e))
  {
  }
}
