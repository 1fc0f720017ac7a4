/** No claim of a storage is stranded: over every run, each active row claimed
    under its token is answered for by an armed guard of the process, or the
    lease of its name is retired and the row is recoverable. */
module Coverage {
  import opened Rows
  import opened Store
  import opened Invariants
  import opened Protocol
  import opened Database
  import opened Obligations

  // ------------------------------------------------ claims under transactions

  /** Handed out, and over: nothing can match the claim again. */
  predicate Dead(s: State, c: Claim) {
    c in s.claims && !InClaim(s, c)
  }

  /** Handed out, and not waiting for a first start any more. */
  predicate Unstartable(s: State, c: Claim) {
    c in s.claims && !(InClaim(s, c) && s.jobs[c.task].status.Queued?)
  }

  lemma LawfulChangesAdvance(s: State, next: State, c: Claim)
    requires TablesInv(s) && Lawful(s, next) && c in s.claims && ClaimInv(s, c)
    ensures var t := Observe(s, next);
            && c in t.claims
            && (Dead(s, c) ==> Dead(t, c))
            && (Unstartable(s, c) ==> Unstartable(t, c))
  {
  }

  /** A claim's end, and the end of its wait for a start, are final. */
  lemma ClaimsOnlyAdvance(s: State, e: Event, c: Claim)
    requires Inv(s) && c in s.claims
    ensures var t := Step(s, e);
            && c in t.claims
            && (Dead(s, c) ==> Dead(t, c))
            && (Unstartable(s, c) ==> Unstartable(t, c))
  {
    if Enabled(s, e) {
      EffectIsLawful(s, e);
      LawfulChangesAdvance(s, Effect(s, e), c);
    }
  }

  /** The claim of an active row is the one its ledger numbers. */
  lemma CurrentClaimIs(s: State, c: Claim)
    requires Inv(s)
    requires c in s.claims && InClaim(s, c)
    ensures s.jobs[c.task].owner.Some? && s.jobs[c.task].lockAt.Some? && c == CurrentClaim(s, c.task)
  {
    assert ClaimInv(s, c);
  }

  /** The row is in the same claim, as far along as before. */
  ghost predicate Unmoved(s: State, t: State, token: Token, id: TaskId)
    requires OwnedUnder(t, token, id)
  {
    OwnedUnder(s, token, id) && CurrentClaim(t, id) == CurrentClaim(s, id) && t.jobs[id].status == s.jobs[id].status
  }

  /** What a transaction that may claim or start under the token does to a row. */
  ghost predicate JustStarted(s: State, t: State, token: Token, id: TaskId)
    requires OwnedUnder(t, token, id)
  {
    && OwnedUnder(s, token, id) && CurrentClaim(t, id) == CurrentClaim(s, id)
    && s.jobs[id].status.Queued? && t.jobs[id].status.Running?
  }

  predicate NewlyOwned(s: State, t: State, token: Token, id: TaskId)
    requires OwnedUnder(t, token, id)
  {
    CurrentClaim(t, id) !in s.claims && CurrentClaim(t, id) in t.claims
  }

  /** Only claims and locks take a row, and only starts and locks start one. */
  predicate TakesOnly(e: Event, id: TaskId, before: Row, after: Row) {
    && (NewlyClaimed(before, after) ==> (e.Fetch? && id in e.ids) || (e.Lock? && e.id == id))
    && (!before.status.Running? && after.status.Running? ==> (e.Start? || e.Lock?) && e.id == id)
  }

  lemma RecoveriesTakeNothing(s: State, e: Event, id: TaskId)
    requires Enabled(s, e) && (e.Register? || e.Sweep? || e.ReleaseWorker?) && id in s.jobs && id in Effect(s, e).jobs
    ensures TakesOnly(e, id, s.jobs[id], Effect(s, e).jobs[id])
  {
  }

  lemma OnlyClaimsTakeRows(s: State, e: Event, id: TaskId)
    requires TablesInv(s) && Enabled(s, e) && id in s.jobs && id in Effect(s, e).jobs
    ensures TakesOnly(e, id, s.jobs[id], Effect(s, e).jobs[id])
  {
    if e.Register? || e.Sweep? || e.ReleaseWorker? {
      RecoveriesTakeNothing(s, e, id);
    }
  }

  /** A row owned before and after a lawful change is in the same claim, unmoved
      or just started. */
  lemma LawfulRowsAdvance(s: State, next: State, token: Token, id: TaskId)
    requires TablesInv(s) && Lawful(s, next) && OwnedUnder(Observe(s, next), token, id)
    requires id in s.jobs && Active(s.jobs[id])
    ensures Unmoved(s, Observe(s, next), token, id) || JustStarted(s, Observe(s, next), token, id)
  {
    assert RowChange(s.jobs[id], next.jobs[id], s, next);
  }

  lemma KeptRowsAdvance(s: State, e: Event, token: Token, id: TaskId)
    requires Inv(s)
    requires OwnedUnder(Step(s, e), token, id) && Enabled(s, e)
    requires id in s.jobs && Active(s.jobs[id])
    ensures var t := Step(s, e);
            || Unmoved(s, t, token, id)
            || ((e.Start? || e.Lock?) && e.id == id && JustStarted(s, t, token, id))
  {
    EffectIsLawful(s, e);
    OnlyClaimsTakeRows(s, e, id);
    LawfulRowsAdvance(s, Effect(s, e), token, id);
  }

  lemma OldClaimsAreNumbered(s: State, id: TaskId)
    requires ClaimsInv(s)
    requires id in s.jobs
    ensures forall c :: c in s.claims && c.task == id ==> c.gen <= LedgerOf(s, id).gen
  {
    forall c | c in s.claims && c.task == id
      ensures c.gen <= LedgerOf(s, id).gen
    {
      assert ClaimInv(s, c);
    }
  }

  lemma LawfulClaimsAreNew(s: State, next: State, token: Token, id: TaskId)
    requires ClaimsInv(s) && Lawful(s, next) && OwnedUnder(Observe(s, next), token, id)
    requires id in s.jobs && !Active(s.jobs[id])
    ensures NewlyOwned(s, Observe(s, next), token, id)
  {
    OldClaimsAreNumbered(s, id);
  }

  lemma NewRowsAreFree(s: State, next: State, token: Token, id: TaskId)
    requires Lawful(s, next) && OwnedUnder(Observe(s, next), token, id)
    ensures id in s.jobs
  {
  }

  lemma TakenRowsAreNew(s: State, e: Event, token: Token, id: TaskId)
    requires Inv(s)
    requires OwnedUnder(Step(s, e), token, id) && Enabled(s, e)
    requires id !in s.jobs || !Active(s.jobs[id])
    ensures NewlyOwned(s, Step(s, e), token, id)
    ensures (e.Fetch? && id in e.ids) || (e.Lock? && e.id == id)
  {
    EffectIsLawful(s, e);
    NewRowsAreFree(s, Effect(s, e), token, id);
    OnlyClaimsTakeRows(s, e, id);
    LawfulClaimsAreNew(s, Effect(s, e), token, id);
  }

  /** Where a row that is owned after a transaction comes from. */
  ghost predicate HasOrigin(s: State, t: State, e: Event, token: Token, id: TaskId)
    requires OwnedUnder(t, token, id)
  {
    || Unmoved(s, t, token, id)
    || ((e.Start? || e.Lock?) && e.id == id && Enabled(s, e) && JustStarted(s, t, token, id))
    || (((e.Fetch? && id in e.ids) || (e.Lock? && e.id == id)) && Enabled(s, e) && NewlyOwned(s, t, token, id))
  }

  ghost predicate Advanced(s: State, t: State) {
    && s.claims <= t.claims && s.retired <= t.retired
    && (forall c :: Dead(s, c) ==> Dead(t, c))
    && (forall c :: Unstartable(s, c) ==> Unstartable(t, c))
  }

  /** `t` follows `s`, by the transaction `e` or by none. */
  ghost predicate Follows(s: State, t: State, e: Event, token: Token) {
    && Advanced(s, t)
    && (forall id :: OwnedUnder(t, token, id) ==> HasOrigin(s, t, e, token, id))
  }

  lemma StepAdvances(s: State, e: Event)
    requires Inv(s)
    ensures Advanced(s, Step(s, e))
  {
    if Enabled(s, e) {
      EffectIsLawful(s, e);
      LawfulAdvances(s, Effect(s, e));
    }
  }

  lemma LawfulAdvances(s: State, next: State)
    requires TablesInv(s) && ClaimsInv(s) && Lawful(s, next)
    ensures Advanced(s, Observe(s, next))
  {
    var t := Observe(s, next);
    forall c | c in s.claims
      ensures Dead(s, c) ==> Dead(t, c)
      ensures Unstartable(s, c) ==> Unstartable(t, c)
    {
      LawfulChangesAdvance(s, next, c);
    }
  }

  lemma {:induction false} DeadForever(s: State, events: seq<Event>, c: Claim)
    requires Inv(s) && Dead(s, c)
    ensures Inv(Run(s, events)) && Dead(Run(s, events), c)
    decreases |events|
  {
    if events != [] {
      StepKeepsInv(s, events[0]);
      ClaimsOnlyAdvance(s, events[0], c);
      DeadForever(Step(s, events[0]), events[1..], c);
    }
  }

  /** Whoever acknowledges a claim first is the last: after a matching
      acknowledgement or release of it, none of its statements matches again. */
  lemma ClaimsEndOnce(s: State, c: Claim, first: Event, between: seq<Event>, again: Event)
    requires Inv(s) && c in s.claims && Enabled(s, first)
    requires (first.Ack? || first.FailUndecodable?) && ActsFor(first, c) && ActsFor(again, c)
    ensures !Enabled(Run(Step(s, first), between), again)
  {
    ClaimEndsHere(s, c, first);
    StepKeepsInv(s, first);
    DeadForever(Step(s, first), between, c);
    GuardsMatchTheClaim(Run(Step(s, first), between), c, again);
  }

  lemma ClaimEndsHere(s: State, c: Claim, e: Event)
    requires c in s.claims && Enabled(s, e) && (e.Ack? || e.FailUndecodable?) && ActsFor(e, c)
    ensures Dead(Step(s, e), c)
  {
  }

  lemma StepFollows(s: State, e: Event, token: Token)
    requires Inv(s)
    ensures Follows(s, Step(s, e), e, token)
  {
    var t := Step(s, e);
    StepAdvances(s, e);
    forall id | OwnedUnder(t, token, id)
      ensures HasOrigin(s, t, e, token, id)
    {
      if Enabled(s, e) {
        if id in s.jobs && Active(s.jobs[id]) {
          KeptRowsAdvance(s, e, token, id);
        } else {
          TakenRowsAreNew(s, e, token, id);
        }
      }
    }
  }

  lemma StayingFollows(s: State, e: Event, token: Token)
    ensures Follows(s, s, e, token)
  {
  }

  /** A quiet transaction neither claims nor starts a row. */
  predicate Quiet(e: Event) {
    !e.Fetch? && !e.Lock? && !e.Start?
  }

  // -------------------------------------------------- what the process knows

  /** Time passed: nothing learnt before is undone. */
  ghost predicate Later(p: Process, q: Process) {
    q.token == p.token && Advanced(p.db, q.db) && p.done <= q.done && p.started <= q.started
  }

  /** Acknowledged means over. */
  ghost predicate RecordsInv(p: Process) {
    forall r :: r in p.done ==> Dead(p.db, r.claim)
  }

  ghost predicate StreamInv(p: Process, s: TaskStream) {
    s.guarded && !s.open ==> IsRetired(p, s.name)
  }

  ghost predicate FetchInv(p: Process, f: FetchJob) {
    && f.stream in p.streams && p.streams[f.stream].guarded
    && (f.answer.Some? && !f.answer.value.confirmed && !f.answer.value.unknown ==> f.answer.value.claims == {})
  }

  ghost predicate StreamsInv(p: Process) {
    && (forall id :: id in p.streams ==> StreamInv(p, p.streams[id]))
    && (forall job :: job in p.fetches ==> FetchInv(p, p.fetches[job]))
  }

  /** The record the guard consults is the record of the claim it dispatches. */
  ghost predicate OwnsRecord(p: Process, d: Dispatch) {
    && d.carried.Some? && Issued(p, d.carried.value)
    && d.claim == Some(d.carried.value.claim) && d.name == d.carried.value.claim.owner
  }

  predicate BeforeStart(phase: Phase) {
    phase.Called? || phase.Admitted? || phase.Starting?
  }

  /** A dispatch before its start: its guard is armed until it is dropped, and
      then the lease is retired, unless its claim was acknowledged. */
  ghost predicate StartInv(p: Process, d: Dispatch) {
    && OwnsRecord(p, d) && !d.ran
    && (d.carried.value in p.done || if d.live then d.armed else IsRetired(p, d.name))
  }

  /** The record a guard consults was acknowledged. */
  predicate Excused(p: Process, d: Dispatch) {
    d.carried.Some? && d.carried.value in p.done
  }

  /** The same for a dispatch that locks, whose guard consults the record the
      task arrived with. */
  ghost predicate LockInv(p: Process, d: Dispatch) {
    && d.claim.None? && !d.ran && ArrivedWith(p, d)
    && if d.live then d.armed else IsRetired(p, d.name) || Excused(p, d)
  }

  predicate ArrivedWith(p: Process, d: Dispatch) {
    d.carried.Some? ==> Issued(p, d.carried.value) && d.carried.value.claim.task == d.task
  }

  /** A claim this dispatch moved to `Running`, or found there. */
  ghost predicate RanClaim(p: Process, d: Dispatch) {
    d.claim.Some? ==> d.claim.value.token == Some(p.token) && d.claim.value.owner == d.name && Unstartable(p.db, d.claim.value)
  }

  ghost predicate LockAnswerInv(p: Process, d: Dispatch, reply: Reply) {
    && RanClaim(p, d) && ArrivedWith(p, d) && (d.live ==> d.armed)
    && (d.claim.Some? && d.carried.Some? ==> Unstartable(p.db, d.carried.value.claim))
    && (reply.Matched? ==> d.ran && d.claim.Some?) && (reply.Missed? ==> d.claim.None?)
  }

  ghost predicate DispatchInv(p: Process, d: Dispatch) {
    match d.phase
    case Called => StartInv(p, d)
    case Admitted(_) => StartInv(p, d)
    case Starting(_) => StartInv(p, d)
    case StartAnswered(reply) =>
      && OwnsRecord(p, d) && (d.ran ==> RanClaim(p, d))
      && (reply.Missed? ==> !d.ran && Unstartable(p.db, d.claim.value)) && (reply.Matched? ==> d.ran)
    case LockCalled => d.claim.None? && !d.ran && ArrivedWith(p, d)
    case Locking => LockInv(p, d)
    case LockAnswered(reply) => LockAnswerInv(p, d, reply)
    case Handling => OwnsRecord(p, d) && d.carried.value in p.started && d.ran && RanClaim(p, d)
    case Acknowledging(_) => OwnsRecord(p, d) && d.carried.value in p.started && d.ran && RanClaim(p, d)
    case Ended => !d.live
  }

  /** A dispatch that acknowledges waits for an acknowledgement of its own claim,
      which has no reason to be skipped. */
  ghost predicate AwaitsAck(p: Process, d: Dispatch) {
    d.live && d.phase.Acknowledging? && d.carried.Some? ==>
      d.phase.ack in p.acks && p.acks[d.phase.ack].record == d.carried.value && !p.acks[d.phase.ack].phase.Skipped?
  }

  ghost predicate DispatchesInv(p: Process) {
    forall id :: id in p.dispatches ==> DispatchInv(p, p.dispatches[id]) && AwaitsAck(p, p.dispatches[id])
  }

  /** An acknowledgement that is over wrote, lost its claim, was refused a start,
      or retired the lease. */
  ghost predicate AckInv(p: Process, a: Acknowledgement) {
    && Issued(p, a.record)
    && (a.wrote ==> Dead(p.db, a.record.claim) && a.phase.Answered?)
    && (a.phase == Answered(true) ==> a.wrote)
    && (a.phase.Skipped? ==> !a.live)
    && (!a.live ==> a.phase.Skipped? || Dead(p.db, a.record.claim) || IsRetired(p, a.record.claim.owner))
  }

  ghost predicate AcksInv(p: Process) {
    forall id :: id in p.acks ==> AckInv(p, p.acks[id])
  }

  ghost predicate Cover(p: Process) {
    forall id :: Owned(p, id) ==> Covered(p, id)
  }

  /** The name of a lock dispatch that was dropped with its statement on its way
      is retired. */
  ghost predicate LocksGuarded(p: Process) {
    forall id :: id in p.dispatches && p.dispatches[id].phase.Locking? && !p.dispatches[id].live ==>
      IsRetired(p, p.dispatches[id].name)
  }

  /** Every claim is covered, and will be when a late lock statement commits. */
  ghost predicate Covering(p: Process) {
    Cover(p) && LocksGuarded(p)
  }

  ghost predicate ProcessInv(p: Process) {
    RecordsInv(p) && StreamsInv(p) && DispatchesInv(p) && AcksInv(p)
  }

  /** What one step leaves alone stays right. */
  lemma StreamsStayRight(p: Process, q: Process)
    requires Later(p, q) && StreamsInv(p) && q.streams == p.streams && q.fetches == p.fetches
    ensures StreamsInv(q)
  {
  }

  lemma RecordsStayRight(p: Process, q: Process)
    requires Later(p, q) && RecordsInv(p) && q.done == p.done
    ensures RecordsInv(q)
  {
  }

  lemma DispatchStaysRight(p: Process, q: Process, d: Dispatch)
    requires Later(p, q) && DispatchInv(p, d)
    ensures DispatchInv(q, d)
  {
  }

  lemma AckStaysRight(p: Process, q: Process, a: Acknowledgement)
    requires Later(p, q) && AckInv(p, a)
    ensures AckInv(q, a)
  {
  }

  lemma DispatchesStayRight(p: Process, q: Process)
    requires Later(p, q) && DispatchesInv(p) && q.dispatches == p.dispatches && q.acks == p.acks
    ensures DispatchesInv(q)
  {
    forall id | id in q.dispatches
      ensures DispatchInv(q, q.dispatches[id]) && AwaitsAck(q, q.dispatches[id])
    {
      DispatchStaysRight(p, q, p.dispatches[id]);
    }
  }

  lemma AcksStayRight(p: Process, q: Process)
    requires Later(p, q) && AcksInv(p) && q.acks == p.acks
    ensures AcksInv(q)
  {
    forall id | id in q.acks
      ensures AckInv(q, q.acks[id])
    {
      AckStaysRight(p, q, p.acks[id]);
    }
  }

  // ------------------------------------------------------------ stream moves

  /** A stream move touches nothing but streams, their fetches, and the tables. */
  ghost predicate StreamFrame(p: Process, q: Process) {
    && q.dispatches == p.dispatches && q.acks == p.acks
    && q.done == p.done && q.started == p.started && q.attempted == p.attempted
    && p.waiting <= q.waiting && Later(p, q)
  }

  lemma FrameKeepsRecords(p: Process, q: Process)
    requires StreamFrame(p, q) && ProcessInv(p)
    ensures RecordsInv(q) && DispatchesInv(q) && AcksInv(q)
  {
    RecordsStayRight(p, q);
    DispatchesStayRight(p, q);
    AcksStayRight(p, q);
  }

  ghost predicate AllUnmoved(p: Process, q: Process) {
    q.token == p.token && forall id :: Owned(q, id) ==> Unmoved(p.db, q.db, q.token, id)
  }

  /** Held in `q`, excused by a retirement, or over. */
  ghost predicate Accounted(q: Process, c: Claim) {
    Held(q, c) || IsRetired(q, c.owner) || !InClaim(q.db, c)
  }

  /** Streams may move what they hold, drop it after retiring the lease, or let
      go of claims that are over. */
  lemma StreamChangeCovers(p: Process, q: Process)
    requires StreamFrame(p, q) && Cover(p)
    requires forall id :: Owned(q, id) ==> Covered(q, id) || Unmoved(p.db, q.db, q.token, id)
    requires forall c, id :: StreamKeeps(p, id, c) ==> Accounted(q, c)
    requires forall c, job :: FetchKeeps(p, job, c) ==> Accounted(q, c)
    ensures Cover(q)
  {
    forall id | Owned(q, id)
      ensures Covered(q, id)
    {
      if !Covered(q, id) {
        var c := CurrentClaim(q.db, id);
        assert Covered(p, id) && InClaim(q.db, c);
        SameDispatchesHold(p, q, c);
      }
    }
  }

  /** A claim held in `p` is accounted for in `q` when streams account for theirs. */
  lemma SameDispatchesHold(p: Process, q: Process, c: Claim)
    requires q.dispatches == p.dispatches && p.waiting <= q.waiting
    requires forall id :: StreamKeeps(p, id, c) ==> Accounted(q, c)
    requires forall job :: FetchKeeps(p, job, c) ==> Accounted(q, c)
    ensures Held(p, c) ==> Accounted(q, c)
    ensures HeldByStarter(p, c) ==> HeldByStarter(q, c)
  {
    if id :| DispatchKeeps(p, id, c) {
      assert DispatchKeeps(q, id, c);
    }
    if id :| LockCarries(p, id, c) {
      assert LockCarries(q, id, c);
    }
    if id :| DispatchKeeps(p, id, c) && p.dispatches[id].ran {
      assert DispatchKeeps(q, id, c);
    }
  }

  /** The tables after a quiet transaction, or after none. */
  lemma QuietlyLater(p: Process, q: Process, e: Event)
    requires Inv(p.db) && Quiet(e) && (q.db == p.db || q.db == Step(p.db, e))
    requires q.token == p.token && p.done <= q.done && p.started <= q.started
    ensures Later(p, q) && AllUnmoved(p, q)
  {
    if q.db == p.db {
      StayingFollows(p.db, e, p.token);
    } else {
      StepFollows(p.db, e, p.token);
    }
  }

  /** The tables do not move. */
  lemma StandsStill(p: Process, q: Process)
    requires q.db == p.db && q.token == p.token && p.done <= q.done && p.started <= q.started
    ensures Later(p, q) && AllUnmoved(p, q)
  {
  }

  /** A retirement touches no row and no registration. */
  lemma RetirementIsQuiet(p: Process, q: Process, name: Name)
    requires q.db == p.db || q.db == Step(p.db, Retire(p.token, name))
    requires q.token == p.token && p.done <= q.done && p.started <= q.started
    ensures Later(p, q) && AllUnmoved(p, q)
  {
  }

  lemma RegisteringKeeps(p: Process, q: Process, id: StreamId)
    requires StreamFrame(p, q) && AllUnmoved(p, q) && StreamsInv(p)
    requires q.fetches == p.fetches && q.streams.Keys == p.streams.Keys + {id}
    requires forall k :: k in p.streams && k != id ==> q.streams[k] == p.streams[k]
    requires id in p.streams ==> !p.streams[id].guarded
    requires q.streams[id].open || !q.streams[id].guarded
    ensures StreamsInv(q) && (Cover(p) ==> Cover(q))
  {
    forall c, k | StreamKeeps(p, k, c)
      ensures Accounted(q, c)
    {
      assert StreamKeeps(q, k, c);
    }
    forall c, job | FetchKeeps(p, job, c)
      ensures Accounted(q, c)
    {
      assert FetchKeeps(q, job, c);
    }
    if Cover(p) {
      StreamChangeCovers(p, q);
    }
  }

  lemma IssuingKeeps(p: Process, q: Process, id: StreamId, job: JobId)
    requires StreamFrame(p, q) && AllUnmoved(p, q) && StreamsInv(p)
    requires CanStream(p, IssueFetch(id, job))
    requires q.streams == p.streams && q.fetches == p.fetches[job := FetchJob(id, None)]
    ensures StreamsInv(q) && (Cover(p) ==> Cover(q))
  {
    forall c, k | StreamKeeps(p, k, c)
      ensures Accounted(q, c)
    {
      assert StreamKeeps(q, k, c);
    }
    forall c, k | FetchKeeps(p, k, c)
      ensures Accounted(q, c)
    {
      assert FetchKeeps(q, k, c);
    }
    if Cover(p) {
      StreamChangeCovers(p, q);
    }
  }

  lemma ReceivingFetchKeeps(p: Process, q: Process, job: JobId)
    requires StreamFrame(p, q) && AllUnmoved(p, q) && StreamsInv(p)
    requires CanStream(p, ReceiveFetch(job))
    requires var id, answer := p.fetches[job].stream, p.fetches[job].answer.value;
             var s := p.streams[id];
             && q.fetches == p.fetches - {job}
             && q.streams == (if answer.confirmed then p.streams[id := s.(buffer := s.buffer + answer.claims)]
                              else p.streams)
             && (!answer.confirmed && answer.unknown ==> IsRetired(q, s.name))
    ensures StreamsInv(q) && (Cover(p) ==> Cover(q))
  {
    forall c, k | StreamKeeps(p, k, c)
      ensures Accounted(q, c)
    {
      assert StreamKeeps(q, k, c);
    }
    forall c, k | FetchKeeps(p, k, c)
      ensures Accounted(q, c)
    {
      assert StreamKeeps(q, p.fetches[job].stream, c) || IsRetired(q, c.owner) || FetchKeeps(q, k, c);
    }
    if Cover(p) {
      StreamChangeCovers(p, q);
    }
  }

  /** A claim leaves the buffer for the consumer or for the release obligation,
      or the release obligation ends. */
  lemma BufferMoveKeeps(p: Process, q: Process, id: StreamId, s: TaskStream)
    requires StreamFrame(p, q) && AllUnmoved(p, q) && StreamsInv(p)
    requires id in p.streams && q.fetches == p.fetches && q.streams == p.streams[id := s]
    requires s == p.streams[id].(buffer := s.buffer, releasing := s.releasing)
    requires forall c :: c in p.streams[id].buffer ==> c in s.buffer || c in q.waiting || s.releasing == Some(c)
    requires p.streams[id].releasing != s.releasing && p.streams[id].releasing.Some? ==>
               IsRetired(q, s.name) || !InClaim(q.db, p.streams[id].releasing.value)
    ensures StreamsInv(q) && (Cover(p) ==> Cover(q))
  {
    forall c, k | StreamKeeps(p, k, c)
      ensures Accounted(q, c)
    {
      assert StreamKeeps(q, k, c) || c in q.waiting || IsRetired(q, c.owner) || !InClaim(q.db, c);
    }
    forall c, k | FetchKeeps(p, k, c)
      ensures Accounted(q, c)
    {
      assert FetchKeeps(q, k, c);
    }
    if Cover(p) {
      StreamChangeCovers(p, q);
    }
  }

  lemma ClosingKeeps(p: Process, q: Process, id: StreamId)
    requires StreamFrame(p, q) && AllUnmoved(p, q) && StreamsInv(p)
    requires id in p.streams && q.fetches == p.fetches
    requires q.streams == p.streams[id := p.streams[id].(open := false)]
    requires p.streams[id].guarded ==> IsRetired(q, p.streams[id].name)
    ensures StreamsInv(q) && (Cover(p) ==> Cover(q))
  {
    forall c, k | StreamKeeps(p, k, c)
      ensures Accounted(q, c)
    {
      assert StreamKeeps(q, k, c) || IsRetired(q, c.owner);
    }
    forall c, k | FetchKeeps(p, k, c)
      ensures Accounted(q, c)
    {
      assert FetchKeeps(q, k, c) || IsRetired(q, c.owner);
    }
    if Cover(p) {
      StreamChangeCovers(p, q);
    }
  }

  /** The rows a claim statement took are in the batch it will answer with. */
  lemma CommittingFetchKeeps(p: Process, q: Process, job: JobId, answer: FetchAnswer)
    requires StreamFrame(p, q) && StreamsInv(p)
    requires job in p.fetches && p.fetches[job].stream in p.streams && p.fetches[job].answer.None?
    requires q.streams == p.streams && q.fetches == p.fetches[job := p.fetches[job].(answer := Some(answer))]
    requires answer.claims == q.db.claims - p.db.claims
    requires !answer.confirmed && !answer.unknown ==> answer.claims == {}
    requires forall id :: Owned(q, id) ==>
               || Unmoved(p.db, q.db, q.token, id)
               || (NewlyOwned(p.db, q.db, q.token, id) && q.db.jobs[id].status.Queued?
                   && CurrentClaim(q.db, id).owner == p.streams[p.fetches[job].stream].name)
    ensures StreamsInv(q) && (Cover(p) ==> Cover(q))
  {
    forall id | Owned(q, id) && NewlyOwned(p.db, q.db, q.token, id) && q.db.jobs[id].status.Queued?
                && CurrentClaim(q.db, id).owner == p.streams[p.fetches[job].stream].name
      ensures Covered(q, id)
    {
      assert IsRetired(q, CurrentClaim(q.db, id).owner) || FetchKeeps(q, job, CurrentClaim(q.db, id));
    }
    forall c, k | StreamKeeps(p, k, c)
      ensures Accounted(q, c)
    {
      assert StreamKeeps(q, k, c);
    }
    forall c, k | FetchKeeps(p, k, c)
      ensures Accounted(q, c)
    {
      assert FetchKeeps(q, k, c);
    }
    if Cover(p) {
      StreamChangeCovers(p, q);
    }
  }

  /** What a claim statement does to the rows of a token. */
  ghost predicate FetchedUnder(s: State, t: State, e: Event, token: Token)
    requires e.Fetch?
  {
    && Advanced(s, t) && (e.ids <= e.malformed ==> t.claims == s.claims)
    && forall id :: OwnedUnder(t, token, id) ==>
         || Unmoved(s, t, token, id)
         || (NewlyOwned(s, t, token, id) && t.jobs[id].status.Queued? && CurrentClaim(t, id).owner == e.name)
  }

  lemma FetchTakesItsRows(s: State, e: Event, token: Token)
    requires Inv(s) && e.Fetch? && Enabled(s, e)
    ensures FetchedUnder(s, Step(s, e), e, token)
  {
    var t := Step(s, e);
    StepFollows(s, e, token);
    if e.ids <= e.malformed {
      QuarantineIssuesNothing(s, e);
    }
    forall id | OwnedUnder(t, token, id) && id in e.ids
      ensures t.jobs[id].status.Queued? && CurrentClaim(t, id).owner == e.name
    {
      assert t.jobs[id] == ClaimRow(s.jobs[id], e.name, id in e.malformed, e.at);
    }
  }

  lemma CommittedFetch(p: Process, job: JobId, ids: set<TaskId>, malformed: set<TaskId>, at: Instant, commit: Commit)
    requires Inv(p.db) && ProcessInv(p)
    requires CanStream(p, CommitFetch(job, ids, malformed, at, commit))
    ensures var q := CommitFetchOf(p, job, ids, malformed, at, commit);
            StreamFrame(p, q) && StreamsInv(q) && (Cover(p) ==> Cover(q))
  {
    var e := FetchEvent(p, p.streams[p.fetches[job].stream], ids, malformed, at);
    if !commit.Applied() || !Enabled(p.db, e) {
      StayingFollows(p.db, e, p.token);
    } else {
      FetchTakesItsRows(p.db, e, p.token);
    }
    FetchCommitted(p, job, ids, malformed, at, commit);
  }

  lemma FetchCommitted(p: Process, job: JobId, ids: set<TaskId>, malformed: set<TaskId>, at: Instant, commit: Commit)
    requires ProcessInv(p) && CanStream(p, CommitFetch(job, ids, malformed, at, commit))
    requires var e := FetchEvent(p, p.streams[p.fetches[job].stream], ids, malformed, at);
             if commit.Applied() && Enabled(p.db, e) then FetchedUnder(p.db, Step(p.db, e), e, p.token)
             else Follows(p.db, p.db, e, p.token)
    ensures var q := CommitFetchOf(p, job, ids, malformed, at, commit);
            StreamFrame(p, q) && StreamsInv(q) && (Cover(p) ==> Cover(q))
  {
    var q := CommitFetchOf(p, job, ids, malformed, at, commit);
    CommittingFetchKeeps(p, q, job, q.fetches[job].answer.value);
  }

  /** A quiet transaction, followed by a retirement, is quiet as well. */
  lemma QuietlyRetired(p: Process, r: Process, q: Process, e: Event, name: Name)
    requires Inv(p.db) && Quiet(e) && (r.db == p.db || r.db == Step(p.db, e)) && r == p.(db := r.db)
    requires q.db == r.db || q.db == Step(r.db, Retire(r.token, name))
    requires q.token == r.token && r.done <= q.done && r.started <= q.started
    ensures Later(p, q) && AllUnmoved(p, q)
  {
    QuietlyLater(p, r, e);
    RetirementIsQuiet(r, q, name);
    forall id | Owned(q, id)
      ensures Unmoved(p.db, q.db, q.token, id)
    {
      assert Unmoved(r.db, q.db, q.token, id) && Unmoved(p.db, r.db, q.token, id);
    }
  }

  /** A release attempt may run two transactions: its own, and a retirement. */
  lemma ReleaseIsLater(p: Process, id: StreamId, at: Instant, commit: Commit, exhausted: bool)
    requires Inv(p.db) && CanStream(p, TryRelease(id, at, commit, exhausted))
    ensures var q := TryReleaseOf(p, id, at, commit, exhausted);
            StreamFrame(p, q) && AllUnmoved(p, q)
  {
    var q := TryReleaseOf(p, id, at, commit, exhausted);
    var e := ReleaseEvent(p, p.streams[id].releasing.value, at);
    var r := p.(db := if commit.Applied() then Step(p.db, e) else p.db);
    QuietlyRetired(p, r, q, e, p.streams[id].name);
  }

  lemma ReleasedRowIsOver(s: State, e: Event, c: Claim)
    requires e.FailUndecodable? && e.id == c.task && Enabled(s, e)
    ensures !InClaim(Step(s, e), c)
  {
  }

  lemma TriedRelease(p: Process, id: StreamId, at: Instant, commit: Commit, exhausted: bool)
    requires ProcessInv(p) && CanStream(p, TryRelease(id, at, commit, exhausted))
    requires var q := TryReleaseOf(p, id, at, commit, exhausted);
             StreamFrame(p, q) && AllUnmoved(p, q)
    ensures var q := TryReleaseOf(p, id, at, commit, exhausted);
            StreamsInv(q) && (Cover(p) ==> Cover(q))
  {
    var q := TryReleaseOf(p, id, at, commit, exhausted);
    var c := p.streams[id].releasing.value;
    var e := ReleaseEvent(p, c, at);
    if commit.Confirmed? && Enabled(p.db, e) {
      ReleasedRowIsOver(p.db, e, c);
    }
    BufferMoveKeeps(p, q, id, q.streams[id]);
  }

  lemma ReceivedFetch(p: Process, job: JobId)
    requires ProcessInv(p) && CanStream(p, ReceiveFetch(job))
    ensures var q := ReceiveFetchOf(p, job);
            StreamFrame(p, q) && StreamsInv(q) && (Cover(p) ==> Cover(q))
  {
    var q := ReceiveFetchOf(p, job);
    RetirementIsQuiet(p, q, p.streams[p.fetches[job].stream].name);
    ReceivingFetchKeeps(p, q, job);
  }

  lemma DroppedStream(p: Process, id: StreamId)
    requires ProcessInv(p) && CanStream(p, DropStream(id))
    ensures var q := DropStreamOf(p, id);
            StreamFrame(p, q) && StreamsInv(q) && (Cover(p) ==> Cover(q))
  {
    var q := DropStreamOf(p, id);
    RetirementIsQuiet(p, q, p.streams[id].name);
    ClosingKeeps(p, q, id);
  }

  /** Moves of a stream that leave the tables alone. */
  lemma StillStreamMovesKeep(p: Process, m: StreamMove)
    requires ProcessInv(p) && CanStream(p, m)
    requires m.OpenStream? || m.IssueFetch? || m.YieldTask? || m.FailDecode?
    ensures var q := StreamStep(p, m);
            StreamFrame(p, q) && StreamsInv(q) && (Cover(p) ==> Cover(q))
  {
    var q := StreamStep(p, m);
    StandsStill(p, q);
    match m {
      case OpenStream(id, _, _) => RegisteringKeeps(p, q, id);
      case IssueFetch(id, job) => IssuingKeeps(p, q, id, job);
      case YieldTask(id, _) => BufferMoveKeeps(p, q, id, q.streams[id]);
      case FailDecode(id, _) => BufferMoveKeeps(p, q, id, q.streams[id]);
    }
  }

  lemma RegisteredStream(p: Process, id: StreamId, staleAfter: int, at: Instant)
    requires Inv(p.db) && ProcessInv(p) && CanStream(p, RegisterStream(id, staleAfter, at))
    ensures var q := RegisterStreamOf(p, id, staleAfter, at);
            StreamFrame(p, q) && StreamsInv(q) && (Cover(p) ==> Cover(q))
  {
    var q := RegisterStreamOf(p, id, staleAfter, at);
    QuietlyLater(p, q, Register(p.streams[id].name, p.streams[id].queue, p.token, staleAfter, at));
    RegisteringKeeps(p, q, id);
  }

  lemma StreamMovesKeep(p: Process, m: StreamMove)
    requires Inv(p.db) && ProcessInv(p) && CanStream(p, m)
    ensures var q := StreamStep(p, m);
            StreamFrame(p, q) && StreamsInv(q) && (Cover(p) ==> Cover(q))
  {
    match m {
      case RegisterStream(id, staleAfter, at) => RegisteredStream(p, id, staleAfter, at);
      case CommitFetch(job, ids, malformed, at, commit) => CommittedFetch(p, job, ids, malformed, at, commit);
      case ReceiveFetch(job) => ReceivedFetch(p, job);
      case TryRelease(id, at, commit, exhausted) =>
        ReleaseIsLater(p, id, at, commit, exhausted);
        TriedRelease(p, id, at, commit, exhausted);
      case DropStream(id) => DroppedStream(p, id);
      case _ => StillStreamMovesKeep(p, m);
    }
  }

  // ---------------------------------------------------------- dispatch moves

  /** A dispatch move touches one dispatch and the tables. */
  ghost predicate DispatchFrame(p: Process, q: Process, id: DispatchId) {
    && q.streams == p.streams && q.fetches == p.fetches && q.done == p.done
    && q.dispatches.Keys == p.dispatches.Keys + {id}
    && (forall k :: k in p.dispatches && k != id ==> q.dispatches[k] == p.dispatches[k])
    && Later(p, q)
  }

  /** A move that issues no statement and moves no row. */
  ghost predicate PlainMove(p: Process, q: Process, id: DispatchId) {
    DispatchFrame(p, q, id) && AllUnmoved(p, q) && q.acks == p.acks && q.waiting == p.waiting && id in p.dispatches
  }

  /** The changed dispatch is as it should be. */
  ghost predicate DispatchRight(q: Process, id: DispatchId) {
    id in q.dispatches && DispatchInv(q, q.dispatches[id]) && AwaitsAck(q, q.dispatches[id])
  }

  lemma DispatchFrameKeeps(p: Process, q: Process, id: DispatchId)
    requires DispatchFrame(p, q, id) && q.acks == p.acks && ProcessInv(p) && DispatchRight(q, id)
    ensures ProcessInv(q)
  {
    StreamsStayRight(p, q);
    RecordsStayRight(p, q);
    AcksStayRight(p, q);
    forall k | k in q.dispatches
      ensures DispatchInv(q, q.dispatches[k]) && AwaitsAck(q, q.dispatches[k])
    {
      if k != id {
        DispatchStaysRight(p, q, p.dispatches[k]);
      }
    }
  }

  /** The dispatch still answers for the claim it keeps, or need not. */
  ghost predicate Discharged(p: Process, q: Process, id: DispatchId, c: Claim)
    requires id in p.dispatches
  {
    || (DispatchKeeps(q, id, c) && (p.dispatches[id].ran ==> q.dispatches[id].ran))
    || IsRetired(q, c.owner)
    || !InClaim(q.db, c)
    || (!p.dispatches[id].ran && Unstartable(q.db, c))
  }

  /** The same for the claim it only carries, which matters until it is started. */
  ghost predicate PassedOn(q: Process, id: DispatchId, c: Claim) {
    LockCarries(q, id, c) || DispatchKeeps(q, id, c) || IsRetired(q, c.owner) || !InClaim(q.db, c) || Unstartable(q.db, c)
  }

  ghost predicate LetsGoWell(p: Process, q: Process, id: DispatchId) {
    && (forall c :: DispatchKeeps(p, id, c) ==> Discharged(p, q, id, c))
    && (forall c :: LockCarries(p, id, c) ==> PassedOn(q, id, c))
    && (forall c :: c in p.waiting ==> c in q.waiting || Accounted(q, c))
    && (id in q.dispatches && q.dispatches[id].phase.Locking? && !q.dispatches[id].live ==>
          IsRetired(q, q.dispatches[id].name))
  }

  lemma DispatchChangeCovers(p: Process, q: Process, id: DispatchId)
    requires DispatchFrame(p, q, id) && Covering(p) && LetsGoWell(p, q, id)
    requires forall i :: Owned(q, i) ==> Covered(q, i) || Unmoved(p.db, q.db, q.token, i)
    ensures Covering(q)
  {
    forall i | Owned(q, i)
      ensures Covered(q, i)
    {
      if !Covered(q, i) {
        assert Covered(p, i);
        OtherDispatchesHold(p, q, id, CurrentClaim(q.db, i));
      }
    }
  }

  lemma OtherDispatchesHold(p: Process, q: Process, id: DispatchId, c: Claim)
    requires DispatchFrame(p, q, id) && InClaim(q.db, c) && !IsRetired(q, c.owner) && LetsGoWell(p, q, id)
    ensures Held(p, c) && !Unstartable(q.db, c) ==> Held(q, c)
    ensures HeldByStarter(p, c) ==> HeldByStarter(q, c)
  {
    if k :| StreamKeeps(p, k, c) {
      assert StreamKeeps(q, k, c);
    }
    if k :| FetchKeeps(p, k, c) {
      assert FetchKeeps(q, k, c);
    }
    if k :| DispatchKeeps(p, k, c) {
      assert k == id || DispatchKeeps(q, k, c);
    }
    if k :| LockCarries(p, k, c) {
      assert k == id || LockCarries(q, k, c);
    }
    if k :| DispatchKeeps(p, k, c) && p.dispatches[k].ran {
      assert k == id || DispatchKeeps(q, k, c);
    }
  }

  lemma CallKeeps(p: Process, q: Process, id: DispatchId, r: RecordId)
    requires DispatchFrame(p, q, id) && AllUnmoved(p, q) && q.acks == p.acks
    requires RecordsInv(p) && CanDispatch(p, Call(id, r))
    requires q.waiting == CallOf(p, id, r).waiting && q.dispatches[id] == CallOf(p, id, r).dispatches[id]
    ensures DispatchRight(q, id) && (Covering(p) ==> Covering(q))
  {
    if Covering(p) {
      forall c | c in p.waiting
        ensures c in q.waiting || Accounted(q, c)
      {
        assert c in q.waiting || DispatchKeeps(q, id, c) || !InClaim(q.db, c);
      }
      DispatchChangeCovers(p, q, id);
    }
  }

  lemma CallLockKeeps(p: Process, q: Process, m: DispatchMove)
    requires m.CallLock? && CanDispatch(p, m) && DispatchFrame(p, q, m.dispatch) && AllUnmoved(p, q) && q.acks == p.acks
    requires q.waiting == CallLockOf(p, m.dispatch, m.name, m.task, m.scope, m.carried).waiting
    requires q.dispatches[m.dispatch] == Dispatch(m.name, m.task, m.scope, m.carried, None, true, false, false, LockCalled)
    ensures DispatchRight(q, m.dispatch) && (Covering(p) ==> Covering(q))
  {
    if Covering(p) {
      forall c | c in p.waiting
        ensures c in q.waiting || Accounted(q, c)
      {
        assert c in q.waiting || LockCarries(q, m.dispatch, c);
      }
      DispatchChangeCovers(p, q, m.dispatch);
    }
  }

  /** The dispatch ends disarmed: what it kept is excused by a retirement, is
      over, or was started by another dispatch; what it carried is over. */
  lemma DisarmKeeps(p: Process, q: Process, id: DispatchId)
    requires PlainMove(p, q, id)
    requires q.dispatches[id] == p.dispatches[id].(live := false, armed := false, phase := Ended)
    requires var d := p.dispatches[id];
             d.claim.Some? ==>
               var c := d.claim.value;
               IsRetired(q, c.owner) || !InClaim(q.db, c) || (!d.ran && Unstartable(q.db, c))
    ensures DispatchRight(q, id)
    ensures Covering(p) && (forall c :: LockCarries(p, id, c) ==> PassedOn(q, id, c)) ==> Covering(q)
  {
    if Covering(p) && forall c :: LockCarries(p, id, c) ==> PassedOn(q, id, c) {
      DispatchChangeCovers(p, q, id);
    }
  }

  /** The dispatch moves on and holds what it held. */
  lemma AdvanceKeeps(p: Process, q: Process, id: DispatchId)
    requires PlainMove(p, q, id) && DispatchRight(q, id)
    requires var d, after := p.dispatches[id], q.dispatches[id];
             && after.name == d.name && after.claim == d.claim && after.ran == d.ran && after.live == d.live
             && (d.live && d.armed ==> after.armed) && (after.phase.Locking? ==> after.live)
             && (forall c :: LockCarries(p, id, c) ==> PassedOn(q, id, c))
    ensures Covering(p) ==> Covering(q)
  {
    forall c | DispatchKeeps(p, id, c)
      ensures DispatchKeeps(q, id, c)
    {
    }
    if Covering(p) {
      DispatchChangeCovers(p, q, id);
    }
  }

  /** What has to hold for a dispatch that ends with its guard as it is: a claim
      it locked, or may still lock, and a claim it carried are under that guard. */
  ghost predicate Guarded(p: Process, d: Dispatch) {
    && (InLock(d.phase) && CarriesUnstarted(p, d) ==> d.armed && d.carried.value.claim.owner == d.name)
    && (d.phase.Locking? || (d.phase.LockAnswered? && d.claim.Some?) ==> !Excused(p, d))
  }

  /** The task arrived with the record of a claim that still waits for its start. */
  predicate CarriesUnstarted(p: Process, d: Dispatch) {
    && d.carried.Some? && InClaim(p.db, d.carried.value.claim)
    && p.db.jobs[d.carried.value.claim.task].status.Queued?
  }

  /** The future ends as it is. Its guard retires the lease unless its record
      was acknowledged. */
  lemma AbandonKeeps(p: Process, q: Process, id: DispatchId)
    requires PlainMove(p, q, id) && RecordsInv(p) && DispatchesInv(p)
    requires q.dispatches[id] == p.dispatches[id].(live := false)
    requires p.dispatches[id].armed && !Excused(p, p.dispatches[id]) ==> IsRetired(q, p.dispatches[id].name)
    requires p.dispatches[id].live
    ensures DispatchRight(q, id) && (Covering(p) && Guarded(p, p.dispatches[id]) ==> Covering(q))
  {
    var d := p.dispatches[id];
    assert DispatchInv(p, d);
    DispatchStaysRight(p, q, d);
    if Covering(p) && Guarded(p, d) {
      AbandonLetsGo(p, q, id);
      DispatchChangeCovers(p, q, id);
    }
  }

  lemma AbandonLetsGo(p: Process, q: Process, id: DispatchId)
    requires PlainMove(p, q, id) && RecordsInv(p) && DispatchesInv(p) && Guarded(p, p.dispatches[id])
    requires q.dispatches[id] == p.dispatches[id].(live := false)
    requires p.dispatches[id].armed && !Excused(p, p.dispatches[id]) ==> IsRetired(q, p.dispatches[id].name)
    requires p.dispatches[id].live
    ensures LetsGoWell(p, q, id)
  {
    var d := p.dispatches[id];
    assert DispatchInv(p, d);
    forall c | DispatchKeeps(p, id, c)
      ensures IsRetired(q, c.owner) || !InClaim(q.db, c)
    {
      if Excused(p, d) {
        assert OwnsRecord(p, d);
        assert Dead(p.db, c);
      }
    }
    forall c | LockCarries(p, id, c)
      ensures PassedOn(q, id, c)
    {
      if Excused(p, d) {
        assert Dead(p.db, c);
      } else if !CarriesUnstarted(p, d) {
        assert Unstartable(p.db, c);
      }
    }
  }

  // Each statement a dispatch issues, and what its answer does.

  lemma StartCommitted(p: Process, q: Process, id: DispatchId, commit: Commit)
    requires DispatchFrame(p, q, id) && q.acks == p.acks && q.waiting == p.waiting
    requires RecordsInv(p) && DispatchesInv(p) && CanDispatch(p, CommitStart(id, commit))
    requires var d := p.dispatches[id];
             var c, e := d.claim.value, StartEvent(p, d.claim.value, d.phase.restart);
             && (Enabled(p.db, e) <==> MayActNow(p.db, e, c))
             && (commit.Applied() && Enabled(p.db, e) ==> Unstartable(q.db, c))
             && (forall i :: Owned(q, i) && !Unmoved(p.db, q.db, q.token, i) ==>
                   commit.Applied() && Enabled(p.db, e) && q.db.jobs[i].status.Running? && CurrentClaim(q.db, i) == c)
             && q.dispatches[id] == d.(ran := commit.Applied() && Enabled(p.db, e),
                                       phase := StartAnswered(ReplyOf(commit, Enabled(p.db, e))))
    ensures DispatchRight(q, id) && (Covering(p) ==> Covering(q))
  {
    var d := p.dispatches[id];
    var c, e := d.claim.value, StartEvent(p, d.claim.value, d.phase.restart);
    assert StartInv(p, d);
    if !Enabled(p.db, e) {
      assert Unstartable(p.db, c);
    }
    if Covering(p) {
      if Enabled(p.db, e) {
        assert !Dead(p.db, c);
      }
      forall i | Owned(q, i) && !Unmoved(p.db, q.db, q.token, i)
        ensures Covered(q, i)
      {
        assert d.live ==> DispatchKeeps(q, id, c);
      }
      forall b | DispatchKeeps(p, id, b)
        ensures DispatchKeeps(q, id, b)
      {
      }
      DispatchChangeCovers(p, q, id);
    }
  }

  /** The dispatch records the claim its lock statement made or found, and no
      other row moved. */
  ghost predicate LockOutcome(p: Process, q: Process, d: Dispatch, after: Dispatch) {
    && after == d.(claim := after.claim, ran := after.claim.Some?, phase := after.phase) && after.phase.LockAnswered?
    && RanClaim(q, after)
    && (after.claim.Some? && d.carried.Some? ==> Unstartable(q.db, d.carried.value.claim))
    && (after.phase.reply.Matched? ==> after.claim.Some?) && (after.phase.reply.Missed? ==> after.claim.None?)
    && (forall i :: Owned(q, i) && !Unmoved(p.db, q.db, q.token, i) ==>
          q.db.jobs[i].status.Running? && after.claim == Some(CurrentClaim(q.db, i)))
  }

  lemma LockCommitted(p: Process, q: Process, id: DispatchId)
    requires DispatchFrame(p, q, id) && q.acks == p.acks && q.waiting == p.waiting
    requires DispatchesInv(p) && id in p.dispatches && p.dispatches[id].phase.Locking?
    requires LockOutcome(p, q, p.dispatches[id], q.dispatches[id])
    ensures DispatchRight(q, id) && (Covering(p) ==> Covering(q))
  {
    var d := p.dispatches[id];
    assert LockInv(p, d);
    if Covering(p) {
      forall i | Owned(q, i) && !Unmoved(p.db, q.db, q.token, i)
        ensures Covered(q, i)
      {
        assert d.live ==> DispatchKeeps(q, id, CurrentClaim(q.db, i));
      }
      forall c | LockCarries(p, id, c)
        ensures LockCarries(q, id, c)
      {
      }
      DispatchChangeCovers(p, q, id);
    }
  }

  /** The guard takes the record of the claim its own statement made. */
  lemma LockReceived(p: Process, q: Process, id: DispatchId)
    requires PlainMove(p, q, id) && DispatchesInv(p)
    requires CanDispatch(p, ReceiveLock(id)) && p.dispatches[id].phase.reply.Matched?
    requires var r := Relocked(p.dispatches[id].claim.value, id);
             && q.started == p.started + {r}
             && q.dispatches[id] == p.dispatches[id].(carried := Some(r), phase := Handling)
    ensures DispatchRight(q, id) && (Covering(p) ==> Covering(q))
  {
    assert DispatchInv(p, p.dispatches[id]);
    AdvanceKeeps(p, q, id);
  }

  lemma StartReceived(p: Process, q: Process, id: DispatchId)
    requires PlainMove(p, q, id) && DispatchesInv(p)
    requires CanDispatch(p, ReceiveStart(id)) && p.dispatches[id].phase.reply.Matched?
    requires q.started == p.started + {p.dispatches[id].carried.value}
    requires q.dispatches[id] == p.dispatches[id].(phase := Handling)
    ensures DispatchRight(q, id) && (Covering(p) ==> Covering(q))
  {
    assert DispatchInv(p, p.dispatches[id]);
    AdvanceKeeps(p, q, id);
  }

  /** A dispatch that refuses before its start is excused, but for the claim a
      lock dispatch carries. */
  lemma RefusalKeeps(p: Process, q: Process, id: DispatchId)
    requires PlainMove(p, q, id) && RecordsInv(p) && DispatchesInv(p)
    requires var d := p.dispatches[id];
             || (BeforeStart(d.phase) && (Excused(p, d) || IsRetired(p, d.name)))
             || (d.phase.StartAnswered? && d.phase.reply.Missed?)
             || (d.phase.LockAnswered? && d.phase.reply.Missed?)
             || d.phase.LockCalled?
    requires q.dispatches[id] == p.dispatches[id].(live := false, armed := false, phase := Ended)
    ensures DispatchRight(q, id)
    ensures var d := p.dispatches[id];
            Covering(p) && !(InLock(d.phase) && CarriesUnstarted(p, d)) ==> Covering(q)
  {
    var d := p.dispatches[id];
    assert DispatchInv(p, d);
    if !(InLock(d.phase) && CarriesUnstarted(p, d)) {
      forall c | LockCarries(p, id, c)
        ensures PassedOn(q, id, c)
      {
        assert Unstartable(p.db, c);
      }
    }
    DisarmKeeps(p, q, id);
  }

  /** The acknowledgement returned: it wrote, lost its claim, or retired the lease. */
  lemma ReturnKeeps(p: Process, q: Process, id: DispatchId)
    requires PlainMove(p, q, id) && DispatchesInv(p) && AcksInv(p) && CanDispatch(p, Return(id))
    requires q.dispatches[id] == p.dispatches[id].(live := false, armed := false, phase := Ended)
    ensures DispatchRight(q, id) && (Covering(p) ==> Covering(q))
  {
    var d := p.dispatches[id];
    assert DispatchInv(p, d) && AwaitsAck(p, d) && AckInv(p, p.acks[d.phase.ack]);
    DisarmKeeps(p, q, id);
  }

  lemma ArmKeeps(p: Process, q: Process, id: DispatchId)
    requires PlainMove(p, q, id) && DispatchesInv(p) && Live(p, id) && p.dispatches[id].phase.LockCalled?
    requires q.dispatches[id] == p.dispatches[id].(armed := true, phase := Locking)
    ensures DispatchRight(q, id) && (Covering(p) ==> Covering(q))
  {
    assert DispatchInv(p, p.dispatches[id]);
    forall c | LockCarries(p, id, c)
      ensures LockCarries(q, id, c)
    {
    }
    AdvanceKeeps(p, q, id);
  }

  /** The checks before a start either refuse with an excuse or change nothing
      but how far the dispatch is. */
  lemma CheckKeeps(p: Process, q: Process, id: DispatchId)
    requires PlainMove(p, q, id) && RecordsInv(p) && DispatchesInv(p) && Live(p, id) && BeforeStart(p.dispatches[id].phase)
    requires Checks(p, p.dispatches[id], q.dispatches[id])
    ensures DispatchRight(q, id) && (Covering(p) ==> Covering(q))
  {
    if q.dispatches[id].live {
      DispatchStaysRight(p, q, p.dispatches[id]);
      AdvanceKeeps(p, q, id);
    } else {
      RefusalKeeps(p, q, id);
    }
  }

  // ------------------------------------------- how a lock dispatch may end

  /** The last move of a dispatch that never gets a confirmed lock. */
  predicate EndsLock(p: Process, m: DispatchMove) {
    && Live(p, m.dispatch)
    && var d := p.dispatches[m.dispatch];
       match m
       case ArmLock(_) => d.phase.LockCalled? && IsRetired(p, d.name)
       case ReceiveLock(_) => d.phase.LockAnswered? && !d.phase.reply.Matched?
       case DropDispatch(_) => InLock(d.phase)
       case _ => false
  }

  /** Its guard is dropped armed, and nothing excuses it: it retires its name. */
  predicate GuardGoesOff(p: Process, m: DispatchMove) {
    && Live(p, m.dispatch)
    && var d := p.dispatches[m.dispatch];
       && d.armed && !Excused(p, d)
       && (m.DropDispatch? || (m.ReceiveLock? && d.phase == LockAnswered(Unknown)))
  }

  /** What a lock dispatch may leave behind: a claim its statement made, or may
      still make, and the claim whose record its task arrived with. */
  predicate LeavesClaims(p: Process, m: DispatchMove)
    requires EndsLock(p, m)
  {
    var d := p.dispatches[m.dispatch];
    CarriesUnstarted(p, d) || d.claim.Some? || (m.DropDispatch? && d.phase.Locking?)
  }

  /** A lock dispatch that ends leaving claims behind retires their name. */
  predicate Careful(p: Process, m: Move) {
    m.InDispatch? && EndsLock(p, m.dispatchMove) && LeavesClaims(p, m.dispatchMove) ==>
      var d := p.dispatches[m.dispatchMove.dispatch];
      && GuardGoesOff(p, m.dispatchMove)
      && (CarriesUnstarted(p, d) ==> d.carried.value.claim.owner == d.name)
  }

  lemma StartTakesItsClaim(s: State, c: Claim, e: Event, token: Token)
    requires Inv(s) && c in s.claims && e.Start? && ActsFor(e, c) && Enabled(s, e)
    ensures var t := Step(s, e);
            && Advanced(s, t) && Unstartable(t, c)
            && forall i :: OwnedUnder(t, token, i) && !Unmoved(s, t, token, i) ==>
                 t.jobs[i].status.Running? && CurrentClaim(t, i) == c
  {
    StepFollows(s, e, token);
    GuardsMatchTheClaim(s, c, e);
    CurrentClaimIs(s, c);
  }

  /** What a dispatch move leaves behind. */
  ghost predicate DispatchMoved(p: Process, q: Process, id: DispatchId, careful: bool) {
    DispatchFrame(p, q, id) && q.acks == p.acks && DispatchRight(q, id) && (careful && Covering(p) ==> Covering(q))
  }

  lemma CommittedStart(p: Process, id: DispatchId, commit: Commit)
    requires Inv(p.db) && RecordsInv(p) && DispatchesInv(p) && CanDispatch(p, CommitStart(id, commit))
    ensures DispatchMoved(p, CommitStartOf(p, id, commit), id, true)
  {
    var q := CommitStartOf(p, id, commit);
    var d := p.dispatches[id];
    var c, e := d.claim.value, StartEvent(p, d.claim.value, d.phase.restart);
    assert StartInv(p, d);
    GuardsMatchTheClaim(p.db, c, e);
    if !commit.Applied() || !Enabled(p.db, e) {
      StayingFollows(p.db, e, p.token);
    } else {
      StartTakesItsClaim(p.db, c, e, p.token);
    }
    StartCommitted(p, q, id, commit);
  }

  /** The claim a lock statement made, or found, carries this storage's token. */
  lemma LockedClaim(s: State, e: Event)
    requires Inv(s) && e.Lock? && Enabled(s, e)
    ensures var t := Step(s, e);
            && e.id in t.jobs && t.jobs[e.id].owner == Some(e.name) && t.jobs[e.id].lockAt.Some?
            && t.jobs[e.id].status.Running?
            && CurrentClaim(t, e.id) in t.claims
            && (e.token.Some? ==> LedgerOf(t, e.id).claimToken == e.token)
  {
    StepKeepsInv(s, e);
    var t := Step(s, e);
    assert t.workers == s.workers && Active(t.jobs[e.id]);
  }

  /** A lock statement moves no other row. */
  lemma LockMovesOneRow(s: State, e: Event, token: Token)
    requires Inv(s) && e.Lock?
    ensures var t := Step(s, e);
            && Advanced(s, t)
            && forall i :: OwnedUnder(t, token, i) && !Unmoved(s, t, token, i) ==> i == e.id && Enabled(s, e)
  {
    StepFollows(s, e, token);
  }

  lemma LockHasOutcome(p: Process, q: Process, id: DispatchId, at: Instant, commit: Commit)
    requires CanDispatch(p, CommitLock(id, at, commit)) && q == CommitLockOf(p, id, at, commit) && Later(p, q)
    requires ArrivedWith(p, p.dispatches[id])
    requires var e, t := LockEvent(p, p.dispatches[id], at), q.db;
             && (commit.Applied() && Enabled(p.db, e) ==>
                   && e.id in t.jobs && t.jobs[e.id].owner == Some(e.name) && t.jobs[e.id].lockAt.Some?
                   && t.jobs[e.id].status.Running? && CurrentClaim(t, e.id) in t.claims
                   && LedgerOf(t, e.id).claimToken == e.token)
             && (forall i :: Owned(q, i) && !Unmoved(p.db, t, q.token, i) ==>
                   i == e.id && commit.Applied() && Enabled(p.db, e))
    ensures LockOutcome(p, q, p.dispatches[id], q.dispatches[id])
  {
  }

  lemma CommittedLock(p: Process, id: DispatchId, at: Instant, commit: Commit)
    requires Inv(p.db) && DispatchesInv(p) && CanDispatch(p, CommitLock(id, at, commit))
    ensures DispatchMoved(p, CommitLockOf(p, id, at, commit), id, true)
  {
    var q := CommitLockOf(p, id, at, commit);
    var e := LockEvent(p, p.dispatches[id], at);
    assert LockInv(p, p.dispatches[id]);
    if commit.Applied() {
      LockMovesOneRow(p.db, e, p.token);
      if Enabled(p.db, e) {
        LockedClaim(p.db, e);
      }
    } else {
      StayingFollows(p.db, e, p.token);
    }
    LockHasOutcome(p, q, id, at, commit);
    LockCommitted(p, q, id);
  }

  lemma CalledTask(p: Process, id: DispatchId, r: RecordId)
    requires ProcessInv(p) && CanDispatch(p, Call(id, r))
    ensures DispatchMoved(p, CallOf(p, id, r), id, true)
  {
    var q := CallOf(p, id, r);
    StandsStill(p, q);
    CallKeeps(p, q, id, r);
  }

  /** What a check before a start may do to its dispatch. */
  predicate Checks(p: Process, d: Dispatch, after: Dispatch) {
    || (BeforeStart(after.phase) && after == d.(phase := after.phase))
    || ((Excused(p, d) || IsRetired(p, d.name)) && after == d.(live := false, armed := false, phase := Ended))
  }

  /** A move without any statement. */
  predicate OnlyDispatch(p: Process, q: Process, id: DispatchId) {
    && q == p.(dispatches := q.dispatches, attempted := q.attempted, started := q.started) && p.started <= q.started
    && id in p.dispatches && id in q.dispatches && q.dispatches == p.dispatches[id := q.dispatches[id]]
  }

  lemma OnlyDispatchIsPlain(p: Process, q: Process, id: DispatchId)
    requires OnlyDispatch(p, q, id)
    ensures PlainMove(p, q, id)
  {
    StandsStill(p, q);
  }

  lemma AdmitChecks(p: Process, id: DispatchId)
    requires CanDispatch(p, Admit(id))
    ensures var q := AdmitOf(p, id);
            OnlyDispatch(p, q, id) && Checks(p, p.dispatches[id], q.dispatches[id])
  {
  }

  lemma BeginStartChecks(p: Process, id: DispatchId)
    requires CanDispatch(p, BeginStart(id))
    ensures var q := BeginStartOf(p, id);
            OnlyDispatch(p, q, id) && Checks(p, p.dispatches[id], q.dispatches[id])
  {
  }

  lemma AdmittedTask(p: Process, id: DispatchId)
    requires ProcessInv(p) && CanDispatch(p, Admit(id))
    ensures DispatchMoved(p, AdmitOf(p, id), id, true)
  {
    AdmitChecks(p, id);
    OnlyDispatchIsPlain(p, AdmitOf(p, id), id);
    CheckKeeps(p, AdmitOf(p, id), id);
  }

  lemma BegunStart(p: Process, id: DispatchId)
    requires ProcessInv(p) && CanDispatch(p, BeginStart(id))
    ensures DispatchMoved(p, BeginStartOf(p, id), id, true)
  {
    BeginStartChecks(p, id);
    OnlyDispatchIsPlain(p, BeginStartOf(p, id), id);
    CheckKeeps(p, BeginStartOf(p, id), id);
  }

  lemma AbandonIsPlain(p: Process, id: DispatchId)
    requires id in p.dispatches
    ensures PlainMove(p, Abandon(p, id), id)
  {
    RetirementIsQuiet(p, Abandon(p, id), p.dispatches[id].name);
  }

  lemma Abandoned(p: Process, id: DispatchId)
    requires ProcessInv(p) && Live(p, id)
    ensures DispatchMoved(p, Abandon(p, id), id, Guarded(p, p.dispatches[id]))
  {
    AbandonIsPlain(p, id);
    AbandonKeeps(p, Abandon(p, id), id);
  }

  lemma Refused(p: Process, id: DispatchId)
    requires ProcessInv(p) && id in p.dispatches
    requires p.dispatches[id].phase == StartAnswered(Missed) || p.dispatches[id].phase == LockAnswered(Missed)
    ensures DispatchMoved(p, Disarm(p, id), id,
                          p.dispatches[id].phase.LockAnswered? ==> !CarriesUnstarted(p, p.dispatches[id]))
  {
    var q := Disarm(p, id);
    OnlyDispatchIsPlain(p, q, id);
    RefusalKeeps(p, q, id);
  }

  lemma StartMatched(p: Process, id: DispatchId)
    requires ProcessInv(p) && CanDispatch(p, ReceiveStart(id)) && p.dispatches[id].phase.reply.Matched?
    ensures DispatchMoved(p, ReceiveStartOf(p, id), id, true)
  {
    var q := ReceiveStartOf(p, id);
    OnlyDispatchIsPlain(p, q, id);
    StartReceived(p, q, id);
  }

  lemma ReceivedStart(p: Process, id: DispatchId)
    requires ProcessInv(p) && CanDispatch(p, ReceiveStart(id))
    ensures DispatchMoved(p, ReceiveStartOf(p, id), id, true)
  {
    match p.dispatches[id].phase.reply
    case Matched => StartMatched(p, id);
    case Missed => Refused(p, id);
    case Unknown => Abandoned(p, id);
  }

  lemma CalledLock(p: Process, m: DispatchMove)
    requires ProcessInv(p) && m.CallLock? && CanDispatch(p, m)
    ensures DispatchMoved(p, CallLockOf(p, m.dispatch, m.name, m.task, m.scope, m.carried), m.dispatch, true)
  {
    var q := CallLockOf(p, m.dispatch, m.name, m.task, m.scope, m.carried);
    StandsStill(p, q);
    CallLockKeeps(p, q, m);
  }

  lemma ArmArms(p: Process, id: DispatchId)
    requires CanDispatch(p, ArmLock(id))
    ensures var d, q := p.dispatches[id], ArmLockOf(p, id);
            && OnlyDispatch(p, q, id)
            && q.dispatches[id] == if IsRetired(p, d.name) then d.(live := false, armed := false, phase := Ended)
                                   else d.(armed := true, phase := Locking)
  {
  }

  lemma ArmedLock(p: Process, id: DispatchId)
    requires ProcessInv(p) && CanDispatch(p, ArmLock(id))
    ensures DispatchMoved(p, ArmLockOf(p, id), id, Careful(p, InDispatch(ArmLock(id))))
  {
    ArmArms(p, id);
    OnlyDispatchIsPlain(p, ArmLockOf(p, id), id);
    if IsRetired(p, p.dispatches[id].name) {
      RefusalKeeps(p, ArmLockOf(p, id), id);
    } else {
      ArmKeeps(p, ArmLockOf(p, id), id);
    }
  }

  lemma LockMatched(p: Process, id: DispatchId)
    requires ProcessInv(p) && CanDispatch(p, ReceiveLock(id)) && p.dispatches[id].phase.reply.Matched?
    ensures DispatchMoved(p, ReceiveLockOf(p, id), id, true)
  {
    var q := ReceiveLockOf(p, id);
    OnlyDispatchIsPlain(p, q, id);
    LockReceived(p, q, id);
  }

  lemma ReceivedLock(p: Process, id: DispatchId)
    requires ProcessInv(p) && CanDispatch(p, ReceiveLock(id))
    ensures DispatchMoved(p, ReceiveLockOf(p, id), id, Careful(p, InDispatch(ReceiveLock(id))))
  {
    match p.dispatches[id].phase.reply
    case Matched => LockMatched(p, id);
    case Missed => Refused(p, id);
    case Unknown => Abandoned(p, id);
  }

  lemma DroppedDispatch(p: Process, id: DispatchId)
    requires ProcessInv(p) && Live(p, id)
    ensures DispatchMoved(p, Abandon(p, id), id, Careful(p, InDispatch(DropDispatch(id))))
  {
    assert DispatchInv(p, p.dispatches[id]);
    Abandoned(p, id);
  }

  lemma Returned(p: Process, id: DispatchId)
    requires ProcessInv(p) && CanDispatch(p, Return(id))
    ensures DispatchMoved(p, Disarm(p, id), id, true)
  {
    var q := Disarm(p, id);
    OnlyDispatchIsPlain(p, q, id);
    ReturnKeeps(p, q, id);
  }

  lemma FinishingKeeps(p: Process, id: DispatchId, ack: AckId, ok: bool)
    requires ProcessInv(p) && CanDispatch(p, FinishHandler(id, ack, ok))
    ensures var q := FinishHandlerOf(p, id, ack, ok);
            ProcessInv(q) && (Covering(p) ==> Covering(q))
  {
    var q := FinishHandlerOf(p, id, ack, ok);
    StandsStill(p, q);
    FinishedHandler(p, q, id, ack, ok);
  }

  lemma FinishedHandler(p: Process, q: Process, id: DispatchId, ack: AckId, ok: bool)
    requires ProcessInv(p) && CanDispatch(p, FinishHandler(id, ack, ok))
    requires DispatchFrame(p, q, id) && AllUnmoved(p, q) && q.waiting == p.waiting
    requires var d := p.dispatches[id];
             && q.dispatches[id] == d.(phase := Acknowledging(ack))
             && q.acks == p.acks[ack := Acknowledgement(d.carried.value, ok, true, false, Created)]
    ensures ProcessInv(q) && (Covering(p) ==> Covering(q))
  {
    StreamsStayRight(p, q);
    RecordsStayRight(p, q);
    NewAckIsRight(p, q, id, ack, ok);
    if Covering(p) {
      forall c | DispatchKeeps(p, id, c)
        ensures DispatchKeeps(q, id, c)
      {
      }
      DispatchChangeCovers(p, q, id);
    }
  }

  lemma NewAckIsRight(p: Process, q: Process, id: DispatchId, ack: AckId, ok: bool)
    requires ProcessInv(p) && CanDispatch(p, FinishHandler(id, ack, ok)) && DispatchFrame(p, q, id)
    requires var d := p.dispatches[id];
             && q.dispatches[id] == d.(phase := Acknowledging(ack))
             && q.acks == p.acks[ack := Acknowledgement(d.carried.value, ok, true, false, Created)]
    ensures AcksInv(q) && DispatchesInv(q)
  {
    DispatchStaysRight(p, q, p.dispatches[id]);
    forall k | k in q.acks
      ensures AckInv(q, q.acks[k])
    {
      if k != ack {
        AckStaysRight(p, q, p.acks[k]);
      }
    }
    forall k | k in q.dispatches
      ensures DispatchInv(q, q.dispatches[k]) && AwaitsAck(q, q.dispatches[k])
    {
      if k != id {
        DispatchStaysRight(p, q, p.dispatches[k]);
        assert AwaitsAck(p, p.dispatches[k]);
      }
    }
  }

  lemma StartMovesKeep(p: Process, m: DispatchMove)
    requires Inv(p.db) && ProcessInv(p) && CanDispatch(p, m)
    requires m.Call? || m.Admit? || m.BeginStart? || m.CommitStart? || m.ReceiveStart? || m.Return?
    ensures DispatchMoved(p, DispatchStep(p, m), m.dispatch, true)
  {
    match m
    case Call(id, r) => CalledTask(p, id, r);
    case Admit(id) => AdmittedTask(p, id);
    case BeginStart(id) => BegunStart(p, id);
    case CommitStart(id, commit) => CommittedStart(p, id, commit);
    case ReceiveStart(id) => ReceivedStart(p, id);
    case Return(id) => Returned(p, id);
  }

  lemma LockMovesKeep(p: Process, m: DispatchMove)
    requires Inv(p.db) && ProcessInv(p) && CanDispatch(p, m)
    requires m.CallLock? || m.ArmLock? || m.CommitLock? || m.ReceiveLock? || m.DropDispatch?
    ensures DispatchMoved(p, DispatchStep(p, m), m.dispatch, Careful(p, InDispatch(m)))
  {
    match m
    case CallLock(_, _, _, _, _) => CalledLock(p, m);
    case ArmLock(id) => ArmedLock(p, id);
    case CommitLock(id, at, commit) => CommittedLock(p, id, at, commit);
    case ReceiveLock(id) => ReceivedLock(p, id);
    case DropDispatch(id) => DroppedDispatch(p, id);
  }

  lemma DispatchMovesKeep(p: Process, m: DispatchMove)
    requires Inv(p.db) && ProcessInv(p) && CanDispatch(p, m) && !m.FinishHandler?
    ensures DispatchMoved(p, DispatchStep(p, m), m.dispatch, Careful(p, InDispatch(m)))
  {
    if m.CallLock? || m.ArmLock? || m.CommitLock? || m.ReceiveLock? || m.DropDispatch? {
      LockMovesKeep(p, m);
    } else {
      StartMovesKeep(p, m);
    }
  }

  // ------------------------------------------------------- acknowledgements

  ghost predicate SameHolders(p: Process, q: Process) {
    q.streams == p.streams && q.fetches == p.fetches && q.waiting == p.waiting && q.dispatches == p.dispatches
  }

  lemma SameHoldersCover(p: Process, q: Process)
    requires SameHolders(p, q) && Later(p, q) && AllUnmoved(p, q) && Covering(p)
    ensures Covering(q)
  {
    forall id | Owned(q, id)
      ensures Covered(q, id)
    {
      assert Covered(p, id);
      SameHoldersHold(p, q, CurrentClaim(q.db, id));
    }
  }

  lemma SameHoldersHold(p: Process, q: Process, c: Claim)
    requires SameHolders(p, q)
    ensures Held(p, c) ==> Held(q, c)
    ensures HeldByStarter(p, c) ==> HeldByStarter(q, c)
  {
    if k :| StreamKeeps(p, k, c) {
      assert StreamKeeps(q, k, c);
    }
    if k :| FetchKeeps(p, k, c) {
      assert FetchKeeps(q, k, c);
    }
    if k :| DispatchKeeps(p, k, c) {
      assert DispatchKeeps(q, k, c);
    }
    if k :| LockCarries(p, k, c) {
      assert LockCarries(q, k, c);
    }
    if k :| DispatchKeeps(p, k, c) && p.dispatches[k].ran {
      assert DispatchKeeps(q, k, c);
    }
  }

  /** An acknowledgement move touches one acknowledgement, the marks, and the
      tables. It never skips an acknowledgement whose claim was started. */
  ghost predicate AckFrame(p: Process, q: Process, id: AckId) {
    && SameHolders(p, q) && Later(p, q) && AllUnmoved(p, q)
    && q.acks.Keys == p.acks.Keys + {id}
    && (forall k :: k in p.acks && k != id ==> q.acks[k] == p.acks[k])
    && (id in p.acks ==>
          && q.acks[id].record == p.acks[id].record
          && (p.acks[id].record in p.started && q.acks[id].phase.Skipped? ==> p.acks[id].phase.Skipped?))
  }

  lemma AckFrameKeeps(p: Process, q: Process, id: AckId)
    requires AckFrame(p, q, id) && ProcessInv(p)
    requires AckInv(q, q.acks[id]) && RecordsInv(q)
    ensures ProcessInv(q) && (Covering(p) ==> Covering(q))
  {
    StreamsStayRight(p, q);
    if Covering(p) {
      SameHoldersCover(p, q);
    }
    forall k | k in q.acks
      ensures AckInv(q, q.acks[k])
    {
      if k != id {
        AckStaysRight(p, q, p.acks[k]);
      }
    }
    forall k | k in q.dispatches
      ensures DispatchInv(q, q.dispatches[k]) && AwaitsAck(q, q.dispatches[k])
    {
      DispatchStaysRight(p, q, p.dispatches[k]);
      assert AwaitsAck(p, p.dispatches[k]);
    }
  }

  ghost predicate AckMoved(p: Process, q: Process, id: AckId) {
    AckFrame(p, q, id) && AckInv(q, q.acks[id]) && RecordsInv(q)
  }

  lemma PlainAckMove(p: Process, m: AckMove)
    requires ProcessInv(p) && CanAck(p, m) && (m.CreateAck? || m.CheckAck? || m.EnterAck?)
    ensures AckMoved(p, AckStep(p, m), m.ack)
  {
    var q := AckStep(p, m);
    StandsStill(p, q);
    RecordsStayRight(p, q);
    if m.ack in p.acks {
      AckStaysRight(p, q, p.acks[m.ack]);
    }
  }

  /** A matching acknowledgement ends its claim. */
  lemma AckEndsItsClaim(s: State, e: Event, c: Claim)
    requires c in s.claims && e.Ack? && e.id == c.task && Enabled(s, e)
    ensures Dead(Step(s, e), c)
  {
  }

  lemma CommittedAckIsFramed(p: Process, id: AckId, at: Instant, commit: Commit)
    requires Inv(p.db) && CanAck(p, CommitAck(id, at, commit))
    ensures AckFrame(p, CommitAckOf(p, id, at, commit), id)
  {
    QuietlyLater(p, CommitAckOf(p, id, at, commit), AckEvent(p, p.acks[id], at));
  }

  lemma CommittedAck(p: Process, id: AckId, at: Instant, commit: Commit)
    requires Inv(p.db) && ProcessInv(p) && CanAck(p, CommitAck(id, at, commit))
    ensures AckMoved(p, CommitAckOf(p, id, at, commit), id)
  {
    var q := CommitAckOf(p, id, at, commit);
    var a := p.acks[id];
    var e := AckEvent(p, a, at);
    CommittedAckIsFramed(p, id, at, commit);
    RecordsStayRight(p, q);
    AckStaysRight(p, q, a);
    if Enabled(p.db, e) {
      AckEndsItsClaim(p.db, e, a.record.claim);
    }
  }

  lemma AbandonedAckIsFramed(p: Process, id: AckId)
    requires id in p.acks
    ensures AckFrame(p, AbandonAck(p, id), id) && AbandonAck(p, id).done == p.done
  {
    RetirementIsQuiet(p, AbandonAck(p, id), p.acks[id].record.claim.owner);
  }

  lemma AbandonedAck(p: Process, id: AckId)
    requires ProcessInv(p) && id in p.acks && p.acks[id].live
    ensures AckMoved(p, AbandonAck(p, id), id)
  {
    var q := AbandonAck(p, id);
    AbandonedAckIsFramed(p, id);
    RecordsStayRight(p, q);
    AckStaysRight(p, q, p.acks[id]);
  }

  lemma ReceivedAck(p: Process, id: AckId)
    requires ProcessInv(p) && CanAck(p, ReceiveAck(id))
    ensures AckMoved(p, ReceiveAckOf(p, id), id)
  {
    if p.acks[id].phase.ok {
      var q := ReceiveAckOf(p, id);
      StandsStill(p, q);
      AckStaysRight(p, q, p.acks[id]);
      assert AckInv(p, p.acks[id]);
    } else {
      AbandonedAck(p, id);
    }
  }

  lemma AckMovesKeep(p: Process, m: AckMove)
    requires Inv(p.db) && ProcessInv(p) && CanAck(p, m)
    ensures AckMoved(p, AckStep(p, m), m.ack)
  {
    match m
    case CommitAck(id, at, commit) => CommittedAck(p, id, at, commit);
    case ReceiveAck(id) => ReceivedAck(p, id);
    case DropAck(id) => AbandonedAck(p, id);
    case _ => PlainAckMove(p, m);
  }

  // ------------------------------------------------------------ others' moves

  lemma OwnedRowsAreRegistered(s: State, token: Token, id: TaskId)
    requires Inv(s) && OwnedUnder(s, token, id)
    ensures RegisteredToken(s, (s.jobs[id].owner.value, s.jobs[id].queue)) == Some(token)
  {
  }

  /** A row a statement takes or starts belongs to the registration it named. */
  lemma TakenUnderItsToken(s: State, e: Event, id: TaskId)
    requires Enabled(s, e) && (e.Start? || e.Lock? || e.Fetch?) && e.token.Some?
    requires id in s.jobs && (if e.Fetch? then id in e.ids else id == e.id)
    requires var r := Step(s, e).jobs[id]; Active(r) && r.owner.Some?
    ensures var t := Step(s, e);
            RegisteredToken(t, (t.jobs[id].owner.value, t.jobs[id].queue)) == e.token
  {
  }

  /** What runs under other tokens cannot touch a claim of this one's. */
  lemma ForeignersAreFenced(s: State, e: Event, token: Token, id: TaskId)
    requires Inv(s) && Enabled(s, e) && OwnedUnder(Step(s, e), token, id)
    requires (e.Start? || e.Lock? || e.Fetch?) && e.token.Some? && e.token.value != token
    ensures Unmoved(s, Step(s, e), token, id)
  {
    StepFollows(s, e, token);
    StepKeepsInv(s, e);
    ForeignTakesNothing(s, e, token, id);
  }

  lemma ForeignTakesNothing(s: State, e: Event, token: Token, id: TaskId)
    requires Enabled(s, e) && OwnedUnder(Step(s, e), token, id) && Inv(Step(s, e))
    requires (e.Start? || e.Lock? || e.Fetch?) && e.token.Some? && e.token.value != token
    requires HasOrigin(s, Step(s, e), e, token, id)
    ensures Unmoved(s, Step(s, e), token, id)
  {
    OwnedRowsAreRegistered(Step(s, e), token, id);
    if !Unmoved(s, Step(s, e), token, id) {
      TakenUnderItsToken(s, e, id);
    }
  }

  lemma ForeignMovesKeep(p: Process, e: Event)
    requires Inv(p.db) && ProcessInv(p) && Foreign(p, e)
    ensures var q := p.(db := Step(p.db, e));
            ProcessInv(q) && (Covering(p) ==> Covering(q))
  {
    var q := p.(db := Step(p.db, e));
    StepFollows(p.db, e, p.token);
    forall id | Owned(q, id)
      ensures Unmoved(p.db, q.db, q.token, id)
    {
      if !Quiet(e) && Enabled(p.db, e) {
        ForeignersAreFenced(p.db, e, p.token, id);
      }
    }
    ForeignMoveKeeps(p, q);
  }

  lemma ForeignMoveKeeps(p: Process, q: Process)
    requires ProcessInv(p) && q == p.(db := q.db) && Later(p, q) && AllUnmoved(p, q)
    ensures ProcessInv(q) && (Covering(p) ==> Covering(q))
  {
    StreamsStayRight(p, q);
    RecordsStayRight(p, q);
    AcksStayRight(p, q);
    DispatchesStayRight(p, q);
    if Covering(p) {
      SameHoldersCover(p, q);
    }
  }
}
