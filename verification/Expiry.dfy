/** What a retired lease is worth. Once no heartbeat renews a retired name, its
    registration stands still, and from the stale deadline on any sweep or
    takeover ends every claim of that name. Together with `Stranding` no claim
    waits for a process that forgot it. */
module Expiry {
  import opened Rows
  import opened Store
  import opened Invariants
  import opened Database
  import opened Obligations
  import opened Coverage
  import opened Stranding

  // ----------------------------------------------------------- registrations

  /** A heartbeat of this registration under this token. */
  predicate Beats(e: Event, token: Token, key: Key) {
    e.Heartbeat? && (e.name, e.queue) == key && e.beatToken == token
  }

  /** If the token still holds the registration, that is as it was. */
  predicate Frozen(s: State, t: State, token: Token, key: Key) {
    RegisteredToken(t, key) == Some(token) ==> key in s.workers && t.workers[key] == s.workers[key]
  }

  /** Under a retired token only a heartbeat touches a registration: the token
      cannot register again, and an administrator leaves a held name alone. */
  lemma RetiredStandsStill(s: State, e: Event, token: Token, key: Key)
    requires (token, key.0) in s.retired && !Beats(e, token, key)
    ensures (token, key.0) in Step(s, e).retired && Frozen(s, Step(s, e), token, key)
  {
  }

  lemma {:induction false} RetiredStaysFrozen(s: State, events: seq<Event>, token: Token, key: Key)
    requires (token, key.0) in s.retired && forall e :: e in events ==> !Beats(e, token, key)
    ensures (token, key.0) in Run(s, events).retired && Frozen(s, Run(s, events), token, key)
    decreases |events|
  {
    if events != [] {
      RetiredStandsStill(s, events[0], token, key);
      assert forall e :: e in events[1..] ==> e in events;
      RetiredStaysFrozen(Step(s, events[0]), events[1..], token, key);
    }
  }

  // ---------------------------------------------------------------- recovery

  /** The transaction takes effect, and no claim of the registration survives it. */
  ghost predicate EndsClaims(s: State, e: Event, key: Key) {
    && Enabled(s, e)
    && forall id :: id in ActiveClaims(s, key) ==> id in Step(s, e).jobs && !Active(Step(s, e).jobs[id])
  }

  /** A sweep of this one owner, and a takeover by another registration. */
  function SweepOf(s: State, key: Key, staleAfter: int, at: Instant): Event {
    Sweep(key.1, {key.0}, ActiveClaims(s, key), staleAfter, at)
  }

  function TakeoverOf(key: Key, token: Token, staleAfter: int, at: Instant): Event {
    Register(key.0, key.1, token, staleAfter, at)
  }

  /** From the stale deadline on, counted from the last heartbeat seen, anybody
      can end the claims of this registration. */
  ghost predicate Recoverable(s: State, key: Key, lastSeen: Instant) {
    && (forall staleAfter, at :: at - lastSeen >= staleAfter ==> EndsClaims(s, SweepOf(s, key, staleAfter, at), key))
    && (forall token: Token, staleAfter, at :: at - lastSeen >= staleAfter && (token, key.0) !in s.retired ==>
          EndsClaims(s, TakeoverOf(key, token, staleAfter, at), key))
  }

  lemma RecoveryEndsClaims(s: State, ids: set<TaskId>, recovery: Recovery, at: Instant)
    requires TablesInv(s) && forall id :: id in ids ==> id in s.jobs && Active(s.jobs[id])
    ensures forall id :: id in ids ==> !Active(RecoverAll(s.jobs, ids, recovery, at)[id])
  {
    forall id | id in ids
      ensures !Active(RecoverAll(s.jobs, ids, recovery, at)[id])
    {
      RecoveryChanges(s.jobs[id], recovery, at);
    }
  }

  lemma SweepEndsClaims(s: State, key: Key, staleAfter: int, at: Instant)
    requires Inv(s) && key in s.workers && Stale(s.workers[key], staleAfter, at)
    ensures EndsClaims(s, SweepOf(s, key, staleAfter, at), key)
  {
    assert Enabled(s, SweepOf(s, key, staleAfter, at));
    RecoveryEndsClaims(s, ActiveClaims(s, key), StaleSweep, at);
  }

  lemma TakeoverEndsClaims(s: State, key: Key, token: Token, staleAfter: int, at: Instant)
    requires Inv(s) && key in s.workers && Stale(s.workers[key], staleAfter, at) && (token, key.0) !in s.retired
    ensures EndsClaims(s, TakeoverOf(key, token, staleAfter, at), key)
  {
    RecoveryEndsClaims(s, ActiveClaims(s, key), Takeover, at);
  }

  lemma StaleIsRecoverable(s: State, key: Key)
    requires Inv(s) && key in s.workers
    ensures Recoverable(s, key, s.workers[key].lastSeen)
  {
    var lastSeen := s.workers[key].lastSeen;
    forall staleAfter, at | at - lastSeen >= staleAfter
      ensures EndsClaims(s, SweepOf(s, key, staleAfter, at), key)
    {
      SweepEndsClaims(s, key, staleAfter, at);
    }
    forall token: Token, staleAfter, at | at - lastSeen >= staleAfter && (token, key.0) !in s.retired
      ensures EndsClaims(s, TakeoverOf(key, token, staleAfter, at), key)
    {
      TakeoverEndsClaims(s, key, token, staleAfter, at);
    }
  }

  /** The registration of an active claim. */
  function KeyOf(s: State, id: TaskId): Key
    requires id in s.jobs && s.jobs[id].owner.Some?
  {
    (s.jobs[id].owner.value, s.jobs[id].queue)
  }

  lemma OwnedRowsAreHeld(s: State, token: Token, id: TaskId)
    requires Inv(s) && OwnedUnder(s, token, id)
    ensures RegisteredToken(s, KeyOf(s, id)) == Some(token) && id in ActiveClaims(s, KeyOf(s, id))
  {
  }

  /** A claim of a retired name is recoverable once its heartbeats ended, and the
      deadline runs from the heartbeat on record when they did. */
  lemma RetiredClaimsAreRecoverable(s: State, events: seq<Event>, token: Token, id: TaskId)
    requires Inv(s) && OwnedUnder(Run(s, events), token, id)
    requires var key := KeyOf(Run(s, events), id);
             (token, key.0) in s.retired && forall e :: e in events ==> !Beats(e, token, key)
    ensures var t, key := Run(s, events), KeyOf(Run(s, events), id);
            && id in ActiveClaims(t, key) && key in s.workers
            && Recoverable(t, key, s.workers[key].lastSeen)
  {
    var t, key := Run(s, events), KeyOf(Run(s, events), id);
    RunKeepsInv(s, events);
    OwnedRowsAreHeld(t, token, id);
    RetiredStaysFrozen(s, events, token, key);
    StaleIsRecoverable(t, key);
  }

  // ---------------------------------------------------------------- processes

  predicate MoveBeats(m: Move, token: Token, key: Key) {
    m.Elsewhere? && Beats(m.event, token, key)
  }

  lemma TakenStandsStill(s: State, t: State, e: Event, last: Event, token: Token, key: Key)
    requires Took(s, t, e, last) && (token, key.0) in s.retired && !Beats(e, token, key) && !Beats(last, token, key)
    ensures (token, key.0) in t.retired && Frozen(s, t, token, key)
  {
    RetiredStandsStill(s, e, token, key);
    RetiredStandsStill(s, last, token, key);
    RetiredStandsStill(Step(s, e), last, token, key);
  }

  lemma NextStandsStill(p: Process, m: Move, key: Key)
    requires IsRetired(p, key.0) && !MoveBeats(m, p.token, key)
    ensures (p.token, key.0) in Next(p, m).db.retired && Frozen(p.db, Next(p, m).db, p.token, key)
  {
    if m.Elsewhere? {
      TakenStandsStill(p.db, Next(p, m).db, m.event, m.event, p.token, key);
    } else {
      OwnMovesTransact(p, m);
      var e: Event, last: Event :| !e.Heartbeat? && !last.Heartbeat? && Took(p.db, Next(p, m).db, e, last);
      TakenStandsStill(p.db, Next(p, m).db, e, last, p.token, key);
    }
  }

  lemma NextKeepsToken(p: Process, m: Move)
    ensures Next(p, m).token == p.token
  {
    match m
    case Elsewhere(_) =>
    case InStream(move) =>
      if CanStream(p, move) {
        StreamMovesTouchStreams(p, move);
      }
    case InDispatch(move) =>
      if CanDispatch(p, move) {
        DispatchMovesTouchOne(p, move);
      }
    case InAck(move) =>
      if CanAck(p, move) {
        AckMovesTouchAcks(p, move);
      }
  }

  lemma {:induction false} ExecuteStandsStill(p: Process, moves: seq<Move>, key: Key)
    requires IsRetired(p, key.0) && forall m :: m in moves ==> !MoveBeats(m, p.token, key)
    ensures var q := Execute(p, moves);
            q.token == p.token && IsRetired(q, key.0) && Frozen(p.db, q.db, p.token, key)
    decreases |moves|
  {
    if moves != [] {
      NextStandsStill(p, moves[0], key);
      NextKeepsToken(p, moves[0]);
      assert forall m :: m in moves[1..] ==> m in moves;
      ExecuteStandsStill(Next(p, moves[0]), moves[1..], key);
    }
  }

  /** Over every careful run each claim of the storage is covered, and covered by
      a retirement means recoverable: if the heartbeats of the name ended with
      `before`, then from the stale deadline after the last of them any sweep and
      any takeover ends the claim, whatever else ran meanwhile. */
  lemma EveryClaimIsAnsweredFor(token: Token, before: seq<Move>, after: seq<Move>, id: TaskId)
    requires CarefulRun(Fresh(token), before + after)
    requires Owned(Execute(Execute(Fresh(token), before), after), id)
    ensures var p := Execute(Fresh(token), before);
            var q, key := Execute(p, after), KeyOf(Execute(p, after).db, id);
            && Covered(q, id)
            && (IsRetired(p, key.0) && (forall m :: m in after ==> !MoveBeats(m, token, key)) ==>
                  && key in p.db.workers && id in ActiveClaims(q.db, key)
                  && Recoverable(q.db, key, p.db.workers[key].lastSeen))
  {
    var p := Execute(Fresh(token), before);
    var q, key := Execute(p, after), KeyOf(Execute(p, after).db, id);
    ExecuteAppends(Fresh(token), before, after);
    NoStrandedClaim(token, before + after, id);
    InitialIsSound();
    RunKeepsProcess(Fresh(token), before + after);
    TokenStays(Fresh(token), before);
    TokenStays(p, after);
    if IsRetired(p, key.0) && (forall m :: m in after ==> !MoveBeats(m, token, key)) {
      OwnedRowsAreHeld(q.db, token, id);
      ExecuteStandsStill(p, after, key);
      StaleIsRecoverable(q.db, key);
    }
  }

  lemma {:induction false} TokenStays(p: Process, moves: seq<Move>)
    ensures Execute(p, moves).token == p.token
    decreases |moves|
  {
    if moves != [] {
      NextKeepsToken(p, moves[0]);
      TokenStays(Next(p, moves[0]), moves[1..]);
    }
  }
}
