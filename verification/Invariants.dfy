/** Every event keeps the store's invariant. Events are first classified by
    what they may do to one row and to the registrations; the invariant is then
    carried over once, for every lawful change. */
module Invariants {
  import opened Rows
  import opened Store
  import opened Folding

  /** Unowned to owned, or quarantined by the claim itself. */
  ghost predicate ClaimChange(before: Row, after: Row, next: State) {
    && (before.status.Pending? || before.status.Failed?)
    && if Active(after)
       then after.attempts == before.attempts && after.owner.Some? && (after.owner.value, after.queue) in next.workers
       else after.status.Killed? && after.attempts == before.attempts + 1 && after.owner.None?
  }

  ghost predicate StartChange(before: Row, after: Row) {
    before.status.Queued? && after == before.(status := Running)
  }

  /** The end of an execution, or of a claim its owner failed on. */
  ghost predicate ChargeChange(before: Row, after: Row) {
    && Active(before) && !Active(after)
    && after.attempts == before.attempts + 1
    && (after.owner.None? || after.owner == before.owner)
  }

  /** An unstarted claim handed back by the release of its own registration. */
  ghost predicate HandBackChange(before: Row, after: Row, s: State, next: State) {
    && before.status.Queued? && after.status.Pending? && after.attempts == before.attempts && before.owner.Some?
    && var token := OwnerToken(s, before);
       token.Some? && (token.value, before.owner.value) in s.retired && OwnerToken(next, before).None?
  }

  ghost predicate RowChange(before: Row, after: Row, s: State, next: State) {
    && after.queue == before.queue && after.maxAttempts == before.maxAttempts
    && (|| after == before
        || ClaimChange(before, after, next)
        || StartChange(before, after)
        || ChargeChange(before, after)
        || HandBackChange(before, after, s, next))
  }

  ghost predicate FreshRow(r: Row) {
    r.status.Pending? && r.attempts == 0
  }

  ghost predicate LawfulRows(s: State, next: State) {
    && (forall id :: id in next.jobs && id in s.jobs ==> RowChange(s.jobs[id], next.jobs[id], s, next))
    && (forall id :: id in next.jobs && id !in s.jobs ==> id !in s.used && FreshRow(next.jobs[id]))
  }

  /** A claim that stays active keeps the token it is fenced by, and a name is
      never registered under a token that retired it. */
  ghost predicate LawfulTokens(s: State, next: State) {
    && (forall id :: id in next.jobs && id in s.jobs && Active(s.jobs[id]) && Active(next.jobs[id]) ==>
          OwnerToken(next, next.jobs[id]) == OwnerToken(s, s.jobs[id]))
    && (forall key :: KeepsRetirement(s, next, key))
  }

  ghost predicate KeepsRetirement(s: State, next: State, key: Key) {
    var token := RegisteredToken(next, key);
    token.Some? && token != RegisteredToken(s, key) ==> (token.value, key.0) !in next.retired
  }

  ghost predicate Lawful(s: State, next: State) {
    && s.used <= next.used && s.retired <= next.retired
    && next.ledger == s.ledger && next.claims == s.claims
    && TablesInv(next)
    && LawfulRows(s, next)
    && LawfulTokens(s, next)
  }

  lemma FetchIsLawful(s: State, e: Event)
    requires TablesInv(s) && e.Fetch? && Enabled(s, e)
    ensures Lawful(s, Effect(s, e))
  {
  }

  lemma SingleRowIsLawful(s: State, e: Event)
    requires TablesInv(s) && Enabled(s, e)
    requires e.Lock? || e.Start? || e.Ack? || e.FailUndecodable?
    ensures Lawful(s, Effect(s, e))
  {
    SingleRowChange(s, e);
    OneRowIsLawful(s, Effect(s, e), e.id);
  }

  lemma OneRowIsLawful(s: State, next: State, id: TaskId)
    requires TablesInv(s) && id in s.jobs && id in next.jobs && next == s.(jobs := s.jobs[id := next.jobs[id]])
    requires RowInv(next.jobs[id]) && OwnerRegistered(next, next.jobs[id])
    requires RowChange(s.jobs[id], next.jobs[id], s, next)
    requires Active(s.jobs[id]) && Active(next.jobs[id]) ==> next.jobs[id].owner == s.jobs[id].owner
    ensures Lawful(s, next)
  {
  }

  lemma SingleRowChange(s: State, e: Event)
    requires TablesInv(s) && Enabled(s, e)
    requires e.Lock? || e.Start? || e.Ack? || e.FailUndecodable?
    ensures var before, after, next := s.jobs[e.id], Effect(s, e).jobs[e.id], Effect(s, e);
            && RowInv(after) && OwnerRegistered(next, after) && RowChange(before, after, s, next)
            && (Active(before) && Active(after) ==> after.owner == before.owner)
            && next == s.(jobs := s.jobs[e.id := after])
  {
  }

  lemma RecoveryChanges(r: Row, recovery: Recovery, at: Instant)
    requires RowInv(r) && Active(r)
    ensures var after := Recovered(r, recovery, at);
            && RowInv(after) && !Active(after) && after.queue == r.queue && after.maxAttempts == r.maxAttempts
            && after.owner.None?
            && (after.attempts == r.attempts + 1
                || (recovery.Release? && r.status.Queued? && after.status.Pending? && after.attempts == r.attempts))
  {
  }

  /** Recovering a set of active rows, with or without a change of the one
      registration that owns them all. */
  lemma RecoverAllIsLawful(s: State, next: State, ids: set<TaskId>, recovery: Recovery, at: Instant)
    requires TablesInv(s)
    requires forall id :: id in ids ==> id in s.jobs && Active(s.jobs[id])
    requires next == s.(jobs := RecoverAll(s.jobs, ids, recovery, at), workers := next.workers)
    requires s.workers.Keys <= next.workers.Keys
    requires LawfulTokens(s, next)
    requires recovery.Release? ==> forall id :: id in ids ==>
               (var token := OwnerToken(s, s.jobs[id]);
                token.Some? && (token.value, s.jobs[id].owner.value) in s.retired
                && OwnerToken(next, s.jobs[id]).None?)
    ensures Lawful(s, next)
  {
    forall id | id in next.jobs
      ensures RowInv(next.jobs[id]) && OwnerRegistered(next, next.jobs[id])
      ensures RowChange(s.jobs[id], next.jobs[id], s, next)
    {
      if id in ids {
        RecoveryChanges(s.jobs[id], recovery, at);
      }
    }
  }

  lemma RegisterIsLawful(s: State, e: Event)
    requires TablesInv(s) && e.Register? && Enabled(s, e)
    ensures Lawful(s, Effect(s, e))
  {
    var next, key := Effect(s, e), (e.name, e.queue);
    var ids := if LosesClaims(s, key, e.newToken, e.staleAfter, e.at) then ActiveClaims(s, key) else {};
    assert next.jobs == RecoverAll(s.jobs, ids, Takeover, e.at);
    forall id | id in next.jobs && Active(s.jobs[id]) && Active(next.jobs[id])
      ensures OwnerToken(next, next.jobs[id]) == OwnerToken(s, s.jobs[id])
    {
      if id in ids {
        RecoveryChanges(s.jobs[id], Takeover, e.at);
      } else if OwnedBy(s.jobs[id], key) {
        assert RegisteredToken(s, key) == Some(e.newToken);
      }
    }
    RecoverAllIsLawful(s, next, ids, Takeover, e.at);
  }

  lemma SweepIsLawful(s: State, e: Event)
    requires TablesInv(s) && e.Sweep? && Enabled(s, e)
    ensures Lawful(s, Effect(s, e))
  {
    RecoverAllIsLawful(s, Effect(s, e), e.ids, StaleSweep, e.at);
  }

  lemma ReleaseIsLawful(s: State, e: Event)
    requires TablesInv(s) && e.ReleaseWorker? && Enabled(s, e)
    ensures Lawful(s, Effect(s, e))
  {
    var next, key := Effect(s, e), (e.name, e.queue);
    forall id | id in next.jobs && Active(s.jobs[id]) && Active(next.jobs[id])
      ensures OwnerToken(next, next.jobs[id]) == OwnerToken(s, s.jobs[id])
    {
      if OwnedBy(s.jobs[id], key) {
        RecoveryChanges(s.jobs[id], Release, e.at);
      }
    }
    RecoverAllIsLawful(s, next, ActiveClaims(s, key), Release, e.at);
  }

  lemma RegistrationsAreLawful(s: State, e: Event)
    requires TablesInv(s) && Enabled(s, e) && (e.Heartbeat? || e.AdminRegister? || e.Prune?)
    ensures Lawful(s, Effect(s, e))
  {
  }

  lemma OtherIsLawful(s: State, e: Event)
    requires TablesInv(s) && Enabled(s, e) && (e.Enqueue? || e.Retire? || e.Purge?)
    ensures Lawful(s, Effect(s, e))
  {
  }

  lemma EffectIsLawful(s: State, e: Event)
    requires TablesInv(s) && Enabled(s, e)
    ensures Lawful(s, Effect(s, e))
  {
    match e {
      case Fetch(_, _, _, _, _, _) => FetchIsLawful(s, e);
      case Register(_, _, _, _, _) => RegisterIsLawful(s, e);
      case Sweep(_, _, _, _, _) => SweepIsLawful(s, e);
      case ReleaseWorker(_, _, _, _) => ReleaseIsLawful(s, e);
      case Lock(_, _, _, _, _) => SingleRowIsLawful(s, e);
      case Start(_, _, _, _, _, _, _) => SingleRowIsLawful(s, e);
      case Ack(_, _, _, _, _, _, _, _, _) => SingleRowIsLawful(s, e);
      case FailUndecodable(_, _, _, _, _, _) => SingleRowIsLawful(s, e);
      case Enqueue(_, _, _, _, _) => OtherIsLawful(s, e);
      case Retire(_, _) => OtherIsLawful(s, e);
      case Purge(_, _, _) => OtherIsLawful(s, e);
      case _ => RegistrationsAreLawful(s, e);
    }
  }

  // ------------------------------------------- lawful changes keep the invariant

  lemma LedgerKept(before: Row, after: Row, l: Ledger, s: State, next: State, token: Option<Token>)
    requires RowInv(before) && RowInv(after) && LedgerInv(before, l) && RowChange(before, after, s, next)
    ensures LedgerInv(after, ObserveRow(before, after, l, token))
  {
    var observed := ObserveRow(before, after, l, token);
    if after.status.Running? && !before.status.Running? {
      assert after.attempts !in l.startGen;
      assert observed.startGen.Keys == l.startGen.Keys + {after.attempts};
    }
  }

  lemma LedgersKept(s: State, next: State)
    requires TablesInv(s) && LedgersInv(s) && Lawful(s, next)
    ensures LedgersInv(Observe(s, next))
  {
    var observed := Observe(s, next);
    forall id | id in observed.jobs
      ensures LedgerInv(observed.jobs[id], LedgerOf(observed, id))
    {
      if id in s.jobs {
        LedgerKept(s.jobs[id], next.jobs[id], LedgerOf(s, id), s, next, OwnerToken(next, next.jobs[id]));
      }
    }
  }

  lemma FencingKept(s: State, next: State)
    requires TablesInv(s) && Fenced(s) && Lawful(s, next)
    ensures Fenced(Observe(s, next))
  {
    var observed := Observe(s, next);
    forall id | id in observed.jobs && Active(observed.jobs[id])
      ensures LedgerOf(observed, id).claimToken == OwnerToken(observed, observed.jobs[id])
    {
      assert id in s.jobs;
    }
  }

  lemma ClaimKept(s: State, next: State, c: Claim)
    requires TablesInv(s) && Fenced(s) && Lawful(s, next) && ClaimInv(s, c)
    ensures ClaimInv(Observe(s, next), c)
  {
    var observed := Observe(s, next);
    assert KeepsRetirement(s, next, (c.owner, c.queue));
    assert Superseded(s, c) ==> Superseded(observed, c);
    if c.task in next.jobs {
      assert c.task in s.jobs;
      var before, after := s.jobs[c.task], next.jobs[c.task];
      if HandBackChange(before, after, s, next) && InClaim(s, c) {
        assert Superseded(observed, c);
      }
    }
  }

  lemma IssuedClaimIsGood(s: State, next: State, id: TaskId)
    requires TablesInv(s) && Lawful(s, next)
    requires id in next.jobs && Active(next.jobs[id])
    ensures var observed := Observe(s, next);
            next.jobs[id].lockAt.Some? && ClaimInv(observed, CurrentClaim(observed, id))
  {
  }

  lemma ClaimsKept(s: State, next: State)
    requires TablesInv(s) && Fenced(s) && ClaimsInv(s) && Lawful(s, next)
    ensures ClaimsInv(Observe(s, next))
  {
    var observed := Observe(s, next);
    forall c | c in observed.claims
      ensures ClaimInv(observed, c)
    {
      if c in s.claims {
        ClaimKept(s, next, c);
      } else {
        IssuedClaimIsGood(s, next, c.task);
      }
    }
    forall id | id in observed.jobs && Active(observed.jobs[id])
                && observed.jobs[id].owner.Some? && observed.jobs[id].lockAt.Some?
      ensures CurrentClaim(observed, id) in observed.claims
    {
      if Active(s.jobs[id]) {
        assert CurrentClaim(observed, id) == CurrentClaim(s, id);
      }
    }
  }

  lemma StepKeepsInv(s: State, e: Event)
    requires Inv(s)
    ensures Inv(Step(s, e))
  {
    if Enabled(s, e) {
      var next := Effect(s, e);
      EffectIsLawful(s, e);
      LedgersKept(s, next);
      FencingKept(s, next);
      ClaimsKept(s, next);
    }
  }

  lemma {:induction false} RunKeepsInv(s: State, events: seq<Event>)
    requires Inv(s)
    ensures Inv(Run(s, events))
    decreases |events|
  {
    if events != [] {
      StepKeepsInv(s, events[0]);
      RunKeepsInv(Step(s, events[0]), events[1..]);
    }
  }

  lemma InitialIsSound()
    ensures Inv(Initial)
  {
  }

  /** The invariant, folded: a proof that only passes it on need not look inside. */
  ghost predicate Kept(s: State) {
    forall folded :: Fold(folded) ==> Inv(s)
  }

  lemma Unfolded(s: State)
    requires Kept(s)
    ensures Inv(s)
  {
    assert Fold(true);
  }

  /** A store that keeps its invariant. */
  type Sound = s: State | Kept(s) witness Initial

  lemma StepKeeps(s: State, e: Event)
    requires Kept(s)
    ensures Kept(Step(s, e))
  {
    Unfolded(s);
    StepKeepsInv(s, e);
  }

  lemma RunKeeps(s: State, events: seq<Event>)
    requires Kept(s)
    ensures Kept(Run(s, events))
  {
    Unfolded(s);
    RunKeepsInv(s, events);
  }

  lemma ActiveRowsAreSound(s: State)
    requires Kept(s)
    ensures forall id :: id in s.jobs ==> RowInv(s.jobs[id]) && OwnerRegistered(s, s.jobs[id])
  {
    Unfolded(s);
  }

  /** Every state reached from empty tables, by any interleaving of transactions. */
  lemma ReachableStatesKeepInv(events: seq<Event>)
    ensures Inv(Run(Initial, events))
  {
    RunKeepsInv(Initial, events);
  }
}
