/** What the claim and lease protocol promises, for every interleaving. */
module Protocol {
  import opened Rows
  import opened Store
  import opened Invariants

  // ------------------------------------------------------------------- rows

  /** The row invariant, over all runs. */
  lemma RowsStayWellFormed(events: seq<Event>, id: TaskId)
    requires id in Run(Initial, events).jobs
    ensures var s := Run(Initial, events);
            RowInv(s.jobs[id]) && OwnerRegistered(s, s.jobs[id])
  {
    ReachableStatesKeepInv(events);
  }

  lemma FinishedIsUnmoved(before: Row, after: Row, s: State, next: State)
    requires Finished(before) && RowChange(before, after, s, next)
    ensures after == before
  {
  }

  lemma OnlyPurgeDeletes(s: State, e: Event, id: TaskId)
    requires id in s.jobs && id !in Step(s, e).jobs
    ensures e.Purge? && id in e.ids
  {
  }

  /** A finished row leaves the table only through a purge that names it, and
      changes through nothing at all. */
  lemma FinishedRowIsFrozen(s: State, e: Event, id: TaskId)
    requires Inv(s) && id in s.jobs && Finished(s.jobs[id])
    ensures var next := Step(s, e);
            if id in next.jobs then next.jobs[id] == s.jobs[id] else e.Purge? && id in e.ids
  {
    if id !in Step(s, e).jobs {
      OnlyPurgeDeletes(s, e, id);
    } else if Enabled(s, e) {
      EffectIsLawful(s, e);
      FinishedIsUnmoved(s.jobs[id], Effect(s, e).jobs[id], s, Effect(s, e));
    }
  }

  /** A row that is gone never comes back: ids are not reused. */
  lemma {:induction false} GoneForGood(s: State, events: seq<Event>, id: TaskId)
    requires Inv(s) && id in s.used && id !in s.jobs
    ensures id in Run(s, events).used && id !in Run(s, events).jobs
    decreases |events|
  {
    if events != [] {
      StepKeepsInv(s, events[0]);
      if Enabled(s, events[0]) {
        EffectIsLawful(s, events[0]);
      }
      GoneForGood(Step(s, events[0]), events[1..], id);
    }
  }

  lemma {:induction false} FinishedForever(s: State, events: seq<Event>, id: TaskId)
    requires Inv(s) && id in s.jobs && Finished(s.jobs[id])
    ensures id in Run(s, events).jobs ==> Run(s, events).jobs[id] == s.jobs[id]
    decreases |events|
  {
    if events != [] {
      var next := Step(s, events[0]);
      StepKeepsInv(s, events[0]);
      FinishedRowIsFrozen(s, events[0], id);
      if id in next.jobs {
        FinishedForever(next, events[1..], id);
      } else {
        if Enabled(s, events[0]) {
          EffectIsLawful(s, events[0]);
        }
        GoneForGood(next, events[1..], id);
      }
    }
  }

  // ---------------------------------------------------------------- fencing

  /** Over all runs an active row names a registration, and that registration
      still carries the token under which the row was claimed. */
  lemma ActiveRowsAreFenced(events: seq<Event>, id: TaskId)
    requires id in Run(Initial, events).jobs && Active(Run(Initial, events).jobs[id])
    ensures var s := Run(Initial, events);
            var r := s.jobs[id];
            && r.owner.Some? && (r.owner.value, r.queue) in s.workers
            && s.workers[(r.owner.value, r.queue)].token == LedgerOf(s, id).claimToken
  {
    ReachableStatesKeepInv(events);
  }

  lemma TokensChangeWithTheirClaims(s: State, e: Event, key: Key, id: TaskId)
    requires id in s.jobs && RowInv(s.jobs[id]) && Active(s.jobs[id]) && OwnedBy(s.jobs[id], key)
    requires Enabled(s, e) && key in s.workers && Referenced(s, key)
    requires RegisteredToken(Effect(s, e), key) != RegisteredToken(s, key)
    ensures id in Effect(s, e).jobs && !Active(Effect(s, e).jobs[id]) && (e.Register? || e.ReleaseWorker?)
  {
  }

  /** Whatever changes or removes the token of a registration ends every active
      claim of that name in the same transaction. */
  lemma TokenChangeRecoversEveryClaim(s: State, e: Event, key: Key, id: TaskId)
    requires Inv(s)
    requires RegisteredToken(Step(s, e), key) != RegisteredToken(s, key)
    requires id in s.jobs && Active(s.jobs[id]) && OwnedBy(s.jobs[id], key)
    ensures var next := Step(s, e);
            id in next.jobs && !Active(next.jobs[id]) && (e.Register? || e.ReleaseWorker?)
  {
    assert Referenced(s, key);
    TokensChangeWithTheirClaims(s, e, key, id);
  }

  /** A heartbeat that renews a registration renews no claim of another token. */
  lemma HeartbeatCoversOnlyItsOwnClaims(s: State, e: Event, id: TaskId)
    requires Inv(s) && e.Heartbeat? && Enabled(s, e)
    requires id in s.jobs && Active(s.jobs[id]) && OwnedBy(s.jobs[id], (e.name, e.queue))
    ensures LedgerOf(s, id).claimToken == Some(e.beatToken)
  {
  }

  // ----------------------------------------------------------------- no ABA

  /** `e` is the start, acknowledgement or undecodable release a holder of the
      claim record `c` issues. */
  predicate ActsFor(e: Event, c: Claim) {
    match e
    case Start(id, queue, name, lockAt, attempts, _, token) =>
      id == c.task && queue == c.queue && name == c.owner && lockAt == c.lockAt && attempts == Some(c.attempts)
      && token == c.token
    case Ack(id, queue, name, lockAt, counter, maxAttempts, _, token, _) =>
      id == c.task && queue == c.queue && name == c.owner && lockAt == c.lockAt && counter == c.attempts + 1
      && maxAttempts == c.maxAttempts && token == c.token
    case FailUndecodable(id, name, lockAt, attempts, token, _) =>
      id == c.task && name == c.owner && lockAt == c.lockAt && attempts == c.attempts && token == c.token
    case _ => false
  }

  /** A start needs `Queued`, unless the claim already started. */
  predicate MayActNow(s: State, e: Event, c: Claim) {
    InClaim(s, c) && (e.Start? ==> s.jobs[c.task].status.Queued? || e.restart)
  }

  /** The guard of a claim's start, acknowledgement or release matches exactly
      when the row is still in that very claim, however often its epoch was
      repeated. */
  lemma GuardsMatchTheClaim(s: State, c: Claim, e: Event)
    requires Inv(s) && c in s.claims && ActsFor(e, c)
    ensures Enabled(s, e) <==> MayActNow(s, e, c)
  {
    assert ClaimInv(s, c);
    if InClaim(s, c) {
      assert Fenced(s) && OwnerRegistered(s, s.jobs[c.task]);
    }
  }

  lemma NoAba(events: seq<Event>, c: Claim, e: Event)
    requires c in Run(Initial, events).claims && ActsFor(e, c)
    ensures var s := Run(Initial, events);
            && (Enabled(s, e) <==> MayActNow(s, e, c))
            && (!MayActNow(s, e, c) ==> Step(s, e) == s)
  {
    ReachableStatesKeepInv(events);
    GuardsMatchTheClaim(Run(Initial, events), c, e);
  }

  // ----------------------------------------------------- bounded executions

  /** Every attempt is one finished execution or one charged unstarted claim,
      and a task starts at most `maxAttempts` times. */
  lemma ExecutionsAreBounded(events: seq<Event>, id: TaskId)
    requires id in Run(Initial, events).jobs
    ensures var s := Run(Initial, events);
            var r, l := s.jobs[id], LedgerOf(s, id);
            && l.starts + l.unstarted == r.attempts + InFlight(r)
            && l.starts <= r.maxAttempts
  {
    ReachableStatesKeepInv(events);
  }

  lemma RunningRowsStay(s: State, e: Event, id: TaskId)
    requires TablesInv(s) && id in s.jobs && s.jobs[id].status.Running?
    ensures id in Step(s, e).jobs
  {
  }

  lemma RunningChangeCharges(before: Row, after: Row, s: State, next: State)
    requires before.status.Running? && RowChange(before, after, s, next)
    ensures after.attempts == before.attempts + (if after.status.Running? then 0 else 1)
  {
  }

  /** Leaving `Running` charges exactly one attempt, whoever ends the execution. */
  lemma LeavingRunningChargesOnce(s: State, e: Event, id: TaskId)
    requires Inv(s) && id in s.jobs && s.jobs[id].status.Running?
    ensures var next := Step(s, e);
            && id in next.jobs
            && next.jobs[id].attempts == s.jobs[id].attempts + (if next.jobs[id].status.Running? then 0 else 1)
  {
    RunningRowsStay(s, e, id);
    if Enabled(s, e) {
      EffectIsLawful(s, e);
      RunningChangeCharges(s.jobs[id], Effect(s, e).jobs[id], s, Effect(s, e));
    }
  }

  lemma UnchargedEndIsRelease(s: State, e: Event, id: TaskId)
    requires TablesInv(s) && Enabled(s, e) && id in s.jobs && Active(s.jobs[id])
    requires id in Effect(s, e).jobs && !Active(Effect(s, e).jobs[id])
    requires Effect(s, e).jobs[id].attempts == s.jobs[id].attempts
    ensures e.ReleaseWorker? && s.jobs[id].status.Queued? && OwnedBy(s.jobs[id], (e.name, e.queue))
    ensures Effect(s, e).jobs[id] == s.jobs[id].(status := Pending, owner := None, lockAt := None)
  {
  }

  /** The only way a claim ends without a charge is the release of its own
      registration before any start. */
  lemma OnlyReleaseIsUncharged(s: State, e: Event, id: TaskId)
    requires Inv(s) && id in s.jobs && Active(s.jobs[id])
    requires id in Step(s, e).jobs && !Active(Step(s, e).jobs[id])
    requires Step(s, e).jobs[id].attempts == s.jobs[id].attempts
    ensures e.ReleaseWorker? && s.jobs[id].status.Queued? && OwnedBy(s.jobs[id], (e.name, e.queue))
    ensures Step(s, e).jobs[id] == s.jobs[id].(status := Pending, owner := None, lockAt := None)
  {
    UnchargedEndIsRelease(s, e, id);
  }

  // ----------------------------------------------------- one start per epoch

  ghost predicate StartRecorded(s: State, id: TaskId, attempts: int, gen: nat) {
    id in s.jobs && attempts in LedgerOf(s, id).startGen && LedgerOf(s, id).startGen[attempts] == gen
  }

  lemma StartRecordKept(s: State, e: Event, id: TaskId, attempts: int, gen: nat)
    requires Inv(s) && StartRecorded(s, id, attempts, gen)
    ensures id in Step(s, e).jobs ==> StartRecorded(Step(s, e), id, attempts, gen)
    ensures id in Step(s, e).used
  {
    if Enabled(s, e) {
      EffectIsLawful(s, e);
    }
  }

  lemma {:induction false} StartRecordForever(s: State, events: seq<Event>, id: TaskId, attempts: int, gen: nat)
    requires Inv(s) && StartRecorded(s, id, attempts, gen)
    ensures id in Run(s, events).jobs ==> StartRecorded(Run(s, events), id, attempts, gen)
    decreases |events|
  {
    if events != [] {
      var next := Step(s, events[0]);
      StepKeepsInv(s, events[0]);
      StartRecordKept(s, events[0], id, attempts, gen);
      if id in next.jobs {
        StartRecordForever(next, events[1..], id, attempts, gen);
      } else {
        GoneForGood(next, events[1..], id);
      }
    }
  }

  /** After a claim started a row, no other claim of that epoch starts it again,
      now or later: a matching start is a restart of the very same claim. */
  lemma OneStartPerEpoch(s: State, first: Claim, start: Event, between: seq<Event>, second: Claim, again: Event)
    requires Inv(s) && first in s.claims && start.Start? && ActsFor(start, first) && Enabled(s, start)
    requires var later := Run(Step(s, start), between);
             second in later.claims && again.Start? && ActsFor(again, second) && Enabled(later, again)
    requires second.task == first.task && second.attempts == first.attempts
    ensures second.gen == first.gen && again.restart
    ensures Run(Step(s, start), between).jobs[first.task].status.Running?
  {
    GuardsMatchTheClaim(s, first, start);
    StepKeepsInv(s, start);
    var started, later := Step(s, start), Run(Step(s, start), between);
    assert StartRecorded(started, first.task, first.attempts, first.gen) by {
      assert LedgerInv(started.jobs[first.task], LedgerOf(started, first.task));
    }
    RunKeepsInv(started, between);
    StartRecordForever(started, between, first.task, first.attempts, first.gen);
    GuardsMatchTheClaim(later, second, again);
    assert LedgerInv(later.jobs[first.task], LedgerOf(later, first.task));
  }
}
