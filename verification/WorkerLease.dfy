/** The lease object: its fields, and its operations as the atomic steps the
    interleaving model of `Lease` runs, in program order. */
module WorkerLease {
  import opened Lease

  lemma {:induction false} RunAppend(s: State, events: seq<Event>, e: Event)
    ensures Run(s, events + [e]) == Step(Run(s, events), e)
    decreases |events|
  {
    if events == [] {
      assert events + [e] == [e] && [e][1..] == [];
    } else {
      assert (events + [e])[1..] == events[1..] + [e];
      RunAppend(Step(s, events[0]), events[1..], e);
    }
  }

  /** The waiters of these wakers are notified, and nothing else moved. */
  ghost predicate Woken(before: map<WaiterId, Waiter>, after: map<WaiterId, Waiter>, wakers: set<Waker>) {
    && after.Keys == before.Keys
    && forall w :: w in after ==>
         after[w] == if before[w].waker in wakers then before[w].(notified := true) else before[w]
  }

  /** A name for the next atomic operation of a thread that has none yet. */
  ghost function Unused(threads: set<ThreadId>): (t: ThreadId)
    ensures forall k :: k in threads ==> k < t
  {
    if threads == {} then 0
    else
      var k :| k in threads;
      var above := Unused(threads - {k});
      assert forall j :: j in threads ==> j == k || j in threads - {k};
      if k < above then above else k + 1
  }

  class WorkerLease {
    var retired: bool
    var registered: bool
    var settled: nat
    var pending: int
    var waiters: set<Waker>
    ghost var threads: map<ThreadId, Phase>
    ghost var waiting: map<WaiterId, Waiter>
    ghost var counted: set<ThreadId>
    /** Every atomic step so far. */
    ghost var trace: seq<Event>

    ghost function Snapshot(): State
      reads this
    {
      State(retired, registered, settled, pending, waiters, threads, waiting, counted)
    }

    ghost predicate Valid()
      reads this
    {
      Snapshot() == Run(Initial, trace)
    }

    constructor ()
      ensures Valid() && trace == []
    {
      retired, registered, settled, pending, waiters := false, false, 0, 0, {};
      threads, waiting, counted, trace := map[], map[], {}, [];
    }

    /** Account for one atomic step: the shared fields were just written. */
    ghost method Did(e: Event, before: State)
      requires before == Run(Initial, trace) && Enabled(before, e)
      requires var after := Effect(before, e);
               && retired == after.retired && registered == after.registered && settled == after.settled
               && pending == after.pending && waiters == after.waiters
      modifies this`threads, this`waiting, this`counted, this`trace
      ensures Valid() && trace == old(trace) + [e] && Snapshot() == Effect(before, e)
    {
      RunAppend(Initial, trace, e);
      var after := Effect(before, e);
      threads, waiting, counted, trace := after.threads, after.waiting, after.counted, trace + [e];
    }

    method BeginRegistration(ghost t: ThreadId)
      requires Valid() && t !in threads
      modifies this
      ensures Valid() && trace == old(trace) + [Begin(t)] && At(Snapshot(), t, Live)
      ensures pending == old(pending) + 1 && settled == old(settled)
      ensures retired == old(retired) && registered == old(registered) && waiters == old(waiters)
    {
      ghost var before := Snapshot();
      pending := pending + 1;
      Did(Begin(t), before);
    }

    method StoreTheOutcome(ghost t: ThreadId, succeeded: bool)
      requires Valid() && At(Snapshot(), t, Live)
      modifies this`registered, this`threads, this`waiting, this`counted, this`trace
      ensures Valid() && At(Snapshot(), t, Stored) && trace == old(trace) + [StoreOutcome(t, succeeded)]
      ensures registered == (old(registered) || succeeded) && waiting == old(waiting)
    {
      ghost var before := Snapshot();
      if succeeded {
        registered := true;
      }
      Did(StoreOutcome(t, succeeded), before);
    }

    method CountAsSettled(ghost t: ThreadId)
      requires Valid() && At(Snapshot(), t, Stored)
      modifies this`settled, this`threads, this`waiting, this`counted, this`trace
      ensures Valid() && At(Snapshot(), t, Settled) && trace == old(trace) + [CountSettled(t)]
      ensures settled == old(settled) + 1 && waiting == old(waiting)
    {
      ghost var before := Snapshot();
      settled := settled + 1;
      Did(CountSettled(t), before);
    }

    method LeavePending(ghost t: ThreadId)
      requires Valid() && At(Snapshot(), t, Settled)
      modifies this`pending, this`threads, this`waiting, this`counted, this`trace
      ensures Valid() && At(Snapshot(), t, Released) && trace == old(trace) + [CountPending(t)]
      ensures pending == old(pending) - 1 && waiting == old(waiting)
    {
      ghost var before := Snapshot();
      pending := pending - 1;
      Did(CountPending(t), before);
    }

    /** The outcome is stored first, and the attempt counts as settled before it
        stops being pending. */
    method SettleAttempt(ghost t: ThreadId, succeeded: bool)
      requires Valid() && At(Snapshot(), t, Live)
      modifies this`registered, this`settled, this`pending, this`threads, this`waiting, this`counted, this`trace
      ensures Valid() && At(Snapshot(), t, Released)
      ensures trace == old(trace) + [StoreOutcome(t, succeeded), CountSettled(t), CountPending(t)]
      ensures registered == (old(registered) || succeeded) && waiting == old(waiting)
      ensures settled == old(settled) + 1 && pending == old(pending) - 1
    {
      StoreTheOutcome(t, succeeded);
      CountAsSettled(t);
      LeavePending(t);
    }

    /** `finish_registration`: the waiters are taken last. */
    method FinishRegistration(ghost t: ThreadId, succeeded: bool)
      requires Valid() && At(Snapshot(), t, Live)
      modifies this
      ensures Valid() && At(Snapshot(), t, Gone)
      ensures old(trace) + [StoreOutcome(t, succeeded), CountSettled(t), CountPending(t)] + [TakeWaiters(t)] <= trace
      ensures registered == (old(registered) || succeeded) && retired == old(retired)
      ensures settled == old(settled) + 1 && pending == old(pending) - 1 && waiters == {}
      ensures Woken(old(waiting), waiting, old(waiters))
    {
      SettleAttempt(t, succeeded);
      WakeWaiters(t);
    }

    method Retire(ghost t: ThreadId)
      requires Valid() && t !in threads
      modifies this
      ensures Valid() && At(Snapshot(), t, Gone)
      ensures old(trace) + [StoreRetired(t), TakeWaiters(t)] <= trace
      ensures retired && registered == old(registered) && settled == old(settled) && pending == old(pending)
      ensures waiters == {} && Woken(old(waiting), waiting, old(waiters))
    {
      ghost var before := Snapshot();
      retired := true;
      Did(StoreRetired(t), before);
      WakeWaiters(t);
    }

    /** Take every waiter in one critical section, then wake them one by one. */
    method WakeWaiters(ghost t: ThreadId)
      requires Valid() && (At(Snapshot(), t, Released) || At(Snapshot(), t, RetireStored))
      modifies this
      ensures Valid() && At(Snapshot(), t, Gone) && old(trace) + [TakeWaiters(t)] <= trace
      ensures waiters == {} && retired == old(retired) && registered == old(registered)
      ensures settled == old(settled) && pending == old(pending)
      ensures Woken(old(waiting), waiting, old(waiters))
    {
      ghost var before := Snapshot();
      var list := waiters;
      waiters := {};
      Did(TakeWaiters(t), before);
      WakeAll(t, list);
      before := Snapshot();
      Did(Finish(t), before);
    }

    method WakeAll(ghost t: ThreadId, taken: set<Waker>)
      requires Valid() && At(Snapshot(), t, Waking(taken))
      modifies this`threads, this`waiting, this`counted, this`trace
      ensures Valid() && At(Snapshot(), t, Waking({})) && old(trace) <= trace
      ensures Woken(old(waiting), waiting, taken)
    {
      var list := taken;
      while list != {}
        invariant Valid() && At(Snapshot(), t, Waking(list)) && list <= taken && old(trace) <= trace
        invariant Woken(old(waiting), waiting, taken - list)
        decreases list
      {
        var waker :| waker in list;
        ghost var before := Snapshot();
        list := list - {waker};
        Did(Wake(t, waker), before);
      }
      assert taken - list == taken;
    }

    method CreateRegistration(ghost w: WaiterId)
      requires Valid() && w !in waiting
      modifies this
      ensures Valid() && trace == old(trace) + [Create(w)]
      ensures w in waiting && waiting[w].stage.Idle? && waiting[w].settledBefore == settled
    {
      ghost var before := Snapshot();
      Did(Create(w), before);
    }

    /** `is_settled`, one load at a time. */
    method IsSettled(ghost w: WaiterId, settledBefore: nat) returns (yes: bool)
      requires Valid() && w in waiting && waiting[w].stage.Check? && waiting[w].stage.load.LoadRegistered?
      requires waiting[w].settledBefore == settledBefore
      modifies this`threads, this`waiting, this`counted, this`trace
      ensures Valid() && w in waiting && waiting[w].settledBefore == settledBefore
      ensures waiting[w].waker == old(waiting[w].waker)
      ensures yes <==> waiting[w].stage.Resolved?
      ensures yes <==> Condition(Snapshot(), waiting[w])
      ensures yes <==> registered || retired || (settledBefore < settled && pending == 0)
      ensures !yes ==> waiting[w].stage == if old(waiting[w].stage.second) then Parked else Push
    {
      ghost var before := Snapshot();
      yes := registered;
      Did(Read(w), before);
      if yes {
        return;
      }
      before := Snapshot();
      yes := retired;
      Did(Read(w), before);
      if yes {
        return;
      }
      before := Snapshot();
      var more := settled > settledBefore;
      Did(Read(w), before);
      if !more {
        return;
      }
      before := Snapshot();
      yes := pending == 0;
      Did(Read(w), before);
    }

    /** `Registration::poll`: check, leave the waker, check again. */
    method PollRegistration(ghost w: WaiterId, settledBefore: nat, waker: Waker) returns (ready: bool)
      requires Valid() && w in waiting && (waiting[w].stage.Idle? || waiting[w].stage.Parked?)
      requires waiting[w].settledBefore == settledBefore
      modifies this
      ensures Valid() && w in waiting
      ensures ready <==> Condition(Snapshot(), waiting[w])
      ensures ready <==> registered || retired || (settledBefore < settled && pending == 0)
      ensures waiting[w].stage.Resolved? <==> ready
      ensures !ready ==> waiting[w].stage.Parked? && waker in waiters && waiting[w].waker == waker
    {
      ghost var before := Snapshot();
      Did(Poll(w, waker), before);
      ready := IsSettled(w, settledBefore);
      if ready {
        return;
      }
      before := Snapshot();
      waiters := waiters + {waker};
      Did(PushWaker(w), before);
      ready := IsSettled(w, settledBefore);
    }
  }
}
