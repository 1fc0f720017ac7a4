/** The local lease of one worker name, and the heartbeats that wait for its
    registration. Every load, store and critical section is one event, so any
    interleaving of the threads is a sequence of events. */
module Lease {
  type ThreadId = nat
  type WaiterId = nat
  type Waker = nat

  /** Where a registration attempt or a retirement stands. */
  datatype Phase =
    | Live                     // attempt begun, counted as pending
    | Stored                   // outcome stored
    | Settled                  // counted as settled
    | Released                 // no longer pending
    | RetireStored             // retirement stored
    | Waking(list: set<Waker>) // took the waiters
    | Gone

  datatype Load = LoadRegistered | LoadRetired | LoadSettled | LoadPending
  datatype Cause = Registered | Retired | Refused
  datatype Stage = Idle | Check(second: bool, load: Load) | Push | Parked | Resolved(cause: Cause)

  datatype Waiter = Waiter(settledBefore: nat, countedBefore: set<ThreadId>, waker: Waker, stage: Stage, notified: bool)

  datatype State = State(
    retired: bool, registered: bool, settled: nat, pending: int, waiters: set<Waker>,
    threads: map<ThreadId, Phase>, waiting: map<WaiterId, Waiter>,
    counted: set<ThreadId>)    // attempts that counted themselves as settled

  const Initial: State := State(false, false, 0, 0, {}, map[], map[], {})

  datatype Event =
    | Begin(t: ThreadId)
    | StoreOutcome(t: ThreadId, succeeded: bool)
    | CountSettled(t: ThreadId)
    | CountPending(t: ThreadId)
    | StoreRetired(t: ThreadId)
    | TakeWaiters(t: ThreadId)
    | Wake(t: ThreadId, waker: Waker)
    | Finish(t: ThreadId)
    | Create(w: WaiterId)
    | Poll(w: WaiterId, waker: Waker)
    | Read(w: WaiterId)
    | PushWaker(w: WaiterId)

  predicate At(s: State, t: ThreadId, phase: Phase) {
    t in s.threads && s.threads[t] == phase
  }

  predicate Enabled(s: State, e: Event) {
    match e
    case Begin(t) => t !in s.threads
    case StoreOutcome(t, _) => At(s, t, Live)
    case CountSettled(t) => At(s, t, Stored)
    case CountPending(t) => At(s, t, Settled)
    case StoreRetired(t) => t !in s.threads
    case TakeWaiters(t) => At(s, t, Released) || At(s, t, RetireStored)
    case Wake(t, waker) => t in s.threads && s.threads[t].Waking? && waker in s.threads[t].list
    case Finish(t) => At(s, t, Waking({}))
    case Create(w) => w !in s.waiting
    case Poll(w, _) => w in s.waiting && (s.waiting[w].stage.Idle? || s.waiting[w].stage.Parked?)
    case Read(w) => w in s.waiting && s.waiting[w].stage.Check?
    case PushWaker(w) => w in s.waiting && s.waiting[w].stage.Push?
  }

  function Moved(s: State, t: ThreadId, phase: Phase): State {
    s.(threads := s.threads[t := phase])
  }

  /** One load of `is_settled`, and what the poll does next. */
  function AfterRead(s: State, waiter: Waiter): Stage
    requires waiter.stage.Check?
  {
    var Check(second, load) := waiter.stage;
    var refused := if second then Parked else Push;
    match load
    case LoadRegistered => if s.registered then Resolved(Registered) else Check(second, LoadRetired)
    case LoadRetired => if s.retired then Resolved(Retired) else Check(second, LoadSettled)
    case LoadSettled => if s.settled > waiter.settledBefore then Check(second, LoadPending) else refused
    case LoadPending => if s.pending == 0 then Resolved(Refused) else refused
  }

  function Effect(s: State, e: Event): State
    requires Enabled(s, e)
  {
    match e
    case Begin(t) => Moved(s, t, Live).(pending := s.pending + 1)
    case StoreOutcome(t, succeeded) => Moved(s, t, Stored).(registered := s.registered || succeeded)
    case CountSettled(t) => Moved(s, t, Settled).(settled := s.settled + 1, counted := s.counted + {t})
    case CountPending(t) => Moved(s, t, Released).(pending := s.pending - 1)
    case StoreRetired(t) => Moved(s, t, RetireStored).(retired := true)
    case TakeWaiters(t) => Moved(s, t, Waking(s.waiters)).(waiters := {})
    case Wake(t, waker) =>
      Moved(s, t, Waking(s.threads[t].list - {waker})).(waiting :=
        map w | w in s.waiting ::
          if s.waiting[w].waker == waker then s.waiting[w].(notified := true) else s.waiting[w])
    case Finish(t) => Moved(s, t, Gone)
    case Create(w) => s.(waiting := s.waiting[w := Waiter(s.settled, s.counted, 0, Idle, false)])
    case Poll(w, waker) =>
      s.(waiting := s.waiting[w := s.waiting[w].(waker := waker, stage := Check(false, LoadRegistered))])
    case Read(w) => s.(waiting := s.waiting[w := s.waiting[w].(stage := AfterRead(s, s.waiting[w]))])
    case PushWaker(w) =>
      s.(waiters := s.waiters + {s.waiting[w].waker},
         waiting := s.waiting[w := s.waiting[w].(stage := Check(true, LoadRegistered), notified := false)])
  }

  function Step(s: State, e: Event): State {
    if Enabled(s, e) then Effect(s, e) else s
  }

  function Run(s: State, events: seq<Event>): State
    decreases |events|
  {
    if events == [] then s else Run(Step(s, events[0]), events[1..])
  }

  // -------------------------------------------------------------- invariant

  predicate IsUnsettled(phase: Phase) {
    phase.Live? || phase.Stored? || phase.Settled?
  }

  /** Attempts that have not yet left `pending`. */
  function Unsettled(s: State): set<ThreadId> {
    set t | t in s.threads && IsUnsettled(s.threads[t])
  }

  /** On its way to take the waiters, without waiting for anyone. */
  predicate WillTake(phase: Phase) {
    phase.Stored? || phase.Settled? || phase.Released? || phase.RetireStored?
  }

  ghost predicate Taken(s: State, waker: Waker) {
    exists t :: t in s.threads && s.threads[t].Waking? && waker in s.threads[t].list
  }

  ghost predicate SomeoneWillTake(s: State) {
    exists t :: t in s.threads && WillTake(s.threads[t])
  }

  /** A wake of this waker is on its way. */
  ghost predicate Soon(s: State, waker: Waker) {
    Taken(s, waker) || (waker in s.waiters && SomeoneWillTake(s))
  }

  /** What a heartbeat waits for. */
  predicate Condition(s: State, waiter: Waiter) {
    s.registered || s.retired || (s.settled > waiter.settledBefore && s.pending == 0)
  }

  predicate HasRead(stage: Stage, load: Load) {
    stage.Parked? ||
    (stage.Check? && stage.second && match load
                                     case LoadRegistered => !stage.load.LoadRegistered?
                                     case LoadRetired => stage.load.LoadSettled? || stage.load.LoadPending?
                                     case _ => false)
  }

  ghost predicate WaiterInv(s: State, waiter: Waiter) {
    && waiter.countedBefore <= s.counted && |waiter.countedBefore| == waiter.settledBefore
    && ((waiter.stage.Parked? || (waiter.stage.Check? && waiter.stage.second)) && !waiter.notified ==>
          && (waiter.waker in s.waiters || Taken(s, waiter.waker))
          && (HasRead(waiter.stage, LoadRegistered) && s.registered ==> Soon(s, waiter.waker))
          && (HasRead(waiter.stage, LoadRetired) && s.retired ==> Soon(s, waiter.waker))
          && (waiter.stage.Parked? && s.settled > waiter.settledBefore ==> Soon(s, waiter.waker) || s.pending > 0))
    && (waiter.stage == Check(true, LoadPending) || waiter.stage == Check(false, LoadPending) ==>
          s.settled > waiter.settledBefore)
  }

  ghost predicate Counts(s: State) {
    && s.pending == |Unsettled(s)|
    && s.settled == |s.counted|
    && (forall t :: t in s.threads && (s.threads[t].Live? || s.threads[t].Stored?) ==> t !in s.counted)
    && s.counted <= s.threads.Keys
  }

  ghost predicate Inv(s: State) {
    Counts(s) && forall w :: w in s.waiting ==> WaiterInv(s, s.waiting[w])
  }

  function UnsettledIn(threads: map<ThreadId, Phase>): set<ThreadId> {
    set t | t in threads && IsUnsettled(threads[t])
  }

  /** One thread's move changes the unsettled threads by that thread at most. */
  lemma MoveCounts(threads: map<ThreadId, Phase>, t: ThreadId, phase: Phase)
    ensures var was := t in threads && IsUnsettled(threads[t]);
            |UnsettledIn(threads[t := phase])| ==
            |UnsettledIn(threads)| + (if IsUnsettled(phase) then 1 else 0) - (if was then 1 else 0)
  {
    var before, after := UnsettledIn(threads), UnsettledIn(threads[t := phase]);
    if IsUnsettled(phase) {
      assert after == before + {t};
    } else {
      assert after == before - {t};
    }
  }

  predicate ByWaiter(e: Event) {
    e.Create? || e.Poll? || e.Read? || e.PushWaker?
  }

  lemma WaitersLeaveCounts(s: State, e: Event)
    requires Enabled(s, e) && ByWaiter(e)
    ensures var next := Effect(s, e);
            next.threads == s.threads && next.counted == s.counted && next.pending == s.pending && next.settled == s.settled
  {
  }

  /** What a thread's move adds to `pending`. */
  function Share(threads: map<ThreadId, Phase>, t: ThreadId): int {
    if t in threads && IsUnsettled(threads[t]) then 1 else 0
  }

  lemma PendingFollowsThread(s: State, e: Event)
    requires Enabled(s, e) && !ByWaiter(e)
    ensures var next := Effect(s, e);
            && e.t in next.threads && next.threads == s.threads[e.t := next.threads[e.t]]
            && next.pending == s.pending + Share(next.threads, e.t) - Share(s.threads, e.t)
  {
  }

  lemma ThreadsKeepCounts(s: State, e: Event)
    requires Counts(s) && Enabled(s, e) && !ByWaiter(e)
    ensures Counts(Effect(s, e))
  {
    var next := Effect(s, e);
    PendingFollowsThread(s, e);
    MoveCounts(s.threads, e.t, next.threads[e.t]);
    assert Unsettled(s) == UnsettledIn(s.threads) && Unsettled(next) == UnsettledIn(next.threads);
    CountedFollowsThread(s, e);
  }

  lemma CountedFollowsThread(s: State, e: Event)
    requires Counts(s) && Enabled(s, e) && !ByWaiter(e)
    ensures var next := Effect(s, e);
            && next.settled == |next.counted| && next.counted <= next.threads.Keys
            && forall t :: t in next.threads && (next.threads[t].Live? || next.threads[t].Stored?) ==> t !in next.counted
  {
  }

  lemma CountsKept(s: State, e: Event)
    requires Counts(s) && Enabled(s, e)
    ensures Counts(Effect(s, e))
  {
    if ByWaiter(e) {
      WaitersLeaveCounts(s, e);
      assert Unsettled(Effect(s, e)) == Unsettled(s);
    } else {
      ThreadsKeepCounts(s, e);
    }
  }

  /** A wake on its way stays on its way until it arrives. */
  lemma SoonPersists(s: State, e: Event, waker: Waker)
    requires Enabled(s, e) && Soon(s, waker)
    ensures Soon(Effect(s, e), waker) || (e.Wake? && e.waker == waker)
  {
    var next := Effect(s, e);
    if Taken(s, waker) {
      var t :| t in s.threads && s.threads[t].Waking? && waker in s.threads[t].list;
      assert t in next.threads;
    } else {
      var t :| t in s.threads && WillTake(s.threads[t]);
      assert t in next.threads;
      if e.TakeWaiters? {
        assert waker in next.threads[e.t].list;
      }
    }
  }

  lemma TakenPersists(s: State, e: Event, waker: Waker)
    requires Enabled(s, e) && (waker in s.waiters || Taken(s, waker))
    ensures var next := Effect(s, e);
            waker in next.waiters || Taken(next, waker) || (e.Wake? && e.waker == waker)
  {
    var next := Effect(s, e);
    if Taken(s, waker) {
      var t :| t in s.threads && s.threads[t].Waking? && waker in s.threads[t].list;
      assert t in next.threads;
    } else if e.TakeWaiters? {
      assert waker in next.threads[e.t].list;
    }
  }

  /** A waiter's own step: it reads, or leaves its waker. */
  lemma OwnStepKept(s: State, e: Event)
    requires Counts(s) && Enabled(s, e) && ByWaiter(e) && !e.Create? && WaiterInv(s, s.waiting[e.w])
    ensures WaiterInv(Effect(s, e), Effect(s, e).waiting[e.w])
  {
    var next := Effect(s, e);
    SameThreads(s, next, s.waiting[e.w].waker);
  }

  /** Another waiter's step. */
  lemma OtherStepKept(s: State, e: Event, w: WaiterId)
    requires Enabled(s, e) && ByWaiter(e) && w in s.waiting && e.w != w && WaiterInv(s, s.waiting[w])
    ensures WaiterInv(Effect(s, e), Effect(s, e).waiting[w])
  {
    var next := Effect(s, e);
    SameThreads(s, next, s.waiting[w].waker);
  }

  lemma SameThreads(s: State, next: State, waker: Waker)
    requires next.threads == s.threads && s.waiters <= next.waiters
    ensures Taken(s, waker) ==> Taken(next, waker)
    ensures Soon(s, waker) ==> Soon(next, waker)
    ensures SomeoneWillTake(s) ==> SomeoneWillTake(next)
  {
    if t :| t in s.threads && s.threads[t].Waking? && waker in s.threads[t].list {
      assert t in next.threads;
    }
    if t :| t in s.threads && WillTake(s.threads[t]) {
      assert t in next.threads;
    }
  }

  predicate Stores(e: Event) {
    e.StoreOutcome? || e.CountSettled? || e.CountPending? || e.StoreRetired?
  }

  /** A thread that stores something will take the waiters. */
  lemma StoreKept(s: State, e: Event, w: WaiterId)
    requires Enabled(s, e) && Stores(e) && w in s.waiting && WaiterInv(s, s.waiting[w])
    ensures WaiterInv(Effect(s, e), Effect(s, e).waiting[w])
  {
    var next := Effect(s, e);
    var waker := s.waiting[w].waker;
    assert WillTake(next.threads[e.t]) && SomeoneWillTake(next);
    if waker in s.waiters || Taken(s, waker) {
      TakenPersists(s, e, waker);
    }
  }

  /** A thread that begins, takes the waiters, wakes one, or is done. */
  lemma WakeKept(s: State, e: Event, w: WaiterId)
    requires Counts(s) && Enabled(s, e) && !ByWaiter(e) && !Stores(e) && w in s.waiting && WaiterInv(s, s.waiting[w])
    ensures WaiterInv(Effect(s, e), Effect(s, e).waiting[w])
  {
    var waker := s.waiting[w].waker;
    if waker in s.waiters || Taken(s, waker) {
      TakenPersists(s, e, waker);
    }
    if Soon(s, waker) {
      SoonPersists(s, e, waker);
    }
  }

  lemma WaiterKept(s: State, e: Event, w: WaiterId)
    requires Counts(s) && Enabled(s, e) && w in s.waiting && WaiterInv(s, s.waiting[w])
    ensures WaiterInv(Effect(s, e), Effect(s, e).waiting[w])
  {
    if !ByWaiter(e) {
      if Stores(e) {
        StoreKept(s, e, w);
      } else {
        WakeKept(s, e, w);
      }
    } else if e.w != w {
      OtherStepKept(s, e, w);
    } else {
      OwnStepKept(s, e);
    }
  }

  lemma StepKeepsInv(s: State, e: Event)
    requires Inv(s)
    ensures Inv(Step(s, e))
  {
    if Enabled(s, e) {
      var next := Effect(s, e);
      CountsKept(s, e);
      forall w | w in next.waiting
        ensures WaiterInv(next, next.waiting[w])
      {
        if w in s.waiting {
          WaiterKept(s, e, w);
        }
      }
    }
  }

  lemma {:induction false} RunKeepsInv(s: State, events: seq<Event>)
    requires Inv(s)
    ensures Inv(Run(s, events))
    decreases |events|
  {
    if events != [] {
      StepKeepsInv(s, events[0]);
      RunKeepsInv(Step(s, events[0]), events[1..]);
    }
  }

  lemma ReachableStatesKeepInv(events: seq<Event>)
    ensures Inv(Run(Initial, events))
  {
    RunKeepsInv(Initial, events);
  }

  // --------------------------------------------------------------- theorems

  /** A heartbeat that returned Pending and whose condition holds has been woken
      or is about to be, whatever the interleaving. */
  lemma NoLostWakeup(events: seq<Event>, w: WaiterId)
    requires var s := Run(Initial, events);
             w in s.waiting && s.waiting[w].stage.Parked? && Condition(s, s.waiting[w])
    ensures var s := Run(Initial, events);
            s.waiting[w].notified || Soon(s, s.waiting[w].waker)
  {
    ReachableStatesKeepInv(events);
  }

  /** The wakers of a wake on its way need no other thread: the thread that will
      deliver it always has a next step, and none of its steps goes back. */
  function Work(phase: Phase): nat {
    match phase
    case Live => 6
    case Stored => 5
    case Settled => 4
    case Released => 3
    case RetireStored => 3
    case Waking(_) => 2
    case Gone => 0
  }

  /** One of its own steps, which never go back. */
  predicate MovesOn(s: State, e: Event, t: ThreadId) {
    && t in s.threads && Enabled(s, e) && t in Effect(s, e).threads
    && var before, after := s.threads[t], Effect(s, e).threads[t];
       Work(after) < Work(before) || (before.Waking? && after.Waking? && |after.list| < |before.list|)
  }

  lemma WakingMovesOn(s: State, t: ThreadId)
    requires t in s.threads && s.threads[t].Waking?
    ensures exists e :: MovesOn(s, e, t)
  {
    var list := s.threads[t].list;
    if list == {} {
      assert MovesOn(s, Finish(t), t);
    } else {
      var waker :| waker in list;
      assert |list - {waker}| < |list|;
      assert MovesOn(s, Wake(t, waker), t);
    }
  }

  lemma WakersAlwaysMove(s: State, t: ThreadId)
    requires t in s.threads && (WillTake(s.threads[t]) || s.threads[t].Waking?)
    ensures exists e :: MovesOn(s, e, t)
  {
    match s.threads[t] {
      case Stored => assert MovesOn(s, CountSettled(t), t);
      case Settled => assert MovesOn(s, CountPending(t), t);
      case Released => assert MovesOn(s, TakeWaiters(t), t);
      case RetireStored => assert MovesOn(s, TakeWaiters(t), t);
      case Waking(_) => WakingMovesOn(s, t);
    }
  }

  /** Once every finisher is through, a heartbeat still waiting and not woken
      waits for something that has not happened. */
  lemma QuietMeansNothingMissed(events: seq<Event>, w: WaiterId)
    requires var s := Run(Initial, events);
             && w in s.waiting && s.waiting[w].stage.Parked? && !s.waiting[w].notified
             && forall t :: t in s.threads ==> s.threads[t].Live? || s.threads[t].Gone?
    ensures var s := Run(Initial, events);
            !Condition(s, s.waiting[w])
  {
    ReachableStatesKeepInv(events);
  }

  /** `pending` counts exactly the attempts that have not left it, so it never
      underflows. */
  lemma PendingNeverUnderflows(events: seq<Event>)
    ensures var s := Run(Initial, events);
            s.pending == |Unsettled(s)| >= 0
    ensures var s := Run(Initial, events);
            forall t :: Enabled(s, CountPending(t)) ==> s.pending >= 1
  {
    ReachableStatesKeepInv(events);
    var s := Run(Initial, events);
    forall t | Enabled(s, CountPending(t))
      ensures s.pending >= 1
    {
      assert t in Unsettled(s);
    }
  }

  lemma Newcomer(before: set<ThreadId>, now: set<ThreadId>) returns (t: ThreadId)
    requires before <= now && |before| < |now|
    ensures t in now && t !in before
  {
    var rest := now - before;
    assert now == before + rest;
    t :| t in rest;
  }

  /** A refusal releases a heartbeat only when no attempt is pending and one that
      had not settled when the heartbeat was created has settled since. */
  lemma RefusalReleasesOnlyWhenSettled(events: seq<Event>, w: WaiterId)
    requires var s := Run(Initial, events);
             && Enabled(s, Read(w)) && Step(s, Read(w)).waiting[w].stage == Resolved(Refused)
    ensures var s := Run(Initial, events);
            && Unsettled(s) == {}
            && exists t :: t in s.counted && t !in s.waiting[w].countedBefore
  {
    ReachableStatesKeepInv(events);
    var s := Run(Initial, events);
    var waiter := s.waiting[w];
    assert WaiterInv(s, waiter);
    var newcomer := Newcomer(waiter.countedBefore, s.counted);
  }
}
