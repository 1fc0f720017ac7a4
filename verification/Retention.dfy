/** The two retention loops, run against a store that other transactions keep
    changing. What the others do is an argument, one sequence per pause. */
module Retention {
  import opened Rows
  import opened Store
  import opened Invariants
  import opened Database
  import opened Folding

  // ------------------------------------------------------------------ purge

  const TIMESTAMP_FLOOR: Instant := -210_866_803_200 * MICROS_PER_SECOND

  /** `server_cutoff`, clamped to the earliest timestamp the server represents. */
  function Cutoff(now: Instant, completedBefore: nat): (cutoff: Instant)
    ensures TIMESTAMP_FLOOR <= cutoff && (TIMESTAMP_FLOOR <= now ==> cutoff <= now)
    ensures cutoff == now - completedBefore <==> TIMESTAMP_FLOOR <= now - completedBefore
    ensures now - completedBefore < TIMESTAMP_FLOOR ==> cutoff == TIMESTAMP_FLOOR
  {
    if now - completedBefore < TIMESTAMP_FLOOR then TIMESTAMP_FLOOR else now - completedBefore
  }

  function PurgeableIds(s: State, queue: Queue, cutoff: Instant): set<TaskId> {
    set id | id in s.jobs && Purgeable(s.jobs[id], queue, cutoff)
  }

  /** The completion time an event writes into the rows it ends. */
  function CompletionTime(e: Event): Option<Instant> {
    match e
    case Fetch(_, _, _, _, _, at) => Some(at)
    case Ack(_, _, _, _, _, _, _, _, at) => Some(at)
    case FailUndecodable(_, _, _, _, _, at) => Some(at)
    case Register(_, _, _, _, at) => Some(at)
    case Sweep(_, _, _, _, at) => Some(at)
    case ReleaseWorker(_, _, _, at) => Some(at)
    case _ => None
  }

  predicate CompletesAfter(e: Event, cutoff: Instant) {
    CompletionTime(e).Some? ==> CompletionTime(e).value > cutoff
  }

  /** A row that a step finishes is dated with the time of that step. */
  lemma CompletionIsDated(s: State, e: Event, id: TaskId)
    requires TablesInv(s) && Enabled(s, e)
    requires id in Effect(s, e).jobs && Finished(Effect(s, e).jobs[id])
    ensures id in s.jobs && Effect(s, e).jobs[id].queue == s.jobs[id].queue
    ensures var after := Effect(s, e).jobs[id];
            after == s.jobs[id] || (CompletionTime(e).Some? && after.doneAt == CompletionTime(e) && !Finished(s.jobs[id]))
  {
    if e.Ack? || e.FailUndecodable? || e.Lock? || e.Start? {
      SingleCompletionIsDated(s, e, id);
    }
  }

  lemma SingleCompletionIsDated(s: State, e: Event, id: TaskId)
    requires TablesInv(s) && Enabled(s, e) && (e.Ack? || e.FailUndecodable? || e.Lock? || e.Start?)
    requires id in Effect(s, e).jobs && Finished(Effect(s, e).jobs[id])
    ensures id in s.jobs && Effect(s, e).jobs[id].queue == s.jobs[id].queue
    ensures var after := Effect(s, e).jobs[id];
            after == s.jobs[id] || (CompletionTime(e).Some? && after.doneAt == CompletionTime(e) && !Finished(s.jobs[id]))
  {
  }

  /** The condition is exact, whoever ends the task (an acknowledgement, an
      undecodable release, a quarantine, a sweep, a takeover or a release): a
      completion joins the backlog just when its time is not after the cutoff. */
  lemma CompletionJoinsIffNotLater(s: State, e: Event, id: TaskId, cutoff: Instant)
    requires Kept(s) && Enabled(s, e) && id in s.jobs && !Finished(s.jobs[id])
    requires id in Step(s, e).jobs && Finished(Step(s, e).jobs[id])
    ensures id !in PurgeableIds(s, s.jobs[id].queue, cutoff)
    ensures CompletionTime(e).Some?
    ensures id in PurgeableIds(Step(s, e), s.jobs[id].queue, cutoff) <==> CompletionTime(e).value <= cutoff
  {
    Unfolded(s);
    CompletionIsDated(s, e, id);
  }

  /** The rows of a queue that a transaction finishes with a time not after the cutoff. */
  function LateRows(s: State, e: Event, queue: Queue, cutoff: Instant): set<TaskId> {
    if CompletesAfter(e, cutoff) then {}
    else set id | id in s.jobs && !Finished(s.jobs[id]) && s.jobs[id].queue == queue
                  && id in Step(s, e).jobs && Finished(Step(s, e).jobs[id])
  }

  /** Late completions are all a transaction adds to the backlog of a purge. */
  lemma BacklogGrowsByLateRows(s: State, e: Event, queue: Queue, cutoff: Instant)
    requires Kept(s)
    ensures PurgeableIds(Step(s, e), queue, cutoff) - PurgeableIds(s, queue, cutoff) == LateRows(s, e, queue, cutoff)
  {
    var next := Step(s, e);
    forall id | id in PurgeableIds(next, queue, cutoff) && id !in PurgeableIds(s, queue, cutoff)
      ensures id in LateRows(s, e, queue, cutoff)
    {
      NewlyPurgeableIsLate(s, e, id, queue, cutoff);
    }
    forall id | id in LateRows(s, e, queue, cutoff)
      ensures id in PurgeableIds(next, queue, cutoff) && id !in PurgeableIds(s, queue, cutoff)
    {
      CompletionJoinsIffNotLater(s, e, id, cutoff);
    }
  }

  lemma NewlyPurgeableIsLate(s: State, e: Event, id: TaskId, queue: Queue, cutoff: Instant)
    requires Kept(s) && id in PurgeableIds(Step(s, e), queue, cutoff) && id !in PurgeableIds(s, queue, cutoff)
    ensures id in LateRows(s, e, queue, cutoff)
  {
    Unfolded(s);
    StepKeeps(s, e);
    ActiveRowsAreSound(Step(s, e));
    CompletionIsDated(s, e, id);
    CompletionJoinsIffNotLater(s, e, id, cutoff);
  }

  /** The late completions of a run. */
  function LateIn(s: State, events: seq<Event>, queue: Queue, cutoff: Instant): set<TaskId>
    decreases |events|
  {
    if events == [] then {}
    else LateRows(s, events[0], queue, cutoff) + LateIn(Step(s, events[0]), events[1..], queue, cutoff)
  }

  lemma {:induction false} BacklogGrowsByLateIn(s: State, events: seq<Event>, queue: Queue, cutoff: Instant)
    requires Kept(s)
    ensures Kept(Run(s, events))
    ensures PurgeableIds(Run(s, events), queue, cutoff) <= PurgeableIds(s, queue, cutoff) + LateIn(s, events, queue, cutoff)
    decreases |events|
  {
    if events != [] {
      StepKeeps(s, events[0]);
      BacklogGrowsByLateRows(s, events[0], queue, cutoff);
      BacklogGrowsByLateIn(Step(s, events[0]), events[1..], queue, cutoff);
    }
  }

  lemma {:induction false} PromptRunsAreNeverLate(s: State, events: seq<Event>, queue: Queue, cutoff: Instant)
    requires forall e :: e in events ==> CompletesAfter(e, cutoff)
    ensures LateIn(s, events, queue, cutoff) == {}
    decreases |events|
  {
    if events != [] {
      assert forall e :: e in events[1..] ==> e in events;
      PromptRunsAreNeverLate(Step(s, events[0]), events[1..], queue, cutoff);
    }
  }

  /** Transactions that complete after the cutoff add nothing to the backlog. */
  lemma BacklogNeverGrowsOver(s: State, events: seq<Event>, queue: Queue, cutoff: Instant)
    requires Kept(s) && forall e :: e in events ==> CompletesAfter(e, cutoff)
    ensures Kept(Run(s, events))
    ensures PurgeableIds(Run(s, events), queue, cutoff) <= PurgeableIds(s, queue, cutoff)
  {
    PromptRunsAreNeverLate(s, events, queue, cutoff);
    BacklogGrowsByLateIn(s, events, queue, cutoff);
  }

  // How long a window must be. A completion is dated inside its statement and
  // becomes visible at its COMMIT.

  /** A transaction that commits after the cutoff was sampled at `now`, at most
      `lag` after the time it dates its rows with. */
  predicate CommitsWithin(e: Event, committed: Instant, now: Instant, lag: nat) {
    now <= committed && (CompletionTime(e).Some? ==> committed - lag <= CompletionTime(e).value <= committed)
  }

  predicate AllCommitWithin(events: seq<Event>, commits: seq<Instant>, now: Instant, lag: nat) {
    && |commits| == |events|
    && forall i :: 0 <= i < |events| ==> CommitsWithin(events[i], commits[i], now, lag)
  }

  /** Whatever commits after the cutoff was sampled leaves the backlog of a purge
      as it was, in every reachable store. */
  ghost predicate WindowHolds(queue: Queue, now: Instant, completedBefore: nat, lag: nat) {
    forall past, events, commits :: AllCommitWithin(events, commits, now, lag) ==>
      PurgeableIds(Run(Run(Initial, past), events), queue, Cutoff(now, completedBefore))
      <= PurgeableIds(Run(Initial, past), queue, Cutoff(now, completedBefore))
  }

  /** One task that is running when the cutoff is sampled, and was acknowledged
      `lag` before: its acknowledgement commits only now. */
  function RunningTask(queue: Queue, now: Instant, lag: nat): seq<Event> {
    [Enqueue(0, queue, 1, now - lag, 0), Register(0, queue, 0, 1, now - lag), Lock(0, 0, None, Some(0), now - lag)]
  }

  function LateAck(queue: Queue, now: Instant, lag: nat): Event {
    Ack(0, queue, 0, Second(now - lag), 1, 1, true, Some(0), now - lag)
  }

  lemma RunOfThree(s: State, a: Event, b: Event, c: Event)
    ensures Run(s, [a, b, c]) == Step(Step(Step(s, a), b), c)
  {
    assert [a, b, c][1..] == [b, c] && [b, c][1..] == [c] && [c][1..] == [];
    assert Run(Step(Step(s, a), b), [c]) == Step(Step(Step(s, a), b), c);
    assert Run(Step(s, a), [b, c]) == Step(Step(Step(s, a), b), c);
  }

  lemma TaskRegistered(queue: Queue, at: Instant)
    ensures var s := Step(Step(Initial, Enqueue(0, queue, 1, at, 0)), Register(0, queue, 0, 1, at));
            && s.jobs == map[0 := Enqueued(queue, 1, at, 0)] && s.workers == map[(0, queue) := Registration(Some(0), at)]
  {
    var queued := Step(Initial, Enqueue(0, queue, 1, at, 0));
    assert queued.jobs == map[0 := Enqueued(queue, 1, at, 0)] && queued.workers == map[] && queued.retired == {};
  }

  lemma TaskLocked(s: State, queue: Queue, at: Instant)
    requires s.jobs == map[0 := Enqueued(queue, 1, at, 0)] && s.workers == map[(0, queue) := Registration(Some(0), at)]
    ensures var next := Step(s, Lock(0, 0, None, Some(0), at));
            && next.jobs == map[0 := Row(queue, Running, 0, 1, at, 0, Some(0), Some(Second(at)), None, None)]
            && next.workers == s.workers
  {
  }

  lemma RunningTaskRuns(queue: Queue, now: Instant, lag: nat)
    ensures var s := Run(Initial, RunningTask(queue, now, lag));
            && s.jobs == map[0 := Row(queue, Running, 0, 1, now - lag, 0, Some(0), Some(Second(now - lag)), None, None)]
            && s.workers == map[(0, queue) := Registration(Some(0), now - lag)]
  {
    var at := now - lag;
    var enqueue, register, lock := Enqueue(0, queue, 1, at, 0), Register(0, queue, 0, 1, at), Lock(0, 0, None, Some(0), at);
    TaskRegistered(queue, at);
    TaskLocked(Step(Step(Initial, enqueue), register), queue, at);
    RunOfThree(Initial, enqueue, register, lock);
    assert RunningTask(queue, now, lag) == [enqueue, register, lock];
  }

  /** A completion that committed too late for its window joins the running purge. */
  lemma ShortWindowFails(queue: Queue, now: Instant, completedBefore: nat, lag: nat)
    requires completedBefore <= lag && TIMESTAMP_FLOOR < now - lag
    ensures !WindowHolds(queue, now, completedBefore, lag)
  {
    var past, e, cutoff := RunningTask(queue, now, lag), LateAck(queue, now, lag), Cutoff(now, completedBefore);
    var s := Run(Initial, past);
    RunningTaskRuns(queue, now, lag);
    assert Enabled(s, e) && Step(s, e).jobs[0].doneAt == Some(now - lag);
    assert 0 in PurgeableIds(Step(s, e), queue, cutoff) && 0 !in PurgeableIds(s, queue, cutoff);
    assert Run(Step(s, e), [e][1..]) == Step(s, e);
    assert AllCommitWithin([e], [now], now, lag);
  }

  lemma LongWindowHolds(queue: Queue, now: Instant, completedBefore: nat, lag: nat)
    requires completedBefore > lag && TIMESTAMP_FLOOR < now - lag
    ensures WindowHolds(queue, now, completedBefore, lag)
  {
    var cutoff := Cutoff(now, completedBefore);
    forall past, events, commits | AllCommitWithin(events, commits, now, lag)
      ensures PurgeableIds(Run(Run(Initial, past), events), queue, cutoff) <= PurgeableIds(Run(Initial, past), queue, cutoff)
    {
      ReachableStatesKeepInv(past);
      forall e | e in events
        ensures CompletesAfter(e, cutoff)
      {
        var i :| 0 <= i < |events| && events[i] == e;
        assert CommitsWithin(events[i], commits[i], now, lag);
      }
      BacklogNeverGrowsOver(Run(Initial, past), events, queue, cutoff);
    }
  }

  /** A window keeps a running purge to its first backlog exactly when it is longer
      than the longest time from a completion's date to its COMMIT. */
  lemma WindowHoldsIffLongerThanLag(queue: Queue, now: Instant, completedBefore: nat, lag: nat)
    requires TIMESTAMP_FLOOR < now - lag
    ensures WindowHolds(queue, now, completedBefore, lag) <==> completedBefore > lag
  {
    if completedBefore > lag {
      LongWindowHolds(queue, now, completedBefore, lag);
    } else {
      ShortWindowFails(queue, now, completedBefore, lag);
    }
  }

  lemma PurgeRemoves(s: State, queue: Queue, ids: set<TaskId>, cutoff: Instant)
    requires Kept(s) && ids <= PurgeableIds(s, queue, cutoff)
    ensures var next := Step(s, Purge(queue, ids, cutoff));
            && Kept(next) && PurgeableIds(next, queue, cutoff) == PurgeableIds(s, queue, cutoff) - ids
            && next.jobs.Keys == s.jobs.Keys - ids
  {
    Unfolded(s);
    StepKeeps(s, Purge(queue, ids, cutoff));
  }

  /** The tables before batch number `|taken|`: others run before each batch, and
      batch `k` deleted the rows `taken[k]`. */
  function AfterBatches(start: State, queue: Queue, cutoff: Instant, others: nat -> seq<Event>, taken: seq<set<TaskId>>): State {
    if taken == [] then start
    else
      var k := |taken| - 1;
      Step(Run(AfterBatches(start, queue, cutoff, others, taken[..k]), others(k)), Purge(queue, taken[k], cutoff))
  }

  /** What others completed late before these batches. */
  function LateBefore(start: State, queue: Queue, cutoff: Instant, others: nat -> seq<Event>, taken: seq<set<TaskId>>):
    set<TaskId>
  {
    if taken == [] then {}
    else
      var k := |taken| - 1;
      LateBefore(start, queue, cutoff, others, taken[..k])
      + LateIn(AfterBatches(start, queue, cutoff, others, taken[..k]), others(k), queue, cutoff)
  }

  /** What was deleted so far came from the first backlog or was completed late,
      and is gone for good. */
  ghost predicate PurgeProgress(start: Sound, s: Sound, deleted: set<TaskId>, late: set<TaskId>, queue: Queue, cutoff: Instant) {
    && deleted !! s.jobs.Keys && deleted <= s.used
    && deleted + PurgeableIds(s, queue, cutoff) <= PurgeableIds(start, queue, cutoff) + late
  }

  lemma PauseKeepsProgress(start: Sound, s: Sound, deleted: set<TaskId>, late: set<TaskId>, queue: Queue, cutoff: Instant,
                           others: seq<Event>)
    requires PurgeProgress(start, s, deleted, late, queue, cutoff)
    ensures Kept(Run(s, others))
    ensures PurgeProgress(start, Run(s, others), deleted, late + LateIn(s, others, queue, cutoff), queue, cutoff)
    ensures PurgeableIds(Run(s, others), queue, cutoff) <= PurgeableIds(s, queue, cutoff) + LateIn(s, others, queue, cutoff)
  {
    BacklogGrowsByLateIn(s, others, queue, cutoff);
    GoneStaysGone(s, others, deleted);
  }

  lemma BatchKeepsProgress(start: Sound, s: Sound, deleted: set<TaskId>, late: set<TaskId>, queue: Queue, cutoff: Instant,
                           ids: set<TaskId>)
    requires PurgeProgress(start, s, deleted, late, queue, cutoff) && ids <= PurgeableIds(s, queue, cutoff)
    ensures var next := Step(s, Purge(queue, ids, cutoff));
            && Kept(next) && PurgeProgress(start, next, deleted + ids, late, queue, cutoff) && deleted !! ids
            && PurgeableIds(next, queue, cutoff) == PurgeableIds(s, queue, cutoff) - ids
  {
    Unfolded(s);
    PurgeRemoves(s, queue, ids, cutoff);
    assert Step(s, Purge(queue, ids, cutoff)).used == s.used;
  }

  /** One pause and one batch. */
  method PurgeRound(ghost start: Sound, s: Sound, ghost deleted: set<TaskId>, ghost late: set<TaskId>, queue: Queue,
                    cutoff: Instant, limit: nat, others: seq<Event>, busy: set<TaskId>)
    returns (next: Sound, ids: set<TaskId>)
    requires PurgeProgress(start, s, deleted, late, queue, cutoff)
    ensures next == Step(Run(s, others), Purge(queue, ids, cutoff))
    ensures PurgeProgress(start, next, deleted + ids, late + LateIn(s, others, queue, cutoff), queue, cutoff)
    ensures deleted !! ids && |ids| <= limit
    ensures LateIn(s, others, queue, cutoff) == {} ==>
              |PurgeableIds(next, queue, cutoff)| + |ids| <= |PurgeableIds(s, queue, cutoff)|
    ensures |ids| < limit ==> PurgeableIds(next, queue, cutoff) <= busy
  {
    ghost var more := late + LateIn(s, others, queue, cutoff);
    PauseKeepsProgress(start, s, deleted, late, queue, cutoff, others);
    var paused := Run(s, others);
    var candidates := PurgeableIds(paused, queue, cutoff);
    ids := Take(candidates - busy, limit);
    BatchKeepsProgress(start, paused, deleted, more, queue, cutoff, ids);
    if LateIn(s, others, queue, cutoff) == {} {
      Shrinks(candidates, ids, PurgeableIds(s, queue, cutoff));
    }
    next := Step(paused, Purge(queue, ids, cutoff));
  }

  ghost predicate Batched(start: Sound, s: Sound, queue: Queue, cutoff: Instant, others: nat -> seq<Event>,
                          taken: seq<set<TaskId>>, deleted: set<TaskId>) {
    && s == AfterBatches(start, queue, cutoff, others, taken)
    && PurgeProgress(start, s, deleted, LateBefore(start, queue, cutoff, others, taken), queue, cutoff)
  }

  /** Where the loop stands after the batches `taken`, folded. */
  ghost predicate Purging(start: Sound, s: Sound, queue: Queue, cutoff: Instant, others: nat -> seq<Event>,
                          taken: seq<set<TaskId>>, deleted: set<TaskId>) {
    forall folded :: Fold(folded) ==> Batched(start, s, queue, cutoff, others, taken, deleted)
  }

  lemma OneMoreBatch(start: State, queue: Queue, cutoff: Instant, others: nat -> seq<Event>, taken: seq<set<TaskId>>,
                     ids: set<TaskId>)
    ensures var s := AfterBatches(start, queue, cutoff, others, taken);
            && AfterBatches(start, queue, cutoff, others, taken + [ids]) ==
               Step(Run(s, others(|taken|)), Purge(queue, ids, cutoff))
            && LateBefore(start, queue, cutoff, others, taken + [ids]) ==
               LateBefore(start, queue, cutoff, others, taken) + LateIn(s, others(|taken|), queue, cutoff)
  {
    assert (taken + [ids])[..|taken|] == taken;
  }

  /** The transactions dated up to the cutoff have all committed before this batch. */
  ghost predicate SettledBy(others: nat -> seq<Event>, cutoff: Instant, batch: nat) {
    forall k: nat, e :: k >= batch && e in others(k) ==> CompletesAfter(e, cutoff)
  }

  /** One round of the loop. */
  method PurgeStep(ghost start: Sound, s: Sound, queue: Queue, cutoff: Instant, limit: nat, others: nat -> seq<Event>,
                   batch: nat, ghost settled: nat, taken: seq<set<TaskId>>, deleted: set<TaskId>, busy: set<TaskId>)
    returns (next: Sound, count: nat, more: seq<set<TaskId>>, gone: set<TaskId>)
    requires limit >= 1 && SettledBy(others, cutoff, settled)
    requires batch == |taken| && Purging(start, s, queue, cutoff, others, taken, deleted)
    ensures Purging(start, next, queue, cutoff, others, more, gone) && |more| == batch + 1
    ensures |gone| == |deleted| + count && count <= limit
    ensures count == limit && batch >= settled ==> Backlog(next, queue, cutoff) < Backlog(s, queue, cutoff)
    ensures count < limit ==> PurgeableIds(next, queue, cutoff) <= busy
  {
    if batch >= settled {
      PromptRunsAreNeverLate(s, others(batch), queue, cutoff);
    }
    assert Fold(true);
    ghost var late := LateBefore(start, queue, cutoff, others, taken);
    var ids;
    next, ids := PurgeRound(start, s, deleted, late, queue, cutoff, limit, others(batch), busy);
    OneMoreBatch(start, queue, cutoff, others, taken, ids);
    count, more, gone := |ids|, taken + [ids], deleted + ids;
  }

  function Backlog(s: State, queue: Queue, cutoff: Instant): nat {
    |PurgeableIds(s, queue, cutoff)|
  }

  /** What the loop returns: the rows of its batches, each of the first backlog or
      completed late, and no more batches than there are such rows, and one. */
  ghost predicate Purged(start: State, s: State, queue: Queue, cutoff: Instant, others: nat -> seq<Event>,
                         taken: seq<set<TaskId>>, deleted: set<TaskId>) {
    var backlog, late := PurgeableIds(start, queue, cutoff), LateBefore(start, queue, cutoff, others, taken);
    && s == AfterBatches(start, queue, cutoff, others, taken)
    && deleted <= backlog + late && deleted !! s.jobs.Keys
    && 1 <= |taken| <= |backlog| + |late| + 1
  }

  lemma LastBatch(start: Sound, s: Sound, queue: Queue, cutoff: Instant, others: nat -> seq<Event>,
                  taken: seq<set<TaskId>>, deleted: set<TaskId>)
    requires Purging(start, s, queue, cutoff, others, taken, deleted) && 1 <= |taken| <= |deleted| + 1
    ensures Purged(start, s, queue, cutoff, others, taken, deleted)
  {
    assert Fold(true);
    BacklogBounds(deleted, PurgeableIds(start, queue, cutoff), LateBefore(start, queue, cutoff, others, taken));
  }

  /** The batches, until one deletes fewer rows than the limit. */
  method PurgeUntilShort(start: Sound, queue: Queue, cutoff: Instant, limit: nat, others: nat -> seq<Event>,
                         busy: nat -> set<TaskId>, ghost settled: nat)
    returns (total: nat, s: Sound, deleted: set<TaskId>, taken: seq<set<TaskId>>)
    requires limit >= 1 && SettledBy(others, cutoff, settled)
    ensures Purging(start, s, queue, cutoff, others, taken, deleted)
    ensures total == |deleted| && 1 <= |taken| <= total + 1
    ensures PurgeableIds(s, queue, cutoff) <= busy(|taken| - 1)
  {
    var count := limit;
    total, s, deleted, taken := 0, start, {}, [];
    while count == limit
      invariant Purging(start, s, queue, cutoff, others, taken, deleted)
      invariant total == |deleted| && count <= limit && (count < limit ==> taken != [])
      invariant |taken| <= total + (if count < limit then 1 else 0)
      invariant count < limit ==> PurgeableIds(s, queue, cutoff) <= busy(|taken| - 1)
      decreases count == limit, if |taken| < settled then settled - |taken| else 0, Backlog(s, queue, cutoff)
    {
      s, count, taken, deleted :=
        PurgeStep(start, s, queue, cutoff, limit, others, |taken|, settled, taken, deleted, busy(|taken|));
      total := total + count;
    }
  }

  /** `purge_terminal_tasks_batched`. `others(k)` runs before batch `k`, and
      `busy(k)` are the rows batch `k` skips because they are locked. However late
      the last transaction dated up to the cutoff commits, the loop runs no more
      batches than there are rows in the first backlog and rows completed late,
      and one. */
  method PurgeTerminalTasks(start: Sound, queue: Queue, now: Instant, completedBefore: nat, batchLimit: int,
                            others: nat -> seq<Event>, busy: nat -> set<TaskId>, ghost settled: nat)
    returns (total: nat, s: Sound, deleted: set<TaskId>, taken: seq<set<TaskId>>)
    requires SettledBy(others, Cutoff(now, completedBefore), settled)
    ensures Purged(start, s, queue, Cutoff(now, completedBefore), others, taken, deleted) && total == |deleted|
    ensures PurgeableIds(s, queue, Cutoff(now, completedBefore)) <= busy(|taken| - 1)
  {
    var limit := if batchLimit < 1 then 1 else batchLimit;
    var cutoff := Cutoff(now, completedBefore);
    total, s, deleted, taken := PurgeUntilShort(start, queue, cutoff, limit, others, busy, settled);
    LastBatch(start, s, queue, cutoff, others, taken, deleted);
  }

  lemma BacklogBounds(deleted: set<TaskId>, backlog: set<TaskId>, late: set<TaskId>)
    requires deleted <= backlog + late
    ensures |deleted| <= |backlog| + |late|
  {
    assert |backlog + late| <= |backlog| + |late|;
    SubsetSize(deleted, backlog + late);
  }

  lemma SubsetSize<T>(part: set<T>, whole: set<T>)
    requires part <= whole
    ensures |part| <= |whole|
  {
    assert whole == part + (whole - part);
  }

  lemma Shrinks<T>(now: set<T>, taken: set<T>, before: set<T>)
    requires taken <= now <= before
    ensures |now - taken| + |taken| <= |before|
  {
    assert |now - taken| + |taken| == |now| by {
      assert now == (now - taken) + taken;
    }
    assert before == now + (before - now);
  }

  lemma {:induction false} GoneStaysGone(s: State, events: seq<Event>, gone: set<TaskId>)
    requires Kept(s) && gone !! s.jobs.Keys && gone <= s.used
    ensures Kept(Run(s, events)) && gone !! Run(s, events).jobs.Keys && gone <= Run(s, events).used
    decreases |events|
  {
    Unfolded(s);
    if events != [] {
      var next := Step(s, events[0]);
      StepKeeps(s, events[0]);
      if Enabled(s, events[0]) {
        EffectIsLawful(s, events[0]);
      }
      GoneStaysGone(next, events[1..], gone);
    }
  }

  // ------------------------------------------------------------------ prune

  /** The registration a transaction holds a lock on until it commits: no claim
      can name it while another transaction holds the row. */
  predicate LocksRegistration(s: State, e: Event, key: Key) {
    match e
    case Fetch(name, queue, _, _, _, _) => (name, queue) == key
    case Lock(id, name, _, _, _) => id in s.jobs && (name, s.jobs[id].queue) == key
    case Start(_, queue, name, _, _, _, _) => (name, queue) == key
    case Register(name, queue, _, _, _) => (name, queue) == key
    case Sweep(queue, names, _, _, _) => queue == key.1 && key.0 in names
    case ReleaseWorker(name, queue, _, _) => (name, queue) == key
    case Heartbeat(name, queue, _, _) => (name, queue) == key
    case AdminRegister(name, queue, _) => (name, queue) == key
    case Prune(queue, names) => queue == key.1 && key.0 in names
    case _ => false
  }

  /** None of the events, run in order, takes the lock on one of these names. */
  predicate Respects(s: State, events: seq<Event>, queue: Queue, names: set<Name>)
    decreases |events|
  {
    events == [] || (&& (forall name :: name in names ==> !LocksRegistration(s, events[0], (name, queue)))
                     && Respects(Step(s, events[0]), events[1..], queue, names))
  }

  /** Only a claim makes a row name a new owner. */
  lemma OnlyClaimsName(s: State, e: Event, id: TaskId)
    requires TablesInv(s) && Enabled(s, e) && id in Effect(s, e).jobs
    requires !e.Fetch? && !e.Lock?
    ensures var after := Effect(s, e).jobs[id];
            after.owner.Some? ==> id in s.jobs && after.owner == s.jobs[id].owner && after.queue == s.jobs[id].queue
  {
  }

  /** A new reference needs the lock on the registration it names. */
  lemma NewReferenceNeedsTheLock(s: State, e: Event, key: Key)
    requires TablesInv(s) && key in s.workers && !Referenced(s, key) && !LocksRegistration(s, e, key)
    ensures key in Step(s, e).workers && !Referenced(Step(s, e), key)
  {
    if Enabled(s, e) {
      var next := Effect(s, e);
      forall id | id in next.jobs
        ensures !OwnedBy(next.jobs[id], key)
      {
        if !e.Fetch? && !e.Lock? {
          OnlyClaimsName(s, e, id);
        }
      }
    }
  }

  lemma {:induction false} LockedStaysUnreferenced(s: State, events: seq<Event>, queue: Queue, names: set<Name>, name: Name)
    requires Kept(s) && Respects(s, events, queue, names) && name in names
    requires (name, queue) in s.workers && !Referenced(s, (name, queue))
    ensures var later := Run(s, events);
            (name, queue) in later.workers && !Referenced(later, (name, queue))
    decreases |events|
  {
    Unfolded(s);
    if events != [] {
      StepKeeps(s, events[0]);
      NewReferenceNeedsTheLock(s, events[0], (name, queue));
      LockedStaysUnreferenced(Step(s, events[0]), events[1..], queue, names, name);
    }
  }

  function StaleUnreferenced(s: State, queue: Queue, staleFor: int, at: Instant): set<Name> {
    set key | key in s.workers && key.1 == queue && Stale(s.workers[key], staleFor, at) && !Referenced(s, key) :: key.0
  }

  function Unreferenced(s: State, queue: Queue, names: set<Name>): set<Name> {
    set name | name in names && (name, queue) in s.workers && !Referenced(s, (name, queue))
  }

  /** One batch as the server schedules it: what the other transactions commit
      between the snapshot that selects the candidates and the locks, between the
      locks and the snapshot that checks again, and until the delete takes
      effect; and which rows the batch locked. */
  datatype Round = Round(at: Instant, beforeLocks: seq<Event>, beforeCheck: seq<Event>, beforeDelete: seq<Event>,
                         busy: set<Name>, locked: set<Name>)

  /** Candidates of the select that can be locked: unlike the references, the
      heartbeat is judged again on the row as it is when it is locked. */
  function Lockable(s: State, queue: Queue, staleFor: int, round: Round): set<Name> {
    var atLocks := Run(s, round.beforeLocks);
    set name | name in StaleUnreferenced(s, queue, staleFor, round.at) && (name, queue) in atLocks.workers
               && Stale(atLocks.workers[(name, queue)], staleFor, round.at) && name !in round.busy
  }

  function AtLocks(s: State, round: Round): State {
    Run(s, round.beforeLocks)
  }

  function AtCheck(s: State, round: Round): State {
    Run(AtLocks(s, round), round.beforeCheck)
  }

  function AtDelete(s: State, round: Round): State {
    Run(AtCheck(s, round), round.beforeDelete)
  }

  /** The registrations a round deletes: locked, and unreferenced at the check. */
  function Deleted(s: State, queue: Queue, round: Round): set<Name> {
    Unreferenced(AtCheck(s, round), queue, round.locked)
  }

  function AfterRound(s: State, queue: Queue, round: Round): State {
    Step(AtDelete(s, round), Prune(queue, Deleted(s, queue, round)))
  }

  /** The batch locks up to `limit` rows, and the others honour its locks. */
  predicate Schedulable(s: State, queue: Queue, staleFor: int, limit: nat, round: Round) {
    && round.locked <= Lockable(s, queue, staleFor, round)
    && |round.locked| == Min(limit, |Lockable(s, queue, staleFor, round)|)
    && Respects(AtLocks(s, round), round.beforeCheck, queue, round.locked)
    && Respects(AtCheck(s, round), round.beforeDelete, queue, round.locked)
  }

  predicate Schedule(s: State, queue: Queue, staleFor: int, limit: nat, rounds: seq<Round>)
    decreases |rounds|
  {
    rounds == [] || (&& Schedulable(s, queue, staleFor, limit, rounds[0])
                     && Schedule(AfterRound(s, queue, rounds[0]), queue, staleFor, limit, rounds[1..]))
  }

  /** What the second check found unreferenced still is when the delete takes
      effect, so the delete leaves no row without its registration. */
  lemma PruneKeepsReferences(s: State, queue: Queue, staleFor: int, limit: nat, round: Round)
    requires Kept(s) && Schedulable(s, queue, staleFor, limit, round)
    ensures Kept(AtDelete(s, round)) && Enabled(AtDelete(s, round), Prune(queue, Deleted(s, queue, round)))
    ensures Kept(AfterRound(s, queue, round))
    ensures forall name :: name in Deleted(s, queue, round) ==> (name, queue) !in AfterRound(s, queue, round).workers
  {
    var checked := AtCheck(s, round);
    RunKeeps(s, round.beforeLocks);
    RunKeeps(AtLocks(s, round), round.beforeCheck);
    RunKeeps(checked, round.beforeDelete);
    forall name | name in Deleted(s, queue, round)
      ensures var late := AtDelete(s, round);
              (name, queue) in late.workers && !Referenced(late, (name, queue))
    {
      LockedStaysUnreferenced(checked, round.beforeDelete, queue, round.locked, name);
    }
    StepKeeps(AtDelete(s, round), Prune(queue, Deleted(s, queue, round)));
  }

  /** A batch that locks fewer rows than its limit missed nothing: whatever it
      selected and did not lock was held elsewhere, renewed, or gone. */
  lemma ShortBatchMissesNothing(s: State, queue: Queue, staleFor: int, limit: nat, round: Round, name: Name)
    requires Schedulable(s, queue, staleFor, limit, round) && |round.locked| < limit
    requires name in StaleUnreferenced(s, queue, staleFor, round.at) - round.locked - round.busy
    ensures var key := (name, queue);
            key in AtLocks(s, round).workers ==> !Stale(AtLocks(s, round).workers[key], staleFor, round.at)
  {
    var rest := Lockable(s, queue, staleFor, round) - round.locked;
    assert Lockable(s, queue, staleFor, round) == round.locked + rest;
    assert |rest| == 0;
  }

  /** Deleting what the first snapshot selected, without the second check, is
      unsafe as soon as one of the candidates is claimed before it is locked. */
  lemma FirstSnapshotIsNotEnough(s: State, claim: Event, key: Key, id: TaskId)
    requires Kept(s) && key in s.workers && !Referenced(s, key)
    requires claim.Fetch? && Enabled(s, claim) && (claim.name, claim.queue) == key
    requires id in claim.ids && id !in claim.malformed
    ensures Enabled(s, Prune(key.1, {key.0})) && !Enabled(Step(s, claim), Prune(key.1, {key.0}))
    ensures var late := Step(s, claim);
            !TablesInv(late.(workers := late.workers - {key}))
  {
    Unfolded(s);
    var late := Step(s, claim);
    assert OwnedBy(late.jobs[id], key);
    assert !OwnerRegistered(late.(workers := late.workers - {key}), late.jobs[id]);
  }

  /** The store after a number of scheduled rounds, and how much they deleted. */
  function AfterRounds(s: State, queue: Queue, rounds: seq<Round>): State {
    if rounds == [] then s
    else AfterRound(AfterRounds(s, queue, rounds[..|rounds| - 1]), queue, rounds[|rounds| - 1])
  }

  function DeletedBy(s: State, queue: Queue, rounds: seq<Round>): nat {
    if rounds == [] then 0
    else
      var front := rounds[..|rounds| - 1];
      DeletedBy(s, queue, front) + |Deleted(AfterRounds(s, queue, front), queue, rounds[|rounds| - 1])|
  }

  /** A batch while nothing else runs. */
  function Calm(s: State, queue: Queue, staleFor: int, at: Instant, locked: set<Name>): Round {
    Round(at, [], [], [], {}, locked)
  }

  lemma CalmIsSchedulable(s: State, queue: Queue, staleFor: int, limit: nat, at: Instant, locked: set<Name>)
    requires locked <= StaleUnreferenced(s, queue, staleFor, at)
    requires |locked| == Min(limit, |StaleUnreferenced(s, queue, staleFor, at)|)
    ensures var round := Calm(s, queue, staleFor, at, locked);
            && Schedulable(s, queue, staleFor, limit, round) && Deleted(s, queue, round) == locked
            && AfterRound(s, queue, round) == Step(s, Prune(queue, locked))
  {
    var round := Calm(s, queue, staleFor, at, locked);
    assert AtLocks(s, round) == s && AtCheck(s, round) == s && AtDelete(s, round) == s;
    assert Lockable(s, queue, staleFor, round) == StaleUnreferenced(s, queue, staleFor, at);
    assert Deleted(s, queue, round) == locked;
  }

  lemma PruneRemoves(s: State, queue: Queue, staleFor: int, at: Instant, names: set<Name>)
    requires names <= StaleUnreferenced(s, queue, staleFor, at)
    ensures var next := Step(s, Prune(queue, names));
            && |next.workers| == |s.workers| - |names|
            && StaleUnreferenced(next, queue, staleFor, at) == StaleUnreferenced(s, queue, staleFor, at) - names
  {
    var e := Prune(queue, names);
    assert Enabled(s, e) && Step(s, e).workers == WithoutNames(s.workers, queue, names);
    WithoutNamesSize(s.workers, queue, names);
    ReferencesDependOnRows(s, Step(s, e));
  }

  function WithoutNames(workers: map<Key, Registration>, queue: Queue, names: set<Name>): map<Key, Registration> {
    map key | key in workers && !(key.1 == queue && key.0 in names) :: workers[key]
  }

  lemma WithoutNamesSize(workers: map<Key, Registration>, queue: Queue, names: set<Name>)
    requires forall name :: name in names ==> (name, queue) in workers
    ensures |WithoutNames(workers, queue, names)| == |workers| - |names|
  {
    var keys := set name | name in names :: (name, queue);
    KeysOf(names, queue, keys);
    var left := WithoutNames(workers, queue, names);
    assert keys <= workers.Keys && left.Keys == workers.Keys - keys;
    assert |left.Keys| == |workers.Keys| - |keys|;
  }

  lemma ReferencesDependOnRows(s: State, next: State)
    requires next.jobs == s.jobs
    ensures forall key :: Referenced(next, key) <==> Referenced(s, key)
  {
  }

  lemma {:induction false} KeysOf(names: set<Name>, queue: Queue, keys: set<Key>)
    requires keys == set name | name in names :: (name, queue)
    ensures |keys| == |names|
  {
    if names != {} {
      var name :| name in names;
      assert keys == (set other | other in names - {name} :: (other, queue)) + {(name, queue)};
      KeysOf(names - {name}, queue, keys - {(name, queue)});
    }
  }

  /** One batch among other transactions, or alone. */
  method PruneBatch(s: Sound, queue: Queue, staleFor: int, limit: nat, round: Round)
    returns (next: Sound, deleted: set<Name>)
    requires Schedulable(s, queue, staleFor, limit, round)
    ensures next == AfterRound(s, queue, round)
    ensures deleted == Deleted(s, queue, round)
  {
    PruneKeepsReferences(s, queue, staleFor, limit, round);
    deleted := Deleted(s, queue, round);
    next := AfterRound(s, queue, round);
  }

  method PruneCalmBatch(s: Sound, queue: Queue, staleFor: int, limit: nat, at: Instant)
    returns (next: Sound, deleted: set<Name>)
    ensures |deleted| <= limit && |next.workers| == |s.workers| - |deleted|
    ensures |deleted| < limit ==> StaleUnreferenced(next, queue, staleFor, at) == {}
  {
    var locked := Take(StaleUnreferenced(s, queue, staleFor, at), limit);
    CalmIsSchedulable(s, queue, staleFor, limit, at, locked);
    PruneRemoves(s, queue, staleFor, at, locked);
    next, deleted := PruneBatch(s, queue, staleFor, limit, Calm(s, queue, staleFor, at, locked));
  }

  /** The next batch: the next round, or a calm one when the rounds are over. */
  method PruneNext(s: Sound, queue: Queue, staleFor: int, limit: nat, rounds: seq<Round>, calm: Instant)
    returns (next: Sound, deleted: set<Name>, locked: nat, left: seq<Round>)
    requires Schedule(s, queue, staleFor, limit, rounds)
    ensures left == if rounds == [] then [] else rounds[1..]
    ensures Schedule(next, queue, staleFor, limit, left)
    ensures rounds == [] ==> locked == |deleted| && |next.workers| == |s.workers| - |deleted|
    ensures rounds == [] && locked < limit ==> StaleUnreferenced(next, queue, staleFor, calm) == {}
    ensures rounds != [] ==> locked == |rounds[0].locked| && deleted == Deleted(s, queue, rounds[0])
    ensures rounds != [] ==> next == AfterRound(s, queue, rounds[0])
  {
    if rounds == [] {
      next, deleted := PruneCalmBatch(s, queue, staleFor, limit, calm);
      locked, left := |deleted|, [];
    } else {
      next, deleted := PruneBatch(s, queue, staleFor, limit, rounds[0]);
      locked, left := |rounds[0].locked|, rounds[1..];
    }
  }

  // How long the loop can go on.

  /** Claims may refer to a registration; registering may add one. */
  predicate Claims(e: Event) {
    e.Fetch? || e.Lock?
  }

  predicate Registers(e: Event) {
    e.Register? || e.AdminRegister?
  }

  function Interference(events: seq<Event>): nat {
    if events == [] then 0 else (if Claims(events[0]) || Registers(events[0]) then 1 else 0) + Interference(events[1..])
  }

  function RoundInterference(round: Round): nat {
    Interference(round.beforeLocks) + Interference(round.beforeCheck) + Interference(round.beforeDelete)
  }

  function TotalInterference(rounds: seq<Round>): nat {
    if rounds == [] then 0 else RoundInterference(rounds[0]) + TotalInterference(rounds[1..])
  }

  lemma RegistrationsGrow(s: State, e: Event)
    ensures |Step(s, e).workers| <= |s.workers| + if Registers(e) then 1 else 0
  {
    if Enabled(s, e) && e.Prune? {
      WithoutNamesSize(s.workers, e.queue, e.names);
      assert Effect(s, e).workers == WithoutNames(s.workers, e.queue, e.names);
    }
  }

  lemma {:induction false} RegistrationsGrowOver(s: State, events: seq<Event>)
    ensures |Run(s, events).workers| <= |s.workers| + Interference(events)
    decreases |events|
  {
    if events != [] {
      RegistrationsGrow(s, events[0]);
      RegistrationsGrowOver(Step(s, events[0]), events[1..]);
    }
  }

  /** Without a claim among the events, a registration does not become referenced,
      and the events need not be charged for claims. */
  lemma {:induction false} ReferencesNeedClaims(s: State, events: seq<Event>, key: Key)
    requires Kept(s) && !Referenced(s, key) && Referenced(Run(s, events), key)
    ensures |Run(s, events).workers| + 1 <= |s.workers| + Interference(events)
    decreases |events|
  {
    if events != [] {
      var e, next := events[0], Step(s, events[0]);
      RegistrationsGrow(s, e);
      StepKeeps(s, e);
      if Referenced(next, key) {
        ReferenceNeedsAClaim(s, e, key);
        RegistrationsGrowOver(next, events[1..]);
      } else {
        ReferencesNeedClaims(next, events[1..], key);
      }
    }
  }

  lemma ReferenceNeedsAClaim(s: State, e: Event, key: Key)
    requires Kept(s) && !Referenced(s, key) && Referenced(Step(s, e), key)
    ensures Claims(e)
  {
    Unfolded(s);
    var id :| id in Step(s, e).jobs && OwnedBy(Step(s, e).jobs[id], key);
    if !Claims(e) {
      OnlyClaimsName(s, e, id);
    }
  }

  /** A full batch deletes a registration, or was interfered with by a claim. */
  lemma FullRoundCosts(s: State, queue: Queue, staleFor: int, limit: nat, round: Round)
    requires Kept(s) && Schedulable(s, queue, staleFor, limit, round) && limit >= 1 && |round.locked| >= limit
    ensures |AfterRound(s, queue, round).workers| + 1 <= |s.workers| + RoundInterference(round)
  {
    RoundSize(s, queue, staleFor, limit, round);
    RegistrationsGrowOver(s, round.beforeLocks);
    RegistrationsGrowOver(AtLocks(s, round), round.beforeCheck);
    RegistrationsGrowOver(AtCheck(s, round), round.beforeDelete);
    if Deleted(s, queue, round) == {} {
      var name :| name in round.locked;
      KeptForAClaim(s, queue, staleFor, limit, round, name);
      ReferencesNeedClaims(s, round.beforeLocks, (name, queue));
    }
  }

  lemma RoundSize(s: State, queue: Queue, staleFor: int, limit: nat, round: Round)
    requires Kept(s) && Schedulable(s, queue, staleFor, limit, round)
    ensures |AfterRound(s, queue, round).workers| == |AtDelete(s, round).workers| - |Deleted(s, queue, round)|
  {
    PruneKeepsReferences(s, queue, staleFor, limit, round);
    var late, names := AtDelete(s, round), Deleted(s, queue, round);
    WithoutNamesSize(late.workers, queue, names);
    assert Step(late, Prune(queue, names)).workers == WithoutNames(late.workers, queue, names);
  }

  /** A locked candidate that is not deleted was claimed before it was locked. */
  lemma KeptForAClaim(s: State, queue: Queue, staleFor: int, limit: nat, round: Round, name: Name)
    requires Kept(s) && Schedulable(s, queue, staleFor, limit, round)
    requires name in round.locked && name !in Deleted(s, queue, round)
    ensures !Referenced(s, (name, queue)) && Referenced(AtLocks(s, round), (name, queue))
  {
    RunKeeps(s, round.beforeLocks);
    assert name in Lockable(s, queue, staleFor, round);
    if !Referenced(AtLocks(s, round), (name, queue)) {
      LockedStaysUnreferenced(AtLocks(s, round), round.beforeCheck, queue, round.locked, name);
    }
  }

  /** Where the loop stands after `count` batches. */
  ghost predicate Pruned(start: State, s: State, queue: Queue, rounds: seq<Round>, count: nat, total: nat) {
    if count <= |rounds|
    then s == AfterRounds(start, queue, rounds[..count]) && total == DeletedBy(start, queue, rounds[..count])
    else total + |s.workers| == DeletedBy(start, queue, rounds) + |AfterRounds(start, queue, rounds).workers|
  }

  lemma OneMoreRound(start: State, s: State, queue: Queue, rounds: seq<Round>, count: nat, total: nat)
    requires count < |rounds| && Pruned(start, s, queue, rounds, count, total)
    ensures Pruned(start, AfterRound(s, queue, rounds[count]), queue, rounds, count + 1,
                   total + |Deleted(s, queue, rounds[count])|)
  {
    assert rounds[..count + 1][..count] == rounds[..count];
  }

  lemma OneMoreCalmBatch(start: State, s: State, next: State, queue: Queue, rounds: seq<Round>, count: nat, total: nat,
                         deleted: nat)
    requires count >= |rounds| && Pruned(start, s, queue, rounds, count, total)
    requires |next.workers| + deleted == |s.workers|
    ensures Pruned(start, next, queue, rounds, count + 1, total + deleted)
  {
    assert rounds[..|rounds|] == rounds;
  }

  /** One batch, and where the loop stands after it. */
  method PruneStep(ghost start: State, s: Sound, queue: Queue, staleFor: int, limit: nat, ghost rounds: seq<Round>,
                   left: seq<Round>, calm: Instant, count: nat, total: nat)
    returns (next: Sound, locked: nat, rest: seq<Round>, after: nat)
    requires Schedule(s, queue, staleFor, limit, left) && Pruned(start, s, queue, rounds, count, total)
    requires left == if count <= |rounds| then rounds[count..] else []
    ensures Schedule(next, queue, staleFor, limit, rest) && Pruned(start, next, queue, rounds, count + 1, after)
    ensures rest == if count + 1 <= |rounds| then rounds[count + 1..] else []
    ensures left != [] ==> locked == |left[0].locked|
    ensures left == [] ==> |next.workers| + locked == |s.workers|
    ensures left == [] && locked < limit ==> StaleUnreferenced(next, queue, staleFor, calm) == {}
    ensures limit >= 1 && locked >= limit ==>
              |next.workers| + TotalInterference(rest) + 1 <= |s.workers| + TotalInterference(left)
  {
    var deleted;
    next, deleted, locked, rest := PruneNext(s, queue, staleFor, limit, left, calm);
    after := total + |deleted|;
    if left != [] {
      if limit >= 1 && locked >= limit {
        FullRoundCosts(s, queue, staleFor, limit, left[0]);
      }
      OneMoreRound(start, s, queue, rounds, count, total);
    } else {
      OneMoreCalmBatch(start, s, next, queue, rounds, count, total, |deleted|);
    }
  }

  /** Every registration that ran out is the owner of some row. */
  ghost predicate NothingToPrune(s: State, queue: Queue, staleFor: int, at: Instant) {
    forall name :: (name, queue) in s.workers && s.workers[(name, queue)].lastSeen + staleFor <= at ==>
      exists id :: id in s.jobs && s.jobs[id].owner == Some(name) && s.jobs[id].queue == queue
  }

  lemma NothingIsLeft(s: State, queue: Queue, staleFor: int, at: Instant)
    requires StaleUnreferenced(s, queue, staleFor, at) == {}
    ensures NothingToPrune(s, queue, staleFor, at)
  {
    forall name | (name, queue) in s.workers && s.workers[(name, queue)].lastSeen + staleFor <= at
      ensures exists id :: id in s.jobs && s.jobs[id].owner == Some(name) && s.jobs[id].queue == queue
    {
      assert name !in StaleUnreferenced(s, queue, staleFor, at);
      assert Referenced(s, (name, queue));
    }
  }

  /** Where the loop stopped: after a batch that locked fewer rows than the limit,
      or with nothing left to prune. */
  ghost predicate Stopped(start: State, s: State, queue: Queue, staleFor: int, limit: nat, rounds: seq<Round>,
                          calm: Instant, count: nat, total: nat) {
    && count >= 1 && Pruned(start, s, queue, rounds, count, total)
    && (if count <= |rounds| then |rounds[count - 1].locked| < limit else NothingToPrune(s, queue, staleFor, calm))
  }

  /** The batches of `prune_workers`, until one locks fewer rows than the limit. */
  method PruneUntilShort(start: Sound, queue: Queue, staleFor: int, limit: nat, rounds: seq<Round>, calm: Instant)
    returns (total: nat, s: Sound, count: nat)
    requires limit >= 1 && Schedule(start, queue, staleFor, limit, rounds)
    ensures Stopped(start, s, queue, staleFor, limit, rounds, calm, count, total)
    ensures count <= |start.workers| + TotalInterference(rounds) + 1
  {
    var left, locked := rounds, limit;
    total, s, count := 0, start, 0;
    while locked >= limit
      invariant Schedule(s, queue, staleFor, limit, left)
      invariant left == if count <= |rounds| then rounds[count..] else []
      invariant Pruned(start, s, queue, rounds, count, total)
      invariant locked < limit ==> count >= 1
      invariant locked < limit && count <= |rounds| ==> |rounds[count - 1].locked| < limit
      invariant locked < limit && count > |rounds| ==> StaleUnreferenced(s, queue, staleFor, calm) == {}
      invariant locked >= limit ==>
                  count + |s.workers| + TotalInterference(left) <= |start.workers| + TotalInterference(rounds)
      invariant count <= |start.workers| + TotalInterference(rounds) + 1
      decreases if locked >= limit then 1 else 0, |s.workers| + TotalInterference(left)
    {
      s, locked, left, total := PruneStep(start, s, queue, staleFor, limit, rounds, left, calm, count, total);
      count := count + 1;
    }
    if count > |rounds| {
      NothingIsLeft(s, queue, staleFor, calm);
    }
  }

  /** `prune_workers`. The other transactions run during the given rounds and are
      quiet afterwards, at `calm`. However many rounds there are, the loop runs no
      more batches than there are registrations and interfering claims or
      registrations, and one. Nothing is deleted when the window is shorter
      than the stale deadline. */
  method PruneWorkers(start: Sound, queue: Queue, staleFor: int, staleAfter: int, limit: nat, rounds: seq<Round>,
                      calm: Instant)
    returns (r: Result<nat>, s: Sound, count: nat)
    requires limit >= 1 && Schedule(start, queue, staleFor, limit, rounds)
    ensures staleFor < staleAfter ==> r == Err(InvalidArgument) && s == start
    ensures staleFor >= staleAfter ==>
              r.Ok? && Stopped(start, s, queue, staleFor, limit, rounds, calm, count, r.value)
    ensures count <= |start.workers| + TotalInterference(rounds) + 1
  {
    s, count := start, 0;
    if staleFor < staleAfter {
      return Err(InvalidArgument), start, 0;
    }
    var total;
    total, s, count := PruneUntilShort(start, queue, staleFor, limit, rounds, calm);
    r := Ok(total);
  }
}
