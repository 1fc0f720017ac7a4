/** Waiting for a set of tasks to finish: poll, sort the ids by what the poll
    found, back off, and give up only on a persistent failure. */
module Completion {
  import opened Sequences
  import opened Folding

  type Id = nat

  const INITIAL_BACKOFF: nat := 100
  const MAX_BACKOFF: nat := 2_000
  const MAX_CONSECUTIVE_DB_ERRORS: nat := 3

  /** One poll: the rows that exist, with the server's terminal verdict, and
      the client clock, in milliseconds, when they were sorted. */
  datatype Poll = Failed | Rows(rows: map<Id, bool>, at: int)

  datatype Item = Finished(id: Id) | NotFound(id: Id)

  datatype Verdict = Keep | Yield(item: Item)

  // ---------------------------------------------------------- distinct ids

  function FirstIndex(ids: seq<Id>, id: Id): (i: nat)
    requires id in ids
    ensures i < |ids| && ids[i] == id
    ensures forall j :: 0 <= j < i ==> ids[j] != id
  {
    if ids[0] == id then 0 else FirstIndex(ids[1..], id) + 1
  }

  /** `distinct_ids`: every id once, in its first order. */
  method DistinctIds(ids: seq<Id>) returns (distinct: seq<Id>)
    ensures forall id :: id in distinct <==> id in ids
    ensures forall i, j :: 0 <= i < j < |distinct| ==> FirstIndex(ids, distinct[i]) < FirstIndex(ids, distinct[j])
    ensures Distinct(distinct)
  {
    var seen: set<Id> := {};
    distinct := [];
    for k := 0 to |ids|
      invariant forall id :: id in seen <==> id in distinct
      invariant forall id :: id in distinct <==> id in ids[..k]
      invariant forall i :: 0 <= i < |distinct| ==> distinct[i] in ids && FirstIndex(ids, distinct[i]) < k
      invariant forall i, j :: 0 <= i < j < |distinct| ==> FirstIndex(ids, distinct[i]) < FirstIndex(ids, distinct[j])
    {
      var id := ids[k];
      assert ids[..k + 1] == ids[..k] + [id];
      if id !in seen {
        assert FirstIndex(ids, id) >= k;
        seen := seen + {id};
        distinct := distinct + [id];
      }
    }
    assert ids[..|ids|] == ids;
  }

  // ---------------------------------------------------------------- triage

  /** What a poll decides for one id: absence ends the wait only after a whole
      grace interval. */
  function Judge(id: Id, rows: map<Id, bool>, absentSince: map<Id, int>, now: int): Verdict {
    if id in rows then if rows[id] then Yield(Finished(id)) else Keep
    else if id in absentSince && now - absentSince[id] >= INITIAL_BACKOFF then Yield(NotFound(id))
    else Keep
  }

  function Decided(ids: seq<Id>, rows: map<Id, bool>, absentSince: map<Id, int>, now: int): seq<Item> {
    if ids == [] then []
    else
      var front, id := ids[..|ids| - 1], ids[|ids| - 1];
      var verdict := Judge(id, rows, absentSince, now);
      Decided(front, rows, absentSince, now) + if verdict.Yield? then [verdict.item] else []
  }

  function Kept(ids: seq<Id>, rows: map<Id, bool>, absentSince: map<Id, int>, now: int): seq<Id> {
    if ids == [] then []
    else
      var front, id := ids[..|ids| - 1], ids[|ids| - 1];
      Kept(front, rows, absentSince, now) + if Judge(id, rows, absentSince, now).Keep? then [id] else []
  }

  function Absences(ids: seq<Id>, rows: map<Id, bool>, absentSince: map<Id, int>, now: int): map<Id, int> {
    if ids == [] then absentSince
    else
      var front, id := ids[..|ids| - 1], ids[|ids| - 1];
      var after := Absences(front, rows, absentSince, now);
      if id in rows || Judge(id, rows, absentSince, now).Yield? then after - {id}
      else if id in absentSince then after
      else after[id := now]
  }

  /** The absence map remembers, for a waited id, the poll that first missed it. */
  ghost predicate AbsenceUpdated(
    id: Id, rows: map<Id, bool>, before: map<Id, int>, after: map<Id, int>, now: int)
  {
    && (id in after <==> id !in rows && Judge(id, rows, before, now).Keep?)
    && (id in after ==> after[id] == if id in before then before[id] else now)
  }

  lemma {:induction false} AbsencesOf(ids: seq<Id>, rows: map<Id, bool>, before: map<Id, int>, now: int, id: Id)
    requires Distinct(ids)
    ensures var after := Absences(ids, rows, before, now);
            if id in ids then AbsenceUpdated(id, rows, before, after, now)
            else (id in after <==> id in before) && (id in after ==> after[id] == before[id])
    decreases |ids|
  {
    if ids != [] {
      AbsencesOf(ids[..|ids| - 1], rows, before, now, id);
      assert ids == ids[..|ids| - 1] + [ids[|ids| - 1]];
    }
  }

  /** `triage_poll`. */
  method TriagePoll(remaining: seq<Id>, rows: map<Id, bool>, absentSince: map<Id, int>, now: int)
    returns (items: seq<Item>, next: seq<Id>, after: map<Id, int>)
    requires Distinct(remaining)
    ensures items == Decided(remaining, rows, absentSince, now)
    ensures next == Kept(remaining, rows, absentSince, now)
    ensures after == Absences(remaining, rows, absentSince, now)
  {
    var present := rows;
    items, next, after := [], [], absentSince;
    for i := 0 to |remaining|
      invariant present.Keys == rows.Keys - (set id | id in remaining[..i])
      invariant forall id :: id in present ==> present[id] == rows[id]
      invariant items == Decided(remaining[..i], rows, absentSince, now)
      invariant next == Kept(remaining[..i], rows, absentSince, now)
      invariant after == Absences(remaining[..i], rows, absentSince, now)
    {
      var id := remaining[i];
      assert remaining[..i + 1][..i] == remaining[..i];
      assert id !in remaining[..i];
      AbsencesOf(remaining[..i], rows, absentSince, now, id);
      if id in present {
        var terminal := present[id];
        present := present - {id};
        after := after - {id};
        if terminal {
          items := items + [Finished(id)];
        } else {
          next := next + [id];
        }
      } else if id in after {
        if now - after[id] >= INITIAL_BACKOFF {
          after := after - {id};
          items := items + [NotFound(id)];
        } else {
          next := next + [id];
        }
      } else {
        after := after[id := now];
        next := next + [id];
      }
    }
    assert remaining[..|remaining|] == remaining;
  }

  function Times(ids: seq<Id>, id: Id): nat {
    if ids == [] then 0 else Times(ids[..|ids| - 1], id) + if ids[|ids| - 1] == id then 1 else 0
  }

  /** How many items report on an id. */
  function Reports(items: seq<Item>, id: Id): nat {
    if items == [] then 0 else Reports(items[..|items| - 1], id) + if items[|items| - 1].id == id then 1 else 0
  }

  lemma {:induction false} ReportsConcat(a: seq<Item>, b: seq<Item>, id: Id)
    ensures Reports(a + b, id) == Reports(a, id) + Reports(b, id)
    decreases |b|
  {
    if b == [] {
      assert a + b == a;
    } else {
      ReportsConcat(a, b[..|b| - 1], id);
      assert (a + b)[..|a + b| - 1] == a + b[..|b| - 1];
    }
  }

  lemma {:induction false} DistinctTimes(ids: seq<Id>, id: Id)
    requires Distinct(ids)
    ensures Times(ids, id) == if id in ids then 1 else 0
    decreases |ids|
  {
    if ids != [] {
      DistinctTimes(ids[..|ids| - 1], id);
      assert ids == ids[..|ids| - 1] + [ids[|ids| - 1]];
    }
  }

  /** A poll splits the waited ids in two: nothing is lost and nothing repeated. */
  lemma {:induction false} TriagePartitions(
    ids: seq<Id>, rows: map<Id, bool>, absentSince: map<Id, int>, now: int, id: Id)
    ensures Reports(Decided(ids, rows, absentSince, now), id) + Times(Kept(ids, rows, absentSince, now), id)
            == Times(ids, id)
    decreases |ids|
  {
    if ids != [] {
      var front, last := ids[..|ids| - 1], ids[|ids| - 1];
      TriagePartitions(front, rows, absentSince, now, id);
      var verdict := Judge(last, rows, absentSince, now);
      var decided, kept := Decided(front, rows, absentSince, now), Kept(front, rows, absentSince, now);
      if verdict.Yield? {
        assert kept + [] == kept;
        ReportsSnoc(decided, verdict.item, id);
      } else {
        assert decided + [] == decided;
        TimesSnoc(kept, last, id);
      }
    }
  }

  lemma ReportsSnoc(items: seq<Item>, item: Item, id: Id)
    ensures Reports(items + [item], id) == Reports(items, id) + if item.id == id then 1 else 0
  {
    assert (items + [item])[..|items|] == items;
  }

  lemma TimesSnoc(ids: seq<Id>, last: Id, id: Id)
    ensures Times(ids + [last], id) == Times(ids, id) + if last == id then 1 else 0
  {
    assert (ids + [last])[..|ids|] == ids;
  }

  lemma {:induction false} DecidedIsJudged(ids: seq<Id>, rows: map<Id, bool>, absentSince: map<Id, int>, now: int, k: nat)
    requires k < |Decided(ids, rows, absentSince, now)|
    ensures var item := Decided(ids, rows, absentSince, now)[k];
            item.id in ids && Judge(item.id, rows, absentSince, now) == Yield(item)
    decreases |ids|
  {
    var front := ids[..|ids| - 1];
    if k < |Decided(front, rows, absentSince, now)| {
      DecidedIsJudged(front, rows, absentSince, now, k);
    }
  }

  lemma {:induction false} KeptIsJudged(ids: seq<Id>, rows: map<Id, bool>, absentSince: map<Id, int>, now: int)
    requires Distinct(ids)
    ensures Distinct(Kept(ids, rows, absentSince, now))
    ensures forall id :: id in Kept(ids, rows, absentSince, now) <==>
                         id in ids && Judge(id, rows, absentSince, now).Keep?
    decreases |ids|
  {
    if ids != [] {
      var front, id := ids[..|ids| - 1], ids[|ids| - 1];
      KeptIsJudged(front, rows, absentSince, now);
      assert ids == front + [id];
      assert id !in front;
    }
  }

  // --------------------------------------------------------------- backoff

  function NextBackoff(backoff: nat): nat {
    if backoff * 2 <= MAX_BACKOFF then backoff * 2 else MAX_BACKOFF
  }

  /** The delay that follows another one: twice as long, and two seconds at most. */
  function Doubled(delay: nat): nat {
    if delay < 1_000 then delay + delay else 2_000
  }

  /** What the delay number `i` must be: 100 ms after a poll that decided something,
      and at first; twice the one before otherwise. `slept[i]` is the poll it
      followed. */
  ghost predicate Delay(delays: seq<nat>, slept: seq<nat>, i: nat, delay: nat, after: nat)
    requires i <= |delays| == |slept|
  {
    delay == if i > 0 && slept[i - 1] + 1 == after then Doubled(delays[i - 1]) else 100
  }

  ghost predicate BacksOff(delays: seq<nat>, slept: seq<nat>) {
    && |delays| == |slept|
    && forall i :: 0 <= i < |delays| ==> Delay(delays, slept, i, delays[i], slept[i])
  }

  /** The next delay continues the ones slept so far. */
  ghost predicate Timer(delays: seq<nat>, slept: seq<nat>, backoff: nat, consumed: nat) {
    && BacksOff(delays, slept) && (forall i :: 0 <= i < |slept| ==> slept[i] < consumed)
    && Delay(delays, slept, |delays|, backoff, consumed) && 100 <= backoff <= 2_000
  }

  lemma SleepKeepsTimer(delays: seq<nat>, slept: seq<nat>, backoff: nat, consumed: nat)
    requires Timer(delays, slept, backoff, consumed)
    ensures Timer(delays + [backoff], slept + [consumed], NextBackoff(backoff), consumed + 1)
    ensures Timer(delays, slept, INITIAL_BACKOFF, consumed + 1)
  {
    var more, after := delays + [backoff], slept + [consumed];
    forall i | 0 <= i < |more|
      ensures Delay(more, after, i, more[i], after[i])
    {
      if i < |delays| {
        assert Delay(delays, slept, i, delays[i], slept[i]);
      }
    }
  }

  predicate DbErrorsExhausted(streak: nat) {
    streak + 1 >= MAX_CONSECUTIVE_DB_ERRORS
  }

  // -------------------------------------------------------------- the wait

  /** No successful poll from `from` to `to` saw the id, and one at `from` looked. */
  ghost predicate MissingSince(polls: seq<Poll>, id: Id, from: nat, to: nat)
    requires from <= to < |polls|
  {
    polls[from].Rows? && forall i :: from <= i <= to && polls[i].Rows? ==> id !in polls[i].rows
  }

  /** Why poll `k` was entitled to this item. */
  ghost predicate Justified(item: Item, polls: seq<Poll>, k: nat)
    requires k < |polls|
  {
    && polls[k].Rows?
    && match item
       case Finished(id) => id in polls[k].rows && polls[k].rows[id]
       case NotFound(id) =>
         exists from :: 0 <= from < k && MissingSince(polls, id, from, k) && polls[from].at + 100 <= polls[k].at
  }

  /** Not terminal in any successful poll so far. */
  ghost predicate NeverTerminal(polls: seq<Poll>, id: Id, consumed: nat)
    requires consumed <= |polls|
  {
    forall i :: 0 <= i < consumed && polls[i].Rows? && id in polls[i].rows ==> !polls[i].rows[id]
  }

  /** The absence map remembers the first poll of an unbroken absence. */
  ghost predicate AbsenceIsReal(polls: seq<Poll>, absentSince: map<Id, int>, id: Id, consumed: nat)
    requires consumed <= |polls|
  {
    id in absentSince ==>
      exists from :: 0 <= from < consumed && MissingSince(polls, id, from, consumed - 1) && polls[from].at == absentSince[id]
  }

  /** The absence that poll `last` finds still on began with poll `from`. */
  ghost predicate OnSince(polls: seq<Poll>, id: Id, from: nat, last: int) {
    && from <= last < |polls| && MissingSince(polls, id, from, last)
    && forall j: nat :: j < from ==> !MissingSince(polls, id, j, last)
  }

  /** The absence map knows every absence. */
  ghost predicate KnownAt(polls: seq<Poll>, absentSince: map<Id, int>, id: Id, last: int)
    requires last < |polls|
  {
    forall from: nat :: OnSince(polls, id, from, last) ==> id in absentSince && absentSince[id] == polls[from].at
  }

  /** At no poll that found the id missing was a grace interval of 100 ms over. */
  ghost predicate NeverOverdue(polls: seq<Poll>, id: Id, consumed: nat)
    requires consumed <= |polls|
  {
    forall from: nat, k: nat :: k < consumed && polls[k].Rows? && OnSince(polls, id, from, k) ==>
      polls[k].at < polls[from].at + 100
  }

  lemma LongerAbsence(polls: seq<Poll>, id: Id, from: nat, k: nat, j: nat)
    requires j <= from < k < |polls| && MissingSince(polls, id, from, k) && MissingSince(polls, id, j, k - 1)
    ensures MissingSince(polls, id, j, k)
  {
  }

  lemma ShorterAbsence(polls: seq<Poll>, id: Id, from: nat, k: nat)
    requires from < k && OnSince(polls, id, from, k)
    ensures OnSince(polls, id, from, k - 1)
  {
    var last := k - 1;
    forall j: nat | j < from
      ensures !MissingSince(polls, id, j, last)
    {
      if MissingSince(polls, id, j, last) {
        LongerAbsence(polls, id, from, k, j);
      }
    }
  }

  /** An absence is known from its first poll on. */
  lemma AbsenceStaysKnown(polls: seq<Poll>, k: nat, id: Id, before: map<Id, int>, after: map<Id, int>)
    requires k < |polls| && AbsenceIsReal(polls, before, id, k) && KnownAt(polls, before, id, k - 1)
    requires if polls[k].Rows? then AbsenceUpdated(id, polls[k].rows, before, after, polls[k].at)
                                    && Judge(id, polls[k].rows, before, polls[k].at).Keep?
             else after == before
    ensures KnownAt(polls, after, id, k)
  {
    forall from: nat | OnSince(polls, id, from, k)
      ensures id in after && after[id] == polls[from].at
    {
      if from < k {
        ShorterAbsence(polls, id, from, k);
      } else if id in before {
        var earlier :| 0 <= earlier < k && MissingSince(polls, id, earlier, k - 1) && polls[earlier].at == before[id];
        assert MissingSince(polls, id, earlier, k);
      }
    }
  }

  /** An id that is kept was not missing for a whole grace interval. */
  lemma KeptIsNotOverdue(polls: seq<Poll>, k: nat, id: Id, before: map<Id, int>)
    requires k < |polls| && KnownAt(polls, before, id, k - 1) && NeverOverdue(polls, id, k)
    requires polls[k].Rows? ==> Judge(id, polls[k].rows, before, polls[k].at).Keep?
    ensures NeverOverdue(polls, id, k + 1)
  {
    forall from: nat | from < k && polls[k].Rows? && OnSince(polls, id, from, k)
      ensures polls[k].at < polls[from].at + 100
    {
      ShorterAbsence(polls, id, from, k);
    }
  }

  /** Items decided by one poll, given that the absence map was right before it. */
  lemma ItemsAreJustified(polls: seq<Poll>, k: nat, remaining: seq<Id>, absentSince: map<Id, int>)
    requires k < |polls| && polls[k].Rows?
    requires forall id :: id in remaining ==> AbsenceIsReal(polls, absentSince, id, k)
    ensures forall item :: item in Decided(remaining, polls[k].rows, absentSince, polls[k].at) ==> Justified(item, polls, k)
  {
    var items := Decided(remaining, polls[k].rows, absentSince, polls[k].at);
    forall i | 0 <= i < |items|
      ensures Justified(items[i], polls, k)
    {
      DecidedIsJudged(remaining, polls[k].rows, absentSince, polls[k].at, i);
      if items[i].NotFound? {
        var from :| 0 <= from < k && MissingSince(polls, items[i].id, from, k - 1)
                    && polls[from].at == absentSince[items[i].id];
        assert MissingSince(polls, items[i].id, from, k);
      }
    }
  }

  lemma AbsenceStaysReal(polls: seq<Poll>, k: nat, id: Id, before: map<Id, int>, after: map<Id, int>)
    requires k < |polls| && AbsenceIsReal(polls, before, id, k)
    requires if polls[k].Rows? then AbsenceUpdated(id, polls[k].rows, before, after, polls[k].at) else after == before
    ensures AbsenceIsReal(polls, after, id, k + 1)
  {
    if id in after {
      if id in before {
        var from :| 0 <= from < k && MissingSince(polls, id, from, k - 1) && polls[from].at == before[id];
        assert MissingSince(polls, id, from, k);
      } else {
        assert MissingSince(polls, id, k, k);
      }
    }
  }

  /** Every waited id is in exactly one place, once. */
  ghost predicate Accounted(items: seq<Item>, remaining: seq<Id>, given: seq<Id>, ids: seq<Id>) {
    forall id :: Reports(items, id) + Times(remaining, id) + Times(given, id) == if id in ids then 1 else 0
  }

  ghost predicate AllJustified(items: seq<Item>, when: seq<nat>, polls: seq<Poll>, consumed: nat)
    requires consumed <= |polls|
  {
    && |when| == |items|
    && forall i :: 0 <= i < |items| ==> when[i] < consumed && Justified(items[i], polls, when[i])
  }

  ghost predicate StillWaiting(polls: seq<Poll>, remaining: seq<Id>, absentSince: map<Id, int>, consumed: nat)
    requires consumed <= |polls|
  {
    && Distinct(remaining)
    && forall id :: id in remaining ==> Waited(polls, absentSince, id, consumed)
  }

  lemma FailedPollKeepsWaiting(polls: seq<Poll>, k: nat, remaining: seq<Id>, absentSince: map<Id, int>)
    requires k < |polls| && polls[k].Failed? && StillWaiting(polls, remaining, absentSince, k)
    ensures StillWaiting(polls, remaining, absentSince, k + 1)
  {
    forall id | id in remaining
      ensures Waited(polls, absentSince, id, k + 1)
    {
      KeptIsWaited(polls, k, id, absentSince, absentSince);
    }
  }

  /** What is known of one waited id. */
  ghost predicate Waited(polls: seq<Poll>, absentSince: map<Id, int>, id: Id, consumed: nat)
    requires consumed <= |polls|
  {
    && NeverTerminal(polls, id, consumed) && AbsenceIsReal(polls, absentSince, id, consumed)
    && KnownAt(polls, absentSince, id, consumed - 1) && NeverOverdue(polls, id, consumed)
  }

  lemma KeptIsWaited(polls: seq<Poll>, k: nat, id: Id, before: map<Id, int>, after: map<Id, int>)
    requires k < |polls| && Waited(polls, before, id, k)
    requires if polls[k].Rows? then AbsenceUpdated(id, polls[k].rows, before, after, polls[k].at)
                                    && Judge(id, polls[k].rows, before, polls[k].at).Keep?
             else after == before
    ensures Waited(polls, after, id, k + 1)
  {
    AbsenceStaysReal(polls, k, id, before, after);
    AbsenceStaysKnown(polls, k, id, before, after);
    KeptIsNotOverdue(polls, k, id, before);
  }

  lemma PollKeepsWaiting(polls: seq<Poll>, k: nat, remaining: seq<Id>, before: map<Id, int>)
    requires k < |polls| && polls[k].Rows? && StillWaiting(polls, remaining, before, k)
    ensures StillWaiting(polls, Kept(remaining, polls[k].rows, before, polls[k].at),
                         Absences(remaining, polls[k].rows, before, polls[k].at), k + 1)
  {
    var after := Absences(remaining, polls[k].rows, before, polls[k].at);
    KeptIsJudged(remaining, polls[k].rows, before, polls[k].at);
    forall id | id in Kept(remaining, polls[k].rows, before, polls[k].at)
      ensures Waited(polls, after, id, k + 1)
    {
      AbsencesOf(remaining, polls[k].rows, before, polls[k].at, id);
      KeptIsWaited(polls, k, id, before, after);
    }
  }

  lemma PollKeepsAccount(items: seq<Item>, remaining: seq<Id>, ids: seq<Id>, rows: map<Id, bool>,
                         absentSince: map<Id, int>, now: int)
    requires Accounted(items, remaining, [], ids)
    ensures Accounted(items + Decided(remaining, rows, absentSince, now), Kept(remaining, rows, absentSince, now), [],
                      ids)
  {
    forall id
      ensures Reports(items + Decided(remaining, rows, absentSince, now), id)
              + Times(Kept(remaining, rows, absentSince, now), id) == if id in ids then 1 else 0
    {
      assert Times([], id) == 0;
      TriagePartitions(remaining, rows, absentSince, now, id);
      ReportsConcat(items, Decided(remaining, rows, absentSince, now), id);
    }
  }

  function Stamps(k: nat, n: nat): seq<nat> {
    seq(n, _ => k)
  }

  /** Everything one successful poll does to the books. */
  lemma SuccessfulPoll(polls: seq<Poll>, k: nat, items: seq<Item>, when: seq<nat>, remaining: seq<Id>,
                       absentSince: map<Id, int>, ids: seq<Id>)
    requires k < |polls| && polls[k].Rows? && StillWaiting(polls, remaining, absentSince, k)
    requires Accounted(items, remaining, [], ids) && AllJustified(items, when, polls, k)
    ensures var rows, now := polls[k].rows, polls[k].at;
            var decided := Decided(remaining, rows, absentSince, now);
            && Accounted(items + decided, Kept(remaining, rows, absentSince, now), [], ids)
            && AllJustified(items + decided, when + Stamps(k, |decided|), polls, k + 1)
            && StillWaiting(polls, Kept(remaining, rows, absentSince, now), Absences(remaining, rows, absentSince, now), k + 1)
  {
    PollKeepsAccount(items, remaining, ids, polls[k].rows, absentSince, polls[k].at);
    PollKeepsWaiting(polls, k, remaining, absentSince);
    ItemsAreJustified(polls, k, remaining, absentSince);
  }

  ghost predicate FailedFrom(polls: seq<Poll>, from: int, to: int)
    requires to <= |polls|
  {
    0 <= from && forall i :: from <= i < to ==> polls[i].Failed?
  }

  /** Exactly the last `streak` polls failed, and they are not exhausted. */
  ghost predicate Streak(polls: seq<Poll>, consumed: nat, streak: nat)
    requires consumed <= |polls|
  {
    && streak < MAX_CONSECUTIVE_DB_ERRORS && FailedFrom(polls, consumed - streak, consumed)
    && (streak == consumed || polls[consumed - streak - 1].Rows?)
  }

  lemma StreakAdvances(polls: seq<Poll>, consumed: nat, streak: nat)
    requires consumed < |polls| && Streak(polls, consumed, streak)
    ensures polls[consumed].Failed? && !DbErrorsExhausted(streak) ==> Streak(polls, consumed + 1, streak + 1)
    ensures polls[consumed].Failed? && DbErrorsExhausted(streak) ==>
              FailedFrom(polls, consumed + 1 - MAX_CONSECUTIVE_DB_ERRORS, consumed + 1)
    ensures polls[consumed].Rows? ==> Streak(polls, consumed + 1, 0)
  {
  }

  lemma StreakIsShort(polls: seq<Poll>, consumed: nat, streak: nat)
    requires consumed <= |polls| && Streak(polls, consumed, streak)
    ensures !FailedFrom(polls, consumed - MAX_CONSECUTIVE_DB_ERRORS, consumed)
  {
    if streak < consumed {
      assert !polls[consumed - streak - 1].Failed?;
    }
  }

  /** What the stream threads from one poll to the next. */
  datatype Wait = Wait(remaining: seq<Id>, backoff: nat, streak: nat, absentSince: map<Id, int>)

  /** What one poll did: the items it yields, the ids it gives up on, how long it
      sleeps, and the state the stream goes on with. */
  ghost predicate Polled(w: Wait, poll: Poll, next: Wait, items: seq<Item>, given: seq<Id>, slept: seq<nat>) {
    && (match poll
        case Failed =>
          && items == [] && next.absentSince == w.absentSince
          && if DbErrorsExhausted(w.streak) then given == w.remaining && next.remaining == []
             else given == [] && next.remaining == w.remaining && next.streak == w.streak + 1
        case Rows(rows, at) =>
          && items == Decided(w.remaining, rows, w.absentSince, at) && given == [] && next.streak == 0
          && next.remaining == Kept(w.remaining, rows, w.absentSince, at)
          && next.absentSince == Absences(w.remaining, rows, w.absentSince, at))
    && if items == [] && given == [] then slept == [w.backoff] && next.backoff == NextBackoff(w.backoff)
       else slept == [] && next.backoff == INITIAL_BACKOFF
  }

  method PollOnce(w: Wait, poll: Poll) returns (next: Wait, items: seq<Item>, given: seq<Id>, slept: seq<nat>)
    requires Distinct(w.remaining) && w.remaining != []
    ensures Polled(w, poll, next, items, given, slept)
  {
    if poll.Failed? {
      if DbErrorsExhausted(w.streak) {
        return Wait([], INITIAL_BACKOFF, 0, w.absentSince), [], w.remaining, [];
      }
      return Wait(w.remaining, NextBackoff(w.backoff), w.streak + 1, w.absentSince), [], [], [w.backoff];
    }
    var remaining, absentSince;
    items, remaining, absentSince := TriagePoll(w.remaining, poll.rows, w.absentSince, poll.at);
    given := [];
    if items == [] {
      return Wait(remaining, NextBackoff(w.backoff), 0, absentSince), items, given, [w.backoff];
    }
    return Wait(remaining, INITIAL_BACKOFF, 0, absentSince), items, given, [];
  }

  /** What holds of a wait after so many polls. */
  ghost predicate Books(polls: seq<Poll>, ids: seq<Id>, consumed: nat, w: Wait, items: seq<Item>, when: seq<nat>,
                        given: seq<Id>, delays: seq<nat>, slept: seq<nat>)
    requires consumed <= |polls|
  {
    && Accounted(items, w.remaining, given, ids) && AllJustified(items, when, polls, consumed)
    && StillWaiting(polls, w.remaining, w.absentSince, consumed) && Timer(delays, slept, w.backoff, consumed)
    && (forall k :: 0 <= k < consumed ==> (k in slept <==> k !in when && !(given != [] && k == consumed - 1)))
    && if given == [] then Streak(polls, consumed, w.streak)
       else FailedFrom(polls, consumed - MAX_CONSECUTIVE_DB_ERRORS, consumed) && w.remaining == []
  }

  /** A poll sleeps, decides something, or gives up. */
  lemma OneMorePoll(polls: seq<Poll>, items: seq<Item>, when: seq<nat>, consumed: nat, slept: seq<nat>, more: seq<nat>,
                    stamps: seq<nat>)
    requires consumed < |polls| && AllJustified(items, when, polls, consumed)
    requires forall i :: 0 <= i < |slept| ==> slept[i] < consumed
    requires forall k :: 0 <= k < consumed ==> (k in slept <==> k !in when)
    requires |more| <= 1 && forall i :: 0 <= i < |stamps| ==> stamps[i] == consumed
    ensures var after := slept + Stamps(consumed, |more|);
            && (more == [] ==> after == slept) && (|more| == 1 ==> after == slept + [consumed])
            && (forall k :: 0 <= k < consumed ==> (k in after <==> k !in when + stamps))
            && (consumed in after <==> more != []) && (consumed in when + stamps <==> stamps != [])
  {
    var after := slept + Stamps(consumed, |more|);
    assert |more| == 1 ==> Stamps(consumed, 1) == [consumed];
    assert |more| == 1 ==> after[|slept|] == consumed;
    assert stamps != [] ==> (when + stamps)[|when|] == consumed;
  }

  lemma FailedPollKeepsBooks(polls: seq<Poll>, ids: seq<Id>, consumed: nat, w: Wait, items: seq<Item>, when: seq<nat>,
                             delays: seq<nat>, slept: seq<nat>, next: Wait, given: seq<Id>, more: seq<nat>)
    requires consumed < |polls| && polls[consumed].Failed? && w.remaining != []
    requires Books(polls, ids, consumed, w, items, when, [], delays, slept)
    requires Polled(w, polls[consumed], next, [], given, more)
    ensures Books(polls, ids, consumed + 1, next, items, when, given, delays + more, slept + Stamps(consumed, |more|))
  {
    SleepKeepsTimer(delays, slept, w.backoff, consumed);
    OneMorePoll(polls, items, when, consumed, slept, more, []);
    StreakAdvances(polls, consumed, w.streak);
    FailedPollKeepsWaiting(polls, consumed, w.remaining, w.absentSince);
    assert delays + [] == delays;
  }

  lemma GoodPollKeepsBooks(polls: seq<Poll>, ids: seq<Id>, consumed: nat, w: Wait, items: seq<Item>, when: seq<nat>,
                           delays: seq<nat>, slept: seq<nat>, next: Wait, decided: seq<Item>, more: seq<nat>)
    requires consumed < |polls| && polls[consumed].Rows? && w.remaining != []
    requires Books(polls, ids, consumed, w, items, when, [], delays, slept)
    requires Polled(w, polls[consumed], next, decided, [], more)
    ensures Books(polls, ids, consumed + 1, next, items + decided, when + Stamps(consumed, |decided|), [], delays + more,
                  slept + Stamps(consumed, |more|))
  {
    SleepKeepsTimer(delays, slept, w.backoff, consumed);
    OneMorePoll(polls, items, when, consumed, slept, more, Stamps(consumed, |decided|));
    StreakAdvances(polls, consumed, w.streak);
    SuccessfulPoll(polls, consumed, items, when, w.remaining, w.absentSince, ids);
    assert delays + [] == delays;
  }

  /** The books, folded. */
  ghost predicate BooksKept(polls: seq<Poll>, ids: seq<Id>, consumed: nat, w: Wait, items: seq<Item>, when: seq<nat>,
                       given: seq<Id>, delays: seq<nat>, slept: seq<nat>)
    requires consumed <= |polls|
  {
    forall folded :: Fold(folded) ==> Books(polls, ids, consumed, w, items, when, given, delays, slept)
  }

  /** One poll of the wait, and what is known after it. */
  method WaitOnce(polls: seq<Poll>, ghost ids: seq<Id>, consumed: nat, w: Wait, items: seq<Item>, ghost when: seq<nat>,
                  delays: seq<nat>, ghost slept: seq<nat>)
    returns (next: Wait, more: seq<Item>, given: seq<Id>, longer: seq<nat>, ghost whenever: seq<nat>, ghost sleeps: seq<nat>)
    requires consumed < |polls| && w.remaining != [] && BooksKept(polls, ids, consumed, w, items, when, [], delays, slept)
    ensures BooksKept(polls, ids, consumed + 1, next, more, whenever, given, longer, sleeps)
    ensures next.remaining != [] ==> given == []
  {
    assert Fold(true);
    var decided, naps;
    next, decided, given, naps := PollOnce(w, polls[consumed]);
    if polls[consumed].Failed? {
      FailedPollKeepsBooks(polls, ids, consumed, w, items, when, delays, slept, next, given, naps);
      more, whenever := items, when;
    } else {
      GoodPollKeepsBooks(polls, ids, consumed, w, items, when, delays, slept, next, decided, naps);
      more, whenever := items + decided, when + Stamps(consumed, |decided|);
    }
    longer, sleeps := delays + naps, slept + Stamps(consumed, |naps|);
  }

  lemma WaitBegins(polls: seq<Poll>, ids: seq<Id>, waited: seq<Id>)
    requires Distinct(waited) && forall id :: id in waited <==> id in ids
    ensures Books(polls, ids, 0, Wait(waited, 100, 0, map[]), [], [], [], [], [])
  {
    forall id
      ensures Times(waited, id) == if id in ids then 1 else 0
    {
      DistinctTimes(waited, id);
    }
  }

  /** The polls of the wait, while there are ids and answers left. */
  method WaitOn(ids: seq<Id>, polls: seq<Poll>, waited: seq<Id>)
    returns (w: Wait, items: seq<Item>, given: seq<Id>, delays: seq<nat>, consumed: nat, ghost when: seq<nat>,
             ghost slept: seq<nat>)
    requires Distinct(waited) && forall id :: id in waited <==> id in ids
    ensures consumed <= |polls| && (consumed < |polls| ==> w.remaining == [])
    ensures BooksKept(polls, ids, consumed, w, items, when, given, delays, slept)
  {
    WaitBegins(polls, ids, waited);
    w := Wait(waited, INITIAL_BACKOFF, 0, map[]);
    items, given, delays, consumed, when, slept := [], [], [], 0, [], [];
    while consumed < |polls| && w.remaining != []
      invariant consumed <= |polls| && BooksKept(polls, ids, consumed, w, items, when, given, delays, slept)
      invariant w.remaining != [] ==> given == []
    {
      w, items, given, delays, when, slept := WaitOnce(polls, ids, consumed, w, items, when, delays, slept);
      consumed := consumed + 1;
    }
  }

  /** `wait_for_completion`, over any answers to its polls. `given` holds the ids
      a persistent failure gave up on, and `when` the poll that decided each item. */
  method WaitForCompletion(ids: seq<Id>, polls: seq<Poll>)
    returns (items: seq<Item>, remaining: seq<Id>, given: seq<Id>, delays: seq<nat>, consumed: nat,
             ghost when: seq<nat>, ghost slept: seq<nat>)
    ensures Accounted(items, remaining, given, ids)
    ensures consumed <= |polls| && (consumed < |polls| ==> remaining == [])
    ensures AllJustified(items, when, polls, consumed)
    ensures forall id :: id in remaining ==> NeverTerminal(polls, id, consumed) && NeverOverdue(polls, id, consumed)
    ensures BacksOff(delays, slept)
    ensures forall k :: 0 <= k < consumed ==> (k in slept <==> k !in when && !(given != [] && k == consumed - 1))
    ensures remaining != [] ==> !FailedFrom(polls, consumed - 3, consumed)
    ensures given != [] ==> FailedFrom(polls, consumed - 3, consumed) && remaining == []
  {
    var waited := DistinctIds(ids);
    var w;
    w, items, given, delays, consumed, when, slept := WaitOn(ids, polls, waited);
    assert Fold(true);
    remaining := w.remaining;
    if remaining != [] {
      StreakIsShort(polls, consumed, w.streak);
    }
  }
}
