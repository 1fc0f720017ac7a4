/** Concrete runs: the situations the theorems of `Protocol` are about do occur,
    and an assumption they rest on cannot be dropped. */
module Witnesses {
  import opened Rows
  import opened Store
  import opened Invariants
  import opened Protocol

  const TASK: TaskId := 7
  const WORKER: Name := 1
  const QUEUE: Queue := 2
  const OLD: Token := 10
  const NEW: Token := 11
  const NOON: Instant := 43_200_000_000

  /** Enqueue, register, claim, retire and release, all within one second. */
  function AfterEnqueue(): State { Step(Initial, Enqueue(TASK, QUEUE, 3, 0, 0)) }
  function AfterRegister(): State { Step(AfterEnqueue(), Register(WORKER, QUEUE, OLD, 300_000_000, NOON)) }
  function AfterClaim(): State { Step(AfterRegister(), Fetch(WORKER, QUEUE, Some(OLD), {TASK}, {}, NOON + 1)) }
  function AfterRetire(): State { Step(AfterClaim(), Retire(OLD, WORKER)) }
  function AfterRelease(): State { Step(AfterRetire(), ReleaseWorker(WORKER, QUEUE, OLD, NOON + 2)) }

  const FirstClaim: Claim := Claim(TASK, 1, QUEUE, WORKER, Second(NOON), 0, 3, Some(OLD))
  const SecondClaim: Claim := Claim(TASK, 2, QUEUE, WORKER, Second(NOON), 0, 3, Some(NEW))
  const Waiting: Row := Row(QUEUE, Pending, 0, 3, 0, 0, None, None, None, None)
  const Owned: Row := Row(QUEUE, Queued, 0, 3, 0, 0, Some(WORKER), Some(Second(NOON)), None, None)

  /** A successor takes the released name and claims the task in the same second. */
  function Successor(s: State, token: Token): State {
    Step(Step(s, Register(WORKER, QUEUE, token, 300_000_000, NOON + 3)),
         Fetch(WORKER, QUEUE, Some(token), {TASK}, {}, NOON + 4))
  }

  lemma FirstRegistered()
    ensures var s := AfterRegister();
            && s.jobs == map[TASK := Waiting] && s.workers == map[(WORKER, QUEUE) := Registration(Some(OLD), NOON)]
            && s.retired == {} && LedgerOf(s, TASK) == NoHistory
  {
    var s := AfterEnqueue();
    assert s.jobs == map[TASK := Waiting];
    assert AfterRegister().jobs == map[TASK := Waiting];
  }

  /** A claim of the waiting task under a token that holds the registration. */
  lemma ClaimsWaiting(s: State, token: Token, at: Instant)
    requires s.jobs == map[TASK := Waiting] && Holds(s, (WORKER, QUEUE), Some(token)) && Second(at) == Second(NOON)
    requires at >= 0
    ensures var e := Fetch(WORKER, QUEUE, Some(token), {TASK}, {}, at);
            var next := Step(s, e);
            && next.jobs == map[TASK := Owned] && next.workers == s.workers && next.retired == s.retired
            && LedgerOf(next, TASK) == LedgerOf(s, TASK).(gen := LedgerOf(s, TASK).gen + 1, claimToken := Some(token))
            && CurrentClaim(next, TASK) in next.claims && s.claims <= next.claims
  {
    var e := Fetch(WORKER, QUEUE, Some(token), {TASK}, {}, at);
    assert Effect(s, e).jobs == map[TASK := Owned];
  }

  lemma FirstClaimed()
    ensures var s := AfterClaim();
            && s.jobs == map[TASK := Owned] && s.workers == AfterRegister().workers && s.retired == {}
            && LedgerOf(s, TASK) == NoHistory.(gen := 1, claimToken := Some(OLD)) && FirstClaim in s.claims
  {
    FirstRegistered();
    ClaimsWaiting(AfterRegister(), OLD, NOON + 1);
    assert CurrentClaim(AfterClaim(), TASK) == FirstClaim;
  }

  lemma ReleasesUnstarted(s: State, token: Token, at: Instant)
    requires s.jobs == map[TASK := Owned] && s.workers.Keys == {(WORKER, QUEUE)}
    requires s.workers[(WORKER, QUEUE)].token == Some(token) && (token, WORKER) in s.retired
    ensures var next := Step(s, ReleaseWorker(WORKER, QUEUE, token, at));
            && next.jobs == map[TASK := Waiting] && next.workers == map[(WORKER, QUEUE) := Registration(None, 0)]
            && next.retired == s.retired && s.claims <= next.claims
            && LedgerOf(next, TASK) == LedgerOf(s, TASK)
  {
    var e := ReleaseWorker(WORKER, QUEUE, token, at);
    assert ActiveClaims(s, (WORKER, QUEUE)) == {TASK};
    assert Effect(s, e).jobs == map[TASK := Waiting];
  }

  lemma RetiresOnly(s: State, token: Token)
    requires s.jobs == map[TASK := Owned]
    ensures var next := Step(s, Retire(token, WORKER));
            && next.jobs == s.jobs && next.workers == s.workers && s.claims <= next.claims
            && next.retired == s.retired + {(token, WORKER)} && LedgerOf(next, TASK) == LedgerOf(s, TASK)
  {
  }

  lemma FirstReleased()
    ensures var s := AfterRelease();
            && s.jobs == map[TASK := Waiting] && s.workers == map[(WORKER, QUEUE) := Registration(None, 0)]
            && s.retired == {(OLD, WORKER)} && LedgerOf(s, TASK).gen == 1 && FirstClaim in s.claims
  {
    FirstRetired();
    ReleasesUnstarted(AfterRetire(), OLD, NOON + 2);
  }

  lemma FirstRetired()
    ensures var s := AfterRetire();
            && s.jobs == map[TASK := Owned] && s.workers == map[(WORKER, QUEUE) := Registration(Some(OLD), NOON)]
            && s.retired == {(OLD, WORKER)} && LedgerOf(s, TASK).gen == 1 && FirstClaim in s.claims
  {
    FirstRegistered();
    FirstClaimed();
    RetiresOnly(AfterClaim(), OLD);
  }

  lemma SuccessorClaims(s: State, token: Token)
    requires s.jobs == map[TASK := Waiting] && s.workers == map[(WORKER, QUEUE) := Registration(None, 0)]
    requires (token, WORKER) !in s.retired
    ensures var next := Successor(s, token);
            && next.jobs == map[TASK := Owned] && RegisteredToken(next, (WORKER, QUEUE)) == Some(token)
            && LedgerOf(next, TASK).gen == LedgerOf(s, TASK).gen + 1
            && LedgerOf(next, TASK).claimToken == Some(token)
            && CurrentClaim(next, TASK) in next.claims && s.claims <= next.claims
  {
    var e := Register(WORKER, QUEUE, token, 300_000_000, NOON + 3);
    var registered := Step(s, e);
    assert ActiveClaims(s, (WORKER, QUEUE)) == {};
    assert Effect(s, e).jobs == map[TASK := Waiting];
    ClaimsWaiting(registered, token, NOON + 4);
  }

  /** Two claims of one reachable state that no recorded field tells apart: the
      epoch (owner, claim second, attempts) repeats after an uncharged release. */
  lemma EpochsRepeat()
    ensures Inv(Successor(AfterRelease(), NEW))
    ensures var claims := Successor(AfterRelease(), NEW).claims;
            FirstClaim in claims && SecondClaim in claims
    ensures FirstClaim.(gen := 2, token := Some(NEW)) == SecondClaim
  {
    FirstReleased();
    SuccessorClaims(AfterRelease(), NEW);
    assert CurrentClaim(Successor(AfterRelease(), NEW), TASK) == SecondClaim;
    assert Inv(Initial);
    StepKeepsInv(Initial, Enqueue(TASK, QUEUE, 3, 0, 0));
    StepKeepsInv(AfterEnqueue(), Register(WORKER, QUEUE, OLD, 300_000_000, NOON));
    StepKeepsInv(AfterRegister(), Fetch(WORKER, QUEUE, Some(OLD), {TASK}, {}, NOON + 1));
    StepKeepsInv(AfterClaim(), Retire(OLD, WORKER));
    StepKeepsInv(AfterRetire(), ReleaseWorker(WORKER, QUEUE, OLD, NOON + 2));
    StepKeepsInv(AfterRelease(), Register(WORKER, QUEUE, NEW, 300_000_000, NOON + 3));
    StepKeepsInv(Step(AfterRelease(), Register(WORKER, QUEUE, NEW, 300_000_000, NOON + 3)),
                 Fetch(WORKER, QUEUE, Some(NEW), {TASK}, {}, NOON + 4));
  }

  /** Local retirement is what makes the token tell such claims apart. If the
      released storage could register again, its stale claim would start the
      row of the new one. */
  lemma ReRegistrationWouldConfuseClaims()
    ensures var s := Successor(AfterRelease().(retired := {}), OLD);
            var start := Start(TASK, QUEUE, WORKER, Second(NOON), Some(0), false, Some(OLD));
            && FirstClaim in s.claims && ActsFor(start, FirstClaim)
            && Enabled(s, start) && !InClaim(s, FirstClaim)
  {
    FirstReleased();
    SuccessorClaims(AfterRelease().(retired := {}), OLD);
  }
}
