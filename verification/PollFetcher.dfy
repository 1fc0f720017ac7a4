/** The polling fetcher: the configured strategy hands out permits, each permit
    pays for one fetch, and a fetched batch is yielded task by task. */
module PollFetcher {
  type Task = nat

  /** What a finished fetch answered. */
  datatype Answer = Tasks(tasks: seq<Task>) | Failed

  datatype StreamState = WaitForPoll | Ended | Fetch | Buffered(buffer: seq<Task>)

  datatype Item = Pending | Done | Yielded(task: Task) | FetchFailed | PollStrategyExhausted

  /** Everything the fetches so far returned, in order. */
  function Fetched(answers: seq<Answer>): seq<Task> {
    if answers == [] then []
    else
      var last := answers[|answers| - 1];
      Fetched(answers[..|answers| - 1]) + if last.Tasks? then last.tasks else []
  }

  function Failures(answers: seq<Answer>): nat {
    if answers == [] then 0
    else Failures(answers[..|answers| - 1]) + if answers[|answers| - 1].Failed? then 1 else 0
  }

  /** How many permits these signals gave. */
  function Permits(signals: seq<bool>): nat {
    if signals == [] then 0 else Permits(signals[..|signals| - 1]) + if signals[|signals| - 1] then 1 else 0
  }

  /** A poll asked the strategy `i` times and got `j` answers: every signal but the
      last was a permit, each permit issued a fetch, and every answer was taken. */
  ghost predicate Took(signals: seq<bool>, i: nat, permits: nat, before: nat, outcomes: seq<Answer>, j: nat,
                       answers: seq<Answer>, earlier: seq<Answer>) {
    && i <= |signals| && j <= |outcomes|
    && permits == before + Permits(signals[..i]) && answers == earlier + outcomes[..j]
    && forall k :: 0 <= k < i - 1 ==> signals[k]
  }

  lemma TookMore(signals: seq<bool>, i: nat, permits: nat, before: nat, outcomes: seq<Answer>, j: nat,
                 answers: seq<Answer>, earlier: seq<Answer>, waiting: bool, fetching: bool)
    requires Took(signals, i, permits, before, outcomes, j, answers, earlier) && (i > 0 ==> signals[i - 1])
    ensures var more, one := waiting && i < |signals|, fetching && j < |outcomes|;
            Took(signals, if more then i + 1 else i, permits + (if more && signals[i] then 1 else 0), before,
                 outcomes, if one then j + 1 else j, answers + (if one then [outcomes[j]] else []), earlier)
  {
    if i < |signals| {
      assert signals[..i + 1][..i] == signals[..i];
    }
    if j < |outcomes| {
      assert outcomes[..j + 1] == outcomes[..j] + [outcomes[j]];
    }
    assert answers + [] == answers;
  }

  function Size(answer: Answer): nat {
    if answer.Tasks? then |answer.tasks| else 0
  }

  lemma OneMoreAnswer(answers: seq<Answer>, last: Answer)
    ensures Fetched(answers + [last]) == Fetched(answers) + if last.Tasks? then last.tasks else []
    ensures Failures(answers + [last]) == Failures(answers) + if last.Failed? then 1 else 0
  {
    assert (answers + [last])[..|answers|] == answers;
  }

  class PgPollFetcher {
    var state: StreamState
    var previousTaskCount: nat
    ghost var permits: nat          // signals the strategy gave
    ghost var fetches: nat          // fetch statements issued
    ghost var answers: seq<Answer>  // their outcomes, in order
    ghost var yielded: seq<Task>
    ghost var reported: nat         // fetch errors handed to the consumer

    function Buffer(): seq<Task>
      reads this
    {
      if state.Buffered? then state.buffer else []
    }

    ghost predicate Valid()
      reads this
    {
      && fetches == permits
      && fetches == |answers| + (if state.Fetch? then 1 else 0)
      && Fetched(answers) == yielded + Buffer()
      && Failures(answers) == reported
      && previousTaskCount == (if answers == [] then 0 else Size(answers[|answers| - 1]))
    }

    constructor ()
      ensures Valid() && state == WaitForPoll && permits == 0 && yielded == []
    {
      state, previousTaskCount := WaitForPoll, 0;
      permits, fetches, answers, yielded, reported := 0, 0, [], [], 0;
    }

    /** The strategy signalled: its permit pays for one fetch. */
    method StartFetch()
      requires Valid() && state.WaitForPoll?
      modifies this
      ensures Valid() && state.Fetch? && permits == old(permits) + 1
      ensures answers == old(answers) && yielded == old(yielded) && reported == old(reported)
    {
      permits, fetches := permits + 1, fetches + 1;
      state := Fetch;
    }

    /** A fetch finished: its batch is buffered, or the next permit is awaited. */
    method Receive(answer: Answer)
      requires Valid() && state.Fetch?
      modifies this
      ensures Valid() && !state.Fetch? && !state.Ended?
      ensures answers == old(answers) + [answer] && permits == old(permits) && yielded == old(yielded)
      ensures reported == old(reported) + (if answer.Failed? then 1 else 0)
      ensures answer.Failed? ==> state.WaitForPoll?
    {
      OneMoreAnswer(answers, answer);
      match answer {
        case Tasks(tasks) =>
          previousTaskCount := |tasks|;
          state := if tasks == [] then WaitForPoll else Buffered(tasks);
        case Failed =>
          previousTaskCount := 0;
          reported := reported + 1;
          state := WaitForPoll;
      }
      answers := answers + [answer];
    }

    method PopFront() returns (task: Task)
      requires Valid() && Buffer() != []
      modifies this
      ensures Valid() && !state.Fetch? && !state.Ended?
      ensures task == old(Buffer())[0] && yielded == old(yielded) + [task] && Buffer() == old(Buffer())[1..]
      ensures permits == old(permits) && answers == old(answers) && reported == old(reported)
    {
      task := state.buffer[0];
      state := if state.buffer[1..] == [] then WaitForPoll else Buffered(state.buffer[1..]);
      yielded := yielded + [task];
    }

    /** One turn of the loop; `signals` and `outcomes` are the answers that are
        left. It returns when `over`, and asks at most one of them. */
    method Turn(signals: seq<bool>, outcomes: seq<Answer>) returns (over: bool, item: Item)
      requires Valid() && !state.Ended?
      modifies this
      ensures Valid() && permits == old(permits) + (if old(state.WaitForPoll?) && signals != [] && signals[0] then 1 else 0)
      ensures answers == old(answers) + (if old(state.Fetch?) && outcomes != [] then [outcomes[0]] else [])
      ensures over && item == Pending <==>
                (old(state.WaitForPoll?) && signals == []) || (old(state.Fetch?) && outcomes == [])
      ensures over && item == Pending ==> state == old(state)
      ensures over && item == PollStrategyExhausted <==> state.Ended?
      ensures state.Ended? <==> old(state.WaitForPoll?) && signals != [] && !signals[0]
      ensures over && item == FetchFailed <==> old(state.Fetch?) && outcomes != [] && outcomes[0] == Failed
      ensures reported == old(reported) + (if over && item == FetchFailed then 1 else 0)
      ensures over && item.Yielded? <==> old(Buffer()) != []
      ensures yielded == old(yielded) + (if over && item.Yielded? then [item.task] else [])
      ensures over && item.Yielded? ==> item.task == old(Buffer())[0]
      ensures over && !item.Yielded? ==> Buffer() == [] && item in {Pending, PollStrategyExhausted, FetchFailed}
      ensures !over && old(state.Buffered?) ==> state.WaitForPoll?
    {
      match state {
        case WaitForPoll =>
          if signals == [] {
            return true, Pending;
          }
          if !signals[0] {
            state := Ended;
            return true, PollStrategyExhausted;
          }
          StartFetch();
        case Fetch =>
          if outcomes == [] {
            return true, Pending;
          }
          Receive(outcomes[0]);
          if outcomes[0].Failed? {
            return true, FetchFailed;
          }
        case Buffered(buffer) =>
          if buffer != [] {
            var task := PopFront();
            return true, Yielded(task);
          }
          state := WaitForPoll;
      }
      over, item := false, Done;
    }

    /** A turn with the answers that are left after `i` signals and `j` outcomes. */
    method TurnAt(signals: seq<bool>, i: nat, outcomes: seq<Answer>, j: nat, ghost before: nat, ghost earlier: seq<Answer>)
      returns (over: bool, item: Item, asked: nat, finished: nat)
      requires Valid() && !state.Ended? && Took(signals, i, permits, before, outcomes, j, answers, earlier)
      requires i > 0 ==> signals[i - 1]
      modifies this
      ensures Valid() && Took(signals, asked, permits, before, outcomes, finished, answers, earlier)
      ensures i <= asked && j <= finished
      ensures state.Ended? <==> 0 < asked && !signals[asked - 1]
      ensures over && item == PollStrategyExhausted <==> state.Ended?
      ensures over ==> item != Done && (item.Yielded? <==> old(Buffer()) != [])
      ensures item.Yielded? && over ==> item.task == old(Buffer())[0] && permits == old(permits)
      ensures over && item == Pending ==>
                Buffer() == [] && if state.WaitForPoll? then asked == |signals| else state.Fetch? && finished == |outcomes|
      ensures yielded == old(yielded) + (if over && item.Yielded? then [item.task] else [])
      ensures reported == old(reported) + (if over && item == FetchFailed then 1 else 0)
      ensures !over ==> old(Buffer()) == [] && (i + j < asked + finished || (old(state.Buffered?) && !state.Buffered?))
    {
      var waiting, fetching := state.WaitForPoll?, state.Fetch?;
      ghost var permitsBefore, answersBefore := permits, answers;
      over, item := Turn(signals[i..], outcomes[j..]);
      TookMore(signals, i, permitsBefore, before, outcomes, j, answersBefore, earlier, waiting, fetching);
      asked := if waiting && i < |signals| then i + 1 else i;
      finished := if fetching && j < |outcomes| then j + 1 else j;
    }

    /** `poll_next`. `signals` answers the polls of the strategy, true for a
        permit and false for its end, and `outcomes` those of the fetches; past
        their ends both are pending. */
    method PollNext(signals: seq<bool>, outcomes: seq<Answer>) returns (item: Item, ghost asked: nat, ghost finished: nat)
      requires Valid()
      modifies this
      ensures Valid()
      ensures yielded == old(yielded) + (if item.Yielded? then [item.task] else [])
      ensures reported == old(reported) + (if item == FetchFailed then 1 else 0)
      ensures item == PollStrategyExhausted <==> state.Ended? && !old(state.Ended?)
      ensures item == Done <==> old(state.Ended?)
      ensures old(state.Ended?) ==> state.Ended? && permits == old(permits) && answers == old(answers)
      ensures Took(signals, asked, permits, old(permits), outcomes, finished, answers, old(answers))
      ensures item == Pending ==>
                Buffer() == [] && (if state.WaitForPoll? then asked == |signals| else state.Fetch? && finished == |outcomes|)
      ensures item == PollStrategyExhausted <==> 0 < asked <= |signals| && !signals[asked - 1]
      ensures old(Buffer()) != [] ==> item == Yielded(old(Buffer())[0]) && permits == old(permits)
    {
      if state.Ended? {
        return Done, 0, 0;
      }
      var i, j := 0, 0;
      while true
        invariant Valid() && !state.Ended? && Took(signals, i, permits, old(permits), outcomes, j, answers, old(answers))
        invariant i > 0 ==> signals[i - 1]
        invariant yielded == old(yielded) && reported == old(reported)
        invariant old(Buffer()) != [] ==> Buffer() == old(Buffer()) && permits == old(permits)
        decreases |signals| - i + |outcomes| - j, if state.Buffered? then 1 else 0
      {
        var over, turn, asked, finished := TurnAt(signals, i, outcomes, j, old(permits), old(answers));
        i, j := asked, finished;
        if over {
          return turn, i, j;
        }
      }
    }
  }
}
