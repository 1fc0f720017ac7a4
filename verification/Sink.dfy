/** The buffered sink: tasks are accepted one by one, written in batches, and
    handed back when a batch was never issued. */
module Sink {
  import opened Rows
  import opened Push

  // ------------------------------------------------------------- one flush

  /** What became of the blocking closure of a flush. */
  datatype Fate =
    | NoConnection                  // the pool refused
    | NeverRan                      // the executor failed before the closure started
    | DiedRunning(applied: bool)    // the executor failed after it
    | Finished(applied: bool, ok: bool)

  datatype Flush = Written | NotStarted(tasks: seq<Task>) | Refused(rejection: Rejection) | Uncertain

  /** An acknowledged statement took effect; any other may have. */
  predicate Honest(fate: Fate) {
    fate.Finished? && fate.ok ==> fate.applied
  }

  /** `take_back`, after an executor failure. */
  function TakeBack(slot: Option<seq<Task>>): Flush {
    if slot.Some? then NotStarted(slot.value) else Uncertain
  }

  /** `flush_tasks`: the batch waits in a slot until the closure takes it, so a
      batch still in the slot was never issued. */
  method FlushTasks(queue: Text, tasks: seq<Task>, fate: Fate) returns (outcome: Flush, ghost written: seq<Task>)
    requires Honest(fate)
    ensures outcome.Written? ==> written == tasks
    ensures outcome.NotStarted? <==> fate.NoConnection? || fate.NeverRan?
    ensures outcome.NotStarted? ==> outcome.tasks == tasks && written == []
    ensures outcome.Refused? ==> written == []
    ensures outcome.Refused? <==> fate.Finished? && !AllAccepted(queue, tasks)
    ensures outcome.Written? <==> fate.Finished? && AllAccepted(queue, tasks) && (fate.ok || tasks == [])
    ensures outcome.Uncertain? ==> written == tasks || written == []
  {
    written := [];
    var slot := Some(tasks);
    var prepared := Empty;
    if fate.DiedRunning? || fate.Finished? {
      slot := None;
      prepared := PrepareBatch(queue, tasks);
      if prepared.Batch? && fate.applied {
        written := tasks;
      }
    }
    match fate
    case NoConnection => outcome := NotStarted(Unanswered(slot));
    case NeverRan => outcome := TakeBack(slot);
    case DiedRunning(_) => outcome := TakeBack(slot);
    case Finished(_, ok) =>
      match prepared
      case Empty => outcome := Written;
      case Rejected(rejection) => outcome := Refused(rejection);
      case Batch(_) => outcome := if ok then Written else Uncertain;
  }

  // ------------------------------------------------------------- the sink

  datatype Error = SinkFailed | SinkBufferFull(capacity: nat) | InvalidArgument(rejection: Rejection)
                 | Unavailable | WriteFailed

  datatype Outcome = Ok | Err(error: Error)

  datatype Poll = Pending | Ready(outcome: Outcome)

  /** Every flush future completes at its first poll, and its statement succeeds. */
  ghost predicate AllSucceed(polls: nat -> Option<Fate>) {
    forall i :: polls(i).Some? && polls(i).value.Finished? && polls(i).value.ok
  }

  function Unanswered(inFlight: Option<seq<Task>>): seq<Task> {
    if inFlight.Some? then inFlight.value else []
  }

  class PgSink {
    const queue: Text
    const bufferSize: nat
    var buffer: seq<Task>
    var inFlight: Option<seq<Task>>
    var failed: bool
    ghost var accepted: seq<Task>   // every task `start_send` took
    ghost var written: seq<Task>    // every task a statement stored, in order
    ghost var granted: bool         // readiness was granted and not used yet
    ghost var contractual: bool     // every send so far used a grant

    function Capacity(): nat {
      if bufferSize >= 1 then bufferSize else 1
    }

    function Load(): nat
      reads this
    {
      |Unanswered(inFlight)| + |buffer|
    }

    /** Order and conservation, the readiness contract, and that nothing
        buffered can be refused by validation. */
    ghost predicate Valid()
      reads this
    {
      && (!failed ==> written + Unanswered(inFlight) + buffer == accepted)
      && (failed ==> written <= accepted)
      && (contractual ==> Load() <= Capacity())
      && (granted ==> Load() < Capacity())
      && (forall task :: task in Unanswered(inFlight) + buffer ==> Accepted(queue, task))
    }

    constructor (queue: Text, bufferSize: nat)
      ensures Valid() && this.queue == queue && this.bufferSize == bufferSize
      ensures buffer == [] && inFlight == None && !failed && accepted == [] && written == [] && contractual && !granted
    {
      this.queue, this.bufferSize := queue, bufferSize;
      buffer, inFlight, failed := [], None, false;
      accepted, written, granted, contractual := [], [], false, true;
    }

    /** `clone`: an empty pipeline over the same configuration. */
    method Clone() returns (sink: PgSink)
      ensures fresh(sink) && sink.Valid() && sink.queue == queue && sink.bufferSize == bufferSize
      ensures sink.accepted == [] && sink.buffer == [] && sink.inFlight == None && !sink.failed
    {
      sink := new PgSink(queue, bufferSize);
    }

    /** `retype`: a codec swap carries the whole pipeline over. */
    method Retype() returns (sink: PgSink)
      requires Valid()
      ensures fresh(sink) && sink.Valid() && sink.queue == queue && sink.bufferSize == bufferSize
      ensures sink.buffer == buffer && sink.inFlight == inFlight && sink.failed == failed
      ensures sink.accepted == accepted && sink.written == written
      ensures sink.granted == granted && sink.contractual == contractual
    {
      sink := new PgSink(queue, bufferSize);
      sink.buffer, sink.inFlight, sink.failed := buffer, inFlight, failed;
      sink.accepted, sink.written := accepted, written;
      sink.granted, sink.contractual := granted, contractual;
    }

    predicate NeedsFlushBeforeReady()
      reads this
    {
      failed || inFlight.Some? || |buffer| >= Capacity()
    }

    /** `try_push`. A send that uses a grant is never refused for capacity. */
    method TryPush(task: Task) returns (r: Outcome)
      requires Valid()
      modifies this
      ensures Valid() && written == old(written) && inFlight == old(inFlight) && failed == old(failed)
      ensures r.Ok? <==> !failed && (old(|buffer|) < bufferSize || old(buffer) == []) && Accepted(queue, task)
      ensures r.Ok? ==> accepted == old(accepted) + [task] && buffer == old(buffer) + [task]
      ensures r.Err? ==> accepted == old(accepted) && buffer == old(buffer)
      ensures failed <==> r == Err(SinkFailed)
      ensures old(granted) ==> r != Err(SinkBufferFull(Capacity()))
      ensures !granted && (contractual <==> old(contractual && granted))
    {
      contractual := contractual && granted;
      granted := false;
      if failed {
        return Err(SinkFailed);
      }
      if |buffer| >= Capacity() {
        return Err(SinkBufferFull(Capacity()));
      }
      var validation := ValidateTask(queue, task);
      if validation.Invalid? {
        return Err(InvalidArgument(validation.rejection));
      }
      buffer := buffer + [task];
      accepted := accepted + [task];
      r := Ok;
    }

    /** `get_or_insert_with`: the buffer becomes the batch in flight. */
    method StartFlush()
      requires Valid() && !failed
      modifies this`buffer, this`inFlight
      ensures Valid() && inFlight.Some?
      ensures old(inFlight).Some? ==> inFlight == old(inFlight) && buffer == old(buffer)
      ensures old(inFlight).None? ==> inFlight.value == old(buffer) && buffer == []
    {
      if inFlight.None? {
        inFlight, buffer := Some(buffer), [];
      }
    }

    /** The batch was written. */
    method Wrote()
      requires Valid() && !failed && inFlight.Some?
      modifies this`written, this`inFlight
      ensures Valid() && inFlight == None && written == old(written + Unanswered(inFlight))
    {
      written := written + inFlight.value;
      inFlight := None;
    }

    /** The batch was never issued and goes back before the tasks accepted since. */
    method HandBack()
      requires Valid() && !failed && inFlight.Some?
      modifies this`buffer, this`inFlight
      ensures Valid() && inFlight == None && buffer == old(Unanswered(inFlight) + buffer)
    {
      ghost var batch, rest := inFlight.value, buffer;
      assert written + batch + rest == written + [] + (batch + rest);
      buffer := inFlight.value + buffer;
      inFlight := None;
    }

    /** The batch may have been written; the pipeline is not used again. */
    method Fail(ghost stored: seq<Task>)
      requires Valid() && !failed && inFlight.Some? && (stored == inFlight.value || stored == [])
      modifies this`written, this`inFlight, this`failed
      ensures Valid() && inFlight == None && failed && written == old(written) + stored
    {
      assert written + inFlight.value <= accepted;
      written := written + stored;
      inFlight := None;
      failed := true;
    }

    lemma BatchIsAccepted()
      requires Valid() && inFlight.Some?
      ensures AllAccepted(queue, inFlight.value)
    {
      assert forall i :: 0 <= i < |inFlight.value| ==> inFlight.value[i] in Unanswered(inFlight) + buffer;
    }

    /** One completed flush future. */
    method Complete(fate: Fate) returns (outcome: Flush)
      requires Valid() && !failed && inFlight.Some? && Honest(fate)
      modifies this`buffer, this`written, this`inFlight, this`failed
      ensures Valid() && inFlight == None
      ensures outcome.Written? ==> !failed && buffer == old(buffer)
      ensures outcome.NotStarted? ==> !failed && written == old(written) && buffer == old(Unanswered(inFlight) + buffer)
      ensures outcome.Uncertain? <==> failed
      ensures !outcome.Refused? && (fate.Finished? && fate.ok ==> outcome.Written?)
      ensures written == old(written) || written == old(written + Unanswered(inFlight))
    {
      BatchIsAccepted();
      ghost var stored;
      outcome, stored := FlushTasks(queue, inFlight.value, fate);
      match outcome
      case Written => Wrote();
      case NotStarted(_) => HandBack();
      case Refused(_) => assert false;
      case Uncertain => Fail(stored);
    }

    /** One turn of the loop: the poll of the batch in flight, which starts one if
        none is. `None` means that the batch was written and the buffer is
        looked at again. */
    method FlushOnce(answer: Option<Fate>) returns (r: Option<Poll>)
      requires Valid() && !failed && (inFlight.Some? || buffer != []) && (answer.Some? ==> Honest(answer.value))
      modifies this`buffer, this`written, this`inFlight, this`failed
      ensures Valid() && old(written) <= written
      ensures r == Some(Poll.Pending) <==> answer.None?
      ensures r == Some(Poll.Pending) ==> !failed && inFlight.Some?
      ensures r == Some(Ready(Err(WriteFailed))) <==> failed
      ensures r == Some(Ready(Err(Unavailable))) ==> inFlight == None && written + buffer == accepted
      ensures r == None ==> !failed && inFlight == None && (old(inFlight).None? ==> buffer == [])
                            && (old(inFlight).Some? ==> buffer == old(buffer))
      ensures r == None || r in {Some(Poll.Pending), Some(Ready(Err(WriteFailed))), Some(Ready(Err(Unavailable)))}
      ensures answer.Some? && answer.value.Finished? && answer.value.ok ==> r == None
    {
      StartFlush();
      if answer.None? {
        return Some(Poll.Pending);
      }
      var outcome := Complete(answer.value);
      match outcome
      case Written => r := None;
      case NotStarted(_) => r := Some(Ready(Err(Unavailable)));
      case Refused(_) => assert false;
      case Uncertain => r := Some(Ready(Err(WriteFailed)));
    }

    /** `poll_flush_inner`. `polls` answers the polls of the flush futures. */
    method PollFlush(polls: nat -> Option<Fate>) returns (r: Poll)
      requires Valid() && forall i :: polls(i).Some? ==> Honest(polls(i).value)
      modifies this`buffer, this`written, this`inFlight, this`failed
      ensures Valid()
      ensures old(failed) ==> r == Ready(Err(SinkFailed)) && written == old(written)
      ensures old(failed) ==> failed && buffer == old(buffer)
      ensures r == Ready(Ok) ==> !failed && inFlight == None && buffer == [] && written == accepted
      ensures r == Ready(Err(Unavailable)) ==> !failed && inFlight == None && written + buffer == accepted
      ensures r == Ready(Err(WriteFailed)) <==> failed && !old(failed)
      ensures r == Poll.Pending ==> !failed && inFlight.Some? && exists i :: polls(i).None?
      ensures old(written) <= written
      ensures !old(failed) && old(inFlight.None? && buffer == []) ==> r == Ready(Ok)
      ensures !old(failed) && AllSucceed(polls) ==> r == Ready(Ok)
    {
      if failed {
        return Ready(Err(SinkFailed));
      }
      var round := 0;
      while inFlight.Some? || buffer != []
        invariant Valid() && !failed && old(written) <= written
        decreases (if buffer != [] then 2 else 0) + (if inFlight.Some? then 1 else 0)
      {
        var turn := FlushOnce(polls(round));
        round := round + 1;
        if turn.Some? {
          return turn.value;
        }
      }
      r := Ready(Ok);
    }

    /** `poll_ready`: a grant means the next send finds room, whatever flushes
        run in between. */
    method PollReady(polls: nat -> Option<Fate>) returns (r: Poll)
      requires Valid() && forall i :: polls(i).Some? ==> Honest(polls(i).value)
      modifies this
      ensures Valid() && accepted == old(accepted) && contractual == old(contractual)
      ensures granted <==> old(granted) || r == Ready(Ok)
      ensures r == Ready(Ok) ==> !failed && Load() < Capacity()
      ensures old(failed) ==> r == Ready(Err(SinkFailed))
      ensures old(written) <= written
      ensures old(!failed && inFlight.None? && (|buffer| < bufferSize || buffer == [])) ==>
                r == Ready(Ok) && buffer == old(buffer) && inFlight.None? && written == old(written)
      ensures r == Ready(Ok) ==> |buffer| < bufferSize || buffer == []
      ensures !old(failed) && AllSucceed(polls) ==> r == Ready(Ok)
      ensures r == Poll.Pending ==> exists i :: polls(i).None?
    {
      if NeedsFlushBeforeReady() {
        r := PollFlush(polls);
      } else {
        r := Ready(Ok);
      }
      granted := granted || r == Ready(Ok);
    }

    /** `poll_close` is `poll_flush`. */
    method PollClose(polls: nat -> Option<Fate>) returns (r: Poll)
      requires Valid() && forall i :: polls(i).Some? ==> Honest(polls(i).value)
      modifies this
      ensures Valid() && accepted == old(accepted)
      ensures r == Ready(Ok) ==> !failed && inFlight == None && buffer == [] && written == accepted
      ensures old(failed) ==> r == Ready(Err(SinkFailed)) && failed && written == old(written)
      ensures !old(failed) && AllSucceed(polls) ==> r == Ready(Ok)
      ensures r == Poll.Pending ==> inFlight.Some? && exists i :: polls(i).None?
      ensures r == Ready(Err(WriteFailed)) <==> failed && !old(failed)
    {
      r := PollFlush(polls);
    }
  }
}
