/** A task stream checks its lease before it polls, settles its registration
    attempt with its first item, and from then on holds a guard. */
module LeaseStream {
  import opened Lease
  import opened WorkerLease

  datatype Item = Task | WorkerRetired | ClaimOutcomeUnknown | OtherError

  /** One poll of a stream: nothing yet, the end, or an item. */
  datatype Poll = Pending | Done | Ready(item: Item)

  datatype Progress = NotBegun | Begun(attempt: ThreadId) | Settled

  class LeaseStream {
    const lease: WorkerLease
    const retireOnDrop: bool
    var guarded: bool
    var registration: Progress
    var ended: bool

    ghost predicate Valid()
      reads this, lease
    {
      && lease.Valid()
      && (registration.Begun? ==> retireOnDrop && At(lease.Snapshot(), registration.attempt, Live))
      && (guarded ==> registration.Settled?)
      && (!retireOnDrop ==> registration.NotBegun?)
    }

    constructor (lease: WorkerLease, retireOnDrop: bool)
      requires lease.Valid()
      ensures Valid() && this.lease == lease && this.retireOnDrop == retireOnDrop
      ensures !guarded && registration == NotBegun && !ended
    {
      this.lease, this.retireOnDrop := lease, retireOnDrop;
      guarded, registration, ended := false, NotBegun, false;
    }

    /** Settle the attempt: the guard is armed before any claim can be made. */
    method SettleFirst(succeeded: bool)
      requires Valid() && registration.Begun?
      modifies this`guarded, this`registration, lease
      ensures Valid() && registration == Progress.Settled && (guarded <==> succeeded)
      ensures lease.retired == old(lease.retired) && lease.registered == (old(lease.registered) || succeeded)
      ensures lease.pending == old(lease.pending) - 1 && lease.settled == old(lease.settled) + 1
      ensures Woken(old(lease.waiting), lease.waiting, old(lease.waiters))
    {
      guarded := succeeded;
      var t := registration.attempt;
      registration := Progress.Settled;
      lease.FinishRegistration(t, succeeded);
    }

    /** `poll_next`; `inner` is what the wrapped stream answers when it is
        asked, which ends with the lease, and `t` names the registration attempt a
        first poll begins. */
    method PollNext(inner: Poll, t: ThreadId) returns (r: Poll, ghost asked: bool)
      requires Valid() && t !in lease.threads
      modifies this, lease
      ensures lease.Valid() && (guarded ==> registration.Settled?)
      ensures asked <==> !old(ended) && !old(lease.retired)
      ensures old(ended) ==> r == Done && ended && lease.Snapshot() == old(lease.Snapshot())
      ensures !old(ended) && old(lease.retired) ==>
                r == Ready(WorkerRetired) && ended && lease.Snapshot() == old(lease.Snapshot())
      ensures asked ==> r == inner && !ended && (lease.retired <==> inner == Ready(ClaimOutcomeUnknown))
      ensures asked ==>
                var settles := retireOnDrop && inner.Ready? && old(!registration.Settled?);
                && (guarded <==> old(guarded) || (settles && inner == Ready(Task)))
                && (lease.registered <==> old(lease.registered) || (settles && inner == Ready(Task)))
                && lease.settled == old(lease.settled) + (if settles then 1 else 0)
                && lease.pending == old(lease.pending) + (if retireOnDrop && old(registration.NotBegun?) then 1 else 0)
                                    - (if settles then 1 else 0)
                && (registration.Settled? <==> old(registration.Settled?) || settles)
                && (registration.NotBegun? <==> old(registration.NotBegun?) && !retireOnDrop)
                && (registration.Begun? && old(registration.NotBegun?) ==> registration.attempt == t)
                && (registration.Begun? && old(registration.Begun?) ==> registration == old(registration))
      ensures ended <==> old(ended || lease.retired)
    {
      if ended {
        return Done, false;
      }
      if lease.retired {
        ended := true;
        return Ready(WorkerRetired), false;
      }
      if retireOnDrop && registration.NotBegun? {
        lease.BeginRegistration(t);
        registration := Begun(t);
      }
      r, asked := inner, true;
      if registration.Begun? && r.Ready? {
        SettleFirst(r.item.Task?);
      }
      if r == Ready(ClaimOutcomeUnknown) {
        lease.Retire(Unused(lease.threads.Keys));
      }
    }

    /** Dropping the stream: an unsettled attempt is refused, and a registered
        stream retires its worker. */
    method Drop()
      requires Valid()
      modifies this, lease
      ensures lease.Valid() && ended && !guarded
      ensures lease.retired <==> old(lease.retired) || old(guarded)
      ensures old(registration.Begun?) ==>
                lease.pending == old(lease.pending) - 1 && lease.settled == old(lease.settled) + 1
      ensures !old(registration.Begun?) ==> lease.pending == old(lease.pending)
      ensures lease.registered == old(lease.registered)
    {
      ended := true;
      if registration.Begun? {
        SettleFirst(false);
      } else if guarded {
        guarded := false;
        lease.Retire(Unused(lease.threads.Keys));
      }
    }
  }
}
