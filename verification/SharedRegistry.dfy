/** The registry object the shared listener and its registrants lock, one
    method per critical section, refining the events of `Listener`. */
module SharedRegistry {
  import opened Listener

  lemma {:induction false} WithoutAppend(a: seq<EntryId>, id: EntryId, gone: set<EntryId>)
    ensures Without(a + [id], gone) == Without(a, gone) + if id in gone then [] else [id]
    decreases |a|
  {
    if a == [] {
      assert a + [id] == [id] && [id][1..] == [];
    } else {
      assert (a + [id])[1..] == a[1..] + [id];
      WithoutAppend(a[1..], id, gone);
    }
  }

  lemma {:induction false} WithoutTwice(a: seq<EntryId>, gone: set<EntryId>)
    ensures Without(Without(a, gone), gone) == Without(a, gone)
    decreases |a|
  {
    if a != [] {
      var rest := Without(a[1..], gone);
      WithoutTwice(a[1..], gone);
      if a[0] in gone {
        assert Without(a, gone) == rest;
      } else {
        assert Without(a, gone) == [a[0]] + rest && ([a[0]] + rest)[1..] == rest;
      }
    }
  }

  class SharedRegistry {
    var registry: map<Queue, seq<EntryId>>
    var listenerAlive: bool
    var closed: set<EntryId>       // what `is_closed` and `is_disconnected` report
    var published: set<EntryId>
    ghost var holders: map<EntryId, Phase>
    ghost var known: set<EntryId>

    ghost function Snapshot(): State
      reads this
    {
      State(registry, listenerAlive, holders, closed, published, known)
    }

    ghost predicate Valid()
      reads this
    {
      Inv(Snapshot())
    }

    constructor ()
      ensures Valid() && Snapshot() == Initial
    {
      registry, listenerAlive, closed, published, holders, known := map[], false, {}, {}, map[], {};
    }

    /** `make_shared_with_config` up to the unlock: whether this caller spawns. */
    method MakeShared(id: EntryId, queue: Queue) returns (spawn: bool)
      requires Valid() && id !in known
      modifies this
      ensures Valid() && Snapshot() == Step(old(Snapshot()), Register(id, queue))
      ensures spawn <==> !old(listenerAlive)
      ensures spawn <==> Holds(Snapshot(), id, Spawning)
    {
      StepKeepsInv(Snapshot(), Register(id, queue));
      registry := registry[queue := (if queue in registry then registry[queue] else []) + [id]];
      spawn := !listenerAlive;
      listenerAlive := true;
      known := known + {id};
      if spawn {
        holders := holders[id := Spawning];
      }
    }

    /** One `retain` pass over the consumers of a queue. */
    method Retain(entries: seq<EntryId>) returns (kept: seq<EntryId>)
      ensures kept == Without(entries, closed)
    {
      kept := [];
      for i := 0 to |entries|
        invariant kept == Without(entries[..i], closed)
      {
        assert entries[..i + 1] == entries[..i] + [entries[i]];
        WithoutAppend(entries[..i], entries[i], closed);
        if entries[i] !in closed {
          kept := kept + [entries[i]];
        }
      }
      assert entries[..|entries|] == entries;
    }

    /** `deliver_to_queue`: one pass per id. A full channel drops that wakeup and
        keeps its consumer, so only disconnected consumers leave. */
    method DeliverToQueue(ghost holder: EntryId, queue: Queue, ids: seq<nat>)
      requires Valid() && Holds(Snapshot(), holder, Listening)
      modifies this`registry
      ensures Valid() && Snapshot() == Step(old(Snapshot()), Deliver(holder, queue, |ids|))
    {
      ghost var before := Snapshot();
      StepKeepsInv(before, Deliver(holder, queue, |ids|));
      if queue in registry {
        ghost var all := registry[queue];
        var senders := registry[queue];
        for i := 0 to |ids|
          invariant Snapshot() == before
          invariant senders == if i == 0 then all else Without(all, closed)
        {
          WithoutTwice(all, closed);
          senders := Retain(senders);
        }
        if senders == [] {
          registry := registry - {queue};
        } else {
          registry := registry[queue := senders];
        }
        assert registry == if |ids| == 0 then before.registry else Pruned(before.registry, queue, closed);
      }
    }

    /** `broadcast_notify_error_locked`: the consumers still open, by queue, which
        are the ones told. */
    method OpenConsumers() returns (open: map<Queue, seq<EntryId>>, told: set<EntryId>)
      ensures open == PrunedEverywhere(registry, closed) && told == Entries(open)
    {
      open, told := map[], {};
      var rest := registry.Keys;
      while rest != {}
        invariant rest <= registry.Keys
        invariant open.Keys == set queue | queue in registry && queue !in rest && Without(registry[queue], closed) != []
        invariant forall queue :: queue in open ==> open[queue] == Without(registry[queue], closed)
        invariant told == Entries(open)
        decreases rest
      {
        var queue :| queue in rest;
        rest := rest - {queue};
        var kept := Retain(registry[queue]);
        if kept != [] {
          EntriesAdd(open, queue, kept);
          open := open[queue := kept];
          told := told + (set id | id in kept);
        }
      }
    }

    /** `exit_listener`: publish the error to every open consumer, drop the
        others, and clear the flag, all under the lock. */
    method ExitListener(ghost holder: EntryId)
      requires Valid() && holder in holders
      modifies this
      ensures Valid() && Snapshot() == Step(old(Snapshot()), Failed(holder))
      ensures !listenerAlive && holder !in holders && closed == old(closed)
      ensures forall queue, id :: queue in old(registry) && id in old(registry)[queue] && id !in closed ==>
                id in published && queue in registry && id in registry[queue]
      ensures forall queue, id :: queue in registry && id in registry[queue] ==>
                id !in closed && queue in old(registry) && id in old(registry)[queue]
    {
      StepKeepsInv(Snapshot(), Failed(holder));
      ghost var before := registry;
      var open, told := OpenConsumers();
      OpenAreTold(before, closed);
      registry, published, listenerAlive := open, published + told, false;
      holders := holders - {holder};
    }

    /** The end of one poll of the connection: exit when no consumer is left. */
    method ExitIfNobodyListens(ghost holder: EntryId) returns (exited: bool)
      requires Valid() && Holds(Snapshot(), holder, Listening)
      modifies this
      ensures Valid() && Snapshot() == Step(old(Snapshot()), ExitIfEmpty(holder))
      ensures exited <==> old(registry) == map[]
      ensures registry == old(registry) && published == old(published)
      ensures if exited then !listenerAlive && holder !in holders else listenerAlive && holders == old(holders)
    {
      StepKeepsInv(Snapshot(), ExitIfEmpty(holder));
      exited := registry == map[];
      if exited {
        listenerAlive := false;
        holders := holders - {holder};
      }
    }

    /** `SharedRegistration::drop`: remove only this consumer. */
    method DropConsumer(id: EntryId, queue: Queue)
      requires Valid()
      modifies this`registry
      ensures Valid() && Snapshot() == Step(old(Snapshot()), DropRegistration(id, queue))
    {
      StepKeepsInv(Snapshot(), DropRegistration(id, queue));
      if queue in registry {
        var senders := Without(registry[queue], {id});
        if senders == [] {
          registry := registry - {queue};
        } else {
          registry := registry[queue := senders];
        }
      }
    }
  }

  lemma OpenAreTold(registry: map<Queue, seq<EntryId>>, closed: set<EntryId>)
    ensures var open := PrunedEverywhere(registry, closed);
            && (forall queue, id :: queue in registry && id in registry[queue] && id !in closed ==>
                  id in Entries(open) && queue in open && id in open[queue])
            && (forall queue, id :: queue in open && id in open[queue] ==>
                  id !in closed && queue in registry && id in registry[queue])
  {
    var open := PrunedEverywhere(registry, closed);
    forall queue, id | queue in registry && id in registry[queue] && id !in closed
      ensures id in Entries(open) && queue in open && id in open[queue]
    {
      assert id in Without(registry[queue], closed);
      assert queue in open && id in open[queue];
    }
  }

  lemma EntriesAdd(open: map<Queue, seq<EntryId>>, queue: Queue, kept: seq<EntryId>)
    requires queue !in open
    ensures Entries(open[queue := kept]) == Entries(open) + (set id | id in kept)
  {
    var after := open[queue := kept];
    forall id | id in Entries(open) + (set id | id in kept)
      ensures id in Entries(after)
    {
      if id in kept {
        assert queue in after && id in after[queue];
      } else {
        var other :| other in open && id in open[other];
        assert other in after && id in after[other];
      }
    }
  }
}
