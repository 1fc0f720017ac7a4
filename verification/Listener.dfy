/** The shared LISTEN thread and the consumers that register with it. Every
    critical section of the registry lock is one event; spawning, connecting and
    receiving succeed or fail arbitrarily. */
module Listener {
  type EntryId = nat
  type Queue = nat

  /** Whoever must keep a listener running: the registrant about to spawn it,
      named by its entry, and then the thread itself. */
  datatype Phase = Spawning | Connecting | Listening

  datatype State = State(
    registry: map<Queue, seq<EntryId>>,
    alive: bool,
    holders: map<EntryId, Phase>,
    closed: set<EntryId>,       // consumers that dropped their receiver
    published: set<EntryId>,    // entries that got a listener error since they registered
    known: set<EntryId>)

  const Initial: State := State(map[], false, map[], {}, {}, {})

  datatype Event =
    | Register(id: EntryId, queue: Queue)
    | Spawned(holder: EntryId)
    | Connected(holder: EntryId)
    | Failed(holder: EntryId)                         // spawn, checkout, LISTEN or receive error
    | Deliver(holder: EntryId, queue: Queue, count: nat)
    | ExitIfEmpty(holder: EntryId)
    | CloseReceiver(id: EntryId)
    | DropRegistration(id: EntryId, queue: Queue)

  predicate Holds(s: State, holder: EntryId, phase: Phase) {
    holder in s.holders && s.holders[holder] == phase
  }

  predicate Enabled(s: State, e: Event) {
    match e
    case Register(id, _) => id !in s.known
    case Spawned(holder) => Holds(s, holder, Spawning)
    case Connected(holder) => Holds(s, holder, Connecting)
    case Failed(holder) => holder in s.holders
    case Deliver(holder, _, _) => Holds(s, holder, Listening)
    case ExitIfEmpty(holder) => Holds(s, holder, Listening)
    case CloseReceiver(_) => true
    case DropRegistration(_, _) => true
  }

  function Without(entries: seq<EntryId>, gone: set<EntryId>): (kept: seq<EntryId>)
    ensures forall id :: id in kept <==> id in entries && id !in gone
  {
    if entries == [] then []
    else (if entries[0] in gone then [] else [entries[0]]) + Without(entries[1..], gone)
  }

  /** Remove entries from one queue, and the queue with its last entry. */
  function Pruned(registry: map<Queue, seq<EntryId>>, queue: Queue, gone: set<EntryId>): map<Queue, seq<EntryId>> {
    if queue !in registry then registry
    else if Without(registry[queue], gone) == [] then registry - {queue}
    else registry[queue := Without(registry[queue], gone)]
  }

  function PrunedEverywhere(registry: map<Queue, seq<EntryId>>, gone: set<EntryId>): map<Queue, seq<EntryId>> {
    map queue | queue in registry && Without(registry[queue], gone) != [] :: Without(registry[queue], gone)
  }

  function Entries(registry: map<Queue, seq<EntryId>>): set<EntryId> {
    set queue, id | queue in registry && id in registry[queue] :: id
  }

  /** `exit_listener`: publish to every open consumer, then give up the role. */
  function Exited(s: State, holder: EntryId): State {
    var registry := PrunedEverywhere(s.registry, s.closed);
    s.(registry := registry, published := s.published + Entries(registry), alive := false,
       holders := s.holders - {holder})
  }

  function Effect(s: State, e: Event): State
    requires Enabled(s, e)
  {
    match e
    case Register(id, queue) =>
      var entries := if queue in s.registry then s.registry[queue] else [];
      s.(registry := s.registry[queue := entries + [id]], known := s.known + {id}, alive := true,
         holders := if s.alive then s.holders else s.holders[id := Spawning])
    case Spawned(holder) => s.(holders := s.holders[holder := Connecting])
    case Connected(holder) => s.(holders := s.holders[holder := Listening])
    case Failed(holder) => Exited(s, holder)
    case Deliver(_, queue, count) =>
      s.(registry := if count == 0 then s.registry else Pruned(s.registry, queue, s.closed))
    case ExitIfEmpty(holder) =>
      if s.registry == map[] then s.(alive := false, holders := s.holders - {holder}) else s
    case CloseReceiver(id) => s.(closed := s.closed + {id})
    case DropRegistration(id, queue) => s.(registry := Pruned(s.registry, queue, {id}))
  }

  function Step(s: State, e: Event): State {
    if Enabled(s, e) then Effect(s, e) else s
  }

  function Run(s: State, events: seq<Event>): State
    decreases |events|
  {
    if events == [] then s else Run(Step(s, events[0]), events[1..])
  }

  ghost predicate Inv(s: State) {
    && (s.alive <==> s.holders != map[])
    && (forall a, b :: a in s.holders && b in s.holders ==> a == b)
    && (forall queue :: queue in s.registry ==> s.registry[queue] != [])
    && (forall queue, id :: queue in s.registry && id in s.registry[queue] ==>
          id in s.known && (s.alive || id in s.published))
    && s.holders.Keys <= s.known
  }

  /** The only holder there is. */
  lemma OneHolderGoes(s: State, holder: EntryId)
    requires Inv(s) && holder in s.holders
    ensures s.holders - {holder} == map[]
  {
    forall other | other in s.holders
      ensures other == holder
    {
    }
  }

  lemma FailureKeepsInv(s: State, e: Event)
    requires Inv(s) && Enabled(s, e) && e.Failed?
    ensures Inv(Effect(s, e))
  {
    var next := Effect(s, e);
    OneHolderGoes(s, e.holder);
    forall queue, id | queue in next.registry && id in next.registry[queue]
      ensures id in next.known && id in next.published
    {
      assert id in s.registry[queue];
      assert id in Entries(next.registry);
    }
  }

  lemma HolderKeepsInv(s: State, e: Event)
    requires Inv(s) && Enabled(s, e) && (e.Spawned? || e.Connected? || e.ExitIfEmpty?)
    ensures Inv(Effect(s, e))
  {
    if e.ExitIfEmpty? {
      OneHolderGoes(s, e.holder);
    }
  }

  lemma RegistryKeepsInv(s: State, e: Event)
    requires Inv(s) && Enabled(s, e) && (e.Deliver? || e.CloseReceiver? || e.DropRegistration?)
    ensures Inv(Effect(s, e))
  {
  }

  lemma RegistrationKeepsInv(s: State, e: Event)
    requires Inv(s) && Enabled(s, e) && e.Register?
    ensures Inv(Effect(s, e))
  {
  }

  lemma StepKeepsInv(s: State, e: Event)
    requires Inv(s)
    ensures Inv(Step(s, e))
  {
    if Enabled(s, e) {
      match e
      case Register(_, _) => RegistrationKeepsInv(s, e);
      case Failed(_) => FailureKeepsInv(s, e);
      case Deliver(_, _, _) => RegistryKeepsInv(s, e);
      case CloseReceiver(_) => RegistryKeepsInv(s, e);
      case DropRegistration(_, _) => RegistryKeepsInv(s, e);
      case _ => HolderKeepsInv(s, e);
    }
  }

  lemma {:induction false} RunKeepsInv(s: State, events: seq<Event>)
    requires Inv(s)
    ensures Inv(Run(s, events))
    decreases |events|
  {
    if events != [] {
      StepKeepsInv(s, events[0]);
      RunKeepsInv(Step(s, events[0]), events[1..]);
    }
  }

  /** The flag is set exactly while one spawner or thread holds the role, and
      never two do. */
  lemma ExactlyOneHolder(events: seq<Event>)
    ensures var s := Run(Initial, events);
            |s.holders| == if s.alive then 1 else 0
  {
    RunKeepsInv(Initial, events);
    var s := Run(Initial, events);
    if s.alive {
      var holder :| holder in s.holders;
      assert s.holders.Keys == {holder};
      assert |s.holders| == |s.holders.Keys|;
    }
  }

  /** The role is given up on an empty registry, and only then without a failure. */
  lemma EmptyRegistryEndsTheListener(events: seq<Event>, holder: EntryId)
    requires Holds(Run(Initial, events), holder, Listening)
    ensures var s, next := Run(Initial, events), Step(Run(Initial, events), ExitIfEmpty(holder));
            if s.registry == map[] then !next.alive && next.holders == map[] else next == s
  {
    RunKeepsInv(Initial, events);
    OneHolderGoes(Run(Initial, events), holder);
  }

  /** A failure gives the role up and tells every open entry, which stays registered. */
  lemma FailureTellsEveryOpenEntry(events: seq<Event>, holder: EntryId, queue: Queue, id: EntryId)
    requires holder in Run(Initial, events).holders
    ensures var s, next := Run(Initial, events), Step(Run(Initial, events), Failed(holder));
            && !next.alive && next.holders == map[]
            && (queue in s.registry && id in s.registry[queue] && id !in s.closed ==>
                  id in next.published && queue in next.registry && id in next.registry[queue])
            && (queue in next.registry && id in next.registry[queue] ==> id !in s.closed)
  {
    var s, next := Run(Initial, events), Step(Run(Initial, events), Failed(holder));
    RunKeepsInv(Initial, events);
    OneHolderGoes(s, holder);
    if queue in s.registry && id in s.registry[queue] && id !in s.closed {
      assert id in Without(s.registry[queue], s.closed);
      assert queue in next.registry && id in next.registry[queue];
    }
  }

  /** A registered consumer without a listener was told so after it registered:
      `published` starts empty for every entry, since ids are not reused. */
  lemma NoSilentConsumer(events: seq<Event>, queue: Queue, id: EntryId)
    requires var s := Run(Initial, events);
             queue in s.registry && id in s.registry[queue] && !s.alive
    ensures id in Run(Initial, events).published
  {
    RunKeepsInv(Initial, events);
  }

  /** Registering always leaves a listener running or one about to be spawned,
      by this registration exactly when none was. */
  lemma RegistrationHasListener(events: seq<Event>, id: EntryId, queue: Queue)
    requires Enabled(Run(Initial, events), Register(id, queue))
    ensures var s := Run(Initial, events);
            var next := Step(s, Register(id, queue));
            && next.alive && id !in next.published
            && (Holds(next, id, Spawning) <==> !s.alive)
  {
    RunKeepsInv(Initial, events);
    PublishedAreKnown(events);
  }

  lemma {:induction false} KnownKept(s: State, events: seq<Event>)
    requires Inv(s) && s.published <= s.known
    ensures Run(s, events).published <= Run(s, events).known
    decreases |events|
  {
    if events != [] {
      StepKeepsInv(s, events[0]);
      var next := Step(s, events[0]);
      forall id | id in next.published
        ensures id in next.known
      {
      }
      KnownKept(next, events[1..]);
    }
  }

  lemma PublishedAreKnown(events: seq<Event>)
    ensures Run(Initial, events).published <= Run(Initial, events).known
  {
    KnownKept(Initial, events);
  }

  /** No delivery, drop or failure takes an open consumer out of the registry,
      except its own drop. */
  lemma OpenConsumersStay(s: State, e: Event, queue: Queue, id: EntryId)
    requires Inv(s) && queue in s.registry && id in s.registry[queue] && id !in s.closed
    requires e != DropRegistration(id, queue)
    ensures var next := Step(s, e);
            queue in next.registry && id in next.registry[queue]
  {
  }
}
