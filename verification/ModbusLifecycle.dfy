// Starting and stopping Modbus slaves (src-tauri/src/modbus.rs): any number of concurrent
// starts, transport stops, generation stops and listener failures on one connection id.
//
// Each critical section of the state lock is one function on a `Slot`, the part of the
// shared maps that belongs to one connection id. `ModbusSlaves` runs those sections on
// the real maps; the state machine further down interleaves them without restriction.
// A generation is a fresh number, and `shutdown_slave_handle` is a completed join.
module ModbusLifecycle {
  import opened Common

  datatype Transport = Tcp | Rtu

  // A pending start and an active slave are both known by generation and transport.
  datatype Entry = Entry(generation: nat, transport: Transport)

  datatype Event = Started(generation: nat) | Stopped(generation: nat) | Failed(generation: nat)

  datatype Slot = Slot(pending: Option<Entry>, active: Option<Entry>, events: seq<Event>)

  // ---------------------------------------------------------------- critical sections

  predicate Is(entry: Option<Entry>, generation: nat) {
    entry.Some? && entry.value.generation == generation
  }

  predicate Uses(entry: Option<Entry>, transport: Transport) {
    entry.Some? && entry.value.transport == transport
  }

  // `begin_slave_start`
  function Begin(slot: Slot, generation: nat, transport: Transport): Slot {
    slot.(pending := Some(Entry(generation, transport)))
  }

  // `clear_slave_pending_generation`
  function ClearPending(slot: Slot, generation: nat): Slot {
    if Is(slot.pending, generation) then slot.(pending := None) else slot
  }

  // The test of `take_slave_for_start`, `ensure_slave_start_current` and the install.
  predicate Current(slot: Slot, generation: nat, cancelled: bool) {
    !cancelled && Is(slot.pending, generation)
  }

  // Removing the active slave, by whoever is entitled to.
  function Take(slot: Slot): Slot {
    slot.(active := None)
  }

  function Install(slot: Slot, generation: nat, transport: Transport): Slot {
    Slot(None, Some(Entry(generation, transport)), slot.events + [Started(generation)])
  }

  // The first section of `stop_slave_transport`.
  function Interrupt(slot: Slot, transport: Transport): Slot {
    if Uses(slot.pending, transport) then slot.(pending := None) else slot
  }

  // `emit_slave_stopped_if_inactive`
  function Announce(slot: Slot, generation: nat): Slot {
    if slot.active.None? then slot.(events := slot.events + [Stopped(generation)]) else slot
  }

  // A listener that died on its own reports only while it is still the active one.
  function Report(slot: Slot, generation: nat): Slot {
    if Is(slot.active, generation)
    then slot.(active := None, events := slot.events + [Failed(generation), Stopped(generation)])
    else slot
  }

  // ---------------------------------------------------------------- the shared maps

  // `ModbusTcpStateInner`, as far as slaves go, plus what was emitted under its lock.
  class ModbusSlaves {
    var pending: map<string, Entry>
    var active: map<string, Entry>
    var log: seq<(string, Event)>

    constructor ()
      ensures forall id :: View(id) == Slot(None, None, [])
    {
      pending, active, log := map[], map[], [];
    }

    ghost function View(id: string): Slot
      reads this
    {
      Slot(
        if id in pending then Some(pending[id]) else None,
        if id in active then Some(active[id]) else None,
        EventsOf(log, id))
    }

    method Emit(id: string, event: Event)
      modifies this`log
      ensures EventsOf(log, id) == EventsOf(old(log), id) + [event]
      ensures forall other :: other != id ==> EventsOf(log, other) == EventsOf(old(log), other)
    {
      EventsOfEmit(log, id, event);
      log := log + [(id, event)];
    }

    method BeginSlaveStart(id: string, generation: nat, transport: Transport) returns (previous: Option<Entry>)
      modifies this
      ensures View(id) == Begin(old(View(id)), generation, transport)
      ensures previous == old(View(id)).pending
      ensures forall other :: other != id ==> View(other) == old(View(other))
    {
      previous := if id in pending then Some(pending[id]) else None;
      pending := pending[id := Entry(generation, transport)];
    }

    method ClearSlavePendingGeneration(id: string, generation: nat)
      modifies this
      ensures View(id) == ClearPending(old(View(id)), generation)
      ensures forall other :: other != id ==> View(other) == old(View(other))
    {
      if id in pending && pending[id].generation == generation {
        pending := pending - {id};
      }
    }

    // Err (None) leaves the maps alone; Ok carries the slave that was active, if any.
    method TakeSlaveForStart(id: string, generation: nat, cancelled: bool) returns (r: Option<Option<Entry>>)
      modifies this
      ensures r.Some? <==> Current(old(View(id)), generation, cancelled)
      ensures r.Some? ==> r.value == old(View(id)).active
      ensures View(id) == if r.Some? then Take(old(View(id))) else old(View(id))
      ensures forall other :: other != id ==> View(other) == old(View(other))
    {
      if cancelled || id !in pending || pending[id].generation != generation {
        return None;
      }
      r := Some(if id in active then Some(active[id]) else None);
      active := active - {id};
    }

    method EnsureSlaveStartCurrent(id: string, generation: nat, cancelled: bool) returns (ok: bool)
      ensures ok <==> Current(View(id), generation, cancelled)
    {
      ok := !cancelled && id in pending && pending[id].generation == generation;
    }

    method InstallSlave(id: string, generation: nat, transport: Transport, cancelled: bool) returns (installed: bool)
      modifies this
      ensures installed <==> Current(old(View(id)), generation, cancelled)
      ensures View(id) == if installed then Install(old(View(id)), generation, transport) else old(View(id))
      ensures forall other :: other != id ==> View(other) == old(View(other))
    {
      installed := id in pending && pending[id].generation == generation && !cancelled;
      if installed {
        pending := pending - {id};
        active := active[id := Entry(generation, transport)];
        Emit(id, Started(generation));
      }
    }

    method InterruptPending(id: string, transport: Transport) returns (removed: Option<Entry>)
      modifies this
      ensures View(id) == Interrupt(old(View(id)), transport)
      ensures removed == if Uses(old(View(id)).pending, transport) then old(View(id)).pending else None
      ensures forall other :: other != id ==> View(other) == old(View(other))
    {
      removed := None;
      if id in pending && pending[id].transport == transport {
        removed := Some(pending[id]);
        pending := pending - {id};
      }
    }

    method TakeTransport(id: string, transport: Transport) returns (taken: Option<Entry>)
      modifies this
      ensures taken == if Uses(old(View(id)).active, transport) then old(View(id)).active else None
      ensures View(id) == if taken.Some? then Take(old(View(id))) else old(View(id))
      ensures forall other :: other != id ==> View(other) == old(View(other))
    {
      taken := None;
      if id in active && active[id].transport == transport {
        taken := Some(active[id]);
        active := active - {id};
      }
    }

    method TakeGeneration(id: string, generation: nat) returns (taken: bool)
      modifies this
      ensures taken == Is(old(View(id)).active, generation)
      ensures View(id) == if taken then Take(old(View(id))) else old(View(id))
      ensures forall other :: other != id ==> View(other) == old(View(other))
    {
      taken := id in active && active[id].generation == generation;
      if taken {
        active := active - {id};
      }
    }

    method EmitSlaveStoppedIfInactive(id: string, generation: nat)
      modifies this
      ensures View(id) == Announce(old(View(id)), generation)
      ensures forall other :: other != id ==> View(other) == old(View(other))
    {
      if id !in active {
        Emit(id, Stopped(generation));
      }
    }

    method ListenerFailed(id: string, generation: nat)
      modifies this
      ensures View(id) == Report(old(View(id)), generation)
      ensures forall other :: other != id ==> View(other) == old(View(other))
    {
      if id in active && active[id].generation == generation {
        active := active - {id};
        Emit(id, Failed(generation));
        Emit(id, Stopped(generation));
      }
    }
  }

  // ---------------------------------------------------------------- the state machine

  // Where a start is while it does not hold the gate.
  datatype StartPc =
    | Superseding(replaced: Option<nat>) // inserted; about to cancel what it replaced
    | Queued                             // waiting for the gate or for its own cancellation
    | Clearing                           // cancelled; about to clear its pending entry and return
    | Inside                             // holds the gate, see Holder
    | StartDone(ok: bool)

  datatype StartTask = StartTask(transport: Transport, at: StartPc)

  // What a stop is after: a transport, or one generation. A transport stop remembers the
  // first generation that did not exist yet when it began.
  datatype Target = ByTransport(transport: Transport, barrier: nat) | ByGeneration(generation: nat)

  datatype StopPc =
    | Interrupting(pending: nat)         // about to cancel the pending start it removed
    | Waiting                            // waiting for the gate
    | InsideStop                         // holds the gate, see Holder
    | StopDone(ok: bool)

  datatype StopTask = StopTask(target: Target, at: StopPc)

  // Where the task that holds the lifecycle gate is.
  datatype HeldStart =
    | Taking                             // about to take the active slave
    | Retiring(previous: nat)            // joining the slave it replaces
    | Announcing(previous: nat)          // about to report that slave stopped
    | Rechecking
    | Opening                            // polling the bind or the serial open
    | Installing                         // worker spawned, waiting for its ready signal
    | Discarding                         // not current any more; joining its own worker
    | Failing                            // opening failed; about to clear its pending entry
    | Releasing                          // installed; about to signal ready and return

  datatype HeldStop = Removing | Joining(generation: nat) | Reporting(generation: nat)

  datatype Holder =
    | Free
    | HeldByStart(generation: nat, start: HeldStart)
    | HeldByStop(task: nat, stop: HeldStop)

  datatype Worker = Idle | Serving | Broken | Finished

  datatype State = State(
    slot: Slot,
    holder: Holder,
    starts: map<nat, StartTask>, // by generation
    stops: map<nat, StopTask>,
    cancelled: set<nat>,         // pending tokens that were cancelled
    stopping: set<nat>,          // workers whose own token was cancelled
    workers: map<nat, Worker>,   // by generation
    next: nat)                   // the next fresh generation

  datatype Step =
    | BeginStart(transport: Transport)
    | StartOutside(generation: nat)   // a start that does not hold the gate moves on
    | GiveUp(generation: nat)         // a queued start sees its cancelled token
    | BeginStop(task: nat, transport: Transport)
    | BeginStopGeneration(task: nat, generation: nat)
    | StopOutside(task: nat)          // a stop that does not hold the gate moves on
    | Held                            // the holder of the gate moves on
    | OpenFails                       // error, timeout or cancellation while opening
    | WorkerExits(generation: nat)
    | WorkerFails(generation: nat)
    | WorkerReports(generation: nat)

  function Init(): State {
    State(Slot(None, None, []), Free, map[], map[], {}, {}, map[], 0)
  }

  predicate Enabled(s: State, step: Step) {
    match step
    case BeginStart(_) => true
    case StartOutside(g) =>
      g in s.starts && !s.starts[g].at.StartDone? && !s.starts[g].at.Inside?
        && (s.starts[g].at.Queued? ==> s.holder.Free?)
    case GiveUp(g) => g in s.starts && s.starts[g].at.Queued? && g in s.cancelled
    case BeginStop(t, _) => t !in s.stops
    case BeginStopGeneration(t, _) => t !in s.stops
    case StopOutside(t) =>
      t in s.stops && !s.stops[t].at.StopDone? && !s.stops[t].at.InsideStop?
        && (s.stops[t].at.Waiting? ==> s.holder.Free?)
    case Held => Moves(s)
    case OpenFails => s.holder.HeldByStart? && s.holder.start.Opening? && s.holder.generation in s.starts
    case WorkerExits(g) => g in s.workers && g in s.stopping && (s.workers[g].Idle? || s.workers[g].Serving?)
    case WorkerFails(g) => g in s.workers && s.workers[g].Serving?
    case WorkerReports(g) => g in s.workers && s.workers[g].Broken?
  }

  predicate Moves(s: State) {
    match s.holder
    case Free => false
    case HeldByStart(g, _) => g in s.starts
    case HeldByStop(t, _) => t in s.stops
  }

  function SetStart(s: State, g: nat, at: StartPc): map<nat, StartTask>
    requires g in s.starts
  {
    s.starts[g := s.starts[g].(at := at)]
  }

  function SetStop(s: State, t: nat, at: StopPc): map<nat, StopTask>
    requires t in s.stops
  {
    s.stops[t := s.stops[t].(at := at)]
  }

  // The start holding the gate takes its next step.
  function HeldStartStep(s: State, g: nat, at: HeldStart): State
    requires g in s.starts
  {
    var current := Current(s.slot, g, g in s.cancelled);
    match at
    case Taking =>
      if !current then s.(holder := Free, starts := SetStart(s, g, StartDone(false)))
      else if s.slot.active.None? then s.(holder := HeldByStart(g, Rechecking))
      else
        var previous := s.slot.active.value.generation;
        s.(slot := Take(s.slot), stopping := s.stopping + {previous}, holder := HeldByStart(g, Retiring(previous)))
    case Retiring(previous) =>
      s.(workers := s.workers[previous := Finished], holder := HeldByStart(g, Announcing(previous)))
    case Announcing(previous) =>
      s.(slot := Announce(s.slot, previous), holder := HeldByStart(g, Rechecking))
    case Rechecking =>
      s.(holder := HeldByStart(g, if current then Opening else Failing))
    case Opening =>
      s.(workers := s.workers[g := Idle], holder := HeldByStart(g, Installing))
    case Installing =>
      if current then s.(slot := Install(s.slot, g, s.starts[g].transport), holder := HeldByStart(g, Releasing))
      else s.(stopping := s.stopping + {g}, holder := HeldByStart(g, Discarding))
    case Discarding =>
      s.(workers := s.workers[g := Finished], holder := Free, starts := SetStart(s, g, StartDone(false)))
    case Failing =>
      s.(slot := ClearPending(s.slot, g), holder := Free, starts := SetStart(s, g, StartDone(false)))
    case Releasing =>
      s.(workers := if g in s.workers && s.workers[g].Idle? then s.workers[g := Serving] else s.workers,
         holder := Free, starts := SetStart(s, g, StartDone(true)))
  }

  predicate Wants(target: Target, active: Option<Entry>) {
    match target
    case ByTransport(transport, _) => Uses(active, transport)
    case ByGeneration(generation) => Is(active, generation)
  }

  // The stop holding the gate takes its next step.
  function HeldStopStep(s: State, t: nat, at: HeldStop): State
    requires t in s.stops
  {
    match at
    case Removing =>
      if Wants(s.stops[t].target, s.slot.active) then
        var g := s.slot.active.value.generation;
        s.(slot := Take(s.slot), stopping := s.stopping + {g}, holder := HeldByStop(t, Joining(g)))
      else s.(holder := Free, stops := SetStop(s, t, StopDone(s.stops[t].target.ByTransport?)))
    case Joining(g) =>
      s.(workers := s.workers[g := Finished], holder := HeldByStop(t, Reporting(g)))
    case Reporting(g) =>
      s.(slot := Announce(s.slot, g), holder := Free, stops := SetStop(s, t, StopDone(true)))
  }

  function Apply(s: State, step: Step): State
    requires Enabled(s, step)
  {
    match step
    case BeginStart(tr) =>
      var replaced := if s.slot.pending.Some? then Some(s.slot.pending.value.generation) else None;
      s.(slot := Begin(s.slot, s.next, tr), starts := s.starts[s.next := StartTask(tr, Superseding(replaced))],
          next := s.next + 1)
    case StartOutside(g) =>
      (match s.starts[g].at
       case Superseding(replaced) =>
         s.(cancelled := s.cancelled + (if replaced.Some? then {replaced.value} else {}),
             starts := SetStart(s, g, Queued))
       case Queued => s.(holder := HeldByStart(g, Taking), starts := SetStart(s, g, Inside))
       case Clearing => s.(slot := ClearPending(s.slot, g), starts := SetStart(s, g, StartDone(false)))
       case _ => s)
    case GiveUp(g) => s.(starts := SetStart(s, g, Clearing))
    case BeginStop(t, tr) =>
      var at := if Uses(s.slot.pending, tr) then Interrupting(s.slot.pending.value.generation) else Waiting;
      var signalled := if Uses(s.slot.active, tr) then {s.slot.active.value.generation} else {};
      s.(slot := Interrupt(s.slot, tr), stopping := s.stopping + signalled,
         stops := s.stops[t := StopTask(ByTransport(tr, s.next), at)])
    case BeginStopGeneration(t, g) =>
      if Is(s.slot.active, g)
      then s.(stopping := s.stopping + {g}, stops := s.stops[t := StopTask(ByGeneration(g), Waiting)])
      else s.(stops := s.stops[t := StopTask(ByGeneration(g), StopDone(false))])
    case StopOutside(t) =>
      (match s.stops[t].at
       case Interrupting(pending) => s.(cancelled := s.cancelled + {pending}, stops := SetStop(s, t, Waiting))
       case Waiting => s.(holder := HeldByStop(t, Removing), stops := SetStop(s, t, InsideStop))
       case _ => s)
    case Held =>
      (match s.holder
       case Free => s
       case HeldByStart(g, at) => HeldStartStep(s, g, at)
       case HeldByStop(t, at) => HeldStopStep(s, t, at))
    case OpenFails => s.(holder := HeldByStart(s.holder.generation, Failing))
    case WorkerExits(g) => s.(workers := s.workers[g := Finished])
    case WorkerFails(g) => s.(workers := s.workers[g := Broken])
    case WorkerReports(g) => s.(workers := s.workers[g := Finished], slot := Report(s.slot, g))
  }

  // ---------------------------------------------------------------- what every step keeps

  // A start that passed the test under the gate and has not returned.
  predicate Past(at: HeldStart) { !at.Taking? }

  // The generation the holder has taken out of the map but not yet announced as stopped.
  function Owed(holder: Holder): Option<nat> {
    match holder
    case HeldByStart(_, Retiring(g)) => Some(g)
    case HeldByStart(_, Announcing(g)) => Some(g)
    case HeldByStop(_, Joining(g)) => Some(g)
    case HeldByStop(_, Reporting(g)) => Some(g)
    case _ => None
  }

  // The generation whose worker the holder still has to join or to hand over.
  function Joins(holder: Holder): Option<nat> {
    match holder
    case HeldByStart(_, Retiring(g)) => Some(g)
    case HeldByStart(g, Installing) => Some(g)
    case HeldByStart(g, Discarding) => Some(g)
    case HeldByStop(_, Joining(g)) => Some(g)
    case _ => None
  }

  // Generations are the starts so far; the maps agree with them about the transport.
  ghost predicate NumbersKept(s: State) {
    && (forall g: nat {:trigger g in s.starts} :: g in s.starts <==> g < s.next)
    && (s.slot.pending.Some? ==> Matches(s.starts, s.slot.pending.value))
    && (s.slot.active.Some? ==> Matches(s.starts, s.slot.active.value))
    && (Owed(s.holder).Some? ==> Owed(s.holder).value in s.starts)
  }

  predicate Matches(starts: map<nat, StartTask>, entry: Entry) {
    entry.generation in starts && starts[entry.generation].transport == entry.transport
  }

  // The gate is a lock: a task is inside exactly when it is the holder.
  ghost predicate GateKept(s: State) {
    && (forall g :: g in s.starts ==> (s.starts[g].at.Inside? <==> s.holder.HeldByStart? && s.holder.generation == g))
    && (forall t :: t in s.stops ==> (s.stops[t].at.InsideStop? <==> s.holder.HeldByStop? && s.holder.task == t))
    && (s.holder.HeldByStart? ==> s.holder.generation in s.starts)
    && (s.holder.HeldByStop? ==> s.holder.task in s.stops)
  }

  // What is pending is the latest start, was never cancelled and has neither returned nor
  // been installed; a withdrawn start cannot come back.
  ghost predicate PendingKept(s: State) {
    && (s.slot.pending.Some? ==>
          var g := s.slot.pending.value.generation;
          && g == s.next - 1
          && g !in s.cancelled
          && (g in s.starts ==> !s.starts[g].at.StartDone?)
          && (s.holder.HeldByStart? && s.holder.generation == g ==>
                !s.holder.start.Discarding? && !s.holder.start.Releasing?))
    && (forall g :: g in s.cancelled ==> g < s.next)
    && (forall g :: g in s.starts && s.starts[g].at.Superseding? && s.starts[g].at.replaced.Some? ==>
          s.starts[g].at.replaced.value < g)
    && (forall t :: t in s.stops && s.stops[t].at.Interrupting? ==>
          s.stops[t].at.pending < s.next && !Is(s.slot.pending, s.stops[t].at.pending))
  }

  // Nothing is active while a start is between taking the old slave and installing itself,
  // or while somebody owes a stopped event.
  ghost predicate ActiveKept(s: State) {
    && (Owed(s.holder).Some? ==> s.slot.active.None?)
    && (s.holder.HeldByStart? && Past(s.holder.start) ==>
          if s.holder.start.Releasing? then Is(s.slot.active, s.holder.generation) else s.slot.active.None?)
  }

  // A worker that is not finished belongs to the active slave or to the holder.
  ghost predicate WorkersKept(s: State) {
    && (forall g :: g in s.workers && !s.workers[g].Finished? ==> Is(s.slot.active, g) || Joins(s.holder) == Some(g))
    && (s.holder.HeldByStart?
        && (s.holder.start.Installing? || s.holder.start.Discarding? || s.holder.start.Releasing?) ==>
          && s.holder.generation in s.workers
          && (s.workers[s.holder.generation].Idle? || s.workers[s.holder.generation].Finished?))
    && (forall g :: g in s.workers ==> g in s.starts)
  }

  // The generation that has started and not stopped, reading the events in order.
  function Running(events: seq<Event>): Option<nat> {
    if events == [] then None
    else match events[|events| - 1]
      case Started(g) => Some(g)
      case Stopped(_) => None
      case Failed(_) => Running(events[..|events| - 1])
  }

  // Started and stopped alternate strictly, each stopped naming the generation that was
  // running; a failure names it too.
  predicate Alternates(events: seq<Event>) {
    if events == [] then true
    else
      var before := events[..|events| - 1];
      && Alternates(before)
      && match events[|events| - 1]
         case Started(_) => Running(before).None?
         case Stopped(g) => Running(before) == Some(g)
         case Failed(g) => Running(before) == Some(g)
  }

  // The running generation of the trace is the active one, or the one the holder owes.
  ghost predicate TraceKept(s: State) {
    && Alternates(s.slot.events)
    && Running(s.slot.events) ==
         if s.slot.active.Some? then Some(s.slot.active.value.generation) else Owed(s.holder)
  }

  // A start returned Ok exactly when its started event is in the trace.
  ghost predicate OutcomesKept(s: State) {
    && (forall g :: g in s.starts ==>
          (Started(g) in s.slot.events <==> s.starts[g].at == StartDone(true) || s.holder == HeldByStart(g, Releasing)))
    && (forall e :: e in s.slot.events && e.Started? ==> e.generation in s.starts)
  }

  // After a transport stop's first section no older start of that transport is pending;
  // after its second, none is active, past the test, or served by a live worker.
  ghost predicate BarrierKept(s: State) {
    forall t :: t in s.stops ==> BarrierAt(s, t)
  }

  ghost predicate BarrierAt(s: State, t: nat) {
    t in s.stops && s.stops[t].target.ByTransport? ==> BarrierHolds(s, t, s.stops[t].target)
  }

  ghost predicate BarrierHolds(s: State, t: nat, target: Target)
    requires target.ByTransport? && t in s.stops
  {
    && target.barrier <= s.next
    && (Uses(s.slot.pending, target.transport) ==> s.slot.pending.value.generation >= target.barrier)
    && (Removed(s, t) ==>
          && (Uses(s.slot.active, target.transport) ==> s.slot.active.value.generation >= target.barrier)
          && (s.holder.HeldByStart? && Past(s.holder.start) && HolderUses(s, target.transport) ==>
                s.holder.generation >= target.barrier))
    && (Swept(s, t) ==>
          forall g | g in s.workers && g in s.starts && s.starts[g].transport == target.transport
            && g < target.barrier ::
            s.workers[g].Finished?)
  }

  predicate HolderUses(s: State, transport: Transport)
    requires s.holder.HeldByStart?
  {
    s.holder.generation in s.starts && s.starts[s.holder.generation].transport == transport
  }

  predicate Removed(s: State, t: nat)
    requires t in s.stops
  {
    s.stops[t].at.StopDone? || (s.holder.HeldByStop? && s.holder.task == t && !s.holder.stop.Removing?)
  }

  predicate Swept(s: State, t: nat)
    requires t in s.stops
  {
    s.stops[t].at.StopDone? || (s.holder.HeldByStop? && s.holder.task == t && s.holder.stop.Reporting?)
  }

  ghost predicate Inv(s: State) {
    && NumbersKept(s)
    && GateKept(s)
    && PendingKept(s)
    && ActiveKept(s)
    && WorkersKept(s)
    && TraceKept(s)
    && OutcomesKept(s)
    && BarrierKept(s)
  }

  lemma InitInv()
    ensures Inv(Init())
  {}

  // The steps, in six groups: proofs of one clause of the invariant stay small.

  predicate StartStep(s: State, step: Step) {
    step.BeginStart? || step.StartOutside? || step.GiveUp?
  }

  predicate StopStep(s: State, step: Step) {
    step.BeginStop? || step.BeginStopGeneration? || step.StopOutside?
  }

  predicate WorkerStep(s: State, step: Step) {
    step.WorkerExits? || step.WorkerFails? || step.WorkerReports? || step.OpenFails?
  }

  predicate EarlyStep(s: State, step: Step) {
    && step.Held? && s.holder.HeldByStart?
    && (s.holder.start.Taking? || s.holder.start.Retiring? || s.holder.start.Announcing? || s.holder.start.Rechecking?)
  }

  predicate LateStep(s: State, step: Step) {
    step.Held? && s.holder.HeldByStart? && !EarlyStep(s, step)
  }

  predicate StopHolderStep(s: State, step: Step) {
    step.Held? && s.holder.HeldByStop?
  }

  lemma NumbersByStarts(s: State, step: Step)
    requires NumbersKept(s)
    requires Enabled(s, step) && StartStep(s, step)
    ensures NumbersKept(Apply(s, step))
  {
    hide HeldStartStep, HeldStopStep;
  }

  lemma NumbersByStops(s: State, step: Step)
    requires NumbersKept(s)
    requires Enabled(s, step) && StopStep(s, step)
    ensures NumbersKept(Apply(s, step))
  {
    hide HeldStartStep, HeldStopStep;
  }

  lemma NumbersByWorkers(s: State, step: Step)
    requires NumbersKept(s)
    requires Enabled(s, step) && WorkerStep(s, step)
    ensures NumbersKept(Apply(s, step))
  {
    hide HeldStartStep, HeldStopStep;
  }

  lemma NumbersByEarlyHolder(s: State, step: Step)
    requires NumbersKept(s)
    requires Enabled(s, step) && EarlyStep(s, step)
    ensures NumbersKept(Apply(s, step))
  {
    hide HeldStopStep;
  }

  lemma NumbersByLateHolder(s: State, step: Step)
    requires NumbersKept(s)
    requires Enabled(s, step) && LateStep(s, step)
    ensures NumbersKept(Apply(s, step))
  {
    hide HeldStopStep, Current;
    var g, after := s.holder.generation, Apply(s, step);
    assert after.starts == s.starts || after.starts == SetStart(s, g, StartDone(false))
        || after.starts == SetStart(s, g, StartDone(true));
    assert after.next == s.next;
    assert after.slot.pending.Some? ==> after.slot.pending == s.slot.pending;
  }

  lemma NumbersByStopHolder(s: State, step: Step)
    requires NumbersKept(s)
    requires Enabled(s, step) && StopHolderStep(s, step)
    ensures NumbersKept(Apply(s, step))
  {
    hide HeldStartStep;
  }

  lemma GateByStarts(s: State, step: Step)
    requires NumbersKept(s) && GateKept(s)
    requires Enabled(s, step) && StartStep(s, step)
    ensures GateKept(Apply(s, step))
  {
    hide HeldStartStep, HeldStopStep;
  }

  lemma GateByStops(s: State, step: Step)
    requires NumbersKept(s) && GateKept(s)
    requires Enabled(s, step) && StopStep(s, step)
    ensures GateKept(Apply(s, step))
  {
    hide HeldStartStep, HeldStopStep;
  }

  lemma GateByWorkers(s: State, step: Step)
    requires NumbersKept(s) && GateKept(s)
    requires Enabled(s, step) && WorkerStep(s, step)
    ensures GateKept(Apply(s, step))
  {
    hide HeldStartStep, HeldStopStep;
  }

  lemma GateByEarlyHolder(s: State, step: Step)
    requires NumbersKept(s) && GateKept(s)
    requires Enabled(s, step) && EarlyStep(s, step)
    ensures GateKept(Apply(s, step))
  {
    hide HeldStopStep;
  }

  lemma GateByLateHolder(s: State, step: Step)
    requires NumbersKept(s) && GateKept(s)
    requires Enabled(s, step) && LateStep(s, step)
    ensures GateKept(Apply(s, step))
  {
    hide HeldStopStep;
  }

  lemma GateByStopHolder(s: State, step: Step)
    requires NumbersKept(s) && GateKept(s)
    requires Enabled(s, step) && StopHolderStep(s, step)
    ensures GateKept(Apply(s, step))
  {
    hide HeldStartStep;
  }

  lemma PendingByStarts(s: State, step: Step)
    requires NumbersKept(s) && GateKept(s) && PendingKept(s)
    requires Enabled(s, step) && StartStep(s, step)
    ensures PendingKept(Apply(s, step))
  {
    hide HeldStartStep, HeldStopStep;
  }

  lemma PendingByStops(s: State, step: Step)
    requires NumbersKept(s) && GateKept(s) && PendingKept(s)
    requires Enabled(s, step) && StopStep(s, step)
    ensures PendingKept(Apply(s, step))
  {
    hide HeldStartStep, HeldStopStep;
  }

  lemma PendingByWorkers(s: State, step: Step)
    requires NumbersKept(s) && GateKept(s) && PendingKept(s)
    requires Enabled(s, step) && WorkerStep(s, step)
    ensures PendingKept(Apply(s, step))
  {
    hide HeldStartStep, HeldStopStep;
  }

  lemma PendingByEarlyHolder(s: State, step: Step)
    requires NumbersKept(s) && GateKept(s) && PendingKept(s)
    requires Enabled(s, step) && EarlyStep(s, step)
    ensures PendingKept(Apply(s, step))
  {
    hide HeldStopStep;
  }

  lemma PendingByLateHolder(s: State, step: Step)
    requires NumbersKept(s) && GateKept(s) && PendingKept(s)
    requires Enabled(s, step) && LateStep(s, step)
    ensures PendingKept(Apply(s, step))
  {
    hide HeldStopStep;
    if s.holder.start.Installing? || s.holder.start.Opening? {
      hide NumbersKept, GateKept, PendingKept, HeldStartStep;
      PendingWhileOpening(s);
    }
  }

  lemma PendingWhileOpening(s: State)
    requires GateKept(s) && PendingKept(s)
    requires s.holder.HeldByStart? && (s.holder.start.Installing? || s.holder.start.Opening?)
    ensures PendingKept(HeldStartStep(s, s.holder.generation, s.holder.start))
  {}

  lemma PendingByStopHolder(s: State, step: Step)
    requires NumbersKept(s) && GateKept(s) && PendingKept(s)
    requires Enabled(s, step) && StopHolderStep(s, step)
    ensures PendingKept(Apply(s, step))
  {
    hide HeldStartStep;
  }

  lemma ActiveByStarts(s: State, step: Step)
    requires GateKept(s) && ActiveKept(s) && WorkersKept(s)
    requires Enabled(s, step) && StartStep(s, step)
    ensures ActiveKept(Apply(s, step))
  {
    hide HeldStartStep, HeldStopStep;
  }

  lemma ActiveByStops(s: State, step: Step)
    requires GateKept(s) && ActiveKept(s) && WorkersKept(s)
    requires Enabled(s, step) && StopStep(s, step)
    ensures ActiveKept(Apply(s, step))
  {
    hide HeldStartStep, HeldStopStep;
  }

  lemma ActiveByWorkers(s: State, step: Step)
    requires GateKept(s) && ActiveKept(s) && WorkersKept(s)
    requires Enabled(s, step) && WorkerStep(s, step)
    ensures ActiveKept(Apply(s, step))
  {
    hide HeldStartStep, HeldStopStep;
  }

  lemma ActiveByEarlyHolder(s: State, step: Step)
    requires GateKept(s) && ActiveKept(s) && WorkersKept(s)
    requires Enabled(s, step) && EarlyStep(s, step)
    ensures ActiveKept(Apply(s, step))
  {
    hide HeldStopStep;
  }

  lemma ActiveByLateHolder(s: State, step: Step)
    requires GateKept(s) && ActiveKept(s) && WorkersKept(s)
    requires Enabled(s, step) && LateStep(s, step)
    ensures ActiveKept(Apply(s, step))
  {
    hide HeldStopStep;
  }

  lemma ActiveByStopHolder(s: State, step: Step)
    requires GateKept(s) && ActiveKept(s) && WorkersKept(s)
    requires Enabled(s, step) && StopHolderStep(s, step)
    ensures ActiveKept(Apply(s, step))
  {
    hide HeldStartStep;
  }

  lemma WorkersByStarts(s: State, step: Step)
    requires NumbersKept(s) && ActiveKept(s) && WorkersKept(s)
    requires Enabled(s, step) && StartStep(s, step)
    ensures WorkersKept(Apply(s, step))
  {
    hide HeldStartStep, HeldStopStep;
  }

  lemma WorkersByStops(s: State, step: Step)
    requires NumbersKept(s) && ActiveKept(s) && WorkersKept(s)
    requires Enabled(s, step) && StopStep(s, step)
    ensures WorkersKept(Apply(s, step))
  {
    hide HeldStartStep, HeldStopStep;
  }

  lemma WorkersByWorkers(s: State, step: Step)
    requires NumbersKept(s) && ActiveKept(s) && WorkersKept(s)
    requires Enabled(s, step) && WorkerStep(s, step)
    ensures WorkersKept(Apply(s, step))
  {
    hide HeldStartStep, HeldStopStep;
  }

  lemma WorkersByEarlyHolder(s: State, step: Step)
    requires NumbersKept(s) && ActiveKept(s) && WorkersKept(s)
    requires Enabled(s, step) && EarlyStep(s, step)
    ensures WorkersKept(Apply(s, step))
  {
    hide HeldStopStep;
  }

  lemma WorkersByLateHolder(s: State, step: Step)
    requires NumbersKept(s) && ActiveKept(s) && WorkersKept(s)
    requires Enabled(s, step) && LateStep(s, step)
    ensures WorkersKept(Apply(s, step))
  {
    hide HeldStopStep;
  }

  lemma WorkersByStopHolder(s: State, step: Step)
    requires NumbersKept(s) && ActiveKept(s) && WorkersKept(s)
    requires Enabled(s, step) && StopHolderStep(s, step)
    ensures WorkersKept(Apply(s, step))
  {
    hide HeldStartStep;
  }

  lemma AppendEvents(events: seq<Event>, g: nat)
    ensures Alternates(events) && Running(events).None? ==>
              Alternates(events + [Started(g)]) && Running(events + [Started(g)]) == Some(g)
    ensures Alternates(events) && Running(events) == Some(g) ==>
              Alternates(events + [Stopped(g)]) && Running(events + [Stopped(g)]).None?
    ensures Alternates(events) && Running(events) == Some(g) ==>
              && Alternates(events + [Failed(g), Stopped(g)])
              && Running(events + [Failed(g), Stopped(g)]).None?
  {
    assert (events + [Started(g)])[..|events|] == events;
    assert (events + [Stopped(g)])[..|events|] == events;
    var failed := events + [Failed(g)];
    assert failed[..|events|] == events;
    assert events + [Failed(g), Stopped(g)] == failed + [Stopped(g)];
    assert (failed + [Stopped(g)])[..|failed|] == failed;
  }

  lemma TraceByStarts(s: State, step: Step)
    requires ActiveKept(s) && TraceKept(s)
    requires Enabled(s, step) && StartStep(s, step)
    ensures TraceKept(Apply(s, step))
  {
    hide HeldStartStep, HeldStopStep;
    hide Alternates, Running;
  }

  lemma TraceByStops(s: State, step: Step)
    requires ActiveKept(s) && TraceKept(s)
    requires Enabled(s, step) && StopStep(s, step)
    ensures TraceKept(Apply(s, step))
  {
    hide HeldStartStep, HeldStopStep;
    hide Alternates, Running;
  }

  lemma TraceByWorkers(s: State, step: Step)
    requires ActiveKept(s) && TraceKept(s)
    requires Enabled(s, step) && WorkerStep(s, step)
    ensures TraceKept(Apply(s, step))
  {
    hide HeldStartStep, HeldStopStep;
    hide Alternates, Running;
    if step.WorkerReports? {
      AppendEvents(s.slot.events, step.generation);
    }
  }

  lemma TraceByEarlyHolder(s: State, step: Step)
    requires ActiveKept(s) && TraceKept(s)
    requires Enabled(s, step) && EarlyStep(s, step)
    ensures TraceKept(Apply(s, step))
  {
    hide HeldStopStep;
    hide Alternates, Running;
    if s.holder.start.Announcing? {
      AppendEvents(s.slot.events, s.holder.start.previous);
    }
  }

  lemma TraceByLateHolder(s: State, step: Step)
    requires ActiveKept(s) && TraceKept(s)
    requires Enabled(s, step) && LateStep(s, step)
    ensures TraceKept(Apply(s, step))
  {
    hide HeldStopStep;
    hide Alternates, Running;
    AppendEvents(s.slot.events, s.holder.generation);
  }

  lemma TraceByStopHolder(s: State, step: Step)
    requires ActiveKept(s) && TraceKept(s)
    requires Enabled(s, step) && StopHolderStep(s, step)
    ensures TraceKept(Apply(s, step))
  {
    hide HeldStartStep;
    hide Alternates, Running;
    if s.holder.stop.Reporting? {
      AppendEvents(s.slot.events, s.holder.stop.generation);
    }
  }

  lemma OutcomesByStarts(s: State, step: Step)
    requires NumbersKept(s) && GateKept(s) && OutcomesKept(s)
    requires Enabled(s, step) && StartStep(s, step)
    ensures OutcomesKept(Apply(s, step))
  {
    hide HeldStartStep, HeldStopStep;
    var after := Apply(s, step);
    assert after.slot.events == s.slot.events;
    if step.BeginStart? {
      assert after.holder == s.holder && s.next !in s.starts;
      assert forall g :: g in after.starts <==> g in s.starts || g == s.next;
    } else {
      hide NumbersKept;
      OutcomesOfStart(s, step);
    }
  }

  lemma OutcomesOfStart(s: State, step: Step)
    requires GateKept(s) && Enabled(s, step) && (step.StartOutside? || step.GiveUp?)
    ensures var after := Apply(s, step);
            && after.starts.Keys == s.starts.Keys
            && forall g :: g in s.starts ==>
                 (s.starts[g].at == StartDone(true) <==> after.starts[g].at == StartDone(true))
                 && (s.holder == HeldByStart(g, Releasing) <==> after.holder == HeldByStart(g, Releasing))
  {}

  lemma OutcomesByStops(s: State, step: Step)
    requires NumbersKept(s) && GateKept(s) && OutcomesKept(s)
    requires Enabled(s, step) && StopStep(s, step)
    ensures OutcomesKept(Apply(s, step))
  {
    hide HeldStartStep, HeldStopStep;
  }

  lemma OutcomesByWorkers(s: State, step: Step)
    requires NumbersKept(s) && GateKept(s) && OutcomesKept(s)
    requires Enabled(s, step) && WorkerStep(s, step)
    ensures OutcomesKept(Apply(s, step))
  {
    hide HeldStartStep, HeldStopStep;
  }

  lemma OutcomesByEarlyHolder(s: State, step: Step)
    requires NumbersKept(s) && GateKept(s) && OutcomesKept(s)
    requires Enabled(s, step) && EarlyStep(s, step)
    ensures OutcomesKept(Apply(s, step))
  {
    hide HeldStopStep;
  }

  lemma OutcomesByInstall(s: State)
    requires NumbersKept(s) && OutcomesKept(s)
    requires s.holder.HeldByStart? && s.holder.start.Installing? && s.holder.generation in s.starts
    ensures OutcomesKept(HeldStartStep(s, s.holder.generation, Installing))
  {
    var g := s.holder.generation;
    var after := HeldStartStep(s, g, Installing);
    assert forall e :: e in after.slot.events ==> e in s.slot.events || e == Started(g);
    assert forall e :: e in s.slot.events ==> e in after.slot.events;
    assert Current(s.slot, g, g in s.cancelled) ==> after.slot.events[|s.slot.events|] == Started(g);
  }

  lemma OutcomesByLateHolder(s: State, step: Step)
    requires NumbersKept(s) && GateKept(s) && OutcomesKept(s)
    requires Enabled(s, step) && LateStep(s, step)
    ensures OutcomesKept(Apply(s, step))
  {
    hide HeldStopStep;
    if s.holder.start.Installing? {
      hide OutcomesKept, GateKept, NumbersKept, HeldStartStep;
      OutcomesByInstall(s);
    } else {
      hide NumbersKept, HeldStartStep;
      OutcomesOfHolder(s);
    }
  }

  // A late step that does not install: the holder opens, gives up, or returns.
  lemma OutcomesOfHolder(s: State)
    requires GateKept(s) && s.holder.HeldByStart? && LateStep(s, Held) && !s.holder.start.Installing?
    ensures var g := s.holder.generation;
            var after := HeldStartStep(s, g, s.holder.start);
            && after.slot.events == s.slot.events && after.starts.Keys == s.starts.Keys
            && (forall h :: h in s.starts && h != g ==> after.starts[h] == s.starts[h])
            && !s.starts[g].at.StartDone? && after.holder != HeldByStart(g, Releasing)
            && (after.starts[g].at == StartDone(true) <==> s.holder.start.Releasing?)
            && (after.holder.HeldByStart? ==> after.holder.generation == g)
  {
    hide Current;
  }

  lemma OutcomesByStopHolder(s: State, step: Step)
    requires NumbersKept(s) && GateKept(s) && OutcomesKept(s)
    requires Enabled(s, step) && StopHolderStep(s, step)
    ensures OutcomesKept(Apply(s, step))
  {
    hide HeldStartStep;
  }

  // The barrier of one stop, for each group of steps.

  lemma BarrierByBegin(s: State, step: Step, t: nat)
    requires NumbersKept(s) && BarrierAt(s, t)
    requires Enabled(s, step) && step.BeginStart?
    ensures BarrierAt(Apply(s, step), t)
  {
    hide HeldStartStep, HeldStopStep;
  }

  lemma BarrierByStarts(s: State, step: Step, t: nat)
    requires BarrierAt(s, t)
    requires Enabled(s, step) && StartStep(s, step) && !step.BeginStart?
    ensures BarrierAt(Apply(s, step), t)
  {
    hide HeldStartStep, HeldStopStep;
  }

  lemma BarrierByStops(s: State, step: Step, t: nat)
    requires GateKept(s) && BarrierAt(s, t)
    requires Enabled(s, step) && StopStep(s, step)
    ensures BarrierAt(Apply(s, step), t)
  {
    hide HeldStartStep, HeldStopStep;
  }

  lemma BarrierByWorkers(s: State, step: Step, t: nat)
    requires BarrierAt(s, t)
    requires Enabled(s, step) && WorkerStep(s, step)
    ensures BarrierAt(Apply(s, step), t)
  {
    hide HeldStartStep, HeldStopStep;
  }

  lemma BarrierByEarlyHolder(s: State, step: Step, t: nat)
    requires NumbersKept(s) && BarrierAt(s, t)
    requires Enabled(s, step) && EarlyStep(s, step)
    ensures BarrierAt(Apply(s, step), t)
  {
    hide HeldStopStep;
  }

  lemma BarrierByLateHolder(s: State, step: Step, t: nat)
    requires NumbersKept(s) && BarrierAt(s, t)
    requires Enabled(s, step) && LateStep(s, step)
    ensures BarrierAt(Apply(s, step), t)
  {
    hide HeldStopStep;
  }

  lemma BarrierByStopHolder(s: State, step: Step, t: nat)
    requires NumbersKept(s) && ActiveKept(s) && WorkersKept(s) && BarrierAt(s, t)
    requires Enabled(s, step) && StopHolderStep(s, step)
    ensures BarrierAt(Apply(s, step), t)
  {
    hide HeldStartStep;
  }

  lemma BarrierStep(s: State, step: Step)
    requires Inv(s) && Enabled(s, step)
    ensures BarrierKept(Apply(s, step))
  {
    hide Apply, BarrierAt, NumbersKept, GateKept, PendingKept, ActiveKept, WorkersKept, TraceKept, OutcomesKept;
    StepGroups(s, step);
    var after := Apply(s, step);
    forall t | t in after.stops ensures BarrierAt(after, t) {
      NewStop(s, step, t);
      if step.BeginStart? { BarrierByBegin(s, step, t); }
      else if StartStep(s, step) { BarrierByStarts(s, step, t); }
      else if StopStep(s, step) { BarrierByStops(s, step, t); }
      else if WorkerStep(s, step) { BarrierByWorkers(s, step, t); }
      else if EarlyStep(s, step) { BarrierByEarlyHolder(s, step, t); }
      else if LateStep(s, step) { BarrierByLateHolder(s, step, t); }
      else { BarrierByStopHolder(s, step, t); }
    }
  }

  lemma NewStop(s: State, step: Step, t: nat)
    requires Enabled(s, step) && BarrierKept(s)
    ensures BarrierAt(s, t)
  {}

  lemma StepGroups(s: State, step: Step)
    requires Enabled(s, step)
    ensures StartStep(s, step) || StopStep(s, step) || WorkerStep(s, step) || EarlyStep(s, step) || LateStep(s, step)
            || StopHolderStep(s, step)
  {}

  // Every step keeps the whole invariant.
  lemma StepKeepsInv(s: State, step: Step)
    requires Inv(s) && Enabled(s, step)
    ensures Inv(Apply(s, step))
  {
    BarrierStep(s, step);
    StepGroups(s, step);
    hide Apply, NumbersKept, GateKept, PendingKept, ActiveKept, WorkersKept, TraceKept, OutcomesKept, BarrierKept;
    hide StartStep, StopStep, WorkerStep, EarlyStep, LateStep, StopHolderStep;
    if StartStep(s, step) {
      NumbersByStarts(s, step);
      GateByStarts(s, step);
      PendingByStarts(s, step);
      ActiveByStarts(s, step);
      WorkersByStarts(s, step);
      TraceByStarts(s, step);
      OutcomesByStarts(s, step);
    } else if StopStep(s, step) {
      NumbersByStops(s, step);
      GateByStops(s, step);
      PendingByStops(s, step);
      ActiveByStops(s, step);
      WorkersByStops(s, step);
      TraceByStops(s, step);
      OutcomesByStops(s, step);
    } else if WorkerStep(s, step) {
      NumbersByWorkers(s, step);
      GateByWorkers(s, step);
      PendingByWorkers(s, step);
      ActiveByWorkers(s, step);
      WorkersByWorkers(s, step);
      TraceByWorkers(s, step);
      OutcomesByWorkers(s, step);
    } else if EarlyStep(s, step) {
      NumbersByEarlyHolder(s, step);
      GateByEarlyHolder(s, step);
      PendingByEarlyHolder(s, step);
      ActiveByEarlyHolder(s, step);
      WorkersByEarlyHolder(s, step);
      TraceByEarlyHolder(s, step);
      OutcomesByEarlyHolder(s, step);
    } else if LateStep(s, step) {
      NumbersByLateHolder(s, step);
      GateByLateHolder(s, step);
      PendingByLateHolder(s, step);
      ActiveByLateHolder(s, step);
      WorkersByLateHolder(s, step);
      TraceByLateHolder(s, step);
      OutcomesByLateHolder(s, step);
    } else {
      NumbersByStopHolder(s, step);
      GateByStopHolder(s, step);
      PendingByStopHolder(s, step);
      ActiveByStopHolder(s, step);
      WorkersByStopHolder(s, step);
      TraceByStopHolder(s, step);
      OutcomesByStopHolder(s, step);
    }
  }

  // ---------------------------------------------------------------- every run

  // A run: from the initial state, each state reached by an enabled step.
  ghost predicate IsRun(states: seq<State>, steps: seq<Step>) {
    && |states| == |steps| + 1
    && states[0] == Init()
    && forall i :: 0 <= i < |steps| ==> Enabled(states[i], steps[i]) && states[i + 1] == Apply(states[i], steps[i])
  }

  lemma {:induction false} RunKeepsInv(states: seq<State>, steps: seq<Step>, i: nat)
    requires IsRun(states, steps) && i <= |steps|
    ensures Inv(states[i])
  {
    hide Inv, Apply, Enabled, Init;
    if i == 0 {
      InitInv();
    } else {
      RunKeepsInv(states, steps, i - 1);
      assert Enabled(states[i - 1], steps[i - 1]);
      StepKeepsInv(states[i - 1], steps[i - 1]);
    }
  }

  // The trace of every run alternates started(g), stopped(g) with matching generations,
  // and at any moment at most one worker is not finished.
  lemma EventsAlternate(states: seq<State>, steps: seq<Step>, i: nat)
    requires IsRun(states, steps) && i <= |steps|
    ensures Alternates(states[i].slot.events)
    ensures forall g, h | g in states[i].workers && h in states[i].workers ::
              states[i].workers[g].Finished? || states[i].workers[h].Finished? || g == h
  {
    RunKeepsInv(states, steps, i);
  }

  // While a start polls its opener, every earlier slave has been joined and none is active.
  lemma OpenerRunsAlone(states: seq<State>, steps: seq<Step>, i: nat, g: nat)
    requires IsRun(states, steps) && i <= |steps|
    requires states[i].holder == HeldByStart(g, Opening)
    ensures states[i].slot.active.None?
    ensures forall h :: h in states[i].workers ==> states[i].workers[h].Finished?
    ensures Running(states[i].slot.events).None?
  {
    RunKeepsInv(states, steps, i);
  }

  // A start returns Ok exactly when its started event was emitted, and no start returns
  // leaving its own generation pending.
  lemma StartResultsAreTrue(states: seq<State>, steps: seq<Step>, i: nat, g: nat)
    requires IsRun(states, steps) && i <= |steps|
    requires g in states[i].starts && states[i].starts[g].at.StartDone?
    ensures states[i].starts[g].at.ok <==> Started(g) in states[i].slot.events
    ensures !Is(states[i].slot.pending, g)
  {
    RunKeepsInv(states, steps, i);
  }

  // A generation that is neither pending nor active although it has begun.
  predicate Gone(s: State, g: nat) {
    g < s.next && !Is(s.slot.pending, g) && !Is(s.slot.active, g)
  }

  lemma GoneStaysGoneStep(s: State, step: Step, g: nat)
    requires Inv(s) && Enabled(s, step) && Gone(s, g)
    ensures Gone(Apply(s, step), g)
    ensures Started(g) in Apply(s, step).slot.events ==> Started(g) in s.slot.events
  {
    hide BarrierKept, TraceKept, OutcomesKept, WorkersKept, PendingKept;
  }

  // A superseded or stopped start never installs: once gone it is neither pending nor
  // active again, and its started event never appears later.
  lemma {:induction false} GoneStaysGone(states: seq<State>, steps: seq<Step>, i: nat, j: nat, g: nat)
    requires IsRun(states, steps) && i <= j <= |steps|
    requires Gone(states[i], g)
    ensures Gone(states[j], g)
    ensures Started(g) in states[j].slot.events ==> Started(g) in states[i].slot.events
    decreases j
  {
    hide Inv, Apply, Enabled, Init, Gone;
    if i < j {
      GoneStaysGone(states, steps, i, j - 1, g);
      RunKeepsInv(states, steps, j - 1);
      assert Enabled(states[j - 1], steps[j - 1]);
      GoneStaysGoneStep(states[j - 1], steps[j - 1], g);
    }
  }

  // Once a transport stop has returned, no start of that transport that began before the
  // stop is pending or active, and the workers of all of them have finished.
  lemma StopIsABarrier(states: seq<State>, steps: seq<Step>, i: nat, t: nat, g: nat)
    requires IsRun(states, steps) && i <= |steps|
    requires t in states[i].stops && states[i].stops[t].at.StopDone? && states[i].stops[t].target.ByTransport?
    requires g in states[i].starts && states[i].starts[g].transport == states[i].stops[t].target.transport
    requires g < states[i].stops[t].target.barrier
    ensures Gone(states[i], g)
    ensures g in states[i].workers ==> states[i].workers[g].Finished?
  {
    RunKeepsInv(states, steps, i);
    hide TraceKept, OutcomesKept, PendingKept, ActiveKept, WorkersKept, GateKept;
    assert BarrierAt(states[i], t);
  }

  // No run gets stuck: while some start or stop has not returned, some step of a start,
  // a stop or the holder of the gate is enabled.
  lemma NeverStuck(states: seq<State>, steps: seq<Step>, i: nat)
    requires IsRun(states, steps) && i <= |steps|
    requires (exists g :: g in states[i].starts && !states[i].starts[g].at.StartDone?)
             || (exists t :: t in states[i].stops && !states[i].stops[t].at.StopDone?)
    ensures exists step: Step :: Enabled(states[i], step) && (step.Held? || step.StartOutside? || step.StopOutside?)
  {
    RunKeepsInv(states, steps, i);
    hide TraceKept, OutcomesKept, PendingKept, ActiveKept, WorkersKept, BarrierKept;
    var s := states[i];
    if !s.holder.Free? {
      assert Enabled(s, Held);
    } else if g :| g in s.starts && !s.starts[g].at.StartDone? {
      assert Enabled(s, StartOutside(g));
    } else {
      var t :| t in s.stops && !s.stops[t].at.StopDone?;
      assert Enabled(s, StopOutside(t));
    }
  }
}
