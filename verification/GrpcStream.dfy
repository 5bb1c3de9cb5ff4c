// Streaming gRPC events (src-tauri/src/grpc_client.rs): the registry that makes a stream
// current, the bounded queue between a transport and its dispatcher, and the accounting
// of what the queue had to drop.
//
// The state machine follows one connection id through any number of streams, each with
// its own transport and dispatcher. Generations are fresh numbers, in no particular
// order. A stream whose registry entry is gone may notice its cancellation at any time.
module GrpcStream {
  import opened Common

  const QueueCapacity: nat := 32

  datatype Item = Data(number: nat) | Terminal

  // An emitted event: which stream, what, and how many drops it reports.
  datatype Event = Event(generation: nat, item: Item, dropped: nat)

  // ---------------------------------------------------------------- the registry

  // `GrpcConnections`: the current generation of each id, and what was emitted.
  class StreamRegistry {
    var connections: map<string, nat>
    var log: seq<(string, Event)>

    constructor ()
      ensures forall id :: Current(id) == None && Trace(id) == []
    {
      connections, log := map[], [];
    }

    function Current(id: string): Option<nat>
      reads this
    {
      if id in connections then Some(connections[id]) else None
    }

    ghost function Trace(id: string): seq<Event>
      reads this
    {
      EventsOf(log, id)
    }

    // The handle that was replaced is the one to cancel.
    method RegisterStream(id: string, generation: nat) returns (previous: Option<nat>)
      modifies this
      ensures previous == old(Current(id)) && Current(id) == Some(generation)
      ensures forall other :: other != id ==> Current(other) == old(Current(other))
      ensures log == old(log)
    {
      previous := if id in connections then Some(connections[id]) else None;
      connections := connections[id := generation];
    }

    method RemoveStreamIfGeneration(id: string, generation: nat) returns (removed: bool)
      modifies this
      ensures removed <==> old(Current(id)) == Some(generation)
      ensures Current(id) == if removed then None else old(Current(id))
      ensures forall other :: other != id ==> Current(other) == old(Current(other))
      ensures log == old(log)
    {
      removed := id in connections && connections[id] == generation;
      if removed {
        connections := connections - {id};
      }
    }

    method EmitIfCurrent(id: string, event: Event) returns (emitted: bool)
      modifies this
      ensures emitted <==> old(Current(id)) == Some(event.generation)
      ensures connections == old(connections)
      ensures Trace(id) == if emitted then old(Trace(id)) + [event] else old(Trace(id))
      ensures forall other :: other != id ==> Trace(other) == old(Trace(other))
    {
      emitted := id in connections && connections[id] == event.generation;
      if emitted {
        EventsOfEmit(log, id, event);
        log := log + [(id, event)];
      }
    }

    method FinishStreamIfCurrent(id: string, event: Event) returns (emitted: bool)
      modifies this
      ensures emitted <==> old(Current(id)) == Some(event.generation)
      ensures Current(id) == if emitted then None else old(Current(id))
      ensures forall other :: other != id ==> Current(other) == old(Current(other))
      ensures Trace(id) == if emitted then old(Trace(id)) + [event] else old(Trace(id))
      ensures forall other :: other != id ==> Trace(other) == old(Trace(other))
    {
      emitted := id in connections && connections[id] == event.generation;
      if emitted {
        connections := connections - {id};
        EventsOfEmit(log, id, event);
        log := log + [(id, event)];
      }
    }

    method CancelStream(id: string) returns (cancelled: Option<nat>)
      modifies this
      ensures cancelled == old(Current(id)) && Current(id) == None
      ensures forall other :: other != id ==> Current(other) == old(Current(other))
      ensures log == old(log)
    {
      cancelled := if id in connections then Some(connections[id]) else None;
      connections := connections - {id};
    }
  }

  // ---------------------------------------------------------------- the sink

  datatype Offer = Accepted | Full | Closed

  // The queue between a transport and its dispatcher, and the drop counter they share.
  class StreamEventSink {
    var queue: seq<Item>
    var dropped: nat
    var open: bool

    ghost predicate Valid()
      reads this
    {
      |queue| <= QueueCapacity
    }

    constructor ()
      ensures Valid() && queue == [] && dropped == 0 && open
    {
      queue, dropped, open := [], 0, true;
    }

    // `try_emit`: a data event that finds the queue full is counted, not kept.
    method TryEmit(item: Item) returns (r: Offer)
      requires Valid()
      modifies this
      ensures Valid() && open == old(open)
      ensures r == if !old(open) then Closed else if |old(queue)| < QueueCapacity then Accepted else Full
      ensures queue == if r.Accepted? then old(queue) + [item] else old(queue)
      ensures dropped == old(dropped) + if r.Full? then 1 else 0
    {
      if !open {
        return Closed;
      }
      if |queue| < QueueCapacity {
        queue := queue + [item];
        return Accepted;
      }
      dropped := dropped + 1;
      r := Full;
    }

    // The dispatcher takes the oldest event, and the drops it has to report.
    method Receive() returns (item: Item)
      requires Valid() && queue != []
      modifies this
      ensures Valid() && old(queue) == [item] + queue && dropped == old(dropped) && open == old(open)
    {
      item := queue[0];
      queue := queue[1..];
    }

    method TakeDropped() returns (n: nat)
      modifies this
      ensures n == old(dropped) && dropped == 0 && queue == old(queue) && open == old(open)
    {
      n := dropped;
      dropped := 0;
    }
  }

  // ---------------------------------------------------------------- the state machine

  datatype Transport =
    | Producing
    | Finishing              // waiting for room to enqueue the terminal event
    | AwaitingAck
    | TransportDone

  datatype Dispatcher =
    | Receiving
    | Holding(item: Item)                   // dequeued, drops not collected yet
    | Loaded(loaded: Item, drops: nat)      // about to emit, once the rate allows it
    | DispatcherDone(emitted: bool)         // whether its last act was the terminal event

  datatype Stream = Stream(
    transport: Transport,
    queue: seq<Item>,
    dropped: nat,
    attempted: nat,
    dispatcher: Dispatcher)

  datatype State = State(current: Option<nat>, streams: map<nat, Stream>, trace: seq<Event>)

  datatype TransportMove =
    | TryEmit
    | BeginFinish
    | SendTerminal
    | Acknowledged
    | GiveUp                 // failed or cancelled before finishing

  datatype DispatcherMove =
    | Receive
    | CollectDrops
    | Emit
    | SeeCancelled           // or the queue was closed

  datatype Step =
    | Register(generation: nat)
    | CancelStream
    | MoveTransport(generation: nat, transport: TransportMove)
    | MoveDispatcher(generation: nat, dispatcher: DispatcherMove)

  function Init(): State { State(None, map[], []) }

  predicate TransportEnabled(x: Stream, move: TransportMove) {
    match move
    case TryEmit => x.transport.Producing?
    case BeginFinish => x.transport.Producing?
    case SendTerminal => x.transport.Finishing? && (x.dispatcher.DispatcherDone? || |x.queue| < QueueCapacity)
    case Acknowledged => x.transport.AwaitingAck? && x.dispatcher.DispatcherDone?
    case GiveUp => x.transport.Producing?
  }

  predicate DispatcherEnabled(x: Stream, current: bool, move: DispatcherMove) {
    match move
    case Receive => x.dispatcher.Receiving? && x.queue != []
    case CollectDrops => x.dispatcher.Holding?
    case Emit => x.dispatcher.Loaded?
    case SeeCancelled =>
      || (!current && (x.dispatcher.Receiving? || x.dispatcher.Loaded?))
      || (x.dispatcher.Receiving? && x.queue == [] && x.transport.TransportDone?)
  }

  predicate Enabled(s: State, step: Step) {
    match step
    case Register(g) => g !in s.streams
    case CancelStream => true
    case MoveTransport(g, move) => g in s.streams && TransportEnabled(s.streams[g], move)
    case MoveDispatcher(g, move) => g in s.streams && DispatcherEnabled(s.streams[g], s.current == Some(g), move)
  }

  function AfterTransport(x: Stream, move: TransportMove): Stream {
    match move
    case TryEmit =>
      var y := x.(attempted := x.attempted + 1);
      if x.dispatcher.DispatcherDone? then y
      else if |x.queue| < QueueCapacity then y.(queue := x.queue + [Data(x.attempted)])
      else y.(dropped := x.dropped + 1)
    case BeginFinish => x.(transport := Finishing)
    case SendTerminal =>
      if x.dispatcher.DispatcherDone? then x.(transport := TransportDone)
      else x.(queue := x.queue + [Terminal], transport := AwaitingAck)
    case Acknowledged => x.(transport := TransportDone)
    case GiveUp => x.(transport := TransportDone)
  }

  // A transport that ends without its terminal event removes its own entry.
  predicate Removes(x: Stream, move: TransportMove) {
    match move
    case TryEmit => false
    case BeginFinish => false
    case SendTerminal => x.dispatcher.DispatcherDone?
    case Acknowledged => x.dispatcher != DispatcherDone(true)
    case GiveUp => true
  }

  function AfterDispatcher(x: Stream, current: bool, move: DispatcherMove): Stream {
    match move
    case Receive => if x.queue == [] then x else x.(dispatcher := Holding(x.queue[0]), queue := x.queue[1..])
    case CollectDrops => if x.dispatcher.Holding?
        then x.(dispatcher := Loaded(x.dispatcher.item, x.dropped), dropped := 0) else x
    case Emit =>
      if !x.dispatcher.Loaded? then x
      else if current && x.dispatcher.loaded.Data? then x.(dispatcher := Receiving)
      else x.(dispatcher := DispatcherDone(current))
    case SeeCancelled => x.(dispatcher := DispatcherDone(false))
  }

  function Apply(s: State, step: Step): State
    requires Enabled(s, step)
  {
    match step
    case Register(g) => s.(current := Some(g), streams := s.streams[g := Stream(Producing, [], 0, 0, Receiving)])
    case CancelStream => s.(current := None)
    case MoveTransport(g, move) =>
      s.(streams := s.streams[g := AfterTransport(s.streams[g], move)],
         current := if Removes(s.streams[g], move) && s.current == Some(g) then None else s.current)
    case MoveDispatcher(g, move) =>
      var x, mine := s.streams[g], s.current == Some(g);
      State(
        if move.Emit? && mine && x.dispatcher.loaded.Terminal? then None else s.current,
        s.streams[g := AfterDispatcher(x, mine, move)],
        if move.Emit? && mine then s.trace + [Event(g, x.dispatcher.loaded, x.dispatcher.drops)] else s.trace)
  }

  // ---------------------------------------------------------------- one stream's pipeline

  // The data events of one stream that were emitted, in order.
  function Delivered(trace: seq<Event>, g: nat): seq<nat> {
    if trace == [] then []
    else
      var before, last := Delivered(trace[..|trace| - 1], g), trace[|trace| - 1];
      if last.generation == g && last.item.Data? then before + [last.item.number] else before
  }

  // The drops its events reported.
  function Reported(trace: seq<Event>, g: nat): nat {
    if trace == [] then 0
    else
      var before, last := Reported(trace[..|trace| - 1], g), trace[|trace| - 1];
      if last.generation == g then before + last.dropped else before
  }

  predicate Finished(trace: seq<Event>, g: nat) {
    exists i :: 0 <= i < |trace| && trace[i].generation == g && trace[i].item.Terminal?
  }

  lemma EmitExtends(trace: seq<Event>, e: Event, g: nat)
    ensures Delivered(trace + [e], g) ==
              Delivered(trace, g) + (if e.generation == g && e.item.Data? then [e.item.number] else [])
    ensures Reported(trace + [e], g) == Reported(trace, g) + (if e.generation == g then e.dropped else 0)
    ensures Finished(trace + [e], g) <==> Finished(trace, g) || (e.generation == g && e.item.Terminal?)
  {
    var longer := trace + [e];
    assert longer[..|trace|] == trace;
    if Finished(trace, g) {
      var i :| 0 <= i < |trace| && trace[i].generation == g && trace[i].item.Terminal?;
      assert longer[i] == trace[i];
    }
    if e.generation == g && e.item.Terminal? {
      assert longer[|trace|] == e;
    }
  }

  function Numbers(queue: seq<Item>): seq<nat> {
    if queue == [] then []
    else (if queue[0].Data? then [queue[0].number] else []) + Numbers(queue[1..])
  }

  lemma {:induction false} NumbersAppend(queue: seq<Item>, item: Item)
    ensures Numbers(queue + [item]) == Numbers(queue) + (if item.Data? then [item.number] else [])
  {
    if queue == [] {
      assert queue + [item] == [item];
    } else {
      NumbersAppend(queue[1..], item);
      assert (queue + [item])[1..] == queue[1..] + [item];
    }
  }

  function Held(d: Dispatcher): seq<nat> {
    match d
    case Holding(Data(n)) => [n]
    case Loaded(Data(n), _) => [n]
    case _ => []
  }

  function HeldDrops(d: Dispatcher): nat { if d.Loaded? then d.drops else 0 }

  // Emitted, in the dispatcher's hands, and still queued.
  function Pipeline(trace: seq<Event>, g: nat, x: Stream): seq<nat> {
    Delivered(trace, g) + Held(x.dispatcher) + Numbers(x.queue)
  }

  predicate Increasing(s: seq<nat>, bound: nat) {
    && (forall i, j :: 0 <= i < j < |s| ==> s[i] < s[j])
    && (forall i :: 0 <= i < |s| ==> s[i] < bound)
  }

  predicate TerminalHeld(d: Dispatcher) {
    (d.Holding? && d.item.Terminal?) || (d.Loaded? && d.loaded.Terminal?)
  }

  // Where the terminal event is, if the transport has sent it: last in the queue, or with
  // a dispatcher that has nothing left to receive.
  predicate TerminalPlace(x: Stream) {
    && (!x.dispatcher.DispatcherDone? ==>
          forall i :: 0 <= i < |x.queue| && x.queue[i].Terminal? ==> x.transport.AwaitingAck? && i == |x.queue| - 1)
    && (TerminalHeld(x.dispatcher) ==> x.transport.AwaitingAck? && x.queue == [])
    && (x.dispatcher.Loaded? && x.dispatcher.loaded.Terminal? ==> x.dropped == 0)
    && (x.dispatcher == DispatcherDone(true) ==>
          x.queue == [] && x.dropped == 0 && !x.transport.Producing? && !x.transport.Finishing?)
  }

  // Every attempt is accounted for: emitted, in the pipeline, or counted as dropped and
  // reported, or about to be.
  predicate Accounted(trace: seq<Event>, g: nat, x: Stream) {
    && |x.queue| <= QueueCapacity
    && Increasing(Pipeline(trace, g, x), x.attempted)
    && (!x.dispatcher.DispatcherDone? || x.dispatcher.emitted ==>
          x.attempted == |Pipeline(trace, g, x)| + Reported(trace, g) + HeldDrops(x.dispatcher) + x.dropped)
  }

  ghost predicate StreamKept(s: State, g: nat)
    requires g in s.streams
  {
    && TerminalPlace(s.streams[g])
    && Accounted(s.trace, g, s.streams[g])
    && (Finished(s.trace, g) <==> s.streams[g].dispatcher == DispatcherDone(true))
  }

  // Events of a stream form one block that ends with the terminal event, if any.
  ghost predicate BlocksKept(s: State) {
    && (forall i, j | 0 <= i < j < |s.trace| && s.trace[i].generation == s.trace[j].generation :: s.trace[i].item.Data?)
    && (forall i, j, k | 0 <= i < j < k < |s.trace| && s.trace[i].generation == s.trace[k].generation ::
          s.trace[j].generation == s.trace[i].generation)
    && (forall i | 0 <= i < |s.trace| :: s.trace[i].generation in s.streams)
    && (s.current.Some? ==> s.current.value in s.streams)
    && (forall i, j | 0 <= i <= j < |s.trace| && s.current == Some(s.trace[i].generation) ::
          s.trace[j].generation == s.trace[i].generation && s.trace[j].item.Data?)
  }

  ghost predicate Inv(s: State) {
    BlocksKept(s) && forall g :: g in s.streams ==> StreamKept(s, g)
  }

  lemma InitInv()
    ensures Inv(Init())
  {}

  // ---------------------------------------------------------------- what every step keeps

  lemma {:induction false} UnheardOf(trace: seq<Event>, g: nat)
    requires forall i :: 0 <= i < |trace| ==> trace[i].generation != g
    ensures Delivered(trace, g) == [] && Reported(trace, g) == 0 && !Finished(trace, g)
  {
    if trace != [] {
      UnheardOf(trace[..|trace| - 1], g);
    }
  }

  lemma TryEmitKeeps(s: State, g: nat)
    requires g in s.streams && StreamKept(s, g) && s.streams[g].transport.Producing?
    ensures StreamKept(s.(streams := s.streams[g := AfterTransport(s.streams[g], TryEmit)]), g)
  {
    hide Delivered, Reported, Finished;
    var x := s.streams[g];
    var y := AfterTransport(x, TryEmit);
    NumbersAppend(x.queue, Data(x.attempted));
    assert y.queue != x.queue ==> Pipeline(s.trace, g, y) == Pipeline(s.trace, g, x) + [x.attempted];
  }

  lemma TransportKeeps(s: State, g: nat, move: TransportMove)
    requires g in s.streams && StreamKept(s, g) && TransportEnabled(s.streams[g], move) && !move.TryEmit?
    ensures StreamKept(s.(streams := s.streams[g := AfterTransport(s.streams[g], move)]), g)
  {
    hide Delivered, Reported, Finished;
    NumbersAppend(s.streams[g].queue, Terminal);
    var y := AfterTransport(s.streams[g], move);
    assert Numbers(y.queue) == Numbers(s.streams[g].queue);
    hide Numbers;
  }

  lemma ReceiveKeeps(s: State, g: nat)
    requires g in s.streams && StreamKept(s, g) && DispatcherEnabled(s.streams[g], s.current == Some(g), Receive)
    ensures StreamKept(s.(streams := s.streams[g := AfterDispatcher(s.streams[g], s.current == Some(g), Receive)]), g)
  {
    hide Delivered, Reported, Finished;
    var x := s.streams[g];
    var y := AfterDispatcher(x, s.current == Some(g), Receive);
    assert Numbers(x.queue) == Held(y.dispatcher) + Numbers(y.queue);
    assert Pipeline(s.trace, g, y) == Pipeline(s.trace, g, x);
  }

  lemma CollectKeeps(s: State, g: nat)
    requires g in s.streams && StreamKept(s, g) && s.streams[g].dispatcher.Holding?
    ensures var x := AfterDispatcher(s.streams[g], s.current == Some(g), CollectDrops);
            StreamKept(s.(streams := s.streams[g := x]), g)
  {
    hide Delivered, Reported, Finished, Numbers;
    var x := s.streams[g];
    var y := AfterDispatcher(x, s.current == Some(g), CollectDrops);
    assert Held(y.dispatcher) == Held(x.dispatcher);
    assert Pipeline(s.trace, g, y) == Pipeline(s.trace, g, x);
  }

  lemma LeaveKeeps(s: State, g: nat)
    requires g in s.streams && StreamKept(s, g) && !s.streams[g].dispatcher.DispatcherDone?
    ensures StreamKept(s.(streams := s.streams[g := s.streams[g].(dispatcher := DispatcherDone(false))]), g)
  {
    hide Delivered, Reported, Finished, Numbers;
    var x := s.streams[g];
    var a, b, c := Delivered(s.trace, g), Held(x.dispatcher), Numbers(x.queue);
    assert Increasing(a + [] + c, x.attempted) by {
      assert forall i :: 0 <= i < |a| + |c| ==> (a + [] + c)[i] == (a + b + c)[if i < |a| then i else i + |b|];
    }
  }

  lemma EmitKeeps(s: State, g: nat)
    requires g in s.streams && StreamKept(s, g) && s.streams[g].dispatcher.Loaded? && s.current == Some(g)
    ensures StreamKept(Apply(s, MoveDispatcher(g, Emit)), g)
  {
    hide Delivered, Reported, Finished;
    var x, t := s.streams[g], Apply(s, MoveDispatcher(g, Emit));
    var e := Event(g, x.dispatcher.loaded, x.dispatcher.drops);
    EmitExtends(s.trace, e, g);
    assert Pipeline(t.trace, g, t.streams[g]) == Pipeline(s.trace, g, x);
    hide Numbers;
  }

  lemma StepKeepsOwn(s: State, step: Step)
    requires Inv(s) && Enabled(s, step) && (step.MoveTransport? || step.MoveDispatcher?)
    ensures StreamKept(Apply(s, step), step.generation)
  {
    hide BlocksKept, TerminalPlace, Accounted, Finished;
    var g := step.generation;
    assert StreamKept(s, g);
    if step.MoveTransport? {
      if step.transport.TryEmit? {
        TryEmitKeeps(s, g);
      } else {
        TransportKeeps(s, g, step.transport);
      }
    } else {
      match step.dispatcher
      case Receive => ReceiveKeeps(s, g);
      case CollectDrops => CollectKeeps(s, g);
      case SeeCancelled => LeaveKeeps(s, g);
      case Emit =>
        if s.current == Some(g) {
          EmitKeeps(s, g);
        } else {
          LeaveKeeps(s, g);
        }
    }
  }

  lemma StepKeepsOthers(s: State, step: Step, g: nat)
    requires Inv(s) && Enabled(s, step) && g in s.streams
              && (step.MoveTransport? || step.MoveDispatcher? ==> step.generation != g)
    ensures g in Apply(s, step).streams && StreamKept(Apply(s, step), g)
  {
    hide TerminalPlace, BlocksKept, Delivered, Reported, Finished, Numbers;
    assert StreamKept(s, g);
    if step.MoveDispatcher? && step.dispatcher.Emit? {
      var d := s.streams[step.generation].dispatcher;
      EmitExtends(s.trace, Event(step.generation, d.loaded, d.drops), g);
      assert Delivered(Apply(s, step).trace, g) == Delivered(s.trace, g);
    }
  }

  lemma StepKeepsStreams(s: State, step: Step, g: nat)
    requires Inv(s) && Enabled(s, step) && g in Apply(s, step).streams
    ensures StreamKept(Apply(s, step), g)
  {
    hide StreamKept;
    if g in s.streams {
      if (step.MoveTransport? || step.MoveDispatcher?) && step.generation == g {
        StepKeepsOwn(s, step);
      } else {
        StepKeepsOthers(s, step, g);
      }
    } else {
      RegisterKeeps(s, g);
    }
  }

  lemma RegisterKeeps(s: State, g: nat)
    requires BlocksKept(s) && g !in s.streams
    ensures StreamKept(Apply(s, Register(g)), g)
  {
    UnheardOf(s.trace, g);
    assert Pipeline(s.trace, g, Stream(Producing, [], 0, 0, Receiving)) == [];
  }

  lemma StepKeepsBlocks(s: State, step: Step)
    requires Inv(s) && Enabled(s, step)
    ensures BlocksKept(Apply(s, step))
  {
    hide StreamKept;
    if step.MoveDispatcher? {
      DispatcherKeepsBlocks(s, step.generation, step.dispatcher);
    }
  }

  lemma DispatcherKeepsBlocks(s: State, g: nat, move: DispatcherMove)
    requires BlocksKept(s) && Enabled(s, MoveDispatcher(g, move))
    ensures BlocksKept(Apply(s, MoveDispatcher(g, move)))
  {
    hide AfterDispatcher;
  }

  lemma StepKeepsInv(s: State, step: Step)
    requires Inv(s) && Enabled(s, step)
    ensures Inv(Apply(s, step))
  {
    hide BlocksKept, StreamKept, Apply, Enabled;
    StepKeepsBlocks(s, step);
    var after := Apply(s, step);
    forall g | g in after.streams ensures StreamKept(after, g) {
      StepKeepsStreams(s, step, g);
    }
  }

  // ---------------------------------------------------------------- every run

  ghost predicate IsRun(states: seq<State>, steps: seq<Step>) {
    && |states| == |steps| + 1
    && states[0] == Init()
    && forall i :: 0 <= i < |steps| ==> Enabled(states[i], steps[i]) && states[i + 1] == Apply(states[i], steps[i])
  }

  lemma {:induction false} RunKeepsInv(states: seq<State>, steps: seq<Step>, i: nat)
    requires IsRun(states, steps) && i <= |steps|
    ensures Inv(states[i])
  {
    hide Inv, Apply, Enabled, Init;
    if i == 0 {
      InitInv();
    } else {
      RunKeepsInv(states, steps, i - 1);
      assert Enabled(states[i - 1], steps[i - 1]);
      StepKeepsInv(states[i - 1], steps[i - 1]);
    }
  }

  // The events of one stream are contiguous in what the connection id emitted, and only
  // the last of them can be terminal.
  lemma EventsFormOneBlock(states: seq<State>, steps: seq<Step>, n: nat, i: nat, j: nat)
    requires IsRun(states, steps) && n <= |steps| && i < j < |states[n].trace|
    requires states[n].trace[i].generation == states[n].trace[j].generation
    ensures states[n].trace[i].item.Data?
    ensures forall k | i <= k <= j :: states[n].trace[k].generation == states[n].trace[i].generation
  {
    RunKeepsInv(states, steps, n);
    OneBlock(states[n], i, j);
  }

  lemma OneBlock(s: State, i: nat, j: nat)
    requires BlocksKept(s) && i < j < |s.trace| && s.trace[i].generation == s.trace[j].generation
    ensures s.trace[i].item.Data?
    ensures forall k | i <= k <= j :: s.trace[k].generation == s.trace[i].generation
  {
    assert forall k | i < k < j :: s.trace[k].generation == s.trace[i].generation;
  }

  // If the terminal event of a stream was emitted, nothing is unaccounted for: the data
  // events emitted, plus the drops reported by all of its events, are the data events
  // attempted.
  lemma TerminalAccountsForEverything(states: seq<State>, steps: seq<Step>, n: nat, g: nat)
    requires IsRun(states, steps) && n <= |steps| && g in states[n].streams && Finished(states[n].trace, g)
    ensures states[n].streams[g].attempted == |Delivered(states[n].trace, g)| + Reported(states[n].trace, g)
  {
    RunKeepsInv(states, steps, n);
    assert StreamKept(states[n], g);
    hide Delivered, Reported, Finished, IsRun;
  }

  // At any time the data events emitted are distinct attempts, in the order in which they
  // were made, and no more drops are reported than events were lost.
  lemma DeliveredInOrder(states: seq<State>, steps: seq<Step>, n: nat, g: nat)
    requires IsRun(states, steps) && n <= |steps| && g in states[n].streams
    ensures Increasing(Delivered(states[n].trace, g), states[n].streams[g].attempted)
    ensures !states[n].streams[g].dispatcher.DispatcherDone? ==>
              |Delivered(states[n].trace, g)| + Reported(states[n].trace, g) <= states[n].streams[g].attempted
    ensures |states[n].streams[g].queue| <= QueueCapacity
  {
    RunKeepsInv(states, steps, n);
    assert StreamKept(states[n], g);
    hide Delivered, Reported, Finished, IsRun;
    var d, p := Delivered(states[n].trace, g), Pipeline(states[n].trace, g, states[n].streams[g]);
    assert forall i :: 0 <= i < |d| ==> d[i] == p[i];
  }

  // A stream that is not current any more, whether replaced, cancelled or finished, never
  // becomes current again and never emits again.
  lemma {:induction false} GoneMeansGone(states: seq<State>, steps: seq<Step>, i: nat, j: nat, g: nat)
    requires IsRun(states, steps) && i <= j <= |steps|
    requires g in states[i].streams && states[i].current != Some(g)
    ensures g in states[j].streams && states[j].current != Some(g)
    ensures |states[i].trace| <= |states[j].trace|
    ensures forall k | |states[i].trace| <= k < |states[j].trace| :: states[j].trace[k].generation != g
    decreases j
  {
    if i < j {
      GoneMeansGone(states, steps, i, j - 1, g);
      assert Enabled(states[j - 1], steps[j - 1]);
      hide AfterDispatcher, AfterTransport, Removes;
    }
  }
}
