// The slot map of serial sessions (src-tauri/src/serial_port.rs): opens, closes and worker
// exits on one port id, in any interleaving.
//
// Each critical section of the connections lock is one function on the slot of one port
// id. `ConnectionSlots` runs those sections on the real map; the state machine further
// down interleaves them without restriction. A generation is a fresh number, and a
// handle is known by the generation that created it.
module SerialSlots {
  import opened Common

  datatype Slot<H> =
    | Vacant
    | Pending(generation: nat, retiring: Option<H>)
    | Open(generation: nat, handle: H)
    | Tombstone(generation: nat, retiring: Option<H>)

  // ---------------------------------------------------------------- critical sections

  predicate Names<H>(slot: Slot<H>, generation: nat) {
    !slot.Vacant? && slot.generation == generation
  }

  predicate IsPending<H>(slot: Slot<H>, generation: nat) {
    slot.Pending? && slot.generation == generation
  }

  predicate IsOpen<H>(slot: Slot<H>, generation: nat) {
    slot.Open? && slot.generation == generation
  }

  // The handle whose worker must be stopped before the slot may be reused.
  function HeldBy<H>(slot: Slot<H>): Option<H> {
    match slot
    case Vacant => None
    case Open(_, handle) => Some(handle)
    case Pending(_, retiring) => retiring
    case Tombstone(_, retiring) => retiring
  }

  // `cancel_current` on an occupied slot
  function Cancelled<H>(slot: Slot<H>): Slot<H>
    requires !slot.Vacant?
  {
    Tombstone(slot.generation, HeldBy(slot))
  }

  // `install_if_pending`
  function Installed<H>(slot: Slot<H>, generation: nat, handle: H): Slot<H> {
    if IsPending(slot, generation) then Open(generation, handle) else slot
  }

  // `remove_open_generation`
  function WithoutOpen<H>(slot: Slot<H>, generation: nat): Slot<H> {
    if IsOpen(slot, generation) then Vacant else slot
  }

  // `clear_inactive_generation`
  function WithoutInactive<H>(slot: Slot<H>, generation: nat): Slot<H> {
    if Names(slot, generation) && !slot.Open? then Vacant else slot
  }

  // ---------------------------------------------------------------- the shared map

  class ConnectionSlots<H> {
    var slots: map<string, Slot<H>>

    constructor ()
      ensures forall id :: At(id).Vacant?
    {
      slots := map[];
    }

    function At(id: string): Slot<H>
      reads this
    {
      if id in slots then slots[id] else Vacant
    }

    // The handle to stop, and the generation to report closed.
    method ReserveOpen(id: string, generation: nat) returns (retiring: Option<H>, replaced: Option<nat>)
      modifies this
      ensures retiring == HeldBy(old(At(id)))
      ensures replaced == if old(At(id)).Open? then Some(old(At(id)).generation) else None
      ensures At(id) == Pending(generation, retiring)
      ensures forall other :: other != id ==> At(other) == old(At(other))
    {
      retiring, replaced := None, None;
      if id in slots {
        match slots[id] {
          case Open(g, handle) => retiring, replaced := Some(handle), Some(g);
          case Pending(_, r) => retiring := r;
          case Tombstone(_, r) => retiring := r;
          case Vacant =>
        }
      }
      slots := slots[id := Pending(generation, retiring)];
    }

    // The generation cancelled, the handle to stop, and whether it was still active.
    method CancelCurrent(id: string) returns (r: Option<(nat, Option<H>, bool)>)
      modifies this
      ensures r.None? <==> old(At(id)).Vacant?
      ensures r.Some? ==> r.value == (old(At(id)).generation, HeldBy(old(At(id))), !old(At(id)).Tombstone?)
      ensures At(id) == if r.Some? then Cancelled(old(At(id))) else Vacant
      ensures forall other :: other != id ==> At(other) == old(At(other))
    {
      if id !in slots || slots[id].Vacant? {
        return None;
      }
      var current := slots[id];
      r := Some((current.generation, HeldBy(current), !current.Tombstone?));
      slots := slots[id := Tombstone(current.generation, HeldBy(current))];
    }

    method CancelGeneration(id: string, expected: nat) returns (r: Option<(nat, Option<H>, bool)>)
      modifies this
      ensures r.Some? <==> Names(old(At(id)), expected)
      ensures r.Some? ==> r.value == (expected, HeldBy(old(At(id))), !old(At(id)).Tombstone?)
      ensures At(id) == if r.Some? then Cancelled(old(At(id))) else old(At(id))
      ensures forall other :: other != id ==> At(other) == old(At(other))
    {
      r := None;
      if id in slots && !slots[id].Vacant? && slots[id].generation == expected {
        r := CancelCurrent(id);
      }
    }

    method InstallIfPending(id: string, generation: nat, handle: H) returns (ok: bool)
      modifies this
      ensures ok <==> IsPending(old(At(id)), generation)
      ensures At(id) == Installed(old(At(id)), generation, handle)
      ensures forall other :: other != id ==> At(other) == old(At(other))
    {
      ok := id in slots && slots[id].Pending? && slots[id].generation == generation;
      if ok {
        slots := slots[id := Open(generation, handle)];
      }
    }

    method RemoveOpenGeneration(id: string, generation: nat) returns (ok: bool)
      modifies this
      ensures ok <==> IsOpen(old(At(id)), generation)
      ensures At(id) == WithoutOpen(old(At(id)), generation)
      ensures forall other :: other != id ==> At(other) == old(At(other))
    {
      ok := id in slots && slots[id].Open? && slots[id].generation == generation;
      if ok {
        slots := slots - {id};
      }
    }

    method ClearInactiveGeneration(id: string, generation: nat) returns (ok: bool)
      modifies this
      ensures ok <==> Names(old(At(id)), generation) && !old(At(id)).Open?
      ensures At(id) == WithoutInactive(old(At(id)), generation)
      ensures forall other :: other != id ==> At(other) == old(At(other))
    {
      ok := id in slots && (slots[id].Pending? || slots[id].Tombstone?) && slots[id].generation == generation;
      if ok {
        slots := slots - {id};
      }
    }
  }

  // ---------------------------------------------------------------- the state machine

  datatype Event = Opened(generation: nat) | Terminal(generation: nat)

  datatype OpenPc =
    | StoppingOld            // waiting for the shutdown of the handle it replaces
    | Checking               // about to check that it is still pending
    | Opening                // opening the device
    | OpenDone(ok: bool)

  datatype Opener = Opener(retiring: Option<nat>, at: OpenPc)

  datatype ClosePc = Stopping | Clearing | CloseDone

  datatype Closer =
    | NothingToClose
    | Closer(generation: nat, retiring: Option<nat>, at: ClosePc)

  datatype WorkerPc = InLoop | LeftLoop | Exited

  // `finished` is the handle's shutdown cell, shared by everyone who stops it.
  datatype Handle = Handle(finished: bool, worker: WorkerPc)

  datatype State = State(
    slot: Slot<nat>,
    openers: map<nat, Opener>,  // by generation
    closers: map<nat, Closer>,
    handles: map<nat, Handle>,  // by generation
    trace: seq<Event>)

  datatype OpenMove =
    | OldStopped
    | Check
    | DeviceFails
    | Install
    | GateFails                 // the worker task is gone before it is released

  datatype CloseMove = HandleStopped | Clear

  datatype WorkerMove =
    | Leave                     // close command, closed queue, read or write error
    | Report                    // the section after the loop
    | Abort                     // the abort of a finished shutdown takes effect

  datatype Step =
    | BeginOpen(generation: nat)
    | MoveOpen(generation: nat, open: OpenMove)
    | BeginClose(task: nat, expected: Option<nat>)
    | MoveClose(task: nat, close: CloseMove)
    | ShutdownFinishes(handle: nat)
    | MoveWorker(handle: nat, worker: WorkerMove)

  function Init(): State { State(Vacant, map[], map[], map[], []) }

  predicate Finished(s: State, handle: Option<nat>) {
    handle.None? || (handle.value in s.handles && s.handles[handle.value].finished)
  }

  ghost predicate Awaited(s: State, h: nat) {
    || (exists g :: g in s.openers && s.openers[g].at.StoppingOld? && s.openers[g].retiring == Some(h))
    || (exists k :: k in s.closers && s.closers[k].Closer? && s.closers[k].at.Stopping?
          && s.closers[k].retiring == Some(h))
  }

  ghost predicate Enabled(s: State, step: Step) {
    match step
    case BeginOpen(g) => g !in s.openers
    case MoveOpen(g, move) => g in s.openers && OpenEnabled(s, s.openers[g], move)
    case BeginClose(k, _) => k !in s.closers
    case MoveClose(k, move) => k in s.closers && s.closers[k].Closer? && CloseEnabled(s, s.closers[k], move)
    case ShutdownFinishes(h) => h in s.handles && !s.handles[h].finished && Awaited(s, h)
    case MoveWorker(h, move) => h in s.handles && WorkerEnabled(s.handles[h], move)
  }

  predicate OpenEnabled(s: State, o: Opener, move: OpenMove) {
    match move
    case OldStopped => o.at.StoppingOld? && Finished(s, o.retiring)
    case Check => o.at.Checking?
    case DeviceFails => o.at.Opening?
    case Install => o.at.Opening?
    case GateFails => o.at.Opening?
  }

  predicate CloseEnabled(s: State, c: Closer, move: CloseMove)
    requires c.Closer?
  {
    match move
    case HandleStopped => c.at.Stopping? && Finished(s, c.retiring)
    case Clear => c.at.Clearing?
  }

  predicate WorkerEnabled(h: Handle, move: WorkerMove) {
    match move
    case Leave => h.worker.InLoop?
    case Report => h.worker.LeftLoop?
    case Abort => h.finished && !h.worker.Exited?
  }

  function SetOpener(s: State, g: nat, at: OpenPc): map<nat, Opener>
    requires g in s.openers
  {
    s.openers[g := s.openers[g].(at := at)]
  }

  // The moves of `serial_open`.
  function AfterOpen(s: State, g: nat, move: OpenMove): State
    requires g in s.openers
  {
    match move
    case OldStopped => s.(openers := SetOpener(s, g, Checking))
    case Check => s.(openers := SetOpener(s, g, if IsPending(s.slot, g) then Opening else OpenDone(false)))
    case DeviceFails => s.(slot := WithoutInactive(s.slot, g), openers := SetOpener(s, g, OpenDone(false)))
    case Install =>
      if IsPending(s.slot, g) then
        s.(slot := Installed(s.slot, g, g),
           openers := SetOpener(s, g, OpenDone(true)),
           handles := s.handles[g := Handle(false, InLoop)],
           trace := s.trace + [Opened(g)])
      else
        s.(slot := WithoutInactive(s.slot, g), openers := SetOpener(s, g, OpenDone(false)))
    case GateFails =>
      if IsPending(s.slot, g) then
        s.(slot := WithoutOpen(Installed(s.slot, g, g), g),
           openers := SetOpener(s, g, OpenDone(false)),
           handles := s.handles[g := Handle(false, Exited)],
           trace := s.trace + [Opened(g), Terminal(g)])
      else
        s.(slot := WithoutInactive(s.slot, g), openers := SetOpener(s, g, OpenDone(false)))
  }

  // The first section of `close_connection`.
  function AfterCancel(s: State, k: nat, expected: Option<nat>): State {
    if s.slot.Vacant? || (expected.Some? && expected.value != s.slot.generation) then
      s.(closers := s.closers[k := NothingToClose])
    else
      s.(slot := Cancelled(s.slot),
         closers := s.closers[k := Closer(s.slot.generation, HeldBy(s.slot),
           if HeldBy(s.slot).Some? then Stopping else Clearing)],
         trace := if s.slot.Tombstone? then s.trace else s.trace + [Terminal(s.slot.generation)])
  }

  function AfterWorker(s: State, h: nat, move: WorkerMove): State
    requires h in s.handles
  {
    match move
    case Leave => s.(handles := s.handles[h := s.handles[h].(worker := LeftLoop)])
    case Report =>
      s.(slot := WithoutOpen(s.slot, h),
         handles := s.handles[h := s.handles[h].(worker := Exited)],
         trace := if IsOpen(s.slot, h) then s.trace + [Terminal(h)] else s.trace)
    case Abort => s.(handles := s.handles[h := s.handles[h].(worker := Exited)])
  }

  function Apply(s: State, step: Step): State
    requires Enabled(s, step)
  {
    match step
    case BeginOpen(g) =>
      s.(slot := Pending(g, HeldBy(s.slot)),
         openers := s.openers[g := Opener(HeldBy(s.slot), if HeldBy(s.slot).Some? then StoppingOld else Checking)],
         trace := if s.slot.Open? then s.trace + [Terminal(s.slot.generation)] else s.trace)
    case MoveOpen(g, move) => AfterOpen(s, g, move)
    case BeginClose(k, expected) => AfterCancel(s, k, expected)
    case MoveClose(k, HandleStopped) => s.(closers := s.closers[k := s.closers[k].(at := Clearing)])
    case MoveClose(k, Clear) =>
      s.(slot := WithoutInactive(s.slot, s.closers[k].generation),
          closers := s.closers[k := s.closers[k].(at := CloseDone)])
    case ShutdownFinishes(h) => s.(handles := s.handles[h := s.handles[h].(finished := true)])
    case MoveWorker(h, move) => AfterWorker(s, h, move)
  }

  // ---------------------------------------------------------------- the events of one generation

  datatype Life = Silent | Announced | Ended | Broken

  function NextLife(life: Life, event: Event): Life {
    match life
    case Silent => if event.Opened? then Announced else Ended
    case Announced => if event.Terminal? then Ended else Broken
    case Ended => Broken
    case Broken => Broken
  }

  // What the trace says about one generation.
  function LifeOf(trace: seq<Event>, g: nat): Life {
    if trace == [] then Silent
    else
      var before := LifeOf(trace[..|trace| - 1], g);
      var last := trace[|trace| - 1];
      if last.generation == g then NextLife(before, last) else before
  }

  lemma LifeOfEmit(trace: seq<Event>, event: Event)
    ensures forall g :: LifeOf(trace + [event], g) == if event.generation ==
              g then NextLife(LifeOf(trace, g), event) else LifeOf(trace, g)
  {
    assert (trace + [event])[..|trace|] == trace;
  }

  // A life that never breaks: at most one opened, at most one terminal, in that order.
  lemma {:induction false} UnbrokenLife(trace: seq<Event>, g: nat, i: nat, j: nat)
    requires !LifeOf(trace, g).Broken? && i < j < |trace|
    requires trace[i].generation == g && trace[j].generation == g
    ensures trace[i].Opened? && trace[j].Terminal?
    ensures LifeOf(trace, g).Ended?
  {
    var front := trace[..|trace| - 1];
    if j < |trace| - 1 {
      UnbrokenLife(front, g, i, j);
    } else {
      SpokenLife(front, g, i);
    }
  }

  lemma {:induction false} SpokenLife(trace: seq<Event>, g: nat, i: nat)
    requires !LifeOf(trace, g).Broken? && i < |trace| && trace[i].generation == g
    ensures !LifeOf(trace, g).Silent?
    ensures LifeOf(trace, g).Announced? ==> trace[i].Opened?
  {
    var front := trace[..|trace| - 1];
    if i < |trace| - 1 {
      SpokenLife(front, g, i);
    }
  }

  // ---------------------------------------------------------------- what every step keeps

  // The handle that stopping generation g means stopping.
  function Retired(s: State, g: nat): Option<nat>
    requires g in s.openers
  {
    if g in s.handles then Some(g) else s.openers[g].retiring
  }

  predicate SlotKept(s: State) {
    match s.slot
    case Vacant => true
    case Pending(g, r) => g in s.openers && g !in s.handles && s.openers[g].retiring == r && !s.openers[g].at.OpenDone?
    case Open(g, h) => h == g && g in s.openers && g in s.handles
    case Tombstone(g, r) => g in s.openers && r == Retired(s, g)
  }

  ghost predicate OpenersKept(s: State) {
    && (forall g :: g in s.handles ==> g in s.openers && s.openers[g].at.OpenDone?)
    && (forall g :: g in s.openers ==> OpenerKept(s, s.openers[g]))
  }

  predicate OpenerKept(s: State, o: Opener) {
    && (o.retiring.Some? ==> o.retiring.value in s.handles)
    && (o.at.Checking? || o.at.Opening? ==> Finished(s, o.retiring))
  }

  ghost predicate ClosersKept(s: State) {
    forall k :: k in s.closers && s.closers[k].Closer? ==> CloserKept(s, s.closers[k])
  }

  predicate CloserKept(s: State, c: Closer)
    requires c.Closer?
  {
    && c.generation in s.openers
    && c.retiring == Retired(s, c.generation)
    && (c.at.Stopping? ==> c.retiring.Some?)
    && (!c.at.Stopping? ==> Finished(s, c.retiring))
    && (Names(s.slot, c.generation) ==> s.slot.Tombstone? && !c.at.CloseDone?)
  }

  // A worker that is in its loop while nobody has finished stopping it.
  predicate Live(s: State, h: nat) {
    h in s.handles && !s.handles[h].finished && s.handles[h].worker.InLoop?
  }

  ghost predicate LiveKept(s: State) {
    && (forall h: nat :: Live(s, h) ==> HeldBy(s.slot) == Some(h))
    && (s.slot.Open? ==> s.slot.generation in s.handles)
  }

  ghost predicate TombstoneKept(s: State) {
    s.slot.Tombstone? ==>
      exists k :: k in s.closers && s.closers[k].Closer? && s.closers[k].generation == s.slot.generation
        && !s.closers[k].at.CloseDone?
  }

  predicate LifeFits(s: State, g: nat, life: Life) {
    match life
    case Silent => !IsOpen(s.slot, g) && !(s.slot.Tombstone? && s.slot.generation == g)
    case Announced => IsOpen(s.slot, g)
    case Ended => g in s.openers && !IsPending(s.slot, g) && !IsOpen(s.slot, g)
    case Broken => false
  }

  ghost predicate TraceKept(s: State) {
    forall g: nat :: LifeFits(s, g, LifeOf(s.trace, g))
  }

  // What a close has cancelled has had its terminal event.
  ghost predicate ClosedKept(s: State) {
    forall k :: k in s.closers && s.closers[k].Closer? ==> LifeOf(s.trace, s.closers[k].generation).Ended?
  }

  ghost predicate Inv(s: State) {
    && SlotKept(s) && OpenersKept(s) && ClosersKept(s)
    && LiveKept(s) && TombstoneKept(s) && TraceKept(s) && ClosedKept(s)
  }

  lemma InitInv()
    ensures Inv(Init())
  {}

  // Opening a port: what the opener's own sections keep.

  lemma OpenKeepsSlot(s: State, g: nat, move: OpenMove)
    requires SlotKept(s) && OpenersKept(s) && Enabled(s, MoveOpen(g, move))
    ensures SlotKept(AfterOpen(s, g, move))
  {
    hide LifeOf, Awaited;
  }

  lemma OpenKeepsOpeners(s: State, g: nat, move: OpenMove)
    requires SlotKept(s) && OpenersKept(s) && Enabled(s, MoveOpen(g, move))
    ensures OpenersKept(AfterOpen(s, g, move))
  {
    hide LifeOf, Awaited;
    var after := AfterOpen(s, g, move);
    forall o | o in s.openers ensures OpenerKept(after, after.openers[o]) {
      assert OpenerKept(s, s.openers[o]);
    }
  }

  lemma OpenKeepsClosers(s: State, g: nat, move: OpenMove)
    requires SlotKept(s) && OpenersKept(s) && ClosersKept(s) && Enabled(s, MoveOpen(g, move))
    ensures ClosersKept(AfterOpen(s, g, move))
  {
    hide LifeOf, Awaited;
    var after := AfterOpen(s, g, move);
    forall k | k in s.closers && s.closers[k].Closer? ensures CloserKept(after, s.closers[k]) {
      assert CloserKept(s, s.closers[k]);
    }
  }

  lemma OpenKeepsLive(s: State, g: nat, move: OpenMove)
    requires SlotKept(s) && OpenersKept(s) && LiveKept(s) && Enabled(s, MoveOpen(g, move))
    ensures LiveKept(AfterOpen(s, g, move))
  {
    hide LifeOf, Awaited;
    assert OpenerKept(s, s.openers[g]);
  }

  lemma OpenKeepsTrace(s: State, g: nat, move: OpenMove)
    requires SlotKept(s) && TraceKept(s) && Enabled(s, MoveOpen(g, move))
    ensures TraceKept(AfterOpen(s, g, move))
  {
    var announced := s.trace + [Opened(g)];
    LifeOfEmit(s.trace, Opened(g));
    LifeOfEmit(announced, Terminal(g));
    assert announced + [Terminal(g)] == s.trace + [Opened(g), Terminal(g)];
    var after := AfterOpen(s, g, move);
    forall other: nat ensures LifeFits(after, other, LifeOf(after.trace, other)) {
      hide LifeOf, Awaited;
      assert LifeFits(s, other, LifeOf(s.trace, other)) && LifeFits(s, g, LifeOf(s.trace, g));
    }
  }

  // Everybody else's sections.

  lemma OthersKeepSlot(s: State, step: Step)
    requires SlotKept(s) && OpenersKept(s) && Enabled(s, step) && !step.MoveOpen?
    ensures SlotKept(Apply(s, step))
  {
    hide LifeOf, Awaited;
  }

  lemma OthersKeepOpeners(s: State, step: Step)
    requires SlotKept(s) && OpenersKept(s) && Enabled(s, step) && !step.MoveOpen?
    ensures OpenersKept(Apply(s, step))
  {
    hide LifeOf, Awaited;
    var after := Apply(s, step);
    forall o | o in after.openers ensures OpenerKept(after, after.openers[o]) {
      assert o in s.openers ==> OpenerKept(s, s.openers[o]);
    }
  }

  lemma OthersKeepClosers(s: State, step: Step)
    requires SlotKept(s) && OpenersKept(s) && ClosersKept(s) && Enabled(s, step) && !step.MoveOpen?
    ensures ClosersKept(Apply(s, step))
  {
    if step.MoveWorker? || step.ShutdownFinishes? {
      HandlesKeepClosers(s, step);
    } else {
      RequestsKeepClosers(s, step);
    }
  }

  lemma HandlesKeepClosers(s: State, step: Step)
    requires ClosersKept(s) && Enabled(s, step) && (step.MoveWorker? || step.ShutdownFinishes?)
    ensures ClosersKept(Apply(s, step))
  {
    hide LifeOf, Awaited;
    var after := Apply(s, step);
    forall k | k in after.closers && after.closers[k].Closer? ensures CloserKept(after, after.closers[k]) {
      assert CloserKept(s, s.closers[k]);
    }
  }

  lemma RequestsKeepClosers(s: State, step: Step)
    requires SlotKept(s) && OpenersKept(s) && ClosersKept(s)
    requires Enabled(s, step) && (step.BeginOpen? || step.BeginClose? || step.MoveClose?)
    ensures ClosersKept(Apply(s, step))
  {
    hide LifeOf, Awaited;
    var after := Apply(s, step);
    forall k | k in after.closers && after.closers[k].Closer? ensures CloserKept(after, after.closers[k]) {
      assert k in s.closers && s.closers[k].Closer? ==> CloserKept(s, s.closers[k]);
    }
  }

  lemma OthersKeepLive(s: State, step: Step)
    requires SlotKept(s) && ClosersKept(s) && LiveKept(s) && Enabled(s, step) && !step.MoveOpen?
    ensures LiveKept(Apply(s, step))
  {
    hide LifeOf, Awaited;
    if step.MoveClose? {
      assert CloserKept(s, s.closers[step.task]);
    }
  }

  lemma OthersKeepTrace(s: State, step: Step)
    requires SlotKept(s) && TraceKept(s) && Enabled(s, step) && !step.MoveOpen?
    ensures TraceKept(Apply(s, step))
  {
    hide LifeOf, Awaited;
    if !s.slot.Vacant? {
      LifeOfEmit(s.trace, Terminal(s.slot.generation));
    }
    var after := Apply(s, step);
    forall g: nat ensures LifeFits(after, g, LifeOf(after.trace, g)) {
      assert LifeFits(s, g, LifeOf(s.trace, g));
    }
  }

  lemma StepKeepsTombstone(s: State, step: Step)
    requires TombstoneKept(s) && Enabled(s, step)
    ensures TombstoneKept(Apply(s, step))
  {
    hide LifeOf, Awaited;
    var after := Apply(s, step);
    if after.slot.Tombstone? {
      if step.BeginClose? && after.closers[step.task].Closer? {
        assert after.closers[step.task].generation == after.slot.generation;
      } else {
        var k :| k in s.closers && s.closers[k].Closer? && s.closers[k].generation == s.slot.generation
            && !s.closers[k].at.CloseDone?;
        assert after.closers[k].generation == after.slot.generation;
      }
    }
  }

  lemma StepKeepsClosed(s: State, step: Step)
    requires SlotKept(s) && ClosersKept(s) && TraceKept(s) && ClosedKept(s) && Enabled(s, step)
    ensures ClosedKept(Apply(s, step))
  {
    EmittedByStep(s, step);
    hide LifeOf, Awaited, AfterOpen;
    var after := Apply(s, step);
    forall k | k in after.closers && after.closers[k].Closer?
      ensures LifeOf(after.trace, after.closers[k].generation).Ended? {
      if k in s.closers && s.closers[k].Closer? {
        var g := s.closers[k].generation;
        assert CloserKept(s, s.closers[k]) && LifeOf(s.trace, g).Ended?;
      } else {
        assert LifeFits(s, s.slot.generation, LifeOf(s.trace, s.slot.generation));
      }
    }
  }

  // Only the generation in the slot, while it is pending or open, gets an event.
  lemma EmittedByStep(s: State, step: Step)
    requires SlotKept(s) && Enabled(s, step)
    ensures forall g: nat | !IsPending(s.slot, g) && !IsOpen(s.slot, g) ::
              LifeOf(Apply(s, step).trace, g) == LifeOf(s.trace, g)
    ensures step.BeginClose? && !s.slot.Vacant? && !s.slot.Tombstone? && Apply(s, step).slot.Tombstone? ==>
              LifeOf(Apply(s, step).trace, s.slot.generation) ==
                NextLife(LifeOf(s.trace, s.slot.generation), Terminal(s.slot.generation))
  {
    if !s.slot.Vacant? {
      var g := s.slot.generation;
      LifeOfEmit(s.trace, Terminal(g));
      LifeOfEmit(s.trace, Opened(g));
      LifeOfEmit(s.trace + [Opened(g)], Terminal(g));
      assert s.trace + [Opened(g)] + [Terminal(g)] == s.trace + [Opened(g), Terminal(g)];
    }
    hide LifeOf, Awaited;
  }

  lemma StepKeepsInv(s: State, step: Step)
    requires Inv(s) && Enabled(s, step)
    ensures Inv(Apply(s, step))
  {
    hide SlotKept, OpenersKept, ClosersKept, LiveKept, TombstoneKept, TraceKept, ClosedKept, Enabled, AfterOpen;
    StepKeepsTombstone(s, step);
    StepKeepsClosed(s, step);
    if step.MoveOpen? {
      var MoveOpen(g, move) := step;
      OpenKeepsSlot(s, g, move);
      OpenKeepsOpeners(s, g, move);
      OpenKeepsClosers(s, g, move);
      OpenKeepsLive(s, g, move);
      OpenKeepsTrace(s, g, move);
    } else {
      OthersKeepSlot(s, step);
      OthersKeepOpeners(s, step);
      OthersKeepClosers(s, step);
      OthersKeepLive(s, step);
      OthersKeepTrace(s, step);
    }
  }

  // ---------------------------------------------------------------- every run

  ghost predicate IsRun(states: seq<State>, steps: seq<Step>) {
    && |states| == |steps| + 1
    && states[0] == Init()
    && forall i :: 0 <= i < |steps| ==> Enabled(states[i], steps[i]) && states[i + 1] == Apply(states[i], steps[i])
  }

  lemma {:induction false} RunKeepsInv(states: seq<State>, steps: seq<Step>, i: nat)
    requires IsRun(states, steps) && i <= |steps|
    ensures Inv(states[i])
  {
    hide Inv, Apply, Enabled, Init;
    if i == 0 {
      InitInv();
    } else {
      RunKeepsInv(states, steps, i - 1);
      assert Enabled(states[i - 1], steps[i - 1]);
      StepKeepsInv(states[i - 1], steps[i - 1]);
    }
  }

  // A worker that is in its loop, and whose shutdown has not finished, is never lost: the
  // slot holds its handle, as the open one or as the one being retired. So there is at
  // most one such worker.
  lemma LiveWorkerIsHeld(states: seq<State>, steps: seq<Step>, i: nat, h: nat)
    requires IsRun(states, steps) && i <= |steps| && Live(states[i], h)
    ensures HeldBy(states[i].slot) == Some(h)
    ensures forall other: nat :: Live(states[i], other) ==> other == h
  {
    RunKeepsInv(states, steps, i);
  }

  // When an open installs its session, every earlier worker has been shut down or has
  // left its loop, and the install is the first event of its generation.
  lemma InstallsAlone(states: seq<State>, steps: seq<Step>, i: nat, g: nat)
    requires IsRun(states, steps) && i < |steps|
    requires steps[i] == MoveOpen(g, Install) && IsPending(states[i].slot, g)
    ensures forall h: nat :: !Live(states[i], h)
    ensures Live(states[i + 1], g)
    ensures var after := states[i + 1]; forall h: nat :: Live(after, h) ==> h == g
    ensures forall k :: 0 <= k < |states[i].trace| ==> states[i].trace[k].generation != g
  {
    RunKeepsInv(states, steps, i);
    var s := states[i];
    assert Enabled(s, steps[i]);
    assert OpenerKept(s, s.openers[g]);
    RunKeepsInv(states, steps, i + 1);
    assert states[i + 1] == Apply(s, steps[i]);
    assert LifeFits(s, g, LifeOf(s.trace, g));
    forall k | 0 <= k < |s.trace| ensures s.trace[k].generation != g {
      if s.trace[k].generation == g {
        SpokenLife(s.trace, g, k);
      }
    }
    hide LifeOf;
  }

  // Two events of one generation are its opened event and then its terminal event; so
  // there is at most one of each, and opened never follows terminal.
  lemma EventsOfAGeneration(states: seq<State>, steps: seq<Step>, n: nat, i: nat, j: nat)
    requires IsRun(states, steps) && n <= |steps| && i < j < |states[n].trace|
    requires states[n].trace[i].generation == states[n].trace[j].generation
    ensures states[n].trace[i].Opened? && states[n].trace[j].Terminal?
  {
    RunKeepsInv(states, steps, n);
    var g := states[n].trace[i].generation;
    assert LifeFits(states[n], g, LifeOf(states[n].trace, g));
    UnbrokenLife(states[n].trace, g, i, j);
  }

  // The slot is open exactly for the generation whose opened event has no terminal event
  // yet: listeners and the map never disagree, and at most one session is open.
  lemma {:induction false} LifeSaid(trace: seq<Event>, g: nat)
    requires !LifeOf(trace, g).Broken?
    ensures LifeOf(trace, g).Announced? <==> Opened(g) in trace && Terminal(g) !in trace
    ensures LifeOf(trace, g).Silent? <==> Opened(g) !in trace && Terminal(g) !in trace
  {
    if trace != [] {
      LifeSaid(trace[..|trace| - 1], g);
      assert trace == trace[..|trace| - 1] + [trace[|trace| - 1]];
    }
  }

  lemma OpenMeansAnnounced(states: seq<State>, steps: seq<Step>, n: nat, g: nat)
    requires IsRun(states, steps) && n <= |steps|
    ensures IsOpen(states[n].slot, g) <==> Opened(g) in states[n].trace && Terminal(g) !in states[n].trace
  {
    RunKeepsInv(states, steps, n);
    assert LifeFits(states[n], g, LifeOf(states[n].trace, g));
    LifeSaid(states[n].trace, g);
  }

  // A close that has returned after cancelling g: g is gone for good. It is not in the
  // slot, its worker (or the one it was about to replace) has been shut down, and no
  // event of g will ever follow.
  lemma CloseIsABarrier(states: seq<State>, steps: seq<Step>, i: nat, j: nat, k: nat)
    requires IsRun(states, steps) && i <= j <= |steps|
    requires k in states[i].closers && states[i].closers[k].Closer? && states[i].closers[k].at.CloseDone?
    ensures var g := states[i].closers[k].generation;
            && !Names(states[j].slot, g)
            && !Live(states[j], g)
            && Finished(states[j], states[i].closers[k].retiring)
            && forall n :: |states[i].trace| <= n < |states[j].trace| ==> states[j].trace[n].generation != g
  {
    CloseStays(states, steps, i, j, k);
    RunKeepsInv(states, steps, i);
    RunKeepsInv(states, steps, j);
    var c := states[i].closers[k];
    assert CloserKept(states[j], c);
    TraceOnlyGrows(states, steps, i, j);
    var before, after := states[i].trace, states[j].trace;
    assert LifeOf(before, c.generation).Ended? && LifeFits(states[j], c.generation, LifeOf(after, c.generation));
    forall n | |before| <= n < |after| ensures after[n].generation != c.generation {
      if after[n].generation == c.generation {
        EndedIsLast(before, after, c.generation, n);
      }
    }
  }

  lemma {:induction false} EndedIsLast(before: seq<Event>, after: seq<Event>, g: nat, n: nat)
    requires |before| <= n < |after| && before == after[..|before|]
    requires LifeOf(before, g).Ended? && after[n].generation == g
    ensures LifeOf(after, g).Broken?
  {
    var front := after[..|after| - 1];
    if n < |after| - 1 {
      EndedIsLast(before, front, g, n);
    } else {
      EndedOrBroken(before, front, g);
    }
  }

  lemma {:induction false} EndedOrBroken(before: seq<Event>, after: seq<Event>, g: nat)
    requires |before| <= |after| && before == after[..|before|] && LifeOf(before, g).Ended?
    ensures LifeOf(after, g).Ended? || LifeOf(after, g).Broken?
  {
    if |after| > |before| {
      EndedOrBroken(before, after[..|after| - 1], g);
    } else {
      assert after == before;
    }
  }

  lemma {:induction false} CloseStays(states: seq<State>, steps: seq<Step>, i: nat, j: nat, k: nat)
    requires IsRun(states, steps) && i <= j <= |steps|
    requires k in states[i].closers && states[i].closers[k].Closer? && states[i].closers[k].at.CloseDone?
    ensures k in states[j].closers && states[j].closers[k] == states[i].closers[k]
    decreases j
  {
    if i < j {
      CloseStays(states, steps, i, j - 1, k);
      assert Enabled(states[j - 1], steps[j - 1]);
    }
  }

  lemma {:induction false} TraceOnlyGrows(states: seq<State>, steps: seq<Step>, i: nat, j: nat)
    requires IsRun(states, steps) && i <= j <= |steps|
    ensures |states[i].trace| <= |states[j].trace| && states[i].trace == states[j].trace[..|states[i].trace|]
    decreases j
  {
    if i < j {
      TraceOnlyGrows(states, steps, i, j - 1);
      assert Enabled(states[j - 1], steps[j - 1]);
    }
  }

  // Nothing is left behind: an open that has returned is not pending, and once every open
  // and close has returned the slot is vacant or open.
  lemma NothingIsLeftBehind(states: seq<State>, steps: seq<Step>, i: nat)
    requires IsRun(states, steps) && i <= |steps|
    ensures forall g | g in states[i].openers && states[i].openers[g].at.OpenDone? :: !IsPending(states[i].slot, g)
    ensures
      && (forall g | g in states[i].openers :: states[i].openers[g].at.OpenDone?)
      && (forall k | k in states[i].closers && states[i].closers[k].Closer? :: states[i].closers[k].at.CloseDone?)
      ==> states[i].slot.Vacant? || states[i].slot.Open?
  {
    RunKeepsInv(states, steps, i);
  }

  // An open or close that has not returned can take a step, or is waiting for a shutdown
  // that can finish.
  lemma NeverStuck(states: seq<State>, steps: seq<Step>, i: nat, g: nat, k: nat)
    requires IsRun(states, steps) && i <= |steps|
    ensures g in states[i].openers && !states[i].openers[g].at.OpenDone? ==>
              || (exists move :: Enabled(states[i], MoveOpen(g, move)))
              || (states[i].openers[g].retiring.Some?
                    && Enabled(states[i], ShutdownFinishes(states[i].openers[g].retiring.value)))
    ensures k in states[i].closers && states[i].closers[k].Closer? && !states[i].closers[k].at.CloseDone? ==>
              || (exists move :: Enabled(states[i], MoveClose(k, move)))
              || (states[i].closers[k].retiring.Some?
                    && Enabled(states[i], ShutdownFinishes(states[i].closers[k].retiring.value)))
  {
    RunKeepsInv(states, steps, i);
    var s := states[i];
    hide IsRun, LifeOf, TraceKept, LiveKept, TombstoneKept, ClosedKept;
    if g in s.openers && !s.openers[g].at.OpenDone? {
      assert OpenerKept(s, s.openers[g]);
      match s.openers[g].at
      case StoppingOld => assert Finished(s, s.openers[g].retiring) ==> Enabled(s, MoveOpen(g, OldStopped));
      case Checking => assert Enabled(s, MoveOpen(g, Check));
      case Opening => assert Enabled(s, MoveOpen(g, Install));
    }
    if k in s.closers && s.closers[k].Closer? && !s.closers[k].at.CloseDone? {
      assert CloserKept(s, s.closers[k]);
      if s.closers[k].at.Clearing? {
        assert Enabled(s, MoveClose(k, Clear));
      } else {
        assert Finished(s, s.closers[k].retiring) ==> Enabled(s, MoveClose(k, HandleStopped));
      }
    }
  }
}
