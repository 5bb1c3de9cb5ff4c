// Starting, stopping and destroying one mock server session
// (src-tauri/src/mock_server.rs): any number of starts, stops, destroys, worker exits and
// late callbacks, in any interleaving.
//
// Each critical section of the lifecycle lock is one function on `Core`, which
// `MockServerLifecycle` runs on its fields. The cancellation tokens of a generation are
// known by that generation: a set of generations says which tokens were triggered.
module MockLifecycle {
  import opened Common

  datatype Phase = Stopped | Starting(generation: nat) | Running(generation: nat) | Stopping(generation: nat)

  datatype Core = Core(
    next: nat,
    phase: Phase,
    destroyed: bool,
    cancelled: set<nat>,      // start tokens that were cancelled
    stopFinished: set<nat>)   // stop-finished tokens that were triggered

  datatype StopAction =
    | NothingToStop
    | StopStarting(generation: nat)
    | StopRunning(generation: nat)
    | WaitForStop(generation: nat)

  // ---------------------------------------------------------------- critical sections

  predicate CanReserve(core: Core) { !core.destroyed && core.phase.Stopped? }

  function Reserved(core: Core): Core {
    if CanReserve(core) then core.(next := core.next + 1, phase := Starting(core.next)) else core
  }

  predicate CanInstall(core: Core, g: nat) { core.phase == Starting(g) && g !in core.cancelled }

  function Installed(core: Core, g: nat): Core {
    if CanInstall(core, g) then core.(phase := Running(g)) else core
  }

  // `mark_start_failed`
  function StartFailed(core: Core, g: nat): Core {
    if core.phase == Starting(g) then core.(phase := Stopped) else core
  }

  // `mark_running_finished`
  function RunFinished(core: Core, g: nat): Core {
    if core.phase == Running(g) then core.(phase := Stopped) else core
  }

  function StopActionOf(phase: Phase): StopAction {
    match phase
    case Stopped => NothingToStop
    case Starting(g) => StopStarting(g)
    case Running(g) => StopRunning(g)
    case Stopping(g) => WaitForStop(g)
  }

  // `begin_stop`
  function StopBegun(core: Core): Core {
    if core.phase.Starting? || core.phase.Running? then
      core.(phase := Stopping(core.phase.generation), cancelled := core.cancelled + {core.phase.generation})
    else core
  }

  // `complete_stop`
  function StopCompleted(core: Core, g: nat): Core {
    if core.phase == Stopping(g) then core.(phase := Stopped, stopFinished := core.stopFinished + {g}) else core
  }

  // ---------------------------------------------------------------- the object

  class MockServerLifecycle {
    var nextGeneration: nat
    var phase: Phase
    var destroyed: bool
    var cancelled: set<nat>
    var stopFinished: set<nat>

    constructor ()
      ensures View() == Core(1, Stopped, false, {}, {})
    {
      nextGeneration, phase, destroyed, cancelled, stopFinished := 1, Stopped, false, {}, {};
    }

    ghost function View(): Core
      reads this
    {
      Core(nextGeneration, phase, destroyed, cancelled, stopFinished)
    }

    method ReserveStart() returns (r: Option<nat>)
      modifies this
      ensures View() == Reserved(old(View()))
      ensures r == if CanReserve(old(View())) then Some(old(nextGeneration)) else None
    {
      if destroyed {
        return None;
      }
      if phase != Stopped {
        return None;
      }
      var generation := nextGeneration;
      nextGeneration := nextGeneration + 1;
      phase := Starting(generation);
      r := Some(generation);
    }

    method InstallRunning(g: nat) returns (ok: bool)
      modifies this
      ensures View() == Installed(old(View()), g)
      ensures ok <==> CanInstall(old(View()), g)
    {
      ok := phase == Starting(g) && g !in cancelled;
      if ok {
        phase := Running(g);
      }
    }

    method MarkStartFailed(g: nat)
      modifies this
      ensures View() == StartFailed(old(View()), g)
    {
      if phase == Starting(g) {
        phase := Stopped;
      }
    }

    method MarkRunningFinished(g: nat)
      modifies this
      ensures View() == RunFinished(old(View()), g)
    {
      if phase == Running(g) {
        phase := Stopped;
      }
    }

    method BeginStop() returns (action: StopAction)
      modifies this
      ensures View() == StopBegun(old(View()))
      ensures action == StopActionOf(old(phase))
    {
      var current := phase;
      phase := Stopped;
      match current {
        case Stopped => action := NothingToStop;
        case Starting(g) =>
          phase := Stopping(g);
          cancelled := cancelled + {g};
          action := StopStarting(g);
        case Running(g) =>
          phase := Stopping(g);
          cancelled := cancelled + {g};
          action := StopRunning(g);
        case Stopping(g) =>
          phase := Stopping(g);
          action := WaitForStop(g);
      }
    }

    method BeginDestroy() returns (action: StopAction)
      modifies this
      ensures View() == StopBegun(old(View())).(destroyed := true)
      ensures action == StopActionOf(old(phase))
    {
      destroyed := true;
      action := BeginStop();
    }

    method CompleteStop(g: nat)
      modifies this
      ensures View() == StopCompleted(old(View()), g)
    {
      if phase != Stopping(g) {
        return;
      }
      phase := Stopped;
      stopFinished := stopFinished + {g};
    }
  }

  // ---------------------------------------------------------------- the state machine

  datatype StartPc =
    | Binding                // waiting for the bind or for its cancellation
    | BindFailed             // about to mark the start failed
    | Installing             // listener bound, worker spawned behind its gate
    | Reaping                // refused; joining its own worker
    | Dropping               // about to return an error, its guard still armed
    | StartDone(ok: bool)

  // A worker owns its listener until it has stopped serving.
  datatype WorkerPc = Gated | Serving | Finishing | Ended

  datatype Coordinator = AwaitStart | AwaitTask | CoordinatorDone

  datatype Waiter = Waiting(generation: nat) | Returned(stopped: Option<nat>)

  datatype State = State(
    core: Core,
    starters: map<nat, StartPc>,         // by generation
    startFinished: set<nat>,             // start-finished tokens that were triggered
    workers: map<nat, WorkerPc>,         // by generation
    coordinators: map<nat, Coordinator>, // by the generation they stop
    waiters: map<nat, Waiter>,           // callers of stop and destroy
    callbacks: set<nat>)                 // guards dropped while armed, callback still to run

  datatype StartMove = SeeCancelled | BindFails | Binds | MarkFailed | TryInstall | Reap | DropGuard

  datatype WorkerMove = StopServing | MarkFinished

  datatype Step =
    | Reserve
    | MoveStart(generation: nat, start: StartMove)
    | MoveWorker(generation: nat, worker: WorkerMove)
    | Stop(caller: nat, destroy: bool)
    | Coordinate(generation: nat)
    | Return(caller: nat)
    | LateCallback(generation: nat)

  function Init(): State {
    State(Core(1, Stopped, false, {}, {}), map[], {}, map[], map[], map[], {})
  }

  predicate StartEnabled(s: State, g: nat, at: StartPc, move: StartMove) {
    match move
    case SeeCancelled => at.Binding? && g in s.core.cancelled
    case BindFails => at.Binding?
    case Binds => at.Binding?
    case MarkFailed => at.BindFailed?
    case TryInstall => at.Installing?
    case Reap => at.Reaping?
    case DropGuard => at.Dropping?
  }

  predicate WorkerEnabled(at: WorkerPc, move: WorkerMove) {
    match move
    case StopServing => at.Serving?
    case MarkFinished => at.Finishing?
  }

  // What a coordinator waits for.
  predicate CanComplete(s: State, g: nat, c: Coordinator) {
    match c
    case AwaitStart => g in s.startFinished
    case AwaitTask => g in s.workers && s.workers[g].Ended?
    case CoordinatorDone => false
  }

  predicate Enabled(s: State, step: Step) {
    match step
    case Reserve => true
    case MoveStart(g, move) => g in s.starters && StartEnabled(s, g, s.starters[g], move)
    case MoveWorker(g, move) => g in s.workers && WorkerEnabled(s.workers[g], move)
    case Stop(k, _) => k !in s.waiters
    case Coordinate(g) => g in s.coordinators && CanComplete(s, g, s.coordinators[g])
    case Return(k) => k in s.waiters && s.waiters[k].Waiting? && s.waiters[k].generation in s.core.stopFinished
    case LateCallback(g) => g in s.callbacks
  }

  function AfterStart(s: State, g: nat, move: StartMove): State {
    match move
    case SeeCancelled => s.(starters := s.starters[g := Dropping])
    case BindFails => s.(starters := s.starters[g := BindFailed])
    case Binds => s.(starters := s.starters[g := Installing], workers := s.workers[g := Gated])
    case MarkFailed => s.(core := StartFailed(s.core, g), starters := s.starters[g := Dropping])
    case TryInstall =>
      if CanInstall(s.core, g) then
        s.(core := Installed(s.core, g),
           starters := s.starters[g := StartDone(true)],
           startFinished := s.startFinished + {g},
           workers := s.workers[g := Serving])
      else s.(starters := s.starters[g := Reaping])
    case Reap => s.(workers := s.workers[g := Ended], starters := s.starters[g := Dropping])
    case DropGuard =>
      s.(starters := s.starters[g := StartDone(false)],
         startFinished := s.startFinished + {g},
         callbacks := s.callbacks + {g})
  }

  function AfterWorker(s: State, g: nat, move: WorkerMove): State {
    match move
    case StopServing =>
      s.(workers := s.workers[g := Finishing], core := s.core.(cancelled := s.core.cancelled + {g}))
    case MarkFinished => s.(workers := s.workers[g := Ended], core := RunFinished(s.core, g))
  }

  function AfterStop(s: State, k: nat, destroy: bool): State {
    var action := StopActionOf(s.core.phase);
    s.(core := StopBegun(s.core).(destroyed := s.core.destroyed || destroy),
       coordinators :=
         if action.StopStarting? then s.coordinators[action.generation := AwaitStart]
         else if action.StopRunning? then s.coordinators[action.generation := AwaitTask]
         else s.coordinators,
       waiters := s.waiters[k := if action.NothingToStop? then Returned(None) else Waiting(action.generation)])
  }

  function Apply(s: State, step: Step): State
    requires Enabled(s, step)
  {
    match step
    case Reserve =>
      if CanReserve(s.core) then s.(core := Reserved(s.core), starters := s.starters[s.core.next := Binding]) else s
    case MoveStart(g, move) => AfterStart(s, g, move)
    case MoveWorker(g, move) => AfterWorker(s, g, move)
    case Stop(k, destroy) => AfterStop(s, k, destroy)
    case Coordinate(g) =>
      s.(core := StopCompleted(s.core, g), coordinators := s.coordinators[g := CoordinatorDone])
    case Return(k) => s.(waiters := s.waiters[k := Returned(Some(s.waiters[k].generation))])
    case LateCallback(g) => s.(core := StartFailed(s.core, g), callbacks := s.callbacks - {g})
  }

  // ---------------------------------------------------------------- what every step keeps

  predicate IsPhaseOf(phase: Phase, g: nat) { !phase.Stopped? && phase.generation == g }

  function WorkerOf(s: State, g: nat): Option<WorkerPc> {
    if g in s.workers then Some(s.workers[g]) else None
  }

  // How far a start has got fits its worker, its start-finished token and the phase.
  predicate StarterFits(core: Core, finished: bool, worker: Option<WorkerPc>, g: nat, at: StartPc) {
    && g < core.next
    && (at.StartDone? <==> finished)
    && match at
       case Binding => (core.phase == Starting(g) || core.phase == Stopping(g)) && worker.None?
       case BindFailed => (core.phase == Starting(g) || core.phase == Stopping(g)) && worker.None?
       case Installing => (core.phase == Starting(g) || core.phase == Stopping(g)) && worker == Some(Gated)
       case Reaping => core.phase == Stopping(g) && worker == Some(Gated)
       case Dropping =>
         core.phase != Starting(g) && core.phase != Running(g) && (worker.None? || worker.value.Ended?)
       case StartDone(false) =>
         core.phase != Starting(g) && core.phase != Running(g) && (worker.None? || worker.value.Ended?)
       case StartDone(true) =>
         && core.phase != Starting(g) && worker.Some? && !worker.value.Gated?
         && (!worker.value.Ended? ==> core.phase == Running(g) || core.phase == Stopping(g))
         && (worker.value.Ended? ==> core.phase != Running(g))
  }

  predicate StarterKept(s: State, g: nat)
    requires g in s.starters
  {
    StarterFits(s.core, g in s.startFinished, WorkerOf(s, g), g, s.starters[g])
  }

  ghost predicate StartersKept(s: State) {
    && (forall g :: g in s.starters ==> StarterKept(s, g))
    && (forall g :: g in s.workers ==> g in s.starters)
    && (!s.core.phase.Stopped? ==> s.core.phase.generation in s.starters)
  }

  ghost predicate TokensKept(s: State) {
    && (forall g :: g in s.startFinished ==> g in s.starters)
    && (forall g :: g in s.core.cancelled ==> g in s.starters && s.core.phase != Starting(g))
    && (forall g :: g in s.callbacks ==> g in s.starters && s.starters[g] == StartDone(false))
    && (s.core.destroyed ==> s.core.phase.Stopped? || s.core.phase.Stopping?)
  }

  // A stop waits for the right thing, and nothing that was stopped comes back.
  predicate CoordinatorKept(s: State, g: nat, c: Coordinator) {
    && g in s.starters
    && (c.CoordinatorDone? <==> g in s.core.stopFinished)
    && (s.core.phase == Stopping(g) || c.CoordinatorDone?)
    && (c.AwaitStart? ==> s.starters[g] != StartDone(true) && g in s.core.cancelled)
    && (c.AwaitTask? ==> s.starters[g] == StartDone(true))
    && (c.CoordinatorDone? ==> !IsPhaseOf(s.core.phase, g) && s.starters[g].StartDone?)
  }

  ghost predicate StopsKept(s: State) {
    && (forall g :: g in s.coordinators ==> CoordinatorKept(s, g, s.coordinators[g]))
    && (forall g :: g in s.core.stopFinished ==> g in s.coordinators)
    && (s.core.phase.Stopping? ==> s.core.phase.generation in s.coordinators)
    && (forall k :: k in s.waiters && s.waiters[k].Waiting? ==> s.waiters[k].generation in s.coordinators)
    && (forall k :: k in s.waiters && s.waiters[k].Returned? && s.waiters[k].stopped.Some? ==>
          s.waiters[k].stopped.value in s.core.stopFinished)
  }

  ghost predicate Inv(s: State) { StartersKept(s) && TokensKept(s) && StopsKept(s) }

  lemma InitInv()
    ensures Inv(Init())
  {}

  // One start, seen through somebody's step.

  lemma StartSparesStarter(s: State, d: nat, move: StartMove, g: nat)
    requires g in s.starters && StarterKept(s, g)
    requires Enabled(s, MoveStart(d, move)) && StarterKept(s, d)
    requires d in s.core.cancelled ==> s.core.phase != Starting(d)
    ensures StarterKept(AfterStart(s, d, move), g)
  {}

  lemma WorkerSparesStarter(s: State, d: nat, move: WorkerMove, g: nat)
    requires g in s.starters && StarterKept(s, g)
    requires Enabled(s, MoveWorker(d, move)) && d in s.starters && StarterKept(s, d)
    ensures StarterKept(AfterWorker(s, d, move), g)
  {}

  lemma StopSparesStarter(core: Core, destroyed: bool, finished: bool, worker: Option<WorkerPc>, g: nat, at: StartPc)
    requires StarterFits(core, finished, worker, g, at)
    ensures StarterFits(StopBegun(core).(destroyed := destroyed), finished, worker, g, at)
  {}

  lemma CompleteSparesStarter(s: State, d: nat, g: nat)
    requires g in s.starters && StarterKept(s, g)
    requires Enabled(s, Coordinate(d)) && CoordinatorKept(s, d, s.coordinators[d]) && StarterKept(s, d)
    ensures StarterKept(Apply(s, Coordinate(d)), g)
  {}

  lemma CallbackSparesStarter(s: State, d: nat, g: nat)
    requires g in s.starters && StarterKept(s, g)
    requires d in s.callbacks && d in s.starters && s.starters[d] == StartDone(false) && StarterKept(s, d)
    ensures StarterKept(Apply(s, LateCallback(d)), g)
  {}

  lemma ReserveSparesStarter(s: State, g: nat)
    requires g in s.starters && StarterKept(s, g)
    ensures StarterKept(Apply(s, Reserve), g)
  {}

  lemma StepSparesStarter(s: State, step: Step, g: nat)
    requires Inv(s) && Enabled(s, step) && g in s.starters
    ensures g in Apply(s, step).starters && StarterKept(Apply(s, step), g)
  {
    hide StarterFits, CoordinatorKept;
    assert StarterKept(s, g);
    match step
    case Reserve => ReserveSparesStarter(s, g);
    case MoveStart(d, move) => StartSparesStarter(s, d, move, g);
    case MoveWorker(d, move) => WorkerSparesStarter(s, d, move, g);
    case Stop(_, destroy) =>
      StopSparesStarter(s.core, s.core.destroyed || destroy, g in s.startFinished, WorkerOf(s, g), g, s.starters[g]);
    case Coordinate(d) =>
      CoordinatorHasStarter(s, d);
      CompleteSparesStarter(s, d, g);
    case Return(_) =>
    case LateCallback(d) => CallbackSparesStarter(s, d, g);
  }

  lemma CoordinatorHasStarter(s: State, d: nat)
    requires StopsKept(s) && d in s.coordinators
    ensures d in s.starters
  {}

  lemma StepKeepsStarters(s: State, step: Step)
    requires Inv(s) && Enabled(s, step)
    ensures StartersKept(Apply(s, step))
  {
    StepKeepsDomains(s, step);
    hide StarterKept, StopsKept, TokensKept, Apply, AfterStart, AfterStop, Enabled;
    var after := Apply(s, step);
    forall g | g in after.starters ensures StarterKept(after, g) {
      if g in s.starters {
        StepSparesStarter(s, step, g);
      } else {
        OnlyReserveAdds(s, step, g);
        NewStarter(s);
      }
    }
  }

  lemma StepKeepsDomains(s: State, step: Step)
    requires StartersKept(s) && Enabled(s, step)
    ensures var after := Apply(s, step);
            && (forall g :: g in after.workers ==> g in after.starters)
            && (!after.core.phase.Stopped? ==> after.core.phase.generation in after.starters)
  {
    hide StarterKept;
  }

  lemma OnlyReserveAdds(s: State, step: Step, g: nat)
    requires Enabled(s, step) && g !in s.starters && g in Apply(s, step).starters
    ensures step.Reserve? && CanReserve(s.core) && g == s.core.next
  {}

  lemma NewStarter(s: State)
    requires StartersKept(s) && TokensKept(s) && CanReserve(s.core)
    ensures s.core.next in Apply(s, Reserve).starters && StarterKept(Apply(s, Reserve), s.core.next)
  {
    assert s.core.next !in s.starters by {
      assert s.core.next in s.starters ==> StarterKept(s, s.core.next);
    }
  }

  lemma StepKeepsTokens(s: State, step: Step)
    requires Inv(s) && Enabled(s, step)
    ensures TokensKept(Apply(s, step))
  {
    hide StarterKept, StopsKept;
    match step
    case MoveStart(g, move) => StartKeepsTokens(s, g, move);
    case MoveWorker(g, move) => WorkerKeepsTokens(s, g, move);
    case Stop(_, _) =>
    case Reserve => CancelledAreOld(s);
    case Coordinate(_) =>
    case Return(_) =>
    case LateCallback(_) =>
  }

  lemma CancelledAreOld(s: State)
    requires StartersKept(s)
    ensures s.core.next !in s.starters
  {
    assert s.core.next in s.starters ==> StarterKept(s, s.core.next);
  }

  lemma StartKeepsTokens(s: State, g: nat, move: StartMove)
    requires StartersKept(s) && TokensKept(s) && Enabled(s, MoveStart(g, move))
    ensures TokensKept(AfterStart(s, g, move))
  {
    assert StarterKept(s, g);
    hide StarterKept;
  }

  lemma WorkerKeepsTokens(s: State, g: nat, move: WorkerMove)
    requires StartersKept(s) && TokensKept(s) && Enabled(s, MoveWorker(g, move))
    ensures TokensKept(AfterWorker(s, g, move))
  {
    assert StarterKept(s, g);
    hide StarterKept;
  }

  lemma StartKeepsStops(s: State, g: nat, move: StartMove)
    requires Inv(s) && Enabled(s, MoveStart(g, move))
    ensures StopsKept(AfterStart(s, g, move))
  {
    assert StarterKept(s, g);
    hide StarterKept;
    var after := AfterStart(s, g, move);
    forall d | d in s.coordinators ensures CoordinatorKept(after, d, s.coordinators[d]) {
      assert CoordinatorKept(s, d, s.coordinators[d]);
    }
  }

  lemma StopKeepsStops(s: State, k: nat, destroy: bool)
    requires Inv(s) && Enabled(s, Stop(k, destroy))
    ensures StopsKept(AfterStop(s, k, destroy))
  {
    hide StarterKept, CoordinatorKept, TokensKept;
    var after := AfterStop(s, k, destroy);
    forall d | d in after.coordinators ensures CoordinatorKept(after, d, after.coordinators[d]) {
      StopKeepsCoordinator(s, k, destroy, d);
    }
  }

  lemma StopKeepsCoordinator(s: State, k: nat, destroy: bool, d: nat)
    requires StartersKept(s) && StopsKept(s) && d in AfterStop(s, k, destroy).coordinators
    ensures var after := AfterStop(s, k, destroy); CoordinatorKept(after, d, after.coordinators[d])
  {
    if IsPhaseOf(s.core.phase, d) {
      assert StarterKept(s, d);
    }
    hide StarterKept;
    assert d in s.coordinators ==> CoordinatorKept(s, d, s.coordinators[d]);
  }

  lemma OthersKeepStops(s: State, step: Step)
    requires Inv(s) && Enabled(s, step) && !step.MoveStart? && !step.Stop?
    ensures StopsKept(Apply(s, step))
  {
    hide StarterKept;
    var after := Apply(s, step);
    forall d | d in after.coordinators ensures CoordinatorKept(after, d, after.coordinators[d]) {
      OthersKeepCoordinator(s, step, d);
    }
    hide CoordinatorKept;
  }

  lemma OthersKeepCoordinator(s: State, step: Step, d: nat)
    requires Inv(s) && Enabled(s, step) && !step.MoveStart? && !step.Stop? && d in s.coordinators
    ensures var after := Apply(s, step); d in after.coordinators && CoordinatorKept(after, d, after.coordinators[d])
  {
    assert CoordinatorKept(s, d, s.coordinators[d]);
    hide StopsKept;
    assert StarterKept(s, d);
    hide StartersKept;
  }

  lemma StepKeepsInv(s: State, step: Step)
    requires Inv(s) && Enabled(s, step)
    ensures Inv(Apply(s, step))
  {
    StepKeepsStarters(s, step);
    StepKeepsTokens(s, step);
    hide StartersKept, TokensKept, StopsKept, Enabled, AfterStart, AfterStop;
    match step
    case MoveStart(g, move) => StartKeepsStops(s, g, move);
    case Stop(k, destroy) => StopKeepsStops(s, k, destroy);
    case Reserve => OthersKeepStops(s, step);
    case MoveWorker(_, _) => OthersKeepStops(s, step);
    case Coordinate(_) => OthersKeepStops(s, step);
    case Return(_) => OthersKeepStops(s, step);
    case LateCallback(_) => OthersKeepStops(s, step);
  }

  // ---------------------------------------------------------------- every run

  ghost predicate IsRun(states: seq<State>, steps: seq<Step>) {
    && |states| == |steps| + 1
    && states[0] == Init()
    && forall i :: 0 <= i < |steps| ==> Enabled(states[i], steps[i]) && states[i + 1] == Apply(states[i], steps[i])
  }

  lemma {:induction false} RunKeepsInv(states: seq<State>, steps: seq<Step>, i: nat)
    requires IsRun(states, steps) && i <= |steps|
    ensures Inv(states[i])
  {
    hide Inv, Apply, Enabled, Init;
    if i == 0 {
      InitInv();
    } else {
      RunKeepsInv(states, steps, i - 1);
      assert Enabled(states[i - 1], steps[i - 1]);
      StepKeepsInv(states[i - 1], steps[i - 1]);
    }
  }

  predicate HoldsListener(s: State, g: nat) {
    g in s.workers && (s.workers[g].Gated? || s.workers[g].Serving?)
  }

  // A start that can still bind or install; one that has given up only drops its guard.
  predicate UnderWay(s: State, g: nat) {
    g in s.starters && !s.starters[g].StartDone? && !s.starters[g].Dropping?
  }

  // Whatever is still going on for a generation, the phase names that generation: its
  // start is under way, or its worker has not ended. So at most one listener is ever
  // bound, and at most one start is ever under way.
  lemma OneGenerationAtATime(states: seq<State>, steps: seq<Step>, i: nat, g: nat)
    requires IsRun(states, steps) && i <= |steps|
    requires
      || UnderWay(states[i], g)
      || (g in states[i].workers && !states[i].workers[g].Ended?)
    ensures IsPhaseOf(states[i].core.phase, g)
    ensures forall other: nat :: HoldsListener(states[i], other) || UnderWay(states[i], other) ==> other == g
  {
    RunKeepsInv(states, steps, i);
    assert StarterKept(states[i], g);
    forall other: nat | HoldsListener(states[i], other) || UnderWay(states[i], other) ensures other == g {
      assert StarterKept(states[i], other);
    }
  }

  // A step made on behalf of a generation other than the one the phase names never moves
  // the phase; and the callback of a dropped start guard never moves it at all.
  lemma LateStepsAreHarmless(states: seq<State>, steps: seq<Step>, i: nat)
    requires IsRun(states, steps) && i < |steps|
    ensures steps[i].LateCallback? ==> states[i + 1].core == states[i].core
    ensures steps[i].MoveStart? || steps[i].MoveWorker? || steps[i].Coordinate? ==>
              IsPhaseOf(states[i].core.phase, steps[i].generation) || states[i + 1].core.phase == states[i].core.phase
  {
    RunKeepsInv(states, steps, i);
    assert Enabled(states[i], steps[i]) && states[i + 1] == Apply(states[i], steps[i]);
    if steps[i].LateCallback? {
      assert StarterKept(states[i], steps[i].generation);
    }
    hide StarterKept, StopsKept, IsRun;
  }

  // Stopping(g) is left only when the coordinator of g completes. By then the start of g
  // has returned and its worker has ended, and every caller waiting for g can return.
  lemma StoppingIsLeftOnlyByItsCompletion(states: seq<State>, steps: seq<Step>, i: nat, g: nat)
    requires IsRun(states, steps) && i < |steps|
    requires states[i].core.phase == Stopping(g) && states[i + 1].core.phase != Stopping(g)
    ensures steps[i] == Coordinate(g) && states[i + 1].core.phase == Stopped
    ensures g in states[i].starters && states[i].starters[g].StartDone?
    ensures g in states[i].workers ==> states[i].workers[g].Ended?
    ensures var after := states[i + 1];
            forall k | k in after.waiters && after.waiters[k] == Waiting(g) :: Enabled(after, Return(k))
  {
    RunKeepsInv(states, steps, i);
    var s := states[i];
    assert Enabled(s, steps[i]) && states[i + 1] == Apply(s, steps[i]);
    hide IsRun;
    assert StarterKept(s, g) by {
      assert CoordinatorKept(s, g, s.coordinators[g]);
    }
    hide StartersKept;
    LeavesStopping(s, steps[i], g);
  }

  lemma LeavesStopping(s: State, step: Step, g: nat)
    requires StopsKept(s) && Enabled(s, step)
    requires s.core.phase == Stopping(g) && Apply(s, step).core.phase != Stopping(g)
    ensures step == Coordinate(g) && Apply(s, step).core.phase == Stopped
    ensures g in s.coordinators && g in Apply(s, step).core.stopFinished
    ensures s.coordinators[g].AwaitStart? ==> g in s.startFinished
    ensures s.coordinators[g].AwaitTask? ==> g in s.workers && s.workers[g].Ended?
  {}

  // After a destroy the session is never starting or running again, and no new
  // generation is ever reserved.
  lemma {:induction false} DestroyedStaysDown(states: seq<State>, steps: seq<Step>, i: nat, j: nat)
    requires IsRun(states, steps) && i <= j <= |steps| && states[i].core.destroyed
    ensures states[j].core.destroyed && (states[j].core.phase.Stopped? || states[j].core.phase.Stopping?)
    ensures states[j].core.next == states[i].core.next
    decreases j
  {
    hide Apply, Enabled, Init, StartersKept, StopsKept;
    RunKeepsInv(states, steps, j);
    if i < j {
      DestroyedStaysDown(states, steps, i, j - 1);
      assert Enabled(states[j - 1], steps[j - 1]);
      DestroyedStep(states[j - 1], steps[j - 1]);
    }
  }

  lemma DestroyedStep(s: State, step: Step)
    requires Enabled(s, step) && s.core.destroyed
    ensures Apply(s, step).core.destroyed && Apply(s, step).core.next == s.core.next
  {}

  // A stop or destroy that has returned after stopping g: from then on g holds no
  // listener, its worker has ended, its start has returned, and the phase never names it.
  lemma StopIsABarrier(states: seq<State>, steps: seq<Step>, i: nat, j: nat, k: nat, g: nat)
    requires IsRun(states, steps) && i <= j <= |steps|
    requires k in states[i].waiters && states[i].waiters[k] == Returned(Some(g))
    ensures !IsPhaseOf(states[j].core.phase, g)
    ensures g in states[j].starters && states[j].starters[g].StartDone?
    ensures g in states[j].workers ==> states[j].workers[g].Ended?
  {
    ReturnedStays(states, steps, i, j, k);
    RunKeepsInv(states, steps, j);
    assert CoordinatorKept(states[j], g, states[j].coordinators[g]);
    assert StarterKept(states[j], g);
  }

  lemma {:induction false} ReturnedStays(states: seq<State>, steps: seq<Step>, i: nat, j: nat, k: nat)
    requires IsRun(states, steps) && i <= j <= |steps| && k in states[i].waiters && states[i].waiters[k].Returned?
    ensures k in states[j].waiters && states[j].waiters[k] == states[i].waiters[k]
    decreases j
  {
    if i < j {
      ReturnedStays(states, steps, i, j - 1, k);
      assert Enabled(states[j - 1], steps[j - 1]);
    }
  }

  // How many steps of generation g a stop of g still has to wait for.
  function StepsToStop(s: State, g: nat): nat {
    1 + (if g !in s.starters then 0 else StartRank(s.starters[g])) + WorkerRank(WorkerOf(s, g))
  }

  function StartRank(at: StartPc): nat {
    match at
    case Binding => 4
    case BindFailed => 3
    case Installing => 3
    case Reaping => 2
    case Dropping => 1
    case StartDone(_) => 0
  }

  function WorkerRank(at: Option<WorkerPc>): nat {
    if at == Some(Serving) then 2 else if at == Some(Finishing) then 1 else 0
  }

  predicate IsStepOf(step: Step, g: nat) {
    (step.MoveStart? || step.MoveWorker? || step.Coordinate?) && step.generation == g
  }

  // A stop cannot be stranded: while the phase is Stopping(g) a step of g is enabled, each
  // of those brings the stop closer to its end, and no other step takes it further away.
  lemma StoppingMakesProgress(states: seq<State>, steps: seq<Step>, i: nat, g: nat)
    requires IsRun(states, steps) && i < |steps| && states[i].core.phase == Stopping(g)
    ensures exists step :: Enabled(states[i], step) && IsStepOf(step, g)
    ensures states[i + 1].core.phase == Stopped || states[i + 1].core.phase == Stopping(g)
    ensures states[i + 1].core.phase == Stopping(g) && IsStepOf(steps[i], g) ==>
              StepsToStop(states[i + 1], g) < StepsToStop(states[i], g)
    ensures !IsStepOf(steps[i], g) ==>
              states[i + 1].core.phase == Stopping(g) && StepsToStop(states[i + 1], g) == StepsToStop(states[i], g)
  {
    RunKeepsInv(states, steps, i);
    var s := states[i];
    assert Enabled(s, steps[i]) && states[i + 1] == Apply(s, steps[i]);
    StoppingEnabled(s, g);
    assert StarterKept(s, g);
    hide IsRun, StartersKept, StopsKept, TokensKept, Apply, Enabled;
    if IsStepOf(steps[i], g) {
      StoppingOwnStep(s, steps[i], g);
    } else {
      StoppingOtherStep(s, steps[i], g);
    }
  }

  lemma StoppingEnabled(s: State, g: nat)
    requires Inv(s) && s.core.phase == Stopping(g)
    ensures exists step :: Enabled(s, step) && IsStepOf(step, g)
  {
    assert CoordinatorKept(s, g, s.coordinators[g]);
    assert StarterKept(s, g);
    hide StartersKept, StopsKept;
    match s.starters[g]
    case Binding => assert Enabled(s, MoveStart(g, Binds)) && IsStepOf(MoveStart(g, Binds), g);
    case BindFailed => assert Enabled(s, MoveStart(g, MarkFailed)) && IsStepOf(MoveStart(g, MarkFailed), g);
    case Installing => assert Enabled(s, MoveStart(g, TryInstall)) && IsStepOf(MoveStart(g, TryInstall), g);
    case Reaping => assert Enabled(s, MoveStart(g, Reap)) && IsStepOf(MoveStart(g, Reap), g);
    case Dropping => assert Enabled(s, MoveStart(g, DropGuard)) && IsStepOf(MoveStart(g, DropGuard), g);
    case StartDone(_) =>
      if Enabled(s, Coordinate(g)) {
        assert IsStepOf(Coordinate(g), g);
      } else if s.workers[g].Serving? {
        assert Enabled(s, MoveWorker(g, StopServing)) && IsStepOf(MoveWorker(g, StopServing), g);
      } else {
        assert Enabled(s, MoveWorker(g, MarkFinished)) && IsStepOf(MoveWorker(g, MarkFinished), g);
      }
  }

  lemma StoppingOwnStep(s: State, step: Step, g: nat)
    requires g in s.starters && StarterKept(s, g)
    requires Enabled(s, step) && s.core.phase == Stopping(g) && IsStepOf(step, g)
    ensures var after := Apply(s, step);
            && (after.core.phase == Stopped || after.core.phase == Stopping(g))
            && (after.core.phase == Stopping(g) ==> StepsToStop(after, g) < StepsToStop(s, g))
  {
    hide AfterStart, AfterWorker, StarterKept, StepsToStop;
    match step
    case MoveStart(_, move) => StoppingOwnStart(s, g, move);
    case MoveWorker(_, move) => StoppingOwnWorker(s, g, move);
    case Coordinate(_) =>
  }

  lemma StoppingOwnStart(s: State, g: nat, move: StartMove)
    requires g in s.starters && StarterKept(s, g) && StartEnabled(s, g, s.starters[g], move)
              && s.core.phase == Stopping(g)
    ensures AfterStart(s, g, move).core.phase == Stopping(g)
    ensures StepsToStop(AfterStart(s, g, move), g) < StepsToStop(s, g)
  {}

  lemma StoppingOwnWorker(s: State, g: nat, move: WorkerMove)
    requires g in s.workers && WorkerEnabled(s.workers[g], move) && s.core.phase == Stopping(g)
    ensures AfterWorker(s, g, move).core.phase == Stopping(g)
    ensures StepsToStop(AfterWorker(s, g, move), g) < StepsToStop(s, g)
  {}

  lemma StoppingOtherStep(s: State, step: Step, g: nat)
    requires g in s.starters && g < s.core.next
    requires Enabled(s, step) && s.core.phase == Stopping(g) && !IsStepOf(step, g)
    ensures Apply(s, step).core.phase == Stopping(g) && StepsToStop(Apply(s, step), g) == StepsToStop(s, g)
  {
    hide StartRank, WorkerRank;
    if step.MoveStart? {
      hide AfterStart, CanInstall;
      StartFrame(s, step.generation, step.start, g);
    }
  }

  // A start leaves every other generation alone.
  lemma StartFrame(s: State, d: nat, move: StartMove, g: nat)
    requires d != g && g in s.starters
    ensures var after := AfterStart(s, d, move);
            && g in after.starters && after.starters[g] == s.starters[g] && WorkerOf(after, g) == WorkerOf(s, g)
            && (s.core.phase == Stopping(g) ==> after.core.phase == Stopping(g))
  {}
}
