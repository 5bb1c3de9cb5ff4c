// How starts and stops of Modbus slaves come to an end (src-tauri/src/modbus.rs): every
// task makes a bounded number of moves, waits for nothing but the holder of the gate, and
// in every run the moves of all tasks together are bounded by the number of requests.
module ModbusProgress {
  import opened Common
  import opened ModbusLifecycle

  datatype Task = StartOf(generation: nat) | StopOf(task: nat)

  // ---------------------------------------------------------------- moves that are left

  // At most this many moves of the holder until it lets go of the gate and returns.
  function HeldStartMoves(at: HeldStart): nat {
    match at
    case Taking => 7
    case Retiring(_) => 6
    case Announcing(_) => 5
    case Rechecking => 4
    case Opening => 3
    case Installing => 2
    case Discarding => 1
    case Failing => 1
    case Releasing => 1
  }

  function HeldStopMoves(at: HeldStop): nat {
    match at
    case Removing => 3
    case Joining(_) => 2
    case Reporting(_) => 1
  }

  function StartMoves(holder: Holder, at: StartPc): nat {
    match at
    case Superseding(_) => 9
    case Queued => 8
    case Clearing => 1
    case Inside => if holder.HeldByStart? then HeldStartMoves(holder.start) else 0
    case StartDone(_) => 0
  }

  function StopMoves(holder: Holder, at: StopPc): nat {
    match at
    case Interrupting(_) => 5
    case Waiting => 4
    case InsideStop => if holder.HeldByStop? then HeldStopMoves(holder.stop) else 0
    case StopDone(_) => 0
  }

  predicate Known(s: State, task: Task) {
    match task
    case StartOf(g) => g in s.starts
    case StopOf(t) => t in s.stops
  }

  predicate Returned(s: State, task: Task)
    requires Known(s, task)
  {
    match task
    case StartOf(g) => s.starts[g].at.StartDone?
    case StopOf(t) => s.stops[t].at.StopDone?
  }

  // Waiting for the gate.
  predicate AtGate(s: State, task: Task)
    requires Known(s, task)
  {
    match task
    case StartOf(g) => s.starts[g].at.Queued?
    case StopOf(t) => s.stops[t].at.Waiting?
  }

  function MovesLeft(s: State, task: Task): nat {
    if !Known(s, task) then 0
    else match task
      case StartOf(g) => StartMoves(s.holder, s.starts[g].at)
      case StopOf(t) => StopMoves(s.holder, s.stops[t].at)
  }

  function HolderTask(holder: Holder): Option<Task> {
    match holder
    case Free => None
    case HeldByStart(g, _) => Some(StartOf(g))
    case HeldByStop(t, _) => Some(StopOf(t))
  }

  // The task that makes a step; requests that begin and workers are nobody's moves.
  function Mover(s: State, step: Step): Option<Task> {
    match step
    case StartOutside(g) => Some(StartOf(g))
    case GiveUp(g) => Some(StartOf(g))
    case StopOutside(t) => Some(StopOf(t))
    case Held => HolderTask(s.holder)
    case OpenFails => HolderTask(s.holder)
    case _ => None
  }

  predicate Begins(step: Step) { step.BeginStart? || step.BeginStop? || step.BeginStopGeneration? }

  // ---------------------------------------------------------------- one step

  // A task has moves left exactly until it returns.
  lemma MovesLeftUntilReturned(s: State, task: Task)
    requires Inv(s) && Known(s, task)
    ensures MovesLeft(s, task) == 0 <==> Returned(s, task)
  {
    hide NumbersKept, PendingKept, ActiveKept, WorkersKept, TraceKept, OutcomesKept, BarrierKept;
  }

  // A move of a task uses up one of its moves.
  lemma OwnMove(s: State, step: Step)
    requires GateKept(s) && Enabled(s, step) && Mover(s, step).Some?
    ensures var task := Mover(s, step).value;
            Known(s, task) && Known(Apply(s, step), task) && MovesLeft(Apply(s, step), task) < MovesLeft(s, task)
  {
    if step.Held? && s.holder.HeldByStart? {
      OwnHeldStart(s);
    }
    hide HeldStartStep;
  }

  lemma OwnHeldStart(s: State)
    requires s.holder.HeldByStart? && s.holder.generation in s.starts && s.starts[s.holder.generation].at.Inside?
    ensures var g := s.holder.generation;
            var after := HeldStartStep(s, g, s.holder.start);
            g in after.starts && StartMoves(after.holder, after.starts[g].at) < HeldStartMoves(s.holder.start)
  {
    hide Current;
  }

  // No step of anybody else adds to the moves of a task.
  lemma OtherMove(s: State, step: Step, task: Task)
    requires NumbersKept(s) && GateKept(s) && Enabled(s, step) && Known(s, task) && Mover(s, step) != Some(task)
    ensures Known(Apply(s, step), task) && MovesLeft(Apply(s, step), task) == MovesLeft(s, task)
  {
    if step.Held? && s.holder.HeldByStart? {
      OtherHeldStart(s, task);
    }
    hide HeldStartStep;
  }

  lemma OtherHeldStart(s: State, task: Task)
    requires GateKept(s) && s.holder.HeldByStart? && Known(s, task) && task != StartOf(s.holder.generation)
    ensures var after := HeldStartStep(s, s.holder.generation, s.holder.start);
            Known(after, task) && MovesLeft(after, task) == MovesLeft(s, task)
  {
    hide Current;
  }

  // ---------------------------------------------------------------- one task

  function MovesMade(states: seq<State>, steps: seq<Step>, i: nat, j: nat, task: Task): nat
    requires i <= j <= |steps| <= |states|
  {
    if i == j then 0
    else MovesMade(states, steps, i, j - 1, task) + (if Mover(states[j - 1], steps[j - 1]) == Some(task) then 1 else 0)
  }

  lemma AtFirst(s: State, task: Task)
    ensures MovesLeft(s, task) <= if task.StartOf? then 9 else 5
  {}

  // Whatever the others do, a start returns after at most nine moves of its own and a
  // stop after at most five.
  lemma {:induction false} TaskMovesAreFew(states: seq<State>, steps: seq<Step>, i: nat, j: nat, task: Task)
    requires IsRun(states, steps) && i <= j <= |steps| && Known(states[i], task)
    ensures Known(states[j], task)
    ensures MovesMade(states, steps, i, j, task) + MovesLeft(states[j], task) <= MovesLeft(states[i], task)
    ensures MovesLeft(states[i], task) <= if task.StartOf? then 9 else 5
    decreases j
  {
    hide Known, MovesLeft, Mover, Apply, Enabled, Inv;
    AtFirst(states[i], task);
    if i < j {
      TaskMovesAreFew(states, steps, i, j - 1, task);
      RunKeepsInv(states, steps, j - 1);
      assert Enabled(states[j - 1], steps[j - 1]) && states[j] == Apply(states[j - 1], steps[j - 1]);
      AnyMove(states[j - 1], steps[j - 1], task);
    }
  }

  lemma AnyMove(s: State, step: Step, task: Task)
    requires Inv(s) && Enabled(s, step) && Known(s, task)
    ensures Known(Apply(s, step), task)
    ensures MovesLeft(Apply(s, step), task) + (if Mover(s, step) == Some(task) then 1 else 0) <= MovesLeft(s, task)
  {
    hide NumbersKept, PendingKept, ActiveKept, WorkersKept, TraceKept, OutcomesKept, BarrierKept, GateKept;
    hide Apply, Enabled, MovesLeft, Mover;
    if Mover(s, step) == Some(task) {
      OwnMove(s, step);
    } else {
      OtherMove(s, step, task);
    }
  }

  // A task that has not returned can move, unless it waits for the gate: then the gate is
  // held by another task that has not returned, and that one can move.
  lemma WaitsOnlyForTheHolder(states: seq<State>, steps: seq<Step>, i: nat, task: Task)
    requires IsRun(states, steps) && i <= |steps| && Known(states[i], task) && !Returned(states[i], task)
    ensures var s := states[i];
            || (exists step :: Enabled(s, step) && Mover(s, step) == Some(task))
            || (&& AtGate(s, task) && HolderTask(s.holder).Some? && HolderTask(s.holder) != Some(task)
                && Known(s, HolderTask(s.holder).value) && !Returned(s, HolderTask(s.holder).value)
                && Enabled(s, Held) && Mover(s, Held) == HolderTask(s.holder))
  {
    RunKeepsInv(states, steps, i);
    hide NumbersKept, PendingKept, ActiveKept, WorkersKept, TraceKept, OutcomesKept, BarrierKept, IsRun;
    var s := states[i];
    if HolderTask(s.holder) == Some(task) {
      assert Enabled(s, Held) && Mover(s, Held) == Some(task);
    } else if !AtGate(s, task) || s.holder.Free? {
      var step := if task.StartOf? then StartOutside(task.generation) else StopOutside(task.task);
      assert Enabled(s, step) && Mover(s, step) == Some(task);
    }
  }

  // ---------------------------------------------------------------- all tasks

  // The moves left to the start and the stop numbered n, and to all numbered below n.
  function MovesLeftAt(s: State, n: nat): nat { MovesLeft(s, StartOf(n)) + MovesLeft(s, StopOf(n)) }

  function TotalLeft(s: State, n: nat): nat {
    if n == 0 then 0 else TotalLeft(s, n - 1) + MovesLeftAt(s, n - 1)
  }

  lemma {:induction false} TotalChange(s: State, after: State, n: nat, at: nat, change: int)
    requires forall k: nat | k < n && k != at :: MovesLeftAt(after, k) <= MovesLeftAt(s, k)
    requires at < n ==> MovesLeftAt(after, at) <= MovesLeftAt(s, at) + change
    ensures TotalLeft(after, n) <= TotalLeft(s, n) + if at < n then change else 0
  {
    if n > 0 {
      TotalChange(s, after, n - 1, at, change);
    }
  }

  function Number(task: Task): nat { if task.StartOf? then task.generation else task.task }

  lemma MoveLowersTotal(s: State, step: Step, n: nat)
    requires Inv(s) && Enabled(s, step) && Mover(s, step).Some? && Number(Mover(s, step).value) < n
    ensures TotalLeft(Apply(s, step), n) < TotalLeft(s, n)
  {
    var task, after := Mover(s, step).value, Apply(s, step);
    OwnMove(s, step);
    NothingNew(s, step);
    hide NumbersKept, PendingKept, ActiveKept, WorkersKept, TraceKept, OutcomesKept, BarrierKept, GateKept;
    hide Apply, Enabled, Mover;
    forall other: Task | other != task ensures MovesLeft(after, other) <= MovesLeft(s, other) {
      if Known(s, other) {
        OtherMove(s, step, other);
      }
    }
    hide MovesLeft;
    TotalChange(s, after, n, Number(task), -1);
  }

  // Only a request that begins adds a task.
  lemma NothingNew(s: State, step: Step)
    requires Enabled(s, step) && !Begins(step)
    ensures forall task :: Known(Apply(s, step), task) ==> Known(s, task)
  {}

  lemma WorkersAddNothing(s: State, step: Step, n: nat)
    requires Inv(s) && Enabled(s, step) && Mover(s, step).None? && !Begins(step)
    ensures TotalLeft(Apply(s, step), n) <= TotalLeft(s, n)
  {
    var after := Apply(s, step);
    NothingNew(s, step);
    hide NumbersKept, PendingKept, ActiveKept, WorkersKept, TraceKept, OutcomesKept, BarrierKept, GateKept;
    hide Apply, Enabled, Mover;
    forall other: Task ensures MovesLeft(after, other) <= MovesLeft(s, other) {
      if Known(s, other) {
        OtherMove(s, step, other);
      }
    }
    hide MovesLeft;
    TotalChange(s, after, n, n, 0);
  }

  function Begun(s: State, step: Step): Task
    requires Begins(step)
  {
    if step.BeginStart? then StartOf(s.next) else StopOf(step.task)
  }

  lemma BeginAddsOneTask(s: State, step: Step)
    requires Inv(s) && Enabled(s, step) && Begins(step)
    ensures !Known(s, Begun(s, step)) && MovesLeft(Apply(s, step), Begun(s, step)) <= 9
    ensures forall task :: task != Begun(s, step) && Known(Apply(s, step), task) ==> Known(s, task)
  {
    hide GateKept, PendingKept, ActiveKept, WorkersKept, TraceKept, OutcomesKept, BarrierKept;
  }

  lemma BeginRaisesTotal(s: State, step: Step, n: nat)
    requires Inv(s) && Enabled(s, step) && Begins(step)
    ensures TotalLeft(Apply(s, step), n) <= TotalLeft(s, n) + 9
  {
    var task, after := Begun(s, step), Apply(s, step);
    BeginAddsOneTask(s, step);
    assert Mover(s, step).None?;
    hide NumbersKept, PendingKept, ActiveKept, WorkersKept, TraceKept, OutcomesKept, BarrierKept, GateKept;
    hide Apply, Enabled, Mover, Begun;
    forall other: Task | other != task ensures MovesLeft(after, other) <= MovesLeft(s, other) {
      if Known(s, other) {
        OtherMove(s, step, other);
      }
    }
    hide MovesLeft;
    TotalChange(s, after, n, Number(task), 9);
  }

  // Requests that began, and moves that were made, in the first n steps.
  function Requests(steps: seq<Step>, n: nat): nat
    requires n <= |steps|
  {
    if n == 0 then 0 else Requests(steps, n - 1) + (if Begins(steps[n - 1]) then 1 else 0)
  }

  function AllMoves(states: seq<State>, steps: seq<Step>, n: nat): nat
    requires n <= |steps| <= |states|
  {
    if n == 0 then 0
    else AllMoves(states, steps, n - 1) + (if Mover(states[n - 1], steps[n - 1]).Some? then 1 else 0)
  }

  // All tasks of a run are numbered below some number.
  lemma {:induction false} SomeBound(states: seq<State>, steps: seq<Step>, n: nat) returns (bound: nat)
    requires IsRun(states, steps) && n <= |steps|
    ensures forall i: nat, task | i <= n && Known(states[i], task) :: Number(task) < bound
  {
    if n == 0 {
      bound := 0;
    } else {
      var before := SomeBound(states, steps, n - 1);
      var s, step := states[n - 1], steps[n - 1];
      assert Enabled(s, step) && states[n] == Apply(s, step);
      RunKeepsInv(states, steps, n - 1);
      hide IsRun, Apply, Enabled;
      bound := before;
      if Begins(step) {
        BeginAddsOneTask(s, step);
        bound := bound + Number(Begun(s, step)) + 1;
      } else {
        NothingNew(s, step);
      }
    }
  }

  lemma {:induction false} MovesWithin(states: seq<State>, steps: seq<Step>, n: nat, bound: nat)
    requires IsRun(states, steps) && n <= |steps|
    requires forall i: nat, task | i <= n && Known(states[i], task) :: Number(task) < bound
    ensures AllMoves(states, steps, n) + TotalLeft(states[n], bound) <= 9 * Requests(steps, n)
  {
    if n == 0 {
      NothingAtFirst(bound);
    } else {
      MovesWithin(states, steps, n - 1, bound);
      var s, step := states[n - 1], steps[n - 1];
      assert Enabled(s, step) && states[n] == Apply(s, step);
      RunKeepsInv(states, steps, n - 1);
      if Mover(s, step).Some? {
        OwnMove(s, step);
        hide *;
        MoveLowersTotal(s, step, bound);
      } else if Begins(step) {
        hide IsRun, Apply, Enabled, Inv;
        BeginRaisesTotal(s, step, bound);
      } else {
        hide IsRun, Apply, Enabled, Inv;
        WorkersAddNothing(s, step, bound);
      }
    }
  }

  lemma {:induction false} NothingAtFirst(n: nat)
    ensures TotalLeft(Init(), n) == 0
  {
    if n > 0 {
      NothingAtFirst(n - 1);
    }
  }

  // In every run all starts and stops together make at most nine moves for each request,
  // whatever the interleaving. So once no new request comes, every start and stop returns:
  // while one has not, ModbusLifecycle.NeverStuck has a move for some of them.
  lemma MovesAreBounded(states: seq<State>, steps: seq<Step>)
    requires IsRun(states, steps)
    ensures AllMoves(states, steps, |steps|) <= 9 * Requests(steps, |steps|)
  {
    hide *;
    var bound := SomeBound(states, steps, |steps|);
    MovesWithin(states, steps, |steps|, bound);
  }
}
