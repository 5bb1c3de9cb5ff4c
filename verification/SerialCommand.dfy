// One serial command, from the caller that waits for it to the worker that carries it out
// (src-tauri/src/serial_port.rs): the compare-and-swap flag they share, the worker's
// handling of a write or a control-line change, and the caller's two deadlines.
//
// Any number of commands, callers and one worker interleave freely; every atomic access
// to the flag, every channel operation and every await is a separate step.
module SerialCommand {
  import opened Common

  // ---------------------------------------------------------------- the shared flag

  datatype Flag = Queued | Started | Completed | CancelledBeforeStart | CancelledInFlight

  datatype CancelOutcome = BeforeStart | InFlight | AlreadyCompleted

  // What a cancel finds, and what it leaves behind.
  function CancelResult(flag: Flag): CancelOutcome {
    match flag
    case Queued => BeforeStart
    case CancelledBeforeStart => BeforeStart
    case Started => InFlight
    case CancelledInFlight => InFlight
    case Completed => AlreadyCompleted
  }

  function AfterCancel(flag: Flag): Flag {
    match flag
    case Queued => CancelledBeforeStart
    case Started => CancelledInFlight
    case _ => flag
  }

  predicate IsCancelledFlag(flag: Flag) { flag.CancelledBeforeStart? || flag.CancelledInFlight? }

  // `CommandControl`
  class CommandControl {
    var state: Flag
    var cancellation: bool

    constructor ()
      ensures state == Queued && !cancellation
    {
      state, cancellation := Queued, false;
    }

    method CompareExchange(expected: Flag, desired: Flag) returns (ok: bool)
      modifies this`state
      ensures ok <==> old(state) == expected
      ensures state == if ok then desired else old(state)
    {
      ok := state == expected;
      if ok {
        state := desired;
      }
    }

    method Begin() returns (ok: bool)
      modifies this`state
      ensures ok <==> old(state).Queued?
      ensures state == if ok then Started else old(state)
    {
      ok := CompareExchange(Queued, Started);
    }

    method Complete() returns (ok: bool)
      modifies this`state
      ensures ok <==> old(state).Started?
      ensures state == if ok then Completed else old(state)
    {
      ok := CompareExchange(Started, Completed);
    }

    method Cancel() returns (outcome: CancelOutcome)
      modifies this
      ensures outcome == CancelResult(old(state))
      ensures state == AfterCancel(old(state))
      ensures cancellation == (old(cancellation) || old(state).Queued? || old(state).Started?)
    {
      var current := state;
      var next: Flag;
      match current {
        case Queued => next, outcome := CancelledBeforeStart, BeforeStart;
        case Started => next, outcome := CancelledInFlight, InFlight;
        case Completed => return AlreadyCompleted;
        case CancelledBeforeStart => return BeforeStart;
        case CancelledInFlight => return InFlight;
      }
      var ok := CompareExchange(current, next);
      if ok {
        cancellation := true;
      }
    }
  }

  // ---------------------------------------------------------------- caller and worker

  datatype Kind = Write | ControlLine

  // What the worker sends back.
  datatype Reply = Fine | RefusedBeforeStart | DeviceRefused | ResultUnknown

  datatype Channel = Empty | Sent(reply: Reply) | Dropped

  // Where the command object is.
  datatype Place = Offered | InQueue | WithWorker | Gone

  // What has happened to the device on behalf of the command.
  datatype Effect = Untouched | Underway | Uncertain | Applied(ok: bool)

  // What the caller is told.
  datatype Outcome =
    | Answered(reply: Reply)  // the worker's own reply, Ok(()) when it is Fine
    | NotEnqueued             // the queue stayed full or was closed
    | SessionClosed           // the reply channel was dropped
    | TimedOutBeforeStart
    | TimedOutInFlight

  datatype Caller =
    | Enqueuing
    | Awaiting                // waiting for the reply or the deadline
    | Signalling              // cancelled in flight; about to trigger the token
    | AwaitingCompleted       // deadline passed, but the command had completed
    | Returned(outcome: Outcome)

  datatype Command = Command(
    kind: Kind, flag: Flag, token: bool, place: Place, channel: Channel, caller: Caller, runs: nat, effect: Effect)

  datatype Worker =
    | Looping
    | Checking(id: nat)                // dequeued, about to read the flag
    | Claiming(id: nat)                // about to swap queued for started
    | Acting(id: nat)                  // the side effect is under way
    | Finishing(id: nat, success: bool) // the device answered; about to complete
    | Replying(id: nat, reply: Reply, leave: bool)
    | Left

  datatype State = State(commands: map<nat, Command>, worker: Worker, begun: seq<nat>)

  datatype CallerMove = Enqueued | EnqueueFails | Receive | Deadline | Signal

  datatype WorkerMove =
    | Check
    | Claim
    | SeeCancellation          // a write notices the token and stops waiting
    | DeviceSucceeds
    | DeviceFails              // refused, or for a write: error or timeout
    | Complete
    | SendReply

  datatype Step =
    | Issue(id: nat, kind: Kind)
    | Call(id: nat, move: CallerMove)
    | Dequeue(id: nat)
    | Work(work: WorkerMove)
    | LeaveLoop                // close command, closed queue or read error
    | AbortLooping             // the task is aborted while it waits for something to do
    | AbortWriting             // the task is aborted in the middle of a write
    | DropQueued(id: nat)      // the queue dies with the worker

  function Init(): State { State(map[], Looping, []) }

  // The command the worker has taken.
  function Current(w: Worker): Option<nat> {
    match w
    case Looping => None
    case Left => None
    case Checking(c) => Some(c)
    case Claiming(c) => Some(c)
    case Acting(c) => Some(c)
    case Finishing(c, _) => Some(c)
    case Replying(c, _, _) => Some(c)
  }

  // The queue takes a command even for a worker that has left its loop: its receiver
  // lives until the worker returns.
  predicate CallEnabled(m: Command, move: CallerMove) {
    match move
    case Enqueued => m.caller.Enqueuing?
    case EnqueueFails => m.caller.Enqueuing?
    case Receive => (m.caller.Awaiting? || m.caller.AwaitingCompleted?) && !m.channel.Empty?
    case Deadline => m.caller.Awaiting?
    case Signal => m.caller.Signalling?
  }

  predicate WorkEnabled(w: Worker, m: Command, move: WorkerMove) {
    match move
    case Check => w.Checking?
    case Claim => w.Claiming?
    case SeeCancellation => w.Acting? && m.kind.Write? && m.token
    case DeviceSucceeds => w.Acting?
    case DeviceFails => w.Acting?
    case Complete => w.Finishing?
    case SendReply => w.Replying?
  }

  predicate Enabled(s: State, step: Step) {
    match step
    case Issue(c, _) => c !in s.commands
    case Call(c, move) => c in s.commands && CallEnabled(s.commands[c], move)
    case Dequeue(c) => c in s.commands && s.commands[c].place.InQueue? && s.worker.Looping?
    case Work(move) =>
      Current(s.worker).Some? && s.worker.id in s.commands && WorkEnabled(s.worker, s.commands[s.worker.id], move)
    case LeaveLoop => s.worker.Looping?
    case AbortLooping => s.worker.Looping?
    case AbortWriting => s.worker.Acting? && s.worker.id in s.commands && s.commands[s.worker.id].kind.Write?
    case DropQueued(c) => c in s.commands && s.commands[c].place.InQueue? && s.worker.Left?
  }

  // The caller's moves, `request_result_with_timeouts`.
  function AfterCall(m: Command, move: CallerMove): Command {
    match move
    case Enqueued => m.(place := InQueue, caller := Awaiting)
    case EnqueueFails =>
      m.(place := Gone, channel := Dropped, flag := AfterCancel(m.flag), token := true, caller := Returned(NotEnqueued))
    case Receive =>
      m.(caller := Returned(if m.channel.Sent? then Answered(m.channel.reply) else SessionClosed))
    case Deadline =>
      m.(flag := AfterCancel(m.flag),
         token := m.token || m.flag.Queued?,
         caller :=
           match CancelResult(m.flag)
           case BeforeStart => Returned(TimedOutBeforeStart)
           case InFlight => Signalling
           case AlreadyCompleted => AwaitingCompleted)
    case Signal => m.(token := true, caller := Returned(TimedOutInFlight))
  }

  // The worker's moves on the command it has taken: the command, and the worker.
  function AfterWork(w: Worker, c: nat, m: Command, move: WorkerMove): (Command, Worker)
    requires WorkEnabled(w, m, move)
  {
    match move
    case Check =>
      (m, if IsCancelledFlag(m.flag) then Replying(c, RefusedBeforeStart, false) else Claiming(c))
    case Claim =>
      if m.flag.Queued? then (m.(flag := Started, runs := m.runs + 1, effect := Underway), Acting(c))
      else (m, Replying(c, RefusedBeforeStart, false))
    case SeeCancellation =>
      (m.(effect := Uncertain), Replying(c, ResultUnknown, true))
    case DeviceSucceeds =>
      (m.(effect := Applied(true)), Finishing(c, true))
    case DeviceFails =>
      // A write that failed or timed out may have been partly sent.
      (m.(effect := if m.kind.Write? then Uncertain else Applied(false)), Finishing(c, false))
    case Complete =>
      var completed := m.flag.Started?;
      var lost := !completed || (m.kind.Write? && !w.success);
      (if completed then m.(flag := Completed) else m,
       Replying(c, if lost then ResultUnknown else if w.success then Fine else DeviceRefused, lost))
    case SendReply =>
      (m.(place := Gone, channel := Sent(w.reply)), if w.leave then Left else Looping)
  }

  function Apply(s: State, step: Step): State
    requires Enabled(s, step)
  {
    match step
    case Issue(c, kind) =>
      s.(commands := s.commands[c := Command(kind, Queued, false, Offered, Empty, Enqueuing, 0, Untouched)])
    case Call(c, move) => s.(commands := s.commands[c := AfterCall(s.commands[c], move)])
    case Dequeue(c) => s.(commands := s.commands[c := s.commands[c].(place := WithWorker)], worker := Checking(c))
    case Work(move) =>
      var c := s.worker.id;
      var (m, w) := AfterWork(s.worker, c, s.commands[c], move);
      State(s.commands[c := m], w, if m.runs > s.commands[c].runs then s.begun + [c] else s.begun)
    case LeaveLoop => s.(worker := Left)
    case AbortLooping => s.(worker := Left)
    case AbortWriting =>
      var c := s.worker.id;
      s.(commands := s.commands[c := s.commands[c].(place := Gone, channel := Dropped, effect := Uncertain)],
          worker := Left)
    case DropQueued(c) => s.(commands := s.commands[c := s.commands[c].(place := Gone, channel := Dropped)])
  }

  // ---------------------------------------------------------------- what every step keeps

  // The command has not touched the device, and never will.
  predicate NeverRuns(m: Command) {
    m.runs == 0 && m.effect.Untouched? && (m.place.Gone? || !m.flag.Queued?)
  }

  // The device was driven exactly once and answered; the reply says what it answered.
  predicate RanOnce(m: Command, reply: Reply) {
    m.runs == 1 && m.effect == Applied(reply.Fine?) && m.flag.Completed? && (reply.Fine? || reply.DeviceRefused?)
  }

  // Nobody can say what reached the device, and the worker will run nothing else.
  predicate Unknown(w: Worker, c: nat, m: Command) {
    m.runs == 1 && Leaving(w, c, m)
  }

  // The worker is still on this command and will leave its loop, or has left it.
  predicate Leaving(w: Worker, c: nat, m: Command) {
    || w.Left?
    || (w.Acting? && w.id == c && m.flag.CancelledInFlight?)
    || (w.Finishing? && w.id == c && (m.flag.CancelledInFlight? || (m.kind.Write? && !w.success)))
    || (w.Replying? && w.id == c && w.leave)
  }

  // One command is consistent with the worker.
  predicate Consistent(w: Worker, c: nat, m: Command) {
    && (m.place.WithWorker? <==> Current(w) == Some(c))
    && (m.place.Offered? <==> m.caller.Enqueuing?)
    && (m.flag.Queued? ==> m.runs == 0)
    && (m.runs == 0 <==> m.effect.Untouched?)
    && m.runs <= 1
    && (m.runs == 0 ==> m.flag.Queued? || m.flag.CancelledBeforeStart?)
    && (m.runs == 1 ==> m.flag.Started? || m.flag.Completed? || m.flag.CancelledInFlight?)
    && (m.runs == 1 ==> m.place.WithWorker? || m.place.Gone?)
    && (m.token ==> IsCancelledFlag(m.flag))
    && (m.flag.CancelledInFlight? ==> Leaving(w, c, m))
    && (m.effect.Underway? <==> w.Acting? && w.id == c)
    && (m.flag.Started? && m.place.Gone? ==> w.Left? && m.effect.Uncertain?)
    && (m.effect.Uncertain? ==> Leaving(w, c, m))
    && (m.channel.Empty? <==> !m.place.Gone?)
    && (m.channel.Sent? ==> ReplyTrue(w, c, m, m.channel.reply))
    && (m.channel.Dropped? ==> m.runs == 0 || w.Left?)
    && WorkerTrue(w, c, m)
    && CallerTrue(w, c, m)
  }

  predicate ReplyTrue(w: Worker, c: nat, m: Command, reply: Reply) {
    match reply
    case RefusedBeforeStart => m.runs == 0 && m.flag.CancelledBeforeStart?
    case ResultUnknown => m.runs == 1 && Leaving(w, c, m)
    case _ => RanOnce(m, reply)
  }

  predicate WorkerTrue(w: Worker, c: nat, m: Command) {
    && ((w.Checking? || w.Claiming?) && w.id == c ==> m.runs == 0)
    && (w.Claiming? && w.id == c ==> m.flag.Queued? || m.flag.CancelledBeforeStart?)
    && (w.Acting? && w.id == c ==> m.flag.Started? || m.flag.CancelledInFlight?)
    && (w.Finishing? && w.id == c ==>
          && (m.flag.Started? || m.flag.CancelledInFlight?)
          && m.effect == (if w.success then Applied(true) else if m.kind.Write? then Uncertain else Applied(false)))
    && (w.Replying? && w.id == c ==>
          !m.flag.Started? && ReplyTrue(w, c, m, w.reply) && (w.leave <==> w.reply.ResultUnknown?))
  }

  predicate CallerTrue(w: Worker, c: nat, m: Command) {
    match m.caller
    case Enqueuing => m.flag.Queued?
    case Awaiting => !IsCancelledFlag(m.flag)
    case Signalling => m.flag.CancelledInFlight?
    case AwaitingCompleted => m.flag.Completed?
    case Returned(outcome) => OutcomeTrue(w, c, m, outcome)
  }

  // What each answer to the caller means.
  predicate OutcomeTrue(w: Worker, c: nat, m: Command, outcome: Outcome) {
    match outcome
    case Answered(RefusedBeforeStart) => NeverRuns(m)
    case Answered(ResultUnknown) => Unknown(w, c, m)
    case Answered(reply) => RanOnce(m, reply)
    case NotEnqueued => NeverRuns(m)
    case TimedOutBeforeStart => NeverRuns(m)
    case TimedOutInFlight => Unknown(w, c, m)
    case SessionClosed => NeverRuns(m) || Unknown(w, c, m)
  }

  predicate IsUncertain(m: Command) { m.flag.CancelledInFlight? || m.effect.Uncertain? }

  ghost predicate CommandsKept(s: State) {
    && (Current(s.worker).Some? ==> Current(s.worker).value in s.commands)
    && forall c :: c in s.commands ==> Consistent(s.worker, c, s.commands[c])
  }

  predicate LastIs(begun: seq<nat>, c: nat) { begun != [] && begun[|begun| - 1] == c }

  // `begun` lists, once each and in order, the commands whose side effect was begun; an
  // uncertain one is always the last.
  ghost predicate OrderKept(s: State) {
    && (forall c :: c in s.begun <==> c in s.commands && s.commands[c].runs == 1)
    && (forall i, j :: 0 <= i < j < |s.begun| ==> s.begun[i] != s.begun[j])
    && (forall c :: c in s.commands && IsUncertain(s.commands[c]) ==> LastIs(s.begun, c))
    && (s.worker.Acting? || s.worker.Finishing? ==> LastIs(s.begun, s.worker.id))
  }

  ghost predicate Inv(s: State) { CommandsKept(s) && OrderKept(s) }

  lemma InitInv()
    ensures Inv(Init())
  {}

  // A command the worker is not handling is not disturbed by what the worker does next.
  lemma OthersUndisturbed(w: Worker, v: Worker, c: nat, m: Command)
    requires Consistent(w, c, m)
    requires Current(w) != Some(c) && Current(v) != Some(c) && (w.Left? ==> v.Left?)
    ensures Consistent(v, c, m)
  {}

  lemma CallConsistent(w: Worker, c: nat, m: Command, move: CallerMove)
    requires Consistent(w, c, m) && CallEnabled(m, move)
    ensures Consistent(w, c, AfterCall(m, move))
  {}

  lemma WorkConsistent(w: Worker, c: nat, m: Command, move: WorkerMove)
    requires Consistent(w, c, m) && Current(w) == Some(c) && WorkEnabled(w, m, move)
    ensures var (n, v) := AfterWork(w, c, m, move); Consistent(v, c, n)
  {}

  lemma CommandsStep(s: State, step: Step)
    requires CommandsKept(s) && Enabled(s, step)
    ensures CommandsKept(Apply(s, step))
  {
    hide Consistent, AfterCall, AfterWork, CallEnabled, WorkEnabled;
    var after := Apply(s, step);
    forall c | c in after.commands ensures Consistent(after.worker, c, after.commands[c]) {
      StepOnCommand(s, step, c);
    }
    CurrentStays(s, step);
  }

  lemma CurrentStays(s: State, step: Step)
    requires CommandsKept(s) && Enabled(s, step)
    ensures var after := Apply(s, step); Current(after.worker).Some? ==> Current(after.worker).value in after.commands
  {
    hide Consistent, AfterCall;
  }

  lemma StepOnCommand(s: State, step: Step, c: nat)
    requires CommandsKept(s) && Enabled(s, step) && c in Apply(s, step).commands
    ensures Consistent(Apply(s, step).worker, c, Apply(s, step).commands[c])
  {
    if step.Call? {
      hide AfterCall, Consistent;
      if step.id == c {
        CallConsistent(s.worker, c, s.commands[c], step.move);
      }
    } else if step.Work? {
      WorkOnCommand(s, step.work, c);
    } else if c in s.commands && Current(s.worker) != Some(c) && !step.DropQueued? && !step.Dequeue? && !step.Issue? {
      OthersUndisturbed(s.worker, Left, c, s.commands[c]);
    } else if step.Dequeue? && c != step.id {
      OthersUndisturbed(s.worker, Checking(step.id), c, s.commands[c]);
    }
  }

  lemma WorkOnCommand(s: State, move: WorkerMove, c: nat)
    requires CommandsKept(s) && Enabled(s, Work(move)) && c in s.commands
    ensures var after := Apply(s, Work(move)); Consistent(after.worker, c, after.commands[c])
  {
    var d := s.worker.id;
    var (n, v) := AfterWork(s.worker, d, s.commands[d], move);
    hide Consistent;
    if c == d {
      WorkConsistent(s.worker, c, s.commands[c], move);
    } else {
      OthersUndisturbed(s.worker, v, c, s.commands[c]);
    }
  }

  lemma OrderByWork(s: State, move: WorkerMove)
    requires Inv(s) && Enabled(s, Work(move))
    ensures OrderKept(Apply(s, Work(move)))
  {
    var c := s.worker.id;
    var after := Apply(s, Work(move));
    assert Consistent(s.worker, c, s.commands[c]);
    if after.begun != s.begun {
      // Only a looping worker dequeues, so nothing was uncertain before this claim.
      forall d | d in s.commands ensures !IsUncertain(s.commands[d]) {
        assert Consistent(s.worker, d, s.commands[d]);
      }
      assert after.begun == s.begun + [c];
    }
  }

  lemma OrderByOthers(s: State, step: Step)
    requires Inv(s) && Enabled(s, step) && !step.Work?
    ensures OrderKept(Apply(s, step))
  {
    var after := Apply(s, step);
    assert after.begun == s.begun;
    if step.Call? {
      assert Consistent(s.worker, step.id, s.commands[step.id]);
    } else if step.AbortWriting? {
      assert Consistent(s.worker, s.worker.id, s.commands[s.worker.id]);
    }
  }

  lemma StepKeepsInv(s: State, step: Step)
    requires Inv(s) && Enabled(s, step)
    ensures Inv(Apply(s, step))
  {
    hide CommandsKept, OrderKept, Apply, Enabled;
    CommandsStep(s, step);
    if step.Work? {
      OrderByWork(s, step.work);
    } else {
      OrderByOthers(s, step);
    }
  }

  // ---------------------------------------------------------------- every run

  ghost predicate IsRun(states: seq<State>, steps: seq<Step>) {
    && |states| == |steps| + 1
    && states[0] == Init()
    && forall i :: 0 <= i < |steps| ==> Enabled(states[i], steps[i]) && states[i + 1] == Apply(states[i], steps[i])
  }

  lemma {:induction false} RunKeepsInv(states: seq<State>, steps: seq<Step>, i: nat)
    requires IsRun(states, steps) && i <= |steps|
    ensures Inv(states[i])
  {
    hide Inv, Apply, Enabled, Init;
    if i == 0 {
      InitInv();
    } else {
      RunKeepsInv(states, steps, i - 1);
      assert Enabled(states[i - 1], steps[i - 1]);
      StepKeepsInv(states[i - 1], steps[i - 1]);
    }
  }

  // What a caller may conclude when its request returns, in every interleaving: the side
  // effect never ran and never will; or it ran exactly once and the caller holds the
  // worker's own result; or the result is unknown and the worker is leaving its loop.
  lemma EveryReturnIsOneOfThree(states: seq<State>, steps: seq<Step>, i: nat, c: nat)
    requires IsRun(states, steps) && i <= |steps|
    requires c in states[i].commands && states[i].commands[c].caller.Returned?
    ensures var m, w := states[i].commands[c], states[i].worker;
            match m.caller.outcome
            case Answered(RefusedBeforeStart) => NeverRuns(m)
            case Answered(ResultUnknown) => Unknown(w, c, m)
            case Answered(reply) => RanOnce(m, reply)
            case NotEnqueued => NeverRuns(m)
            case TimedOutBeforeStart => NeverRuns(m)
            case TimedOutInFlight => Unknown(w, c, m)
            case SessionClosed => NeverRuns(m) || Unknown(w, c, m)
  {
    RunKeepsInv(states, steps, i);
    assert Consistent(states[i].worker, c, states[i].commands[c]);
  }

  // Ok(()) implies the side effect ran exactly once, completely.
  lemma OkMeansExactlyOnce(states: seq<State>, steps: seq<Step>, i: nat, c: nat)
    requires IsRun(states, steps) && i <= |steps|
    requires c in states[i].commands && states[i].commands[c].caller == Returned(Answered(Fine))
    ensures states[i].commands[c].runs == 1 && states[i].commands[c].effect == Applied(true)
    ensures multiset(states[i].begun)[c] == 1
  {
    RunKeepsInv(states, steps, i);
    assert Consistent(states[i].worker, c, states[i].commands[c]);
    OnceInMultiset(states[i].begun, c);
  }

  lemma {:induction false} OnceInMultiset(s: seq<nat>, c: nat)
    requires forall i, j :: 0 <= i < j < |s| ==> s[i] != s[j]
    ensures multiset(s)[c] == if c in s then 1 else 0
  {
    if s != [] {
      var front := s[..|s| - 1];
      OnceInMultiset(front, c);
      assert s == front + [s[|s| - 1]];
    }
  }

  lemma NeverRunsStep(s: State, step: Step, c: nat)
    requires Inv(s) && Enabled(s, step) && c in s.commands && NeverRuns(s.commands[c])
    ensures c in Apply(s, step).commands && NeverRuns(Apply(s, step).commands[c])
  {
    assert Consistent(s.worker, c, s.commands[c]);
    hide Consistent;
  }

  // "Never ran" is final: a command that timed out before its start, or was refused, is
  // not executed by any later step.
  lemma {:induction false} NeverRunsForever(states: seq<State>, steps: seq<Step>, i: nat, j: nat, c: nat)
    requires IsRun(states, steps) && i <= j <= |steps|
    requires c in states[i].commands && NeverRuns(states[i].commands[c])
    ensures c in states[j].commands && NeverRuns(states[j].commands[c])
    decreases j
  {
    hide Inv, Apply, Enabled, Init, NeverRuns;
    if i < j {
      NeverRunsForever(states, steps, i, j - 1, c);
      RunKeepsInv(states, steps, j - 1);
      assert Enabled(states[j - 1], steps[j - 1]);
      NeverRunsStep(states[j - 1], steps[j - 1], c);
    }
  }

  lemma UncertainStep(s: State, step: Step, c: nat)
    requires Inv(s) && Enabled(s, step) && c in s.commands && IsUncertain(s.commands[c])
    ensures Apply(s, step).begun == s.begun
    ensures c in Apply(s, step).commands && IsUncertain(Apply(s, step).commands[c])
  {
    assert Consistent(s.worker, c, s.commands[c]);
    hide OrderKept;
  }

  // Once the result of one command is unknown no other command begins, so a retry can
  // never follow it on the same session.
  lemma {:induction false} NothingBeginsAfterUncertain(states: seq<State>, steps: seq<Step>, i: nat, j: nat, c: nat)
    requires IsRun(states, steps) && i <= j <= |steps|
    requires c in states[i].commands && IsUncertain(states[i].commands[c])
    ensures states[j].begun == states[i].begun
    ensures LastIs(states[j].begun, c)
    ensures !states[j].worker.Looping?
    decreases j
  {
    UncertainPersists(states, steps, i, j, c);
    RunKeepsInv(states, steps, i);
    RunKeepsInv(states, steps, j);
    assert Consistent(states[j].worker, c, states[j].commands[c]);
    hide Consistent, IsRun;
  }

  // How many of its own moves the worker still makes before it has left.
  function MovesLeft(w: Worker): nat {
    match w
    case Left => 0
    case Replying(_, _, _) => 1
    case Finishing(_, _) => 2
    case Acting(_) => 3
    case Claiming(_) => 4
    case Checking(_) => 5
    case Looping => 6
  }

  // Once a result is unknown the worker has left, or can move; each of its moves brings
  // it closer to having left, and no other step takes it back.
  lemma UncertainWorkerLeaves(s: State, step: Step, c: nat)
    requires Inv(s) && Enabled(s, step) && c in s.commands && IsUncertain(s.commands[c])
    ensures MovesLeft(Apply(s, step).worker) <= MovesLeft(s.worker) <= 3
    ensures step.Work? ==> MovesLeft(Apply(s, step).worker) < MovesLeft(s.worker)
    ensures s.worker.Left? || exists move :: Enabled(s, Work(move))
  {
    assert Consistent(s.worker, c, s.commands[c]);
    hide OrderKept, Consistent, ReplyTrue, WorkerTrue, CallerTrue, AfterCall;
    match s.worker
    case Acting(_) => assert Enabled(s, Work(DeviceSucceeds));
    case Finishing(_, _) => assert Enabled(s, Work(Complete));
    case Replying(_, _, _) => assert Enabled(s, Work(SendReply));
    case _ =>
  }

  lemma {:induction false} UncertainPersists(states: seq<State>, steps: seq<Step>, i: nat, j: nat, c: nat)
    requires IsRun(states, steps) && i <= j <= |steps|
    requires c in states[i].commands && IsUncertain(states[i].commands[c])
    ensures c in states[j].commands && IsUncertain(states[j].commands[c]) && states[j].begun == states[i].begun
    decreases j
  {
    hide Inv, Apply, Enabled, Init;
    if i < j {
      UncertainPersists(states, steps, i, j - 1, c);
      RunKeepsInv(states, steps, j - 1);
      assert Enabled(states[j - 1], steps[j - 1]);
      UncertainStep(states[j - 1], steps[j - 1], c);
    }
  }
}
