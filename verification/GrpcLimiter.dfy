// The fixed-window limiter in front of every emitted stream event
// (src-tauri/src/grpc_client.rs). Instants and durations are natural numbers of one unit.
module GrpcLimiter {
  import opened Common

  datatype Limits = Limits(events: nat, bytes: nat, window: nat)

  datatype Window = Window(started: nat, events: nat, bytes: nat)

  // The window a call at `now` falls into.
  function WindowAt(w: Window, limits: Limits, now: nat): Window {
    if SaturatingSub(now, w.started) >= limits.window then Window(now, 0, 0) else w
  }

  predicate HasCapacity(w: Window, limits: Limits, bytes: nat) {
    w.events < limits.events && w.bytes + bytes <= limits.bytes
  }

  predicate Admits(w: Window, limits: Limits, bytes: nat, now: nat) {
    HasCapacity(WindowAt(w, limits, now), limits, bytes)
  }

  // The window after a call, and the delay asked for when it was not admitted.
  function AfterCall(w: Window, limits: Limits, bytes: nat, now: nat): Window {
    var v := WindowAt(w, limits, now);
    if HasCapacity(v, limits, bytes) then Window(v.started, v.events + 1, v.bytes + bytes) else v
  }

  function Delay(w: Window, limits: Limits, now: nat): nat {
    SaturatingSub(limits.window, SaturatingSub(now, w.started))
  }

  class StreamEmitRateLimiter {
    const limits: Limits
    var windowStarted: nat
    var emittedEvents: nat
    var emittedBytes: nat

    constructor (limits: Limits, now: nat)
      ensures this.limits == limits && View() == Window(now, 0, 0)
    {
      this.limits := limits;
      windowStarted, emittedEvents, emittedBytes := now, 0, 0;
    }

    ghost function View(): Window
      reads this
    {
      Window(windowStarted, emittedEvents, emittedBytes)
    }

    method CapacityDelay(bytes: nat, now: nat) returns (delay: Option<nat>)
      modifies this
      ensures View() == AfterCall(old(View()), limits, bytes, now)
      ensures delay == if Admits(old(View()), limits, bytes, now) then None else Some(Delay(old(View()), limits, now))
    {
      var elapsed := SaturatingSub(now, windowStarted);
      if elapsed >= limits.window {
        windowStarted := now;
        emittedEvents := 0;
        emittedBytes := 0;
      }
      if emittedEvents < limits.events && emittedBytes + bytes <= limits.bytes {
        emittedEvents := emittedEvents + 1;
        emittedBytes := emittedBytes + bytes;
        delay := None;
      } else {
        delay := Some(SaturatingSub(limits.window, elapsed));
      }
    }
  }

  // ---------------------------------------------------------------- waiting

  // After a refusal and the sleep it asks for, the call is admitted if and only if the
  // event could ever be: there is no second sleep, and an event that is too large (or a
  // limit of no events) is refused for ever.
  lemma AdmittedAfterOneSleep(w: Window, limits: Limits, bytes: nat, now: nat, later: nat)
    requires w.started <= now && !Admits(w, limits, bytes, now) && later >= now + Delay(w, limits, now)
    ensures Delay(w, limits, now) <= limits.window
    ensures Admits(AfterCall(w, limits, bytes, now), limits, bytes, later) <==>
              limits.events > 0 && bytes <= limits.bytes
  {}

  // When it can never be admitted, the wait loop spins: from the second call on the delay
  // is zero whenever a whole window has passed.
  lemma OversizedIsNeverAdmitted(w: Window, limits: Limits, bytes: nat, now: nat)
    requires limits.events == 0 || bytes > limits.bytes
    ensures !Admits(w, limits, bytes, now)
    ensures now >= w.started + limits.window ==> Delay(w, limits, now) == 0
  {}

  // ---------------------------------------------------------------- how much gets through

  datatype Call = Call(bytes: nat, now: nat)

  // An admitted call and the start of its window.
  datatype Admission = Admission(started: nat, now: nat, bytes: nat)

  // The window after a history of calls, and what was admitted.
  function Replay(calls: seq<Call>, limits: Limits, start: nat): (Window, seq<Admission>) {
    if calls == [] then (Window(start, 0, 0), [])
    else
      var (w, admitted) := Replay(calls[..|calls| - 1], limits, start);
      var last := calls[|calls| - 1];
      var v := AfterCall(w, limits, last.bytes, last.now);
      (v, if Admits(w, limits, last.bytes, last.now) then admitted + [Admission(v.started, last.now, last.bytes)]
        else admitted)
  }

  // The clock does not go back.
  ghost predicate Monotone(calls: seq<Call>, start: nat) {
    && (forall i :: 0 <= i < |calls| ==> start <= calls[i].now)
    && (forall i, j :: 0 <= i < j < |calls| ==> calls[i].now <= calls[j].now)
  }

  // Events and bytes admitted in the window that started then.
  function EventsFrom(admitted: seq<Admission>, started: nat): nat {
    if admitted == [] then 0
    else
      var last := admitted[|admitted| - 1];
      EventsFrom(admitted[..|admitted| - 1], started) + if last.started == started then 1 else 0
  }

  function BytesFrom(admitted: seq<Admission>, started: nat): nat {
    if admitted == [] then 0
    else
      var last := admitted[|admitted| - 1];
      BytesFrom(admitted[..|admitted| - 1], started) + if last.started == started then last.bytes else 0
  }

  // Events and bytes admitted at a time in [from, from + length].
  function EventsWithin(admitted: seq<Admission>, from: nat, length: nat): nat {
    if admitted == [] then 0
    else
      var last := admitted[|admitted| - 1];
      EventsWithin(admitted[..|admitted| - 1], from, length) + if from <= last.now <= from + length then 1 else 0
  }

  function BytesWithin(admitted: seq<Admission>, from: nat, length: nat): nat {
    if admitted == [] then 0
    else
      var last := admitted[|admitted| - 1];
      BytesWithin(admitted[..|admitted| - 1], from, length) + if from <= last.now <= from + length then last.bytes
        else 0
  }

  // Windows do not overlap, every admission falls into its window, and the current window
  // counts what it admitted.
  ghost predicate Windowed(w: Window, admitted: seq<Admission>, limits: Limits) {
    && (forall i :: 0 <= i < |admitted| ==>
          admitted[i].started <= admitted[i].now < admitted[i].started + limits.window)
    && (forall i :: 0 <= i < |admitted| ==>
          admitted[i].started == w.started || admitted[i].started + limits.window <= w.started)
    && (forall i, j :: 0 <= i < |admitted| && 0 <= j < |admitted| && admitted[i].started < admitted[j].started ==>
          admitted[i].started + limits.window <= admitted[j].started)
  }

  ghost predicate Counted(w: Window, admitted: seq<Admission>, limits: Limits) {
    && w.events == EventsFrom(admitted, w.started) && w.bytes == BytesFrom(admitted, w.started)
    && (forall s: nat :: EventsFrom(admitted, s) <= limits.events && BytesFrom(admitted, s) <= limits.bytes)
  }

  lemma {:induction false} NothingFrom(admitted: seq<Admission>, s: nat)
    requires forall i :: 0 <= i < |admitted| ==> admitted[i].started != s
    ensures EventsFrom(admitted, s) == 0 && BytesFrom(admitted, s) == 0
  {
    if admitted != [] {
      NothingFrom(admitted[..|admitted| - 1], s);
    }
  }

  lemma {:induction false} ReplayKeeps(calls: seq<Call>, limits: Limits, start: nat)
    requires Monotone(calls, start) && limits.window > 0
    ensures var (w, admitted) := Replay(calls, limits, start);
            && Windowed(w, admitted, limits) && Counted(w, admitted, limits)
            && w.started <= if calls == [] then start else calls[|calls| - 1].now
  {
    if calls != [] {
      hide Windowed, Counted;
      var front, last := calls[..|calls| - 1], calls[|calls| - 1];
      ReplayKeeps(front, limits, start);
      var (w, admitted) := Replay(front, limits, start);
      CallKeeps(w, admitted, limits, last);
    }
  }

  lemma CallKeeps(w: Window, admitted: seq<Admission>, limits: Limits, call: Call)
    requires Windowed(w, admitted, limits) && Counted(w, admitted, limits) && limits.window > 0 && w.started <= call.now
    ensures var v := AfterCall(w, limits, call.bytes, call.now);
            var more := if Admits(w, limits, call.bytes, call.now)
                then admitted + [Admission(v.started, call.now, call.bytes)] else admitted;
            Windowed(v, more, limits) && Counted(v, more, limits)
  {
    hide Counted, Windowed;
    var v := WindowAt(w, limits, call.now);
    ResetCounts(w, admitted, limits, call.now);
    var a := Admission(v.started, call.now, call.bytes);
    CallWindowed(w, admitted, limits, a);
    if HasCapacity(v, limits, call.bytes) {
      AdmissionCounts(v, admitted, limits, a);
    }
  }

  lemma CallWindowed(w: Window, admitted: seq<Admission>, limits: Limits, a: Admission)
    requires Windowed(w, admitted, limits) && limits.window > 0 && w.started <= a.now
              && a.started == WindowAt(w, limits, a.now).started
    ensures forall v: Window | v.started == a.started ::
              Windowed(v, admitted, limits) && Windowed(v, admitted + [a], limits)
  {}

  lemma ResetCounts(w: Window, admitted: seq<Admission>, limits: Limits, now: nat)
    requires Windowed(w, admitted, limits) && Counted(w, admitted, limits) && limits.window > 0 && w.started <= now
    ensures Counted(WindowAt(w, limits, now), admitted, limits)
  {
    if now - w.started >= limits.window {
      NothingFrom(admitted, now);
    }
  }

  lemma AdmissionCounts(v: Window, admitted: seq<Admission>, limits: Limits, a: Admission)
    requires Counted(v, admitted, limits) && HasCapacity(v, limits, a.bytes) && a.started == v.started
    ensures Counted(Window(v.started, v.events + 1, v.bytes + a.bytes), admitted + [a], limits)
  {
    assert (admitted + [a])[..|admitted|] == admitted;
    forall s: nat ensures EventsFrom(admitted + [a], s) <= limits.events
      && BytesFrom(admitted + [a], s) <= limits.bytes {
      assert EventsFrom(admitted, s) <= limits.events && BytesFrom(admitted, s) <= limits.bytes;
    }
  }

  lemma {:induction false} TwoWindowsBound(admitted: seq<Admission>, from: nat, length: nat, a: nat, b: nat)
    requires forall i :: 0 <= i < |admitted| && from <= admitted[i].now <= from + length ==>
              admitted[i].started == a || admitted[i].started == b
    ensures EventsWithin(admitted, from, length) <= EventsFrom(admitted, a) + EventsFrom(admitted, b)
    ensures BytesWithin(admitted, from, length) <= BytesFrom(admitted, a) + BytesFrom(admitted, b)
  {
    if admitted != [] {
      TwoWindowsBound(admitted[..|admitted| - 1], from, length, a, b);
    }
  }

  // In any interval of one window length, ends included, at most twice the limits get
  // through, whatever the history of calls.
  lemma AtMostTwiceTheLimits(calls: seq<Call>, limits: Limits, start: nat, from: nat)
    requires Monotone(calls, start) && limits.window > 0
    ensures EventsWithin(Replay(calls, limits, start).1, from, limits.window) <= 2 * limits.events
    ensures BytesWithin(Replay(calls, limits, start).1, from, limits.window) <= 2 * limits.bytes
  {
    ReplayKeeps(calls, limits, start);
    var (w, admitted) := Replay(calls, limits, start);
    var a, b := TwoWindows(admitted, w, limits, from);
    TwoWindowsBound(admitted, from, limits.window, a, b);
  }

  predicate Inside(e: Admission, from: nat, length: nat) { from <= e.now <= from + length }

  // An interval no longer than a window meets at most two windows.
  lemma TwoWindows(admitted: seq<Admission>, w: Window, limits: Limits, from: nat) returns (a: nat, b: nat)
    requires Windowed(w, admitted, limits)
    ensures forall i :: 0 <= i < |admitted| && Inside(admitted[i], from, limits.window) ==>
              admitted[i].started == a || admitted[i].started == b
  {
    a, b := 0, 0;
    if i: nat :| i < |admitted| && Inside(admitted[i], from, limits.window) {
      a, b := admitted[i].started, admitted[i].started;
      if j: nat :| j < |admitted| && Inside(admitted[j], from, limits.window) && admitted[j].started != a {
        b := admitted[j].started;
        forall k: nat | k < |admitted| && Inside(admitted[k], from, limits.window)
          ensures admitted[k].started == a || admitted[k].started == b {
          assert admitted[i].started < admitted[j].started || admitted[j].started < admitted[i].started;
        }
      }
    }
  }

  // The bound is reached: with one event allowed per window, two get through back to back.
  lemma TwiceIsReached(bytes: nat, window: nat)
    requires window > 0
    ensures var limits, calls := Limits(1, bytes, window), [Call(bytes, window - 1), Call(bytes, window)];
            && Monotone(calls, 0)
            && EventsWithin(Replay(calls, limits, 0).1, window - 1, window) == 2
            && BytesWithin(Replay(calls, limits, 0).1, window - 1, window) == 2 * bytes
  {
    hide Replay, EventsWithin, BytesWithin;
    var limits, one, two := Limits(1, bytes, window), Call(bytes, window - 1), Call(bytes, window);
    var first, second := Admission(0, window - 1, bytes), Admission(window, window, bytes);
    ReplayAppend([], one, limits, 0);
    ReplayAppend([one], two, limits, 0);
    assert [] + [one] == [one] && [one] + [two] == [one, two];
    assert [] + [first] == [first] && [first] + [second] == [first, second];
    assert Replay([one], limits, 0) == (Window(0, 1, bytes), [first]);
    assert Replay([one, two], limits, 0) == (Window(window, 1, bytes), [first, second]);
    WithinAppend([], first, window - 1, window);
    WithinAppend([first], second, window - 1, window);
  }

  lemma ReplayAppend(calls: seq<Call>, call: Call, limits: Limits, start: nat)
    ensures var (w, admitted) := Replay(calls, limits, start);
            var v := AfterCall(w, limits, call.bytes, call.now);
            Replay(calls + [call], limits, start) ==
              (v, if Admits(w, limits, call.bytes, call.now)
                then admitted + [Admission(v.started, call.now, call.bytes)] else admitted)
    ensures Replay([], limits, start) == (Window(start, 0, 0), [])
  {
    assert (calls + [call])[..|calls|] == calls;
  }

  lemma WithinAppend(admitted: seq<Admission>, a: Admission, from: nat, length: nat)
    ensures EventsWithin(admitted + [a], from, length) ==
              EventsWithin(admitted, from, length) + if Inside(a, from, length) then 1 else 0
    ensures BytesWithin(admitted + [a], from, length) ==
              BytesWithin(admitted, from, length) + if Inside(a, from, length) then a.bytes else 0
    ensures EventsWithin([], from, length) == 0 && BytesWithin([], from, length) == 0
  {
    assert (admitted + [a])[..|admitted|] == admitted;
  }
}
