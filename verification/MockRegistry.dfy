// The registry of mock server sessions (src-tauri/src/mock_server.rs): session ids are
// destroyed and reused while cleanups of older instances are still under way.
//
// Each critical section of the registry lock is one function on `Registry`, which
// `MockServerRegistry` runs on its fields. An instance generation stands for the session
// object that carries it: `destroyed` are the instances whose lifecycle was destroyed,
// `finished` those whose tombstone token was triggered.
module MockRegistry {
  import opened Common

  const MaxCompletedTombstones: nat := 4096

  datatype Registry = Registry(
    sessions: map<string, nat>,
    tombstones: map<string, nat>,
    queue: seq<(string, nat)>,     // completed tombstones, oldest first
    next: nat,
    finished: set<nat>,
    destroyed: set<nat>)

  datatype Preparation = AlreadyDone | Wait(generation: nat) | Begin(generation: nat)

  // ---------------------------------------------------------------- critical sections

  predicate HasTombstone(r: Registry, id: string, g: nat) { id in r.tombstones && r.tombstones[id] == g }

  predicate HasSession(r: Registry, id: string, g: nat) { id in r.sessions && r.sessions[id] == g }

  predicate BeingDestroyed(r: Registry, id: string) { id in r.tombstones && r.tombstones[id] !in r.finished }

  // The eviction loop: drop the oldest queue entries, and the tombstones they still name.
  function Trimmed(r: Registry): Registry
    decreases |r.queue|
  {
    if |r.queue| <= MaxCompletedTombstones then r
    else
      var (id, g) := r.queue[0];
      Trimmed(r.(queue := r.queue[1..],
                 tombstones := if HasTombstone(r, id, g) && g in r.finished then r.tombstones - {id} else r.tombstones))
  }

  // `record_completed_tombstone`
  function Recorded(r: Registry, id: string, g: nat): Registry {
    Trimmed(r.(queue := r.queue + [(id, g)]))
  }

  // `get_or_create_start_session`: refused while a destroy is under way.
  function Obtained(r: Registry, id: string): Registry {
    if BeingDestroyed(r, id) then r
    else
      var cleared := r.(tombstones := r.tombstones - {id});
      if id in r.sessions then cleared
      else cleared.(sessions := r.sessions[id := r.next], next := r.next + 1)
  }

  // `prepare_mock_server_destroy`
  function PreparationOf(r: Registry, id: string): Preparation {
    if id in r.tombstones then
      if r.tombstones[id] in r.finished then AlreadyDone else Wait(r.tombstones[id])
    else if id !in r.sessions then AlreadyDone
    else Begin(r.sessions[id])
  }

  function Prepared(r: Registry, id: string): Registry {
    if id in r.tombstones then r
    else if id !in r.sessions then
      var marked := r.(next := r.next + 1, tombstones := r.tombstones[id := r.next], finished := r.finished + {r.next});
      Recorded(marked, id, r.next)
    else
      r.(tombstones := r.tombstones[id := r.sessions[id]], destroyed := r.destroyed + {r.sessions[id]})
  }

  // `finalize_mock_server_destroy`
  function Finalized(r: Registry, id: string, g: nat): Registry {
    var removed := r.(sessions := if HasSession(r, id, g) then r.sessions - {id} else r.sessions,
        finished := r.finished + {g});
    if HasTombstone(r, id, g) then Recorded(removed, id, g) else removed
  }

  lemma {:induction false} TrimmedFrame(r: Registry)
    ensures var t := Trimmed(r);
            t.sessions == r.sessions && t.next == r.next && t.finished == r.finished && t.destroyed == r.destroyed
    decreases |r.queue|
  {
    if |r.queue| > MaxCompletedTombstones {
      var (id, g) := r.queue[0];
      TrimmedFrame(r.(queue := r.queue[1..],
                      tombstones := if HasTombstone(r, id, g)
                        && g in r.finished then r.tombstones - {id} else r.tombstones));
    }
  }

  // A tombstone is evicted only by a queue entry that names its own generation, and only
  // when it is finished: a stale entry never removes a newer tombstone.
  lemma {:induction false} EvictionIsExact(r: Registry, id: string)
    requires id in r.tombstones
    ensures var t := Trimmed(r);
            if id in t.tombstones then t.tombstones[id] == r.tombstones[id]
            else
              && r.tombstones[id] in r.finished
              && exists k: nat :: k < |r.queue| - MaxCompletedTombstones && r.queue[k] == (id, r.tombstones[id])
    decreases |r.queue|
  {
    if |r.queue| > MaxCompletedTombstones {
      var (oldest, g) := r.queue[0];
      var once := r.(queue := r.queue[1..],
                     tombstones := if HasTombstone(r, oldest, g)
                       && g in r.finished then r.tombstones - {oldest} else r.tombstones);
      if id in once.tombstones {
        EvictionIsExact(once, id);
        if id !in Trimmed(once).tombstones {
          var k: nat :| k < |once.queue| - MaxCompletedTombstones && once.queue[k] == (id, r.tombstones[id]);
          assert r.queue[k + 1] == (id, r.tombstones[id]);
        }
        assert Trimmed(r) == Trimmed(once);
      } else {
        assert r.queue[0] == (id, r.tombstones[id]);
        OnlyEvicts(once, id);
      }
    }
  }

  lemma {:induction false} OnlyEvicts(r: Registry, id: string)
    requires id !in r.tombstones
    ensures id !in Trimmed(r).tombstones
    decreases |r.queue|
  {
    if |r.queue| > MaxCompletedTombstones {
      var (oldest, g) := r.queue[0];
      OnlyEvicts(r.(queue := r.queue[1..],
                    tombstones := if HasTombstone(r, oldest, g)
                      && g in r.finished then r.tombstones - {oldest} else r.tombstones), id);
    }
  }

  // A cleanup removes the exact instance it was started for and nothing else, whatever
  // the registry looks like by then.
  lemma CleanupIsExact(r: Registry, id: string, g: nat)
    ensures !HasSession(r, id, g) ==> Finalized(r, id, g).sessions == r.sessions
    ensures HasSession(r, id, g) ==> Finalized(r, id, g).sessions == r.sessions - {id}
    ensures !HasTombstone(r, id, g) ==> Finalized(r, id, g).tombstones == r.tombstones
    ensures forall other | other in r.tombstones && r.tombstones[other] !in r.finished + {g} ::
              HasTombstone(Finalized(r, id, g), other, r.tombstones[other])
    ensures g in Finalized(r, id, g).finished
  {
    var removed := r.(sessions := if HasSession(r, id, g) then r.sessions - {id} else r.sessions,
        finished := r.finished + {g});
    var queued := removed.(queue := r.queue + [(id, g)]);
    TrimmedFrame(queued);
    forall other | other in r.tombstones && r.tombstones[other] !in r.finished + {g}
      ensures HasTombstone(Finalized(r, id, g), other, r.tombstones[other])
    {
      EvictionIsExact(queued, other);
    }
  }

  // ---------------------------------------------------------------- the object

  class MockServerRegistry {
    var sessions: map<string, nat>
    var tombstones: map<string, nat>
    var completedOrder: seq<(string, nat)>
    var nextInstanceGeneration: nat
    var finished: set<nat>
    var destroyed: set<nat>

    constructor ()
      ensures View() == Registry(map[], map[], [], 1, {}, {})
    {
      sessions, tombstones, completedOrder, nextInstanceGeneration := map[], map[], [], 1;
      finished, destroyed := {}, {};
    }

    ghost function View(): Registry
      reads this
    {
      Registry(sessions, tombstones, completedOrder, nextInstanceGeneration, finished, destroyed)
    }

    method AllocateGeneration() returns (g: nat)
      modifies this`nextInstanceGeneration
      ensures g == old(nextInstanceGeneration) && nextInstanceGeneration == g + 1
    {
      g := nextInstanceGeneration;
      nextInstanceGeneration := nextInstanceGeneration + 1;
    }

    method RemoveSessionIfGeneration(id: string, g: nat) returns (removed: bool)
      modifies this`sessions
      ensures removed <==> HasSession(old(View()), id, g)
      ensures sessions == if removed then old(sessions) - {id} else old(sessions)
    {
      removed := id in sessions && sessions[id] == g;
      if removed {
        sessions := sessions - {id};
      }
    }

    method RecordCompletedTombstone(id: string, g: nat)
      modifies this
      ensures View() == Recorded(old(View()), id, g)
    {
      completedOrder := completedOrder + [(id, g)];
      while |completedOrder| > MaxCompletedTombstones
        invariant Trimmed(View()) == Recorded(old(View()), id, g)
        decreases |completedOrder|
      {
        var (evictedId, evictedGeneration) := completedOrder[0];
        completedOrder := completedOrder[1..];
        if evictedId in tombstones && tombstones[evictedId] == evictedGeneration && evictedGeneration in finished {
          tombstones := tombstones - {evictedId};
        }
      }
    }

    method GetOrCreateStartSession(id: string) returns (r: Option<nat>)
      modifies this
      ensures View() == Obtained(old(View()), id)
      ensures r.None? <==> BeingDestroyed(old(View()), id)
      ensures r.Some? ==> HasSession(View(), id, r.value)
    {
      if id in tombstones {
        if tombstones[id] !in finished {
          return None;
        }
        tombstones := tombstones - {id};
      }
      if id in sessions {
        return Some(sessions[id]);
      }
      var g := AllocateGeneration();
      sessions := sessions[id := g];
      r := Some(g);
    }

    method PrepareDestroy(id: string) returns (p: Preparation)
      modifies this
      ensures View() == Prepared(old(View()), id)
      ensures p == PreparationOf(old(View()), id)
    {
      if id in tombstones {
        return if tombstones[id] in finished then AlreadyDone else Wait(tombstones[id]);
      }
      if id !in sessions {
        var g := AllocateGeneration();
        tombstones := tombstones[id := g];
        finished := finished + {g};
        RecordCompletedTombstone(id, g);
        return AlreadyDone;
      }
      destroyed := destroyed + {sessions[id]};
      tombstones := tombstones[id := sessions[id]];
      p := Begin(sessions[id]);
    }

    method FinalizeDestroy(id: string, g: nat)
      modifies this
      ensures View() == Finalized(old(View()), id, g)
    {
      var _ := RemoveSessionIfGeneration(id, g);
      if id in tombstones && tombstones[id] == g {
        finished := finished + {g};
        TrimmedFrame(View().(queue := completedOrder + [(id, g)]));
        RecordCompletedTombstone(id, g);
        assert finished + {g} == finished;
      }
      finished := finished + {g};
    }
  }

  // ---------------------------------------------------------------- every run

  // `destroying` are the detached cleanup tasks that have not finalized yet.
  datatype State = State(registry: Registry, destroying: set<(string, nat)>)

  datatype Step =
    | Obtain(id: string)
    | Prepare(id: string)
    | Finalize(id: string, generation: nat)

  function Init(): State { State(Registry(map[], map[], [], 1, {}, {}), {}) }

  predicate Enabled(s: State, step: Step) {
    step.Finalize? ==> (step.id, step.generation) in s.destroying
  }

  function Apply(s: State, step: Step): State {
    match step
    case Obtain(id) => s.(registry := Obtained(s.registry, id))
    case Prepare(id) =>
      var p := PreparationOf(s.registry, id);
      State(Prepared(s.registry, id), if p.Begin? then s.destroying + {(id, p.generation)} else s.destroying)
    case Finalize(id, g) => State(Finalized(s.registry, id, g), s.destroying - {(id, g)})
  }

  // A tombstone that is not finished names the session still in the map, which is
  // destroyed and has a cleanup under way; a finished one means no session, and is queued.
  predicate TombstoneKept(r: Registry, destroying: set<(string, nat)>, id: string)
    requires id in r.tombstones
  {
    var g := r.tombstones[id];
    if g in r.finished then id !in r.sessions && (id, g) in r.queue
    else HasSession(r, id, g) && g in r.destroyed && (id, g) in destroying
  }

  predicate SessionKept(r: Registry, id: string)
    requires id in r.sessions
  {
    var g := r.sessions[id];
    g !in r.finished && (g in r.destroyed ==> HasTombstone(r, id, g))
  }

  ghost predicate EntriesKept(r: Registry, destroying: set<(string, nat)>) {
    && (forall id :: id in r.tombstones ==> TombstoneKept(r, destroying, id))
    && (forall id :: id in r.sessions ==> SessionKept(r, id))
    && (forall id, g :: (id, g) in destroying ==> HasTombstone(r, id, g) && g !in r.finished)
    && (forall k :: 0 <= k < |r.queue| ==> r.queue[k].1 in r.finished)
  }

  ghost predicate NumbersKept(r: Registry) {
    && (forall id :: id in r.sessions ==> r.sessions[id] < r.next)
    && (forall id, other :: id in r.sessions && other in r.sessions && r.sessions[id] == r.sessions[other] ==>
          id == other)
    && (forall id :: id in r.tombstones ==> r.tombstones[id] < r.next)
    && (forall g :: g in r.finished ==> g < r.next)
    && (forall g :: g in r.destroyed ==> g < r.next)
  }

  ghost predicate Inv(s: State) {
    NumbersKept(s.registry) && EntriesKept(s.registry, s.destroying) && |s.registry.queue| <= MaxCompletedTombstones
  }

  lemma InitInv()
    ensures Inv(Init())
  {}

  // Trimming keeps everything but the queue and finished tombstones.
  lemma {:induction false} TrimmedKeeps(r: Registry, destroying: set<(string, nat)>)
    requires NumbersKept(r) && EntriesKept(r, destroying)
    ensures var t := Trimmed(r);
            && NumbersKept(t) && EntriesKept(t, destroying) && |t.queue| <= MaxCompletedTombstones
            && t.sessions == r.sessions && t.next == r.next && t.finished == r.finished && t.destroyed == r.destroyed
    decreases |r.queue|
  {
    if |r.queue| > MaxCompletedTombstones {
      var (id, g) := r.queue[0];
      var once := r.(queue := r.queue[1..],
                     tombstones := if HasTombstone(r, id, g)
                       && g in r.finished then r.tombstones - {id} else r.tombstones);
      EvictedKeeps(r, destroying);
      TrimmedKeeps(once, destroying);
    }
  }

  lemma EvictedKeeps(r: Registry, destroying: set<(string, nat)>)
    requires NumbersKept(r) && EntriesKept(r, destroying) && |r.queue| > 0
    ensures var (id, g) := r.queue[0];
            var once := r.(queue := r.queue[1..],
                           tombstones := if HasTombstone(r, id, g)
                             && g in r.finished then r.tombstones - {id} else r.tombstones);
            NumbersKept(once) && EntriesKept(once, destroying)
  {
    var (id, g) := r.queue[0];
    var once := r.(queue := r.queue[1..],
                   tombstones := if HasTombstone(r, id, g)
                     && g in r.finished then r.tombstones - {id} else r.tombstones);
    assert r.queue == [(id, g)] + once.queue;
    forall other | other in once.tombstones ensures TombstoneKept(once, destroying, other) {
      assert TombstoneKept(r, destroying, other);
    }
    forall other | other in once.sessions ensures SessionKept(once, other) {
      assert SessionKept(r, other);
    }
  }

  lemma ObtainKeepsInv(s: State, id: string)
    requires Inv(s)
    ensures Inv(Apply(s, Obtain(id)))
  {
    var r, after := s.registry, Obtained(s.registry, id);
    forall other | other in after.tombstones ensures TombstoneKept(after, s.destroying, other) {
      assert TombstoneKept(r, s.destroying, other);
    }
    forall other | other in after.sessions ensures SessionKept(after, other) {
      assert other in r.sessions ==> SessionKept(r, other);
      assert id in r.tombstones ==> TombstoneKept(r, s.destroying, id);
    }
  }

  lemma PrepareKeepsInv(s: State, id: string)
    requires Inv(s)
    ensures Inv(Apply(s, Prepare(id)))
  {
    var r, after := s.registry, Apply(s, Prepare(id));
    if id !in r.tombstones && id !in r.sessions {
      var g := r.next;
      var marked := r.(next := g + 1, tombstones := r.tombstones[id := g], finished := r.finished + {g},
          queue := r.queue + [(id, g)]);
      MarkedKeeps(s, id, marked);
      TrimmedKeeps(marked, s.destroying);
    } else if id !in r.tombstones {
      DestroyedKeeps(s, id);
    }
  }

  lemma MarkedKeeps(s: State, id: string, marked: Registry)
    requires Inv(s) && id !in s.registry.tombstones && id !in s.registry.sessions
    requires var r, g := s.registry, s.registry.next;
             marked == r.(next := g + 1, tombstones := r.tombstones[id := g], finished := r.finished + {g},
               queue := r.queue + [(id, g)])
    ensures NumbersKept(marked) && EntriesKept(marked, s.destroying)
  {
    var r := s.registry;
    forall other | other in marked.tombstones ensures TombstoneKept(marked, s.destroying, other) {
      assert other in r.tombstones ==> TombstoneKept(r, s.destroying, other);
    }
    forall other | other in marked.sessions ensures SessionKept(marked, other) {
      assert SessionKept(r, other);
    }
  }

  lemma DestroyedKeeps(s: State, id: string)
    requires Inv(s) && id !in s.registry.tombstones && id in s.registry.sessions
    ensures Inv(Apply(s, Prepare(id)))
  {
    var r, after := s.registry, Apply(s, Prepare(id));
    forall other | other in after.registry.tombstones ensures TombstoneKept(after.registry, after.destroying, other) {
      assert other in r.tombstones ==> TombstoneKept(r, s.destroying, other);
      assert SessionKept(r, id);
    }
    forall other | other in after.registry.sessions ensures SessionKept(after.registry, other) {
      assert SessionKept(r, other);
    }
    assert SessionKept(r, id);
  }

  lemma FinalizeKeepsInv(s: State, id: string, g: nat)
    requires Inv(s) && Enabled(s, Finalize(id, g))
    ensures Inv(Apply(s, Finalize(id, g)))
  {
    var r := s.registry;
    assert HasTombstone(r, id, g) && g !in r.finished;
    assert TombstoneKept(r, s.destroying, id);
    var removed := r.(sessions := r.sessions - {id}, finished := r.finished + {g}, queue := r.queue + [(id, g)]);
    var destroying := s.destroying - {(id, g)};
    RemovedKeeps(s, id, g);
    TrimmedKeeps(removed, destroying);
  }

  lemma RemovedKeeps(s: State, id: string, g: nat)
    requires Inv(s) && HasTombstone(s.registry, id, g) && g !in s.registry.finished
    ensures var r := s.registry;
            var removed := r.(sessions := r.sessions - {id}, finished := r.finished + {g},
                queue := r.queue + [(id, g)]);
            NumbersKept(removed) && EntriesKept(removed, s.destroying - {(id, g)})
  {
    var r := s.registry;
    var removed := r.(sessions := r.sessions - {id}, finished := r.finished + {g}, queue := r.queue + [(id, g)]);
    var destroying := s.destroying - {(id, g)};
    assert TombstoneKept(r, s.destroying, id);
    forall other | other in removed.tombstones ensures TombstoneKept(removed, destroying, other) {
      assert TombstoneKept(r, s.destroying, other);
    }
    forall other | other in removed.sessions ensures SessionKept(removed, other) {
      assert SessionKept(r, other);
    }
    forall other, h | (other, h) in destroying ensures HasTombstone(removed, other, h) && h !in removed.finished {
      assert TombstoneKept(r, s.destroying, other);
    }
  }

  lemma StepKeepsInv(s: State, step: Step)
    requires Inv(s) && Enabled(s, step)
    ensures Inv(Apply(s, step))
  {
    hide Inv, Apply;
    match step
    case Obtain(id) => ObtainKeepsInv(s, id);
    case Prepare(id) => PrepareKeepsInv(s, id);
    case Finalize(id, g) => FinalizeKeepsInv(s, id, g);
  }

  ghost predicate IsRun(states: seq<State>, steps: seq<Step>) {
    && |states| == |steps| + 1
    && states[0] == Init()
    && forall i :: 0 <= i < |steps| ==> Enabled(states[i], steps[i]) && states[i + 1] == Apply(states[i], steps[i])
  }

  lemma {:induction false} RunKeepsInv(states: seq<State>, steps: seq<Step>, i: nat)
    requires IsRun(states, steps) && i <= |steps|
    ensures Inv(states[i])
  {
    hide Inv, Apply, Enabled, Init;
    if i == 0 {
      InitInv();
    } else {
      RunKeepsInv(states, steps, i - 1);
      assert Enabled(states[i - 1], steps[i - 1]);
      StepKeepsInv(states[i - 1], steps[i - 1]);
    }
  }

  // What a tombstone says is true in every reachable state.
  lemma TombstonesTellTheTruth(states: seq<State>, steps: seq<Step>, i: nat, id: string)
    requires IsRun(states, steps) && i <= |steps| && id in states[i].registry.tombstones
    ensures var r := states[i].registry;
            var g := r.tombstones[id];
            if g in r.finished then id !in r.sessions && (id, g) in r.queue
            else HasSession(r, id, g) && g in r.destroyed && (id, g) in states[i].destroying
  {
    RunKeepsInv(states, steps, i);
    assert TombstoneKept(states[i].registry, states[i].destroying, id);
  }

  function IdsOf(queue: seq<(string, nat)>): set<string> {
    set entry | entry in queue :: entry.0
  }

  lemma {:induction false} IdsAreFew(queue: seq<(string, nat)>)
    ensures |IdsOf(queue)| <= |queue|
  {
    if queue == [] {
      assert IdsOf(queue) == {};
    } else {
      var front, last := queue[..|queue| - 1], queue[|queue| - 1];
      IdsAreFew(front);
      assert queue == front + [last];
      assert IdsOf(queue) == IdsOf(front) + {last.0};
    }
  }

  lemma {:induction false} SubsetIsSmaller<T>(small: set<T>, large: set<T>)
    requires small <= large
    ensures |small| <= |large|
  {
    if small != {} {
      var x :| x in small;
      SubsetIsSmaller(small - {x}, large - {x});
    }
  }

  // At most 4096 finished tombstones are ever kept.
  lemma FinishedTombstonesAreBounded(states: seq<State>, steps: seq<Step>, i: nat)
    requires IsRun(states, steps) && i <= |steps|
    ensures var r := states[i].registry;
            |set id | id in r.tombstones && r.tombstones[id] in r.finished| <= 4096
  {
    RunKeepsInv(states, steps, i);
    var r := states[i].registry;
    var finished := set id | id in r.tombstones && r.tombstones[id] in r.finished;
    forall id | id in finished ensures id in IdsOf(r.queue) {
      assert TombstoneKept(r, states[i].destroying, id);
      assert (id, r.tombstones[id]) in r.queue;
    }
    SubsetIsSmaller(finished, IdsOf(r.queue));
    IdsAreFew(r.queue);
  }

  // A finished tombstone goes away only when its id is started again, or when its own
  // entry is the oldest of a full queue.
  lemma FinishedTombstonesLast(states: seq<State>, steps: seq<Step>, i: nat, id: string)
    requires IsRun(states, steps) && i < |steps|
    requires id in states[i].registry.tombstones
              && !HasTombstone(states[i + 1].registry, id, states[i].registry.tombstones[id])
    ensures var r := states[i].registry;
            || steps[i] == Obtain(id)
            || (steps[i].id != id && |r.queue| == MaxCompletedTombstones && r.queue[0] == (id, r.tombstones[id]))
  {
    RunKeepsInv(states, steps, i);
    var s, step := states[i], steps[i];
    var r, g := s.registry, s.registry.tombstones[id];
    assert Enabled(s, step) && states[i + 1] == Apply(s, step);
    assert TombstoneKept(r, s.destroying, id);
    hide IsRun, EntriesKept, NumbersKept;
    match step
    case Obtain(other) =>
    case Prepare(other) =>
      if other !in r.tombstones && other !in r.sessions {
        var marked := r.(next := r.next + 1, tombstones := r.tombstones[other := r.next],
            finished := r.finished + {r.next},
                         queue := r.queue + [(other, r.next)]);
        EvictionIsExact(marked, id);
        assert marked.queue[0] == (id, g);
      }
    case Finalize(other, h) =>
      var removed := r.(sessions := if HasSession(r, other, h) then r.sessions - {other} else r.sessions,
                        finished := r.finished + {h}, queue := r.queue + [(other, h)]);
      EvictionIsExact(removed, id);
      assert removed.queue[0] == (id, g);
      FinalizedIsQueued(states, steps, i, other, h);
  }

  lemma FinalizedIsQueued(states: seq<State>, steps: seq<Step>, i: nat, id: string, g: nat)
    requires IsRun(states, steps) && i < |steps| && steps[i] == Finalize(id, g)
    ensures HasTombstone(states[i].registry, id, g) && (id, g) !in states[i].registry.queue
  {
    RunKeepsInv(states, steps, i);
    assert Enabled(states[i], steps[i]);
  }

  // A start never gets hold of a destroyed instance.
  lemma ObtainedIsNotDestroyed(states: seq<State>, steps: seq<Step>, i: nat, id: string)
    requires IsRun(states, steps) && i <= |steps| && !BeingDestroyed(states[i].registry, id)
    ensures var after := Obtained(states[i].registry, id);
            id in after.sessions && after.sessions[id] !in after.destroyed && id !in after.tombstones
  {
    RunKeepsInv(states, steps, i);
    var r := states[i].registry;
    if id in r.sessions {
      assert SessionKept(r, id);
      assert id in r.tombstones ==> TombstoneKept(r, states[i].destroying, id);
    }
  }

  // An instance whose destroy has finished is gone for good: no later start, eviction or
  // cleanup brings it back under any id.
  lemma {:induction false} GoneStaysGone(states: seq<State>, steps: seq<Step>, i: nat, j: nat, g: nat)
    requires IsRun(states, steps) && i <= j <= |steps| && g in states[i].registry.finished
    ensures g in states[j].registry.finished
    ensures forall id | id in states[j].registry.sessions :: states[j].registry.sessions[id] != g
    decreases j
  {
    RunKeepsInv(states, steps, j);
    if i < j {
      GoneStaysGone(states, steps, i, j - 1, g);
      assert Enabled(states[j - 1], steps[j - 1]);
      FinishedGrows(states[j - 1], steps[j - 1], g);
      hide Apply;
    }
    forall id | id in states[j].registry.sessions ensures states[j].registry.sessions[id] != g {
      assert SessionKept(states[j].registry, id);
    }
  }

  lemma FinishedGrows(s: State, step: Step, g: nat)
    requires g in s.registry.finished
    ensures g in Apply(s, step).registry.finished
  {
    var r := s.registry;
    match step
    case Obtain(_) =>
    case Prepare(id) =>
      TrimmedFrame(r.(next := r.next + 1, tombstones := r.tombstones[id := r.next], finished := r.finished + {r.next},
                      queue := r.queue + [(id, r.next)]));
    case Finalize(id, h) => CleanupKeepsFinished(r, id, h);
  }

  lemma CleanupKeepsFinished(r: Registry, id: string, g: nat)
    ensures Finalized(r, id, g).finished == r.finished + {g}
  {
    var removed := r.(sessions := if HasSession(r, id, g) then r.sessions - {id} else r.sessions,
        finished := r.finished + {g});
    TrimmedFrame(removed.(queue := r.queue + [(id, g)]));
  }
}
