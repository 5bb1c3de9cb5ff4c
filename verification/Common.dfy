// What the modules share: bytes, optional values, results that carry an error, saturating
// arithmetic, and the trace of emitted events.
module Common {

  type byte = x: int | 0 <= x < 256

  datatype Option<+T> = None | Some(value: T)

  datatype Result<+T, +E> = Ok(value: T) | Err(error: E)

  // Dropping from the left of two joined sequences.
  lemma DropJoined<T>(a: seq<T>, b: seq<T>, n: nat)
    requires n <= |a|
    ensures (a + b)[n..] == a[n..] + b && (a + b)[..n] == a[..n]
  {}

  // Cutting a sequence at k, after dropping n from its left or without.
  lemma DropThenCut<T>(s: seq<T>, n: nat, k: nat)
    requires n <= k <= |s|
    ensures s[n..][..k - n] == s[..k][n..] && s[n..][k - n..] == s[k..]
  {}

  lemma JoinAssociates<T>(a: seq<T>, b: seq<T>, c: seq<T>)
    ensures a + (b + c) == a + b + c
  {}

  // ---------------------------------------------------------------- machine integers

  const UsizeMax: nat := 0xFFFF_FFFF_FFFF_FFFF

  function SaturatingAdd(a: nat, b: nat): nat { if a + b <= UsizeMax then a + b else UsizeMax }

  function SaturatingSub(a: nat, b: nat): nat { if b <= a then a - b else 0 }

  // ---------------------------------------------------------------- emitted events

  // Events of one connection id, in order.
  function EventsOf<E>(log: seq<(string, E)>, id: string): seq<E> {
    if log == [] then []
    else
      var last := log[|log| - 1];
      EventsOf(log[..|log| - 1], id) + (if last.0 == id then [last.1] else [])
  }

  lemma EventsOfEmit<E>(log: seq<(string, E)>, id: string, event: E)
    ensures EventsOf(log + [(id, event)], id) == EventsOf(log, id) + [event]
    ensures forall other :: other != id ==> EventsOf(log + [(id, event)], other) == EventsOf(log, other)
  {
    assert (log + [(id, event)])[..|log|] == log;
  }
}
