// The descriptor pool cache (src-tauri/src/grpc_client.rs): a map with a logical clock,
// bounded by entries and by bytes, that evicts what was used least recently.
//
// It is proved against a list in order of use. The clock is unbounded here.
module GrpcCache {
  import opened Common

  datatype Limits = Limits(entries: nat, bytes: nat, entryBytes: nat)

  datatype InsertError = Disabled | TooLarge | CapacityInsufficient | SizeOverflow

  // ---------------------------------------------------------------- the list in order of use

  // A compiled pool, as far as the cache goes.
  datatype DescriptorPool = DescriptorPool(source: string)

  // Least recently used first.
  datatype Item = Item(key: string, pool: DescriptorPool, bytes: nat)

  predicate Distinct(list: seq<Item>) {
    forall i, j :: 0 <= i < j < |list| ==> list[i].key != list[j].key
  }

  predicate HasKey(list: seq<Item>, key: string) {
    exists i :: 0 <= i < |list| && list[i].key == key
  }

  function Total(list: seq<Item>): nat {
    if list == [] then 0 else list[0].bytes + Total(list[1..])
  }

  function Without(list: seq<Item>, key: string): seq<Item> {
    if list == [] then []
    else if list[0].key == key then Without(list[1..], key)
    else [list[0]] + Without(list[1..], key)
  }

  function Find(list: seq<Item>, key: string): Option<Item> {
    if list == [] then None else if list[0].key == key then Some(list[0]) else Find(list[1..], key)
  }

  // `get`: an entry that is found becomes the most recent.
  function Touched(list: seq<Item>, key: string): seq<Item> {
    match Find(list, key)
    case None => list
    case Some(item) => Without(list, key) + [item]
  }

  predicate Room(list: seq<Item>, bytes: nat, limits: Limits) {
    |list| < limits.entries && Total(list) + bytes <= limits.bytes
  }

  // Evicting from the least recent end until there is room.
  function Evicted(list: seq<Item>, bytes: nat, limits: Limits): seq<Item> {
    if list == [] || Room(list, bytes, limits) then list else Evicted(list[1..], bytes, limits)
  }

  function Size(bytes: nat): nat { if bytes == 0 then 1 else bytes }

  // When an insert is refused.
  function Refusal(bytes: nat, limits: Limits): Option<InsertError> {
    if limits.entries == 0 || limits.bytes == 0 then Some(Disabled)
    else if Size(bytes) > limits.entryBytes || Size(bytes) > limits.bytes then Some(TooLarge)
    else None
  }

  // `insert`
  function Inserted(list: seq<Item>, key: string, pool: DescriptorPool, bytes: nat, limits: Limits): seq<Item> {
    if Refusal(bytes, limits).Some? then list
    else Evicted(Without(list, key), Size(bytes), limits) + [Item(key, pool, Size(bytes))]
  }

  function RemovedAt(list: seq<Item>, i: nat): (r: seq<Item>)
    requires i < |list|
    ensures |r| == |list| - 1
    ensures forall j :: 0 <= j < i ==> r[j] == list[j]
    ensures forall j :: i <= j < |r| ==> r[j] == list[j + 1]
  {
    list[..i] + list[i + 1..]
  }

  lemma {:induction false} TotalAppend(a: seq<Item>, b: seq<Item>)
    ensures Total(a + b) == Total(a) + Total(b)
  {
    if a == [] {
      assert a + b == b;
    } else {
      TotalAppend(a[1..], b);
      assert (a + b)[1..] == a[1..] + b;
    }
  }

  lemma WithoutFirst(list: seq<Item>, key: string)
    requires list != []
    ensures Without(list, key) == (if list[0].key == key then [] else [list[0]]) + Without(list[1..], key)
  {}

  lemma {:induction false} WithoutAppend(a: seq<Item>, b: seq<Item>, key: string)
    ensures Without(a + b, key) == Without(a, key) + Without(b, key)
  {
    if a == [] {
      assert a + b == b;
    } else {
      WithoutAppend(a[1..], b, key);
      hide Without;
      WithoutFirst(a, key);
      WithoutFirst(a + b, key);
      DropJoined(a, b, 1);
      JoinAssociates(if a[0].key == key then [] else [a[0]], Without(a[1..], key), Without(b, key));
    }
  }

  lemma {:induction false} WithoutAbsent(list: seq<Item>, key: string)
    requires !HasKey(list, key)
    ensures Without(list, key) == list && Find(list, key).None?
  {
    if list != [] {
      assert list[0].key != key;
      forall i | 0 <= i < |list[1..]| ensures list[1..][i].key != key { assert list[i + 1].key != key; }
      WithoutAbsent(list[1..], key);
    }
  }

  // Where a key is, and what taking it out leaves.
  lemma {:induction false} WithoutPresent(list: seq<Item>, key: string, i: nat)
    requires Distinct(list) && i < |list| && list[i].key == key
    ensures Without(list, key) == RemovedAt(list, i)
    ensures Find(list, key) == Some(list[i])
  {
    var front, back := list[..i], list[i + 1..];
    var tail := [list[i]] + back;
    assert list == front + tail && tail[1..] == back;
    assert !HasKey(front, key) && !HasKey(back, key);
    hide HasKey, Distinct;
    WithoutAbsent(front, key);
    WithoutAbsent(back, key);
    WithoutAppend(front, tail, key);
    FindAppend(front, tail, key);
  }

  lemma {:induction false} FindAppend(a: seq<Item>, b: seq<Item>, key: string)
    requires !HasKey(a, key)
    ensures Find(a + b, key) == Find(b, key)
  {
    if a == [] {
      assert a + b == b;
    } else {
      assert a[0].key != key;
      forall i | 0 <= i < |a[1..]| ensures a[1..][i].key != key { assert a[i + 1].key != key; }
      FindAppend(a[1..], b, key);
      assert (a + b)[1..] == a[1..] + b;
    }
  }

  // ---------------------------------------------------------------- the map and its clock

  datatype Entry = Entry(pool: DescriptorPool, bytes: nat, lastUsed: nat)

  // The map holds the items of the list, and its stamps order them.
  ghost predicate Agrees(entries: map<string, Entry>, clock: nat, list: seq<Item>) {
    |entries| == |list| && Covered(entries, list) && Held(entries, clock, list) && Ordered(entries, list)
  }

  ghost predicate Covered(entries: map<string, Entry>, list: seq<Item>) {
    forall key :: key in entries ==> HasKey(list, key)
  }

  ghost predicate Held(entries: map<string, Entry>, clock: nat, list: seq<Item>) {
    forall i :: 0 <= i < |list| ==> Holds(entries, clock, list[i])
  }

  ghost predicate Ordered(entries: map<string, Entry>, list: seq<Item>) {
    forall i, j :: 0 <= i < j < |list| ==> StampOf(entries, list[i]) < StampOf(entries, list[j])
  }

  predicate Holds(entries: map<string, Entry>, clock: nat, item: Item) {
    && item.key in entries
    && entries[item.key].bytes == item.bytes && entries[item.key].pool == item.pool
    && entries[item.key].lastUsed <= clock
  }

  function StampOf(entries: map<string, Entry>, item: Item): nat {
    if item.key in entries then entries[item.key].lastUsed else 0
  }

  lemma AgreesIsDistinct(entries: map<string, Entry>, clock: nat, list: seq<Item>)
    requires Agrees(entries, clock, list)
    ensures Distinct(list)
  {}

  lemma RemoveAgrees(entries: map<string, Entry>, clock: nat, list: seq<Item>, i: nat)
    requires Agrees(entries, clock, list) && i < |list|
    ensures Agrees(entries - {list[i].key}, clock, RemovedAt(list, i))
    ensures Total(RemovedAt(list, i)) == Total(list) - list[i].bytes
  {
    hide RemovedAt, Covered, Held, Ordered, Total, Distinct, Holds;
    AgreesIsDistinct(entries, clock, list);
    RemoveTotal(list, i);
    RemoveCovers(entries, list, i);
    RemoveHolds(entries, clock, list, i);
    RemoveOrders(entries, clock, list, i);
    RemoveCount(entries, clock, list, i);
  }

  lemma RemoveCount(entries: map<string, Entry>, clock: nat, list: seq<Item>, i: nat)
    requires Held(entries, clock, list) && i < |list|
    ensures |entries - {list[i].key}| == |entries| - 1
  {
    var key := list[i].key;
    var less := entries - {key};
    assert Holds(entries, clock, list[i]);
    assert less.Keys == entries.Keys - {key};
    assert |less| == |less.Keys| && |entries| == |entries.Keys|;
  }

  lemma RemoveCovers(entries: map<string, Entry>, list: seq<Item>, i: nat)
    requires Covered(entries, list) && i < |list|
    ensures Covered(entries - {list[i].key}, RemovedAt(list, i))
  {
    var rest := RemovedAt(list, i);
    hide RemovedAt;
    forall k | k in entries && k != list[i].key ensures HasKey(rest, k) {
      assert HasKey(list, k);
      var j :| 0 <= j < |list| && list[j].key == k;
      assert rest[if j < i then j else j - 1] == list[j];
    }
  }

  lemma RemoveHolds(entries: map<string, Entry>, clock: nat, list: seq<Item>, i: nat)
    requires Held(entries, clock, list) && Distinct(list) && i < |list|
    ensures Held(entries - {list[i].key}, clock, RemovedAt(list, i))
  {
    var rest, less := RemovedAt(list, i), entries - {list[i].key};
    hide RemovedAt;
    forall j | 0 <= j < |rest| ensures Holds(less, clock, rest[j]) {
      var k := if j < i then j else j + 1;
      assert rest[j] == list[k] && Holds(entries, clock, list[k]) && list[k].key != list[i].key;
    }
  }

  lemma RemoveOrders(entries: map<string, Entry>, clock: nat, list: seq<Item>, i: nat)
    requires Ordered(entries, list) && Distinct(list) && i < |list|
    ensures Ordered(entries - {list[i].key}, RemovedAt(list, i))
  {
    var rest, less := RemovedAt(list, i), entries - {list[i].key};
    hide RemovedAt;
    forall j, k | 0 <= j < k < |rest| ensures StampOf(less, rest[j]) < StampOf(less, rest[k]) {
      var a, b := if j < i then j else j + 1, if k < i then k else k + 1;
      assert rest[j] == list[a] && rest[k] == list[b];
      assert list[a].key != list[i].key && list[b].key != list[i].key;
      assert StampOf(entries, list[a]) < StampOf(entries, list[b]);
    }
  }

  lemma RemoveTotal(list: seq<Item>, i: nat)
    requires i < |list|
    ensures Total(RemovedAt(list, i)) == Total(list) - list[i].bytes
  {
    var tail := [list[i]] + list[i + 1..];
    assert tail[1..] == list[i + 1..] && Total(tail) == list[i].bytes + Total(list[i + 1..]);
    hide Total;
    assert list == list[..i] + tail;
    TotalAppend(list[..i], tail);
    TotalAppend(list[..i], list[i + 1..]);
  }

  lemma AddAgrees(entries: map<string, Entry>, clock: nat, list: seq<Item>, item: Item)
    requires Agrees(entries, clock, list) && item.key !in entries
    ensures Agrees(entries[item.key := Entry(item.pool, item.bytes, clock + 1)], clock + 1, list + [item])
    ensures Total(list + [item]) == Total(list) + item.bytes
  {
    hide Covered, Held, Ordered, Total, Holds;
    var more := entries[item.key := Entry(item.pool, item.bytes, clock + 1)];
    assert more.Keys == entries.Keys + {item.key};
    assert |more| == |more.Keys| && |entries| == |entries.Keys|;
    TotalAppend(list, [item]);
    TotalOne(item);
    AddCovers(entries, list, item, more);
    AddHolds(entries, clock, list, item, more);
    AddOrders(entries, clock, list, item, more);
  }

  lemma TotalOne(item: Item)
    ensures Total([item]) == item.bytes
  {
    assert [item][1..] == [];
  }

  lemma AddHolds(entries: map<string, Entry>, clock: nat, list: seq<Item>, item: Item, more: map<string, Entry>)
    requires Held(entries, clock, list) && item.key !in entries
              && more == entries[item.key := Entry(item.pool, item.bytes, clock + 1)]
    ensures Held(more, clock + 1, list + [item])
  {
    forall j | 0 <= j < |list + [item]| ensures Holds(more, clock + 1, (list + [item])[j]) {
      if j < |list| {
        assert Holds(entries, clock, list[j]);
      }
    }
  }

  lemma AddOrders(entries: map<string, Entry>, clock: nat, list: seq<Item>, item: Item, more: map<string, Entry>)
    requires Held(entries, clock, list) && Ordered(entries, list) && item.key !in entries
    requires more == entries[item.key := Entry(item.pool, item.bytes, clock + 1)]
    ensures Ordered(more, list + [item])
  {
    var longer := list + [item];
    forall j, k | 0 <= j < k < |longer| ensures StampOf(more, longer[j]) < StampOf(more, longer[k]) {
      assert Holds(entries, clock, list[j]);
      if k < |list| {
        assert Holds(entries, clock, list[k]);
        assert StampOf(entries, list[j]) < StampOf(entries, list[k]);
      }
    }
  }

  lemma AddCovers(entries: map<string, Entry>, list: seq<Item>, item: Item, more: map<string, Entry>)
    requires Covered(entries, list) && more.Keys == entries.Keys + {item.key}
    ensures Covered(more, list + [item])
  {
    var longer := list + [item];
    forall k | k in more ensures HasKey(longer, k) {
      if k == item.key {
        assert longer[|list|].key == k;
      } else {
        var j :| 0 <= j < |list| && list[j].key == k;
        assert longer[j].key == k;
      }
    }
  }

  lemma AbsentKey(entries: map<string, Entry>, clock: nat, list: seq<Item>, key: string)
    requires Agrees(entries, clock, list)
    ensures key in entries <==> HasKey(list, key)
  {
    if HasKey(list, key) {
      var i :| 0 <= i < |list| && list[i].key == key;
      assert Holds(entries, clock, list[i]);
    }
  }

  lemma FindKey(entries: map<string, Entry>, clock: nat, list: seq<Item>, key: string) returns (i: nat)
    requires Agrees(entries, clock, list) && key in entries
    ensures i < |list| && list[i].key == key && Holds(entries, clock, list[i])
  {
    assert HasKey(list, key);
    i :| i < |list| && list[i].key == key;
  }

  // A hit: the entry moves to the recent end.
  lemma TouchAgrees(entries: map<string, Entry>, clock: nat, list: seq<Item>, key: string) returns (i: nat)
    requires Agrees(entries, clock, list) && key in entries
    ensures i < |list| && Find(list, key) == Some(list[i]) && list[i].key == key && Holds(entries, clock, list[i])
    ensures Touched(list, key) == RemovedAt(list, i) + [list[i]]
    ensures Agrees(entries[key := entries[key].(lastUsed := clock + 1)], clock + 1, RemovedAt(list, i) + [list[i]])
    ensures Total(RemovedAt(list, i) + [list[i]]) == Total(list)
  {
    hide RemovedAt, Covered, Ordered, Total, Distinct, Without, Find;
    i := FindKey(entries, clock, list, key);
    AgreesIsDistinct(entries, clock, list);
    WithoutPresent(list, key, i);
    RemoveAgrees(entries, clock, list, i);
    AddAgrees(entries - {key}, clock, RemovedAt(list, i), list[i]);
    var stamped := entries[key].(lastUsed := clock + 1);
    assert (entries - {key})[key := stamped] == entries[key := stamped];
  }

  lemma LaterClock(entries: map<string, Entry>, clock: nat, list: seq<Item>)
    requires Agrees(entries, clock, list)
    ensures Agrees(entries, clock + 1, list)
  {
    forall i | 0 <= i < |list| ensures Holds(entries, clock + 1, list[i]) {
      assert Holds(entries, clock, list[i]);
    }
  }

  lemma LeastIsFirst(entries: map<string, Entry>, clock: nat, list: seq<Item>, lru: string)
    requires Agrees(entries, clock, list) && lru in entries
    requires forall k :: k in entries ==> entries[lru].lastUsed <= entries[k].lastUsed
    ensures list != [] && lru == list[0].key
  {
    assert HasKey(list, lru);
    var i: nat :| i < |list| && list[i].key == lru;
    assert Holds(entries, clock, list[0]) && Holds(entries, clock, list[i]);
    assert StampOf(entries, list[i]) <= StampOf(entries, list[0]);
  }

  class DescriptorPoolCache {
    var entries: map<string, Entry>
    var totalBytes: nat
    var clock: nat
    const limits: Limits
    ghost var list: seq<Item>

    ghost predicate Valid()
      reads this
    {
      Agrees(entries, clock, list) && totalBytes == Total(list) && Bounded(list, limits) && limits.bytes <= UsizeMax
    }

    constructor (limits: Limits)
      requires limits.bytes <= UsizeMax
      ensures Valid() && list == [] && this.limits == limits
    {
      entries, totalBytes, clock, list := map[], 0, 0, [];
      this.limits := limits;
    }

    method Get(key: string) returns (r: Option<DescriptorPool>)
      requires Valid()
      modifies this
      ensures Valid() && list == Touched(old(list), key) && totalBytes == old(totalBytes)
      ensures r == match Find(old(list), key) case None => None case Some(item) => Some(item.pool)
    {
      hide RemovedAt, Agrees, Total, Without, Find, HasKey;
      AbsentKey(entries, clock, list, key);
      if key in entries {
        var entry := entries[key];
        ghost var i := TouchAgrees(entries, clock, list, key);
        list := RemovedAt(list, i) + [list[i]];
        clock := clock + 1;
        entries := entries[key := entry.(lastUsed := clock)];
        r := Some(entry.pool);
      } else {
        WithoutAbsent(list, key);
        LaterClock(entries, clock, list);
        clock := clock + 1;
        r := None;
      }
    }

    // The key with the smallest stamp.
    method LeastRecentlyUsed() returns (lru: string)
      requires Agrees(entries, clock, list) && entries.Keys != {}
      ensures list != [] && lru == list[0].key
    {
      lru :| lru in entries.Keys;
      var rest := entries.Keys - {lru};
      while rest != {}
        invariant lru in entries && rest <= entries.Keys
        invariant forall k :: k in entries && k !in rest ==> entries[lru].lastUsed <= entries[k].lastUsed
        decreases |rest|
      {
        var k :| k in rest;
        if entries[k].lastUsed < entries[lru].lastUsed {
          lru := k;
        }
        rest := rest - {k};
      }
      LeastIsFirst(entries, clock, list, lru);
    }

    // Removes the entry of one key, if there is one.
    method Remove(key: string)
      requires Valid()
      modifies this
      ensures Valid() && list == Without(old(list), key) && clock == old(clock) && key !in entries
    {
      hide RemovedAt, Agrees, Total, Without, Find, HasKey;
      AbsentKey(entries, clock, list, key);
      if key in entries {
        ghost var i := FindKey(entries, clock, list, key);
        AgreesIsDistinct(entries, clock, list);
        WithoutPresent(list, key, i);
        RemoveAgrees(entries, clock, list, i);
        totalBytes := SaturatingSub(totalBytes, entries[key].bytes);
        entries := entries - {key};
        list := RemovedAt(list, i);
      } else {
        WithoutAbsent(list, key);
      }
    }

    // The eviction loop; false when even an empty cache has no room.
    method MakeRoom(bytes: nat) returns (ok: bool)
      requires Valid()
      modifies this
      ensures Valid() && clock == old(clock) && entries.Keys <= old(entries).Keys
      ensures list == Evicted(old(list), bytes, limits)
      ensures ok <==> Room(list, bytes, limits)
    {
      hide RemovedAt, Covered, Held, Ordered, Total, HasKey;
      while |entries| >= limits.entries || totalBytes + bytes > UsizeMax || totalBytes + bytes > limits.bytes
        invariant Valid() && clock == old(clock) && entries.Keys <= old(entries).Keys
        invariant Evicted(list, bytes, limits) == Evicted(old(list), bytes, limits)
        invariant |entries| == |list|
        decreases |entries|
      {
        if entries.Keys == {} {
          return false;
        }
        var lru := LeastRecentlyUsed();
        RemoveAgrees(entries, clock, list, 0);
        HeadOf(entries, clock, list);
        totalBytes := SaturatingSub(totalBytes, entries[lru].bytes);
        entries := entries - {lru};
        list := list[1..];
      }
      return true;
    }

    method Insert(key: string, pool: DescriptorPool, bytes: nat) returns (r: Result<(), InsertError>)
      requires Valid()
      modifies this
      ensures Valid()
      ensures list == Inserted(old(list), key, pool, bytes, limits)
      ensures r == match Refusal(bytes, limits) case Some(e) => Err(e) case None => Ok(())
      ensures r.Err? ==> entries == old(entries) && totalBytes == old(totalBytes) && clock == old(clock)
    {
      hide Agrees, Total, HasKey, Without;
      var size := if bytes < 1 then 1 else bytes;
      if limits.entries == 0 || limits.bytes == 0 {
        return Err(Disabled);
      }
      if size > limits.entryBytes || size > limits.bytes {
        return Err(TooLarge);
      }
      Remove(key);
      var room := MakeRoom(size);
      EvictedHasRoom(Without(old(list), key), size, limits);
      r := if !room then Err(CapacityInsufficient)
           else if totalBytes + size > UsizeMax then Err(SizeOverflow)
           else Ok(());
      if r.Ok? {
        AddAgrees(entries, clock, list, Item(key, pool, size));
        clock := clock + 1;
        totalBytes := totalBytes + size;
        entries := entries[key := Entry(pool, size, clock)];
        list := list + [Item(key, pool, size)];
      }
    }
  }

  // The first item of the list, in the map.
  lemma HeadOf(entries: map<string, Entry>, clock: nat, list: seq<Item>)
    requires Agrees(entries, clock, list) && list != []
    ensures Holds(entries, clock, list[0]) && RemovedAt(list, 0) == list[1..] && list[0].bytes <= Total(list)
  {}

  // Both bounds.
  predicate Bounded(list: seq<Item>, limits: Limits) {
    |list| <= limits.entries && Total(list) <= limits.bytes
  }

  // An accepted insert always finds room: the cache would be empty before it failed.
  lemma {:induction false} EvictedHasRoom(list: seq<Item>, bytes: nat, limits: Limits)
    requires limits.entries > 0 && bytes <= limits.bytes
    ensures Room(Evicted(list, bytes, limits), bytes, limits)
  {
    if list != [] && !Room(list, bytes, limits) {
      EvictedHasRoom(list[1..], bytes, limits);
    }
  }

  // What is kept is the most recent part of the list, and as much of it as has room.
  lemma {:induction false} EvictedKeepsTheMostRecent(list: seq<Item>, bytes: nat, limits: Limits, k: nat)
    requires k <= |list|
    ensures |Evicted(list, bytes, limits)| <= |list|
    ensures Evicted(list, bytes, limits) == list[|list| - |Evicted(list, bytes, limits)|..]
    ensures Room(list[k..], bytes, limits) ==> |list| - k <= |Evicted(list, bytes, limits)|
  {
    if list != [] && !Room(list, bytes, limits) {
      EvictedKeepsTheMostRecent(list[1..], bytes, limits, if k == 0 then 0 else k - 1);
      assert k > 0 ==> list[1..][k - 1..] == list[k..];
    }
  }

  datatype Operation = Get(key: string) | Insert(key: string, pool: DescriptorPool, bytes: nat)

  // The list after any history of operations on a fresh cache.
  function Replay(operations: seq<Operation>, limits: Limits): seq<Item> {
    if operations == [] then []
    else
      var before := Replay(operations[..|operations| - 1], limits);
      match operations[|operations| - 1]
      case Get(key) => Touched(before, key)
      case Insert(key, pool, bytes) => Inserted(before, key, pool, bytes, limits)
  }

  lemma {:induction false} WithoutIsSmaller(list: seq<Item>, key: string)
    requires Distinct(list)
    ensures Distinct(Without(list, key)) && !HasKey(Without(list, key), key)
    ensures |Without(list, key)| <= |list| && Total(Without(list, key)) <= Total(list)
    ensures match Find(list, key)
            case None => true
            case Some(item) =>
              && item.key == key && |Without(list, key)| == |list| - 1
              && Total(Without(list, key)) == Total(list) - item.bytes
  {
    if i: nat :| i < |list| && list[i].key == key {
      WithoutPresent(list, key, i);
      RemoveTotal(list, i);
    } else {
      WithoutAbsent(list, key);
    }
  }

  lemma {:induction false} EvictedStaysDistinct(list: seq<Item>, bytes: nat, limits: Limits, key: string)
    requires Distinct(list) && !HasKey(list, key)
    ensures Distinct(Evicted(list, bytes, limits)) && !HasKey(Evicted(list, bytes, limits), key)
  {
    EvictedKeepsTheMostRecent(list, bytes, limits, 0);
  }

  // After every history no key occurs twice and both bounds hold.
  lemma {:induction false} HistoryStaysBounded(operations: seq<Operation>, limits: Limits)
    ensures Distinct(Replay(operations, limits)) && Bounded(Replay(operations, limits), limits)
  {
    if operations != [] {
      var before, last := Replay(operations[..|operations| - 1], limits), operations[|operations| - 1];
      HistoryStaysBounded(operations[..|operations| - 1], limits);
      WithoutIsSmaller(before, last.key);
      var rest := Without(before, last.key);
      match last
      case Get(key) =>
        if Find(before, key).Some? {
          AppendKeeps(rest, Find(before, key).value);
        }
      case Insert(key, pool, bytes) =>
        if Refusal(bytes, limits).None? {
          EvictedStaysDistinct(rest, Size(bytes), limits, key);
          EvictedHasRoom(rest, Size(bytes), limits);
          AppendKeeps(Evicted(rest, Size(bytes), limits), Item(key, pool, Size(bytes)));
        }
    }
  }

  lemma AppendKeeps(list: seq<Item>, item: Item)
    requires Distinct(list) && !HasKey(list, item.key)
    ensures Distinct(list + [item]) && Total(list + [item]) == Total(list) + item.bytes
  {
    TotalAppend(list, [item]);
    TotalOne(item);
  }
}
