// Headers and query parameters that a pre-request script edits (src-tauri/src/
// script_engine.rs), and the patch that carries the edits over to the request
// (src-tauri/src/http_client.rs).
//
// The maps are hash maps: they are walked in no particular order, so a search for a name
// without regard to case may find any of the entries that match.
module Headers {
  import opened Common
  import opened Strings

  type Entries = map<string, string>

  // ---------------------------------------------------------------- names without case

  // No two entries differ only in the case of their names.
  ghost predicate CaseUnique(h: Entries) {
    forall a, b :: a in h && b in h && Lower(a) == Lower(b) ==> a == b
  }

  // What a search for a name may find.
  ghost predicate MayFind(h: Entries, key: string, r: Option<string>) {
    if r.None? then forall k :: k in h ==> Lower(k) != Lower(key)
    else exists k :: k in h && Lower(k) == Lower(key) && h[k] == r.value
  }

  // A case-insensitive reader of `h` sees `r`: the same entries, under lower-case names.
  ghost predicate Reads(h: Entries, r: Entries) {
    && (forall k :: k in h ==> Lower(k) in r && r[Lower(k)] == h[k])
    && (forall n :: n in r ==> exists k :: k in h && Lower(k) == n)
  }

  ghost function Seen(h: Entries): (r: Entries)
    requires CaseUnique(h)
    ensures Reads(h, r)
  {
    hide Lower;
    map k | k in h :: Lower(k) := h[k]
  }

  lemma ReadingIsUnique(h: Entries, a: Entries, b: Entries)
    requires Reads(h, a) && Reads(h, b)
    ensures a == b
  {
    hide Lower;
    forall n ensures n in a <==> n in b {
    }
    forall n | n in a ensures a[n] == b[n] {
      var k :| k in h && Lower(k) == n;
    }
  }

  ghost function SeenUnder(h: Entries, key: string): Option<string>
    requires CaseUnique(h)
  {
    if Lower(key) in Seen(h) then Some(Seen(h)[Lower(key)]) else None
  }

  // With unique names a search has one result.
  lemma SearchIsExact(h: Entries, key: string, r: Option<string>)
    requires CaseUnique(h)
    ensures MayFind(h, key, r) <==> r == SeenUnder(h, key)
  {
    hide Lower, Seen;
    assert Reads(h, Seen(h));
  }

  // ---------------------------------------------------------------- the script's headers

  // One entry that matches, if any.
  method FindKey(h: Entries, key: string) returns (r: Option<string>)
    ensures r.None? ==> forall k :: k in h ==> Lower(k) != Lower(key)
    ensures r.Some? ==> r.value in h && Lower(r.value) == Lower(key)
  {
    var rest := h.Keys;
    while rest != {}
      invariant rest <= h.Keys && forall k :: k in h && k !in rest ==> Lower(k) != Lower(key)
      decreases |rest|
    {
      var k :| k in rest;
      if EqIgnoreAsciiCase(k, key) {
        return Some(k);
      }
      rest := rest - {k};
    }
    return None;
  }

  // The map a script works on.
  class ScriptHeaders {
    var entries: Entries

    constructor (initial: Entries)
      ensures entries == initial
    {
      entries := initial;
    }

    // `lookup_header_value`
    method LookupHeaderValue(key: string) returns (r: Option<string>)
      ensures MayFind(entries, key, r)
    {
      var k := FindKey(entries, key);
      r := if k.Some? then Some(entries[k.value]) else None;
    }

    // `remove_header_value`
    method RemoveHeaderValue(key: string)
      modifies this
      ensures RemovedOne(old(entries), key, entries)
    {
      var k := FindKey(entries, key);
      if k.Some? {
        entries := entries - {k.value};
      }
    }

    // `set_header_value`
    method SetHeaderValue(key: string, value: string)
      modifies this
      ensures exists less :: RemovedOne(old(entries), key, less) && entries == less[key := value]
    {
      RemoveHeaderValue(key);
      ghost var less := entries;
      entries := entries[key := value];
      assert RemovedOne(old(entries), key, less);
    }
  }

  // One matching entry is gone, or there was none.
  ghost predicate RemovedOne(before: Entries, key: string, after: Entries) {
    || (after == before && forall k :: k in before ==> Lower(k) != Lower(key))
    || exists k :: k in before && Lower(k) == Lower(key) && after == before - {k}
  }

  ghost function WithoutName(h: Entries, key: string): Entries {
    map k | k in h && Lower(k) != Lower(key) :: h[k]
  }

  lemma RemovesTheName(before: Entries, key: string, after: Entries)
    requires CaseUnique(before) && RemovedOne(before, key, after)
    ensures CaseUnique(after) && after == WithoutName(before, key)
  {
    hide Lower;
    if k :| k in before && Lower(k) == Lower(key) && after == before - {k} {
      assert after == WithoutName(before, key);
    } else {
      assert after == WithoutName(before, key);
    }
  }

  // Removing a name from a case-unique map removes it for every reader, and nothing else.
  lemma RemoveIsSeen(before: Entries, key: string, after: Entries)
    requires CaseUnique(before) && RemovedOne(before, key, after)
    ensures CaseUnique(after) && Seen(after) == Seen(before) - {Lower(key)}
  {
    hide Lower, Seen;
    RemovesTheName(before, key, after);
    hide RemovedOne;
    ReadingIsUnique(after, Seen(after), Seen(before) - {Lower(key)});
  }

  // Setting one sets it for every reader, and nothing else.
  lemma SetIsSeen(before: Entries, key: string, value: string, less: Entries)
    requires CaseUnique(before) && RemovedOne(before, key, less)
    ensures CaseUnique(less[key := value]) && Seen(less[key := value]) == Seen(before)[Lower(key) := value]
  {
    hide Lower, Seen;
    RemovesTheName(before, key, less);
    hide RemovedOne;
    var after, wanted := less[key := value], Seen(before)[Lower(key) := value];
    assert Reads(after, wanted) by {
      forall n | n in wanted ensures exists k :: k in after && Lower(k) == n {
        if n == Lower(key) {
          assert key in after;
        } else {
          var k :| k in before && Lower(k) == n;
          assert k in after;
        }
      }
    }
    ReadingIsUnique(after, Seen(after), wanted);
  }

  // ---------------------------------------------------------------- the patch

  // `ScriptRequestContext`, as far as a patch goes
  datatype Context = Context(headers: Entries, query: Entries)

  // `ScriptRequestPatch`
  datatype Patch = Patch(
    headers: Entries,
    removedHeaders: seq<string>,
    query: Entries,
    removedQuery: seq<string>)

  predicate IsEmpty(p: Patch) {
    p.headers == map[] && p.removedHeaders == [] && p.query == map[] && p.removedQuery == []
  }

  // Entries of `current` that a search in `original` may not have found, or may have found
  // with another value.
  ghost predicate HeaderUpdates(original: Entries, current: Entries, updates: Entries) {
    && (forall k :: k in updates ==> k in current && updates[k] == current[k])
    && (forall k :: k in updates ==> exists r :: MayFind(original, k, r) && r != Some(current[k]))
    && (forall k :: k in current && k !in updates ==> MayFind(original, k, Some(current[k])))
  }

  ghost predicate ListsExactly(list: seq<string>, wanted: set<string>) {
    && (forall k :: k in list <==> k in wanted)
    && (forall i, j :: 0 <= i < j < |list| ==> list[i] != list[j])
  }

  ghost function Lost(original: Entries, current: Entries): set<string> {
    set k | k in original && forall c :: c in current ==> Lower(c) != Lower(k)
  }

  ghost function LostQuery(original: Entries, current: Entries): set<string> {
    set k | k in original && k !in current
  }

  function QueryUpdates(original: Entries, current: Entries): Entries {
    map k | k in current && (k !in original || original[k] != current[k]) :: current[k]
  }

  // What `build_request_patch` may fill a patch with.
  ghost predicate IsPatch(original: Context, current: Context, p: Patch) {
    && HeaderUpdates(original.headers, current.headers, p.headers)
    && ListsExactly(p.removedHeaders, Lost(original.headers, current.headers))
    && p.query == QueryUpdates(original.query, current.query)
    && ListsExactly(p.removedQuery, LostQuery(original.query, current.query))
  }

  ghost predicate PatchResult(original: Context, current: Context, r: Option<Patch>) {
    exists p :: IsPatch(original, current, p) && r == if IsEmpty(p) then None else Some(p)
  }

  method CollectHeaderUpdates(original: Entries, current: Entries) returns (updates: Entries)
    ensures HeaderUpdates(original, current, updates)
  {
    updates := map[];
    var script := new ScriptHeaders(original);
    var rest := current.Keys;
    while rest != {}
      invariant script.entries == original && rest <= current.Keys && updates.Keys !! rest
      invariant forall k :: k in updates ==> k in current && updates[k] == current[k]
      invariant forall k :: k in updates ==> exists r :: MayFind(original, k, r) && r != Some(current[k])
      invariant forall k :: k in current && k !in rest && k !in updates ==> MayFind(original, k, Some(current[k]))
      decreases |rest|
    {
      var k :| k in rest;
      var existing := script.LookupHeaderValue(k);
      if existing != Some(current[k]) {
        updates := updates[k := current[k]];
      }
      rest := rest - {k};
    }
  }

  method CollectRemovedHeaders(original: Entries, current: Entries) returns (removed: seq<string>)
    ensures ListsExactly(removed, Lost(original, current))
  {
    removed := [];
    var rest := original.Keys;
    while rest != {}
      invariant rest <= original.Keys
      invariant forall k :: k in removed <==> k in Lost(original, current) && k !in rest
      invariant forall i, j :: 0 <= i < j < |removed| ==> removed[i] != removed[j]
      decreases |rest|
    {
      var k :| k in rest;
      var found := FindKey(current, k);
      if found.None? {
        removed := removed + [k];
      }
      rest := rest - {k};
    }
  }

  method CollectQueryUpdates(original: Entries, current: Entries) returns (updates: Entries)
    ensures updates == QueryUpdates(original, current)
  {
    updates := map[];
    var rest := current.Keys;
    while rest != {}
      invariant rest <= current.Keys
      invariant updates == map k | k in QueryUpdates(original, current) && k !in rest :: current[k]
      decreases |rest|
    {
      var k :| k in rest;
      if k !in original || original[k] != current[k] {
        updates := updates[k := current[k]];
      }
      rest := rest - {k};
    }
  }

  method CollectRemovedQuery(original: Entries, current: Entries) returns (removed: seq<string>)
    ensures ListsExactly(removed, LostQuery(original, current))
  {
    removed := [];
    var rest := original.Keys;
    while rest != {}
      invariant rest <= original.Keys
      invariant forall k :: k in removed <==> k in LostQuery(original, current) && k !in rest
      invariant forall i, j :: 0 <= i < j < |removed| ==> removed[i] != removed[j]
      decreases |rest|
    {
      var k :| k in rest;
      if k !in current {
        removed := removed + [k];
      }
      rest := rest - {k};
    }
  }

  // `build_request_patch`
  method BuildRequestPatch(original: Context, current: Context) returns (r: Option<Patch>)
    ensures PatchResult(original, current, r)
  {
    var headers := CollectHeaderUpdates(original.headers, current.headers);
    var removedHeaders := CollectRemovedHeaders(original.headers, current.headers);
    var query := CollectQueryUpdates(original.query, current.query);
    var removedQuery := CollectRemovedQuery(original.query, current.query);
    var p := Patch(headers, removedHeaders, query, removedQuery);
    assert IsPatch(original, current, p);
    r := if IsEmpty(p) then None else Some(p);
  }

  // ---------------------------------------------------------------- applying it

  function NamesOf(list: seq<string>): set<string> { set k | k in list }

  ghost predicate Named(names: set<string>, key: string) {
    exists n :: n in names && Lower(n) == Lower(key)
  }

  ghost function WithoutNames(h: Entries, names: set<string>): Entries {
    map k | k in h && !Named(names, k) :: h[k]
  }

  // Headers after the removals and the updates of a patch.
  ghost function Patched(h: Entries, removed: seq<string>, updates: Entries): Entries {
    Overlaid(WithoutNames(h, NamesOf(removed)), updates)
  }

  function PatchedQuery(q: Entries, removed: seq<string>, updates: Entries): Entries {
    (q - NamesOf(removed)) + updates
  }

  // `HttpRequest`
  class HttpRequest {
    var headers: Entries
    var query: Entries

    constructor (headers: Entries, query: Entries)
      ensures this.headers == headers && this.query == query
    {
      this.headers, this.query := headers, query;
    }

    // `remove_header_case_insensitive`
    method RemoveHeaderCaseInsensitive(key: string)
      modifies this`headers
      ensures RemovedOne(old(headers), key, headers)
    {
      var k := FindKey(headers, key);
      if k.Some? {
        headers := headers - {k.value};
      }
    }

    method RemoveHeaders(removed: seq<string>)
      modifies this`headers
      ensures RemovesTo(old(headers), removed, |removed|, headers)
    {
      hide RemovedOne;
      var i := 0;
      while i < |removed|
        invariant i <= |removed| && RemovesTo(old(headers), removed, i, headers)
      {
        ghost var before := headers;
        RemoveHeaderCaseInsensitive(removed[i]);
        LongerRemovals(old(headers), removed, i, before, headers);
        i := i + 1;
      }
    }

    // The map is walked in any order, which is returned.
    method UpdateHeaders(updates: Entries) returns (ghost order: seq<string>)
      modifies this`headers
      ensures IsOrder(order, updates.Keys) && UpdatesTo(old(headers), updates, order, |order|, headers)
    {
      hide RemovedOne, UpdatesTo, IsOrder;
      order := [];
      NoUpdates(headers, updates);
      assert updates.Keys - updates.Keys == {} && updates.Keys - {} == updates.Keys;
      var rest := updates.Keys;
      while rest != {}
        invariant rest <= updates.Keys && IsOrder(order, updates.Keys - rest)
        invariant UpdatesTo(old(headers), updates, order, |order|, headers)
        decreases |rest|
      {
        var k :| k in rest;
        ghost var before := headers;
        RemoveHeaderCaseInsensitive(k);
        ghost var less := headers;
        headers := headers[k := updates[k]];
        LongerOrder(order, updates.Keys - rest, k);
        LongerUpdates(old(headers), updates, order, k, before, less);
        order := order + [k];
        assert updates.Keys - (rest - {k}) == updates.Keys - rest + {k};
        rest := rest - {k};
      }
    }

    method RemoveQuery(removed: seq<string>)
      modifies this`query
      ensures query == old(query) - NamesOf(removed)
    {
      var i := 0;
      while i < |removed|
        invariant i <= |removed|
        invariant query == old(query) - NamesOf(removed[..i])
      {
        assert NamesOf(removed[..i + 1]) == NamesOf(removed[..i]) + {removed[i]};
        query := query - {removed[i]};
        i := i + 1;
      }
      assert removed[..i] == removed;
    }

    method InsertQuery(updates: Entries)
      modifies this`query
      ensures query == old(query) + updates
    {
      var rest := updates.Keys;
      while rest != {}
        invariant rest <= updates.Keys && query == old(query) + Except(updates, rest)
        decreases |rest|
      {
        var k :| k in rest;
        assert Except(updates, rest - {k}) == Except(updates, rest)[k := updates[k]];
        query := query[k := updates[k]];
        rest := rest - {k};
      }
      assert Except(updates, rest) == updates;
    }

    // `apply_request_patch`
    method ApplyRequestPatch(patch: Patch)
      modifies this
      ensures PatchesTo(old(headers), patch, headers)
      ensures query == PatchedQuery(old(query), patch.removedQuery, patch.query)
    {
      hide RemovesTo, UpdatesTo, IsOrder;
      RemoveHeaders(patch.removedHeaders);
      ghost var order := UpdateHeaders(patch.headers);
      RemoveQuery(patch.removedQuery);
      InsertQuery(patch.query);
    }
  }

  // ---------------------------------------------------------------- what applying a patch does

  // What the first n removals may leave: each removes one entry of its name, if there is one.
  ghost predicate RemovesTo(h: Entries, removed: seq<string>, n: nat, after: Entries)
    requires n <= |removed|
  {
    if n == 0 then after == h
    else
      var key := removed[n - 1];
      exists mid :: RemovesTo(h, removed, n - 1, mid) && RemovedOne(mid, key, after)
  }

  // Each name once.
  ghost predicate IsOrder(order: seq<string>, names: set<string>) {
    && (forall k :: k in order <==> k in names)
    && (forall i, j :: 0 <= i < j < |order| ==> order[i] != order[j])
  }

  // What the first n updates may leave, made in this order.
  ghost predicate UpdatesTo(h: Entries, updates: Entries, order: seq<string>, n: nat, after: Entries)
    requires n <= |order|
  {
    if n == 0 then after == h
    else
      var k := order[n - 1];
      && k in updates
      && exists mid, less ::
           UpdatesTo(h, updates, order, n - 1, mid) && RemovedOne(mid, k, less) && after == less[k := updates[k]]
  }

  // Headers that applying a patch may leave: the removals, then the updates in some order.
  ghost predicate PatchesTo(h: Entries, patch: Patch, after: Entries) {
    exists mid, order ::
      && RemovesTo(h, patch.removedHeaders, |patch.removedHeaders|, mid)
      && IsOrder(order, patch.headers.Keys)
      && UpdatesTo(mid, patch.headers, order, |order|, after)
  }

  lemma LongerOrder(order: seq<string>, names: set<string>, k: string)
    requires IsOrder(order, names) && k !in names
    ensures IsOrder(order + [k], names + {k})
  {}

  lemma {:induction false} UpdatesPrefix(
    h: Entries, updates: Entries, order: seq<string>, more: seq<string>, n: nat, after: Entries)
    requires n <= |order|
    ensures UpdatesTo(h, updates, order + more, n, after) <==> UpdatesTo(h, updates, order, n, after)
  {
    hide RemovedOne;
    if n > 0 {
      var m, longer := n - 1, order + more;
      forall mid ensures UpdatesTo(h, updates, longer, m, mid) <==> UpdatesTo(h, updates, order, m, mid) {
        UpdatesPrefix(h, updates, order, more, m, mid);
      }
    }
  }

  lemma LongerRemovals(h: Entries, removed: seq<string>, n: nat, before: Entries, after: Entries)
    requires n < |removed| && RemovesTo(h, removed, n, before) && RemovedOne(before, removed[n], after)
    ensures RemovesTo(h, removed, n + 1, after)
  {
    hide RemovedOne;
  }

  lemma NoUpdates(h: Entries, updates: Entries)
    ensures IsOrder([], {}) && UpdatesTo(h, updates, [], 0, h)
  {}

  lemma LongerUpdates(h: Entries, updates: Entries, order: seq<string>, k: string, before: Entries, less: Entries)
    requires UpdatesTo(h, updates, order, |order|, before) && k in updates && RemovedOne(before, k, less)
    ensures UpdatesTo(h, updates, order + [k], |order| + 1, less[k := updates[k]])
  {
    hide RemovedOne;
    UpdatesPrefix(h, updates, order, [k], |order|, before);
  }

  lemma {:induction false} RemovalsOfUnique(h: Entries, removed: seq<string>, n: nat, after: Entries)
    requires CaseUnique(h) && n <= |removed| && RemovesTo(h, removed, n, after)
    ensures after == WithoutNames(h, NamesOf(removed[..n]))
  {
    hide Lower, RemovedOne, WithoutNames, CaseUnique;
    if n == 0 {
      WithoutNothing(h);
      assert NamesOf(removed[..0]) == {};
    } else {
      var mid :| RemovesTo(h, removed, n - 1, mid) && RemovedOne(mid, removed[n - 1], after);
      RemovalsOfUnique(h, removed, n - 1, mid);
      OneNameLess(h, NamesOf(removed[..n - 1]), removed[n - 1], after);
      assert NamesOf(removed[..n - 1]) + {removed[n - 1]} == NamesOf(removed[..n]);
    }
  }

  ghost function Only(h: Entries, names: seq<string>): Entries {
    map k | k in h && k in names :: h[k]
  }

  lemma OnlyMore(h: Entries, order: seq<string>, n: nat)
    requires IsOrder(order, h.Keys) && n < |order|
    ensures order[n] !in Only(h, order[..n])
    ensures Only(h, order[..n + 1]) == Only(h, order[..n])[order[n] := h[order[n]]]
  {
    assert order[..n + 1] == order[..n] + [order[n]];
  }

  lemma OnlyIsUnique(h: Entries, names: seq<string>)
    requires CaseUnique(h)
    ensures CaseUnique(Only(h, names))
  {
    hide Lower;
  }

  lemma {:induction false} UpdatesOfUnique(h: Entries, updates: Entries, order: seq<string>, n: nat, after: Entries)
    requires CaseUnique(h) && CaseUnique(updates) && IsOrder(order, updates.Keys)
    requires n <= |order| && UpdatesTo(h, updates, order, n, after)
    ensures after == Overlaid(h, Only(updates, order[..n]))
  {
    hide Lower, RemovedOne, Overlaid, CaseUnique, Only;
    if n == 0 {
      NothingOverlaid(h);
      OnlyNothing(updates);
    } else {
      var k := order[n - 1];
      var mid, less :| UpdatesTo(h, updates, order, n - 1, mid) && RemovedOne(mid, k, less)
          && after == less[k := updates[k]];
      UpdatesOfUnique(h, updates, order, n - 1, mid);
      OnlyMore(updates, order, n - 1);
      OnlyIsUnique(updates, order[..n]);
      OneUpdateMore(h, Only(updates, order[..n - 1]), k, updates[k], less);
    }
  }

  lemma OnlyNothing(h: Entries)
    ensures Only(h, []) == map[]
  {}

  lemma OnlyAll(h: Entries, order: seq<string>)
    requires IsOrder(order, h.Keys)
    ensures Only(h, order) == h
  {}

  // With case-unique names the result does not depend on the order.
  lemma PatchOfUnique(h: Entries, patch: Patch, after: Entries)
    requires CaseUnique(h) && CaseUnique(patch.headers) && PatchesTo(h, patch, after)
    ensures after == Patched(h, patch.removedHeaders, patch.headers)
  {
    hide Lower, RemovesTo, UpdatesTo, IsOrder, WithoutNames, Overlaid, Only, CaseUnique;
    var removed := patch.removedHeaders;
    var mid, order :| RemovesTo(h, removed, |removed|, mid) && IsOrder(order, patch.headers.Keys)
                      && UpdatesTo(mid, patch.headers, order, |order|, after);
    RemovalsOfUnique(h, removed, |removed|, mid);
    assert removed[..|removed|] == removed && order[..|order|] == order;
    WithoutNamesIsUnique(h, NamesOf(removed));
    UpdatesOfUnique(mid, patch.headers, order, |order|, after);
    OnlyAll(patch.headers, order);
  }

  // Whether or not names are case-unique, an entry of a name the patch does not mention
  // stays as it was, and none appears.
  lemma PatchTouchesOnlyItsNames(h: Entries, patch: Patch, after: Entries, x: string)
    requires PatchesTo(h, patch, after)
    requires forall k :: k in patch.removedHeaders || k in patch.headers ==> Lower(k) != Lower(x)
    ensures (x in after <==> x in h) && (x in h ==> after[x] == h[x])
  {
    hide Lower, RemovesTo, UpdatesTo;
    var removed := patch.removedHeaders;
    var mid, order :| RemovesTo(h, removed, |removed|, mid) && IsOrder(order, patch.headers.Keys)
                      && UpdatesTo(mid, patch.headers, order, |order|, after);
    RemovalsTouch(h, removed, |removed|, mid, x);
    UpdatesTouch(mid, patch.headers, order, |order|, after, x);
  }

  lemma RemovedOneTouches(h: Entries, key: string, after: Entries, x: string)
    requires RemovedOne(h, key, after) && Lower(key) != Lower(x)
    ensures (x in after <==> x in h) && (x in h ==> after[x] == h[x])
  {
    hide Lower;
  }

  lemma {:induction false} RemovalsTouch(h: Entries, removed: seq<string>, n: nat, after: Entries, x: string)
    requires n <= |removed| && RemovesTo(h, removed, n, after)
    requires forall k :: k in removed ==> Lower(k) != Lower(x)
    ensures (x in after <==> x in h) && (x in h ==> after[x] == h[x])
  {
    hide Lower, RemovedOne;
    if n > 0 {
      var mid :| RemovesTo(h, removed, n - 1, mid) && RemovedOne(mid, removed[n - 1], after);
      RemovalsTouch(h, removed, n - 1, mid, x);
      RemovedOneTouches(mid, removed[n - 1], after, x);
    }
  }

  lemma {:induction false} UpdatesTouch(h: Entries, updates: Entries, order: seq<string>, n: nat, after: Entries,
      x: string)
    requires n <= |order| && UpdatesTo(h, updates, order, n, after)
    requires forall k :: k in updates ==> Lower(k) != Lower(x)
    ensures (x in after <==> x in h) && (x in h ==> after[x] == h[x])
  {
    hide Lower, RemovedOne;
    if n > 0 {
      var k := order[n - 1];
      var mid, less :| UpdatesTo(h, updates, order, n - 1, mid) && RemovedOne(mid, k, less)
          && after == less[k := updates[k]];
      UpdatesTouch(h, updates, order, n - 1, mid, x);
      RemovedOneTouches(mid, k, less, x);
    }
  }

  lemma WithoutNamesIsUnique(h: Entries, names: set<string>)
    requires CaseUnique(h)
    ensures CaseUnique(WithoutNames(h, names))
  {
    hide Lower, Named;
  }

  ghost function Except(h: Entries, names: set<string>): Entries {
    map k | k in h && k !in names :: h[k]
  }

  lemma NothingOverlaid(h: Entries)
    ensures Overlaid(h, map[]) == h
  {
    WithoutNothing(h);
    var nothing: Entries := map[];
    assert nothing.Keys == {};
  }

  lemma WithoutNothing(h: Entries)
    ensures WithoutNames(h, {}) == h
  {}

  lemma OneNameLess(h: Entries, names: set<string>, key: string, after: Entries)
    requires CaseUnique(h) && RemovedOne(WithoutNames(h, names), key, after)
    ensures after == WithoutNames(h, names + {key})
  {
    hide Lower;
    RemovesTheName(WithoutNames(h, names), key, after);
    hide RemovedOne, CaseUnique;
  }

  // Some updates made: what is left of the old headers, and those updates.
  ghost function Overlaid(h: Entries, updates: Entries): Entries {
    WithoutNames(h, updates.Keys) + updates
  }

  lemma OverlaidIsUnique(h: Entries, updates: Entries)
    requires CaseUnique(h) && CaseUnique(updates)
    ensures CaseUnique(Overlaid(h, updates))
  {
    hide Lower;
    var r := Overlaid(h, updates);
    forall a, b | a in r && b in r && Lower(a) == Lower(b) ensures a == b {
      assert a in updates && b !in updates ==> Named(updates.Keys, b);
      assert b in updates && a !in updates ==> Named(updates.Keys, a);
    }
  }

  lemma OverlaidAt(h: Entries, updates: Entries, x: string)
    ensures x in Overlaid(h, updates) <==> x in updates || (x in h && !Named(updates.Keys, x))
    ensures x in updates ==> Overlaid(h, updates)[x] == updates[x]
    ensures x !in updates && x in h && !Named(updates.Keys, x) ==> Overlaid(h, updates)[x] == h[x]
  {}

  lemma NamedMore(done: Entries, k: string, value: string, x: string)
    ensures Named(done[k := value].Keys, x) <==> Named(done.Keys, x) || Lower(x) == Lower(k)
  {
    hide Lower;
    var more := done[k := value];
    if Lower(x) == Lower(k) {
      assert k in more.Keys;
    }
    if Named(done.Keys, x) {
      var n :| n in done.Keys && Lower(n) == Lower(x);
      assert n in more.Keys;
    }
  }

  lemma OneUpdateMore(h: Entries, done: Entries, k: string, value: string, less: Entries)
    requires CaseUnique(h) && CaseUnique(done[k := value]) && k !in done
    requires RemovedOne(Overlaid(h, done), k, less)
    ensures less[k := value] == Overlaid(h, done[k := value])
  {
    hide Lower, Overlaid, RemovedOne, Named;
    var more := done[k := value];
    assert CaseUnique(done) by {
      assert forall d :: d in done ==> d in more;
    }
    OverlaidIsUnique(h, done);
    RemovesTheName(Overlaid(h, done), k, less);
    forall d | d in done ensures Lower(d) != Lower(k) {
      assert d in more && k in more;
    }
    hide CaseUnique;
    var after := less[k := value];
    forall x ensures x in after <==> x in Overlaid(h, more) {
      OverlaidAt(h, more, x);
      OverlaidAt(h, done, x);
      NamedMore(done, k, value, x);
    }
    forall x | x in after ensures after[x] == Overlaid(h, more)[x] {
      OverlaidAt(h, more, x);
      OverlaidAt(h, done, x);
      NamedMore(done, k, value, x);
    }
  }

  // ---------------------------------------------------------------- patch and script together

  lemma PatchedIsUnique(original: Entries, current: Entries, updates: Entries, removed: seq<string>)
    requires CaseUnique(original) && CaseUnique(current) && HeaderUpdates(original, current, updates)
    ensures CaseUnique(updates) && CaseUnique(Patched(original, removed, updates))
  {
    hide Lower, WithoutNames, Overlaid;
    WithoutNamesIsUnique(original, NamesOf(removed));
    OverlaidIsUnique(WithoutNames(original, NamesOf(removed)), updates);
  }

  lemma PatchedReads(original: Entries, current: Entries, updates: Entries, removed: seq<string>)
    requires CaseUnique(original) && CaseUnique(current)
    requires HeaderUpdates(original, current, updates) && ListsExactly(removed, Lost(original, current))
    ensures Reads(Patched(original, removed, updates), Seen(current))
  {
    hide Lower, Seen, Patched, HeaderUpdates, ListsExactly, Lost, CaseUnique;
    var after := Patched(original, removed, updates);
    forall k | k in after ensures Lower(k) in Seen(current) && Seen(current)[Lower(k)] == after[k] {
      PatchedEntry(original, current, updates, removed, k);
    }
    forall n | n in Seen(current) ensures exists k :: k in after && Lower(k) == n {
      var c :| c in current && Lower(c) == n;
      CurrentIsCarried(original, current, updates, removed, c);
    }
  }

  // Headers that a patch makes are case-unique and read as the script's own headers.
  lemma PatchedHeadersRead(original: Entries, current: Entries, updates: Entries, removed: seq<string>)
    requires CaseUnique(original) && CaseUnique(current)
    requires HeaderUpdates(original, current, updates) && ListsExactly(removed, Lost(original, current))
    ensures CaseUnique(updates)
    ensures CaseUnique(Patched(original, removed, updates))
    ensures Seen(Patched(original, removed, updates)) == Seen(current)
  {
    hide *;
    PatchedIsUnique(original, current, updates, removed);
    PatchedReads(original, current, updates, removed);
    var after := Patched(original, removed, updates);
    ReadingIsUnique(after, Seen(after), Seen(current));
  }

  lemma WithoutNamesAt(h: Entries, names: set<string>, x: string)
    ensures x in WithoutNames(h, names) <==> x in h && !Named(names, x)
    ensures x in WithoutNames(h, names) ==> WithoutNames(h, names)[x] == h[x]
  {}

  // An entry that is left is an update, or an old entry that current has with that value.
  lemma PatchedEntry(original: Entries, current: Entries, updates: Entries, removed: seq<string>, k: string)
    requires CaseUnique(original) && CaseUnique(current)
    requires HeaderUpdates(original, current, updates) && ListsExactly(removed, Lost(original, current))
    requires k in Patched(original, removed, updates)
    ensures Lower(k) in Seen(current) && Seen(current)[Lower(k)] == Patched(original, removed, updates)[k]
  {
    hide Lower, Seen, Overlaid, WithoutNames;
    var kept := WithoutNames(original, NamesOf(removed));
    OverlaidAt(kept, updates, k);
    if k !in updates {
      WithoutNamesAt(original, NamesOf(removed), k);
      assert k !in removed by {
        assert k in removed ==> k in NamesOf(removed);
      }
      var c :| c in current && Lower(c) == Lower(k);
      assert c !in updates by {
        assert c in updates ==> c in updates.Keys;
      }
      assert MayFind(original, c, Some(current[c]));
    }
  }

  // And every entry of current is there, under a name that differs at most in case.
  lemma CurrentIsCarried(original: Entries, current: Entries, updates: Entries, removed: seq<string>, c: string)
    requires CaseUnique(original) && CaseUnique(current) && c in current
    requires HeaderUpdates(original, current, updates) && ListsExactly(removed, Lost(original, current))
    ensures exists k :: k in Patched(original, removed, updates) && Lower(k) == Lower(c)
  {
    hide Lower, Overlaid, WithoutNames;
    var kept := WithoutNames(original, NamesOf(removed));
    if c in updates {
      OverlaidAt(kept, updates, c);
      assert c in Patched(original, removed, updates);
    } else {
      assert MayFind(original, c, Some(current[c]));
      var o :| o in original && Lower(o) == Lower(c) && original[o] == current[c];
      assert !Named(NamesOf(removed), o) by {
        forall n | n in NamesOf(removed) ensures Lower(n) != Lower(o) {
          assert n in Lost(original, current);
        }
      }
      assert !Named(updates.Keys, o) by {
        forall n | n in updates.Keys ensures Lower(n) != Lower(o) {
          assert n in current;
        }
      }
      WithoutNamesAt(original, NamesOf(removed), o);
      OverlaidAt(kept, updates, o);
      assert o in Patched(original, removed, updates);
    }
  }

  lemma PatchedQueryIsCurrent(original: Entries, current: Entries, removed: seq<string>)
    requires ListsExactly(removed, LostQuery(original, current))
    ensures PatchedQuery(original, removed, QueryUpdates(original, current)) == current
  {
    var after := PatchedQuery(original, removed, QueryUpdates(original, current));
    forall k ensures k in after <==> k in current {
    }
  }

  // What a request reads as, headers without regard to case.
  datatype Reading = Reading(headers: Entries, query: Entries)

  ghost function ReadingOf(c: Context): Reading
    requires CaseUnique(c.headers)
  {
    Reading(Seen(c.headers), c.query)
  }

  // The request after an optional patch.
  ghost function After(original: Context, r: Option<Patch>): Context {
    match r
    case None => original
    case Some(p) =>
      Context(Patched(original.headers, p.removedHeaders, p.headers),
        PatchedQuery(original.query, p.removedQuery, p.query))
  }

  // Applying what was built carries the script's view over exactly; and the patch is
  // missing exactly when there was nothing to carry.
  lemma PatchCarriesCurrent(original: Context, current: Context, r: Option<Patch>)
    requires CaseUnique(original.headers) && CaseUnique(current.headers)
    requires PatchResult(original, current, r)
    ensures r.Some? ==> CaseUnique(r.value.headers)
    ensures CaseUnique(After(original, r).headers) && ReadingOf(After(original, r)) == ReadingOf(current)
    ensures r.None? <==> ReadingOf(original) == ReadingOf(current)
  {
    hide Seen, Patched, HeaderUpdates, ListsExactly, Lost, LostQuery, CaseUnique;
    var p :| IsPatch(original, current, p) && r == if IsEmpty(p) then None else Some(p);
    PatchedHeadersRead(original.headers, current.headers, p.headers, p.removedHeaders);
    PatchedQueryIsCurrent(original.query, current.query, p.removedQuery);
    NothingPatched(original);
    if ReadingOf(original) == ReadingOf(current) {
      NothingToPatch(original, current, p);
    }
  }

  lemma NothingPatched(original: Context)
    ensures Patched(original.headers, [], map[]) == original.headers
    ensures PatchedQuery(original.query, [], map[]) == original.query
  {
    NothingOverlaid(original.headers);
    WithoutNothing(original.headers);
    assert NamesOf([]) == {};
  }

  lemma NothingToPatch(original: Context, current: Context, p: Patch)
    requires CaseUnique(original.headers) && CaseUnique(current.headers) && IsPatch(original, current, p)
    requires ReadingOf(original) == ReadingOf(current)
    ensures IsEmpty(p)
  {
    hide Lower, Seen;
    assert Reads(original.headers, Seen(original.headers)) && Reads(current.headers, Seen(current.headers));
    forall k, r | k in current.headers && MayFind(original.headers, k, r) ensures r == Some(current.headers[k]) {
      SearchIsExact(original.headers, k, r);
    }
    assert p.headers.Keys == {};
    forall k ensures k !in p.removedHeaders && k !in p.removedQuery {
      assert k in original.headers ==> Lower(k) in Seen(current.headers);
    }
    FirstIsMember(p.removedHeaders);
    FirstIsMember(p.removedQuery);
  }

  lemma FirstIsMember(list: seq<string>)
    ensures list != [] ==> list[0] in list
  {}

  // ---------------------------------------------------------------- a whole script

  // What a script can do to the request; `add` is the same as `set`.
  datatype Operation =
    | SetHeader(key: string, value: string)
    | RemoveHeader(key: string)
    | SetQuery(key: string, value: string)
    | RemoveQuery(key: string)

  // The effect of an operation on what a case-insensitive reader sees. An empty key is
  // ignored.
  function Effect(r: Reading, op: Operation): Reading {
    if op.key == [] then r
    else match op
      case SetHeader(k, v) => r.(headers := r.headers[Lower(k) := v])
      case RemoveHeader(k) => r.(headers := r.headers - {Lower(k)})
      case SetQuery(k, v) => r.(query := r.query[k := v])
      case RemoveQuery(k) => r.(query := r.query - {k})
  }

  function Effects(r: Reading, ops: seq<Operation>): Reading {
    if ops == [] then r else Effect(Effects(r, ops[..|ops| - 1]), ops[|ops| - 1])
  }

  method RunOperation(script: ScriptHeaders, query: Entries, op: Operation) returns (after: Entries)
    modifies script
    ensures CaseUnique(old(script.entries)) ==>
              && CaseUnique(script.entries)
              && ReadingOf(Context(script.entries, after)) == Effect(ReadingOf(Context(old(script.entries), query)), op)
  {
    hide Lower, Seen, CaseUnique, RemovedOne;
    after := query;
    if op.key == [] {
      return;
    }
    ghost var before := script.entries;
    match op {
      case SetHeader(k, v) =>
        script.SetHeaderValue(k, v);
        if CaseUnique(before) {
          var less :| RemovedOne(before, k, less) && script.entries == less[k := v];
          SetIsSeen(before, k, v, less);
        }
      case RemoveHeader(k) =>
        script.RemoveHeaderValue(k);
        if CaseUnique(before) {
          RemoveIsSeen(before, k, script.entries);
        }
      case SetQuery(k, v) => after := query[k := v];
      case RemoveQuery(k) => after := query - {k};
    }
  }

  // The pre-request part of a request with a script: the script works on copies of the
  // headers and the query, and the patch brings the difference back. Whatever the script
  // does, the request then reads as if its operations had been made on it directly, on a
  // map that does not know about case.
  method RunPreScript(request: HttpRequest, ops: seq<Operation>)
    modifies request
    ensures CaseUnique(old(request.headers)) ==>
              && CaseUnique(request.headers)
              && ReadingOf(Context(request.headers, request.query))
                 == Effects(ReadingOf(old(Context(request.headers, request.query))), ops)
  {
    hide Lower, Seen, CaseUnique, Patched, PatchResult, PatchesTo;
    var original := Context(request.headers, request.query);
    var script := new ScriptHeaders(original.headers);
    var query := original.query;
    ghost var unique := CaseUnique(original.headers);
    var i := 0;
    while i < |ops|
      invariant i <= |ops| && request.headers == original.headers && request.query == original.query
      invariant unique ==>
                  && CaseUnique(script.entries)
                  && ReadingOf(Context(script.entries, query)) == Effects(ReadingOf(original), ops[..i])
    {
      query := RunOperation(script, query, ops[i]);
      assert ops[..i + 1][..i] == ops[..i];
      i := i + 1;
    }
    assert ops[..i] == ops;
    var current := Context(script.entries, query);
    var patch := BuildRequestPatch(original, current);
    if unique {
      PatchCarriesCurrent(original, current, patch);
    }
    if patch.Some? {
      request.ApplyRequestPatch(patch.value);
      if unique {
        PatchOfUnique(original.headers, patch.value, request.headers);
      }
    }
  }

  // Unique names are needed: with two spellings of one name, the search may find the
  // spelling that did not change, and the change is not carried over.
  lemma TwoSpellingsCanHideAChange()
    ensures var original, current := Context(map["A" := "1", "a" := "2"], map[]), Context(map["A" := "1"], map[]);
            && !CaseUnique(original.headers) && CaseUnique(current.headers)
            && PatchResult(original, current, None)
            && MayFind(original.headers, "a", Some("2")) && !MayFind(current.headers, "a", Some("2"))
  {
    var original, current := Context(map["A" := "1", "a" := "2"], map[]), Context(map["A" := "1"], map[]);
    var nothing := Patch(map[], [], map[], []);
    assert Lower("A") == "a" == Lower("a");
    assert "A" in original.headers && "a" in original.headers;
    assert MayFind(original.headers, "A", Some("1"));
    assert Lost(original.headers, current.headers) == {} by {
      assert "A" in current.headers;
    }
    assert IsPatch(original, current, nothing);
  }
}
