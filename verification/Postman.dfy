// Importing a Postman collection into rows and exporting the rows as a tree again
// (src-tauri/src/postman_compat.rs). Stored items are a sequence of rows, in whatever
// order the database returns them; row ids are fresh numbers.
module Postman {
  import opened Common

  // ---------------------------------------------------------------- the data

  datatype Url = Plain(text: string) | Structured(raw: Option<string>)

  datatype Request = Request(httpMethod: Option<string>, url: Option<Url>)

  // An item with an `item` array is a folder, whatever else it carries.
  datatype Item =
    | WithItems(name: string, items: seq<Item>, request: Option<Request>)
    | WithoutItems(name: string, request: Option<Request>)

  datatype Row = Row(
    id: nat, parent: Option<nat>, folder: bool, name: string, sortOrder: nat,
    httpMethod: Option<string>, url: Option<string>)

  // What an export shows.
  datatype Node =
    | FolderNode(name: string, children: seq<Node>)
    | RequestNode(name: string, httpMethod: string, url: string)

  const MaxDepth: nat := 20

  function UpperChar(c: char): char { if 'a' <= c <= 'z' then ((c as int) - 32) as char else c }

  function Upper(s: string): string { seq(|s|, i requires 0 <= i < |s| => UpperChar(s[i])) }

  // `extract_url`
  function ExtractUrl(url: Option<Url>): string {
    match url
    case None => ""
    case Some(Plain(text)) => text
    case Some(Structured(raw)) => if raw.Some? then raw.value else ""
  }

  function MethodOf(request: Request): string {
    Upper(if request.httpMethod.Some? then request.httpMethod.value else "GET")
  }

  // The tree a collection stands for: folders and requests in order, items that are
  // neither left out.
  function Normalised(items: seq<Item>): seq<Node> {
    if items == [] then [] else NodesOf(items[0]) + Normalised(items[1..])
  }

  function NodesOf(item: Item): seq<Node> {
    match item
    case WithItems(name, children, _) => [FolderNode(name, Normalised(children))]
    case WithoutItems(name, Some(request)) => [RequestNode(name, MethodOf(request), ExtractUrl(request.url))]
    case WithoutItems(_, None) => []
  }

  // ---------------------------------------------------------------- import

  // How many levels of folders there are.
  function Levels(items: seq<Item>): nat {
    if items == [] then 0 else Max(LevelsOf(items[0]), Levels(items[1..]))
  }

  function LevelsOf(item: Item): nat { if item.WithItems? then 1 + Levels(item.items) else 0 }

  function Max(a: nat, b: nat): nat { if a > b then a else b }

  // Every item takes an id, stored or not.
  function IdsUsed(items: seq<Item>): nat {
    if items == [] then 0 else IdsOf(items[0]) + IdsUsed(items[1..])
  }

  function IdsOf(item: Item): nat { 1 + if item.WithItems? then IdsUsed(item.items) else 0 }

  function FolderRow(id: nat, parent: Option<nat>, name: string, sortOrder: nat): Row {
    Row(id, parent, true, name, sortOrder, None, None)
  }

  function RequestRow(id: nat, parent: Option<nat>, name: string, sortOrder: nat, request: Request): Row {
    Row(id, parent, false, name, sortOrder, Some(MethodOf(request)), Some(ExtractUrl(request.url)))
  }

  // The rows of `items`, the first of which is at position `index` of its folder.
  function RowsOf(items: seq<Item>, parent: Option<nat>, index: nat, next: nat): seq<Row> {
    if items == [] then []
    else Stored(items[0], parent, index, next) + RowsOf(items[1..], parent, index + 1, next + IdsOf(items[0]))
  }

  function Stored(item: Item, parent: Option<nat>, index: nat, id: nat): seq<Row> {
    OwnRow(item, parent, index, id) + if item.WithItems? then RowsOf(item.items, Some(id), 0, id + 1) else []
  }

  function OwnRow(item: Item, parent: Option<nat>, index: nat, id: nat): seq<Row> {
    match item
    case WithItems(name, _, _) => [FolderRow(id, parent, name, index)]
    case WithoutItems(name, Some(request)) => [RequestRow(id, parent, name, index, request)]
    case WithoutItems(_, None) => []
  }

  // One round of the import loop.
  lemma ImportUnfolds(items: seq<Item>, parent: Option<nat>, index: nat, next: nat)
    ensures items != [] ==>
              && RowsOf(items, parent, index, next) == Stored(items[0], parent, index, next)
                    + RowsOf(items[1..], parent, index + 1, next + IdsOf(items[0]))
              && IdsUsed(items) == IdsOf(items[0]) + IdsUsed(items[1..])
              && Levels(items) == Max(LevelsOf(items[0]), Levels(items[1..]))
    ensures items == [] ==> RowsOf(items, parent, index, next) == [] && IdsUsed(items) == 0 && Levels(items) == 0
  {}

  class ItemTable {
    var rows: seq<Row>
    var nextId: nat

    constructor ()
      ensures rows == [] && nextId == 0
    {
      rows, nextId := [], 0;
    }

    // `import_items`
    method ImportItems(parent: Option<nat>, items: seq<Item>, depth: nat) returns (ok: bool)
      modifies this
      ensures ok <==> depth + Levels(items) <= MaxDepth
      ensures ok ==> rows == old(rows) + RowsOf(items, parent, 0, old(nextId)) && nextId == old(nextId) + IdsUsed(items)
      decreases items
    {
      hide RowsOf, IdsUsed, Levels;
      if depth > MaxDepth {
        return false;
      }
      var index := 0;
      assert items[0..] == items;
      while index < |items|
        invariant index <= |items|
        invariant depth + Levels(items) <= MaxDepth <==> depth + Levels(items[index..]) <= MaxDepth
        invariant rows + RowsOf(items[index..], parent, index, nextId) ==
                  old(rows) + RowsOf(items, parent, 0, old(nextId))
        invariant nextId + IdsUsed(items[index..]) == old(nextId) + IdsUsed(items)
      {
        var item := items[index];
        ghost var rest, before := items[index..], rows;
        assert rest[0] == item && rest[1..] == items[index + 1..];
        ImportUnfolds(rest, parent, index, nextId);
        var id := nextId;
        nextId := nextId + 1;
        if item.WithItems? {
          rows := rows + [FolderRow(id, parent, item.name, index)];
          var sub := ImportItems(Some(id), item.items, depth + 1);
          if !sub {
            return false;
          }
        } else if item.request.Some? {
          rows := rows + [RequestRow(id, parent, item.name, index, item.request.value)];
        }
        assert rows == before + Stored(item, parent, index, id);
        JoinAssociates(before, Stored(item, parent, index, id), RowsOf(rest[1..], parent, index + 1, nextId));
        index := index + 1;
      }
      ImportUnfolds(items[index..], parent, index, nextId);
      return true;
    }

    // The transaction around it: a refused import leaves nothing behind.
    method ImportPostman(items: seq<Item>) returns (ok: bool)
      modifies this
      ensures ok <==> Levels(items) <= MaxDepth
      ensures rows == if ok then old(rows) + RowsOf(items, None, 0, old(nextId)) else old(rows)
    {
      var saved := rows;
      ok := ImportItems(None, items, 0);
      if !ok {
        rows := saved;
      }
    }
  }

  // ---------------------------------------------------------------- export

  function ChildrenOf(rows: seq<Row>, parent: Option<nat>): seq<Row> {
    if rows == [] then []
    else if rows[0].parent == parent then [rows[0]] + ChildrenOf(rows[1..], parent)
    else ChildrenOf(rows[1..], parent)
  }

  function InsertByOrder(row: Row, sorted: seq<Row>): seq<Row> {
    if sorted == [] || row.sortOrder <= sorted[0].sortOrder then [row] + sorted
    else [sorted[0]] + InsertByOrder(row, sorted[1..])
  }

  // A stable sort, `sort_by_key`.
  function SortedByOrder(rows: seq<Row>): seq<Row> {
    if rows == [] then [] else InsertByOrder(rows[0], SortedByOrder(rows[1..]))
  }

  predicate UniqueIds(rows: seq<Row>) {
    forall i, j :: 0 <= i < j < |rows| ==> rows[i].id != rows[j].id
  }

  // The ids of the folders from the top of the tree down to `parent`.
  ghost predicate IsPath(rows: seq<Row>, parent: Option<nat>, path: seq<nat>) {
    && parent == Above(path, |path|)
    && forall i {:trigger Above(path, i)} :: 0 <= i < |path| ==> IsStep(rows, Above(path, i), path[i])
  }

  function Above(path: seq<nat>, i: nat): Option<nat>
    requires i <= |path|
  {
    if i == 0 then None else Some(path[i - 1])
  }

  ghost predicate IsStep(rows: seq<Row>, parent: Option<nat>, id: nat) {
    exists k :: 0 <= k < |rows| && rows[k].id == id && rows[k].parent == parent
  }

  lemma StepRow(rows: seq<Row>, parent: Option<nat>, path: seq<nat>, i: nat) returns (k: nat)
    requires IsPath(rows, parent, path) && i < |path|
    ensures k < |rows| && rows[k].id == path[i] && rows[k].parent == Above(path, i)
  {
    assert IsStep(rows, Above(path, i), path[i]);
    k :| k < |rows| && rows[k].id == path[i] && rows[k].parent == Above(path, i);
  }

  // A path never meets an id twice, even in a table with parent cycles: going up from two
  // occurrences of the same id would reach the top from one before the other.
  lemma {:induction false} PathIsDistinct(rows: seq<Row>, parent: Option<nat>, path: seq<nat>, i: nat, j: nat)
    requires UniqueIds(rows) && IsPath(rows, parent, path) && i < j < |path|
    ensures path[i] != path[j]
    decreases i
  {
    hide IsPath;
    if path[i] == path[j] {
      var a := StepRow(rows, parent, path, i);
      var b := StepRow(rows, parent, path, j);
      assert a == b;
      if i > 0 {
        PathIsDistinct(rows, parent, path, i - 1, j - 1);
      }
    }
  }

  lemma {:induction false} IdsAreFew(rows: seq<Row>)
    ensures |set r | r in rows :: r.id| <= |rows|
  {
    if rows == [] {
      assert (set r | r in rows :: r.id) == {};
    } else {
      IdsAreFew(rows[1..]);
      assert (set r | r in rows :: r.id) == (set r | r in rows[1..] :: r.id) + {rows[0].id};
    }
  }

  lemma {:induction false} DistinctFits(path: seq<nat>, ids: set<nat>)
    requires forall i, j :: 0 <= i < j < |path| ==> path[i] != path[j]
    requires forall i :: 0 <= i < |path| ==> path[i] in ids
    ensures |path| <= |ids|
  {
    if path != [] {
      var last := path[|path| - 1];
      DistinctFits(path[..|path| - 1], ids - {last});
    }
  }

  // So a path is never longer than the table.
  lemma PathIsShort(rows: seq<Row>, parent: Option<nat>, path: seq<nat>)
    requires UniqueIds(rows) && IsPath(rows, parent, path)
    ensures |path| <= |rows|
  {
    var ids := set r | r in rows :: r.id;
    forall i, j | 0 <= i < j < |path| ensures path[i] != path[j] {
      PathIsDistinct(rows, parent, path, i, j);
    }
    forall i | 0 <= i < |path| ensures path[i] in ids {
      var k := StepRow(rows, parent, path, i);
      assert rows[k] in rows;
    }
    DistinctFits(path, ids);
    IdsAreFew(rows);
  }

  lemma PathExtends(rows: seq<Row>, parent: Option<nat>, path: seq<nat>, row: Row)
    requires IsPath(rows, parent, path) && row in rows && row.parent == parent
    ensures IsPath(rows, Some(row.id), path + [row.id])
  {
    var longer := path + [row.id];
    assert IsStep(rows, parent, row.id) by {
      var k :| 0 <= k < |rows| && rows[k] == row;
      assert rows[k].id == row.id;
    }
    hide IsStep;
    forall i | 0 <= i < |longer| ensures IsStep(rows, Above(longer, i), longer[i]) {
      assert Above(longer, i) == Above(path, i);
      if i < |path| {
        assert longer[i] == path[i];
        assert IsStep(rows, Above(path, i), path[i]);
      }
    }
  }

  lemma {:induction false} ChildrenAreRows(rows: seq<Row>, parent: Option<nat>, row: Row)
    ensures row in ChildrenOf(rows, parent) <==> row in rows && row.parent == parent
  {
    if rows != [] {
      ChildrenAreRows(rows[1..], parent, row);
      assert rows == [rows[0]] + rows[1..];
    }
  }

  lemma {:induction false} InsertKeeps(row: Row, sorted: seq<Row>)
    ensures multiset(InsertByOrder(row, sorted)) == multiset(sorted) + multiset{row}
  {
    if sorted != [] && row.sortOrder > sorted[0].sortOrder {
      InsertKeeps(row, sorted[1..]);
      assert sorted == [sorted[0]] + sorted[1..];
    }
  }

  lemma {:induction false} SortKeeps(rows: seq<Row>)
    ensures multiset(SortedByOrder(rows)) == multiset(rows)
  {
    if rows != [] {
      SortKeeps(rows[1..]);
      InsertKeeps(rows[0], SortedByOrder(rows[1..]));
      assert rows == [rows[0]] + rows[1..];
    }
  }

  lemma SortedChildren(rows: seq<Row>, parent: Option<nat>)
    ensures forall row | row in SortedByOrder(ChildrenOf(rows, parent)) :: row in rows && row.parent == parent
  {
    forall row | row in SortedByOrder(ChildrenOf(rows, parent)) ensures row in rows && row.parent == parent {
      SortKeeps(ChildrenOf(rows, parent));
      assert row in multiset(SortedByOrder(ChildrenOf(rows, parent)));
      assert row in multiset(ChildrenOf(rows, parent));
      ChildrenAreRows(rows, parent, row);
    }
  }

  // `build_item_tree`: terminates on every table with unique ids, because the path from
  // the top only ever gets longer and never longer than the table.
  function BuildItemTree(rows: seq<Row>, parent: Option<nat>, ghost path: seq<nat>): seq<Node>
    requires UniqueIds(rows) && IsPath(rows, parent, path)
    decreases |rows| - |path|, 1, 0
  {
    SortedChildren(rows, parent);
    PathIsShort(rows, parent, path);
    BuildNodes(rows, parent, SortedByOrder(ChildrenOf(rows, parent)), path)
  }

  function BuildNodes(rows: seq<Row>, parent: Option<nat>, children: seq<Row>, ghost path: seq<nat>): seq<Node>
    requires UniqueIds(rows) && IsPath(rows, parent, path)
    requires forall row | row in children :: row in rows && row.parent == parent
    decreases |rows| - |path|, 0, |children|
  {
    if children == [] then []
    else
      var row := children[0];
      PathIsShort(rows, parent, path);
      PathExtends(rows, parent, path, row);
      PathIsShort(rows, Some(row.id), path + [row.id]);
      [if row.folder then FolderNode(row.name, BuildItemTree(rows, Some(row.id), path + [row.id])) else RequestOf(row)]
      + BuildNodes(rows, parent, children[1..], path)
  }

  function RequestOf(row: Row): Node {
    RequestNode(row.name, if row.httpMethod.Some? then row.httpMethod.value else "GET",
      if row.url.Some? then row.url.value else "")
  }

  lemma BuildUnfolds(rows: seq<Row>, parent: Option<nat>, row: Row, rest: seq<Row>, path: seq<nat>)
    requires UniqueIds(rows) && IsPath(rows, parent, path)
    requires forall r | r in [row] + rest :: r in rows && r.parent == parent
    ensures IsPath(rows, Some(row.id), path + [row.id])
    ensures BuildNodes(rows, parent, [row] + rest, path) ==
              [if row.folder then FolderNode(row.name, BuildItemTree(rows, Some(row.id), path + [row.id]))
                else RequestOf(row)]
              + BuildNodes(rows, parent, rest, path)
  {
    assert row in [row] + rest;
    PathExtends(rows, parent, path, row);
    assert ([row] + rest)[1..] == rest;
  }

  // ---------------------------------------------------------------- where the rows of an item are

  // The rows of the items themselves, without what is inside their folders.
  function DirectRows(items: seq<Item>, parent: Option<nat>, index: nat, next: nat): seq<Row> {
    if items == [] then []
    else OwnRow(items[0], parent, index, next) + DirectRows(items[1..], parent, index + 1, next + IdsOf(items[0]))
  }

  predicate Within(p: Option<nat>, low: nat, high: nat) { p.Some? && low <= p.value < high }

  lemma {:induction false} RowsRange(items: seq<Item>, parent: Option<nat>, index: nat, next: nat, row: Row)
    requires row in RowsOf(items, parent, index, next)
    ensures next <= row.id < next + IdsUsed(items)
    ensures row.parent == parent || Within(row.parent, next, next + IdsUsed(items))
    decreases items
  {
    hide RowsOf, Stored, Levels, LevelsOf, IdsUsed, IdsOf;
    ImportUnfolds(items, parent, index, next);
    var item := items[0];
    if row in RowsOf(items[1..], parent, index + 1, next + IdsOf(item)) {
      RowsRange(items[1..], parent, index + 1, next + IdsOf(item), row);
    } else {
      StoredRange(item, parent, index, next, row);
    }
  }

  lemma {:induction false} StoredRange(item: Item, parent: Option<nat>, index: nat, id: nat, row: Row)
    requires row in Stored(item, parent, index, id)
    ensures id <= row.id < id + IdsOf(item)
    ensures row.parent == parent || Within(row.parent, id, id + IdsOf(item))
    decreases item
  {
    if row !in OwnRow(item, parent, index, id) {
      RowsRange(item.items, Some(id), 0, id + 1, row);
    }
  }

  lemma {:induction false} ChildrenAppend(a: seq<Row>, b: seq<Row>, parent: Option<nat>)
    ensures ChildrenOf(a + b, parent) == ChildrenOf(a, parent) + ChildrenOf(b, parent)
  {
    if a == [] {
      assert a + b == b;
    } else {
      ChildrenAppend(a[1..], b, parent);
      assert (a + b)[1..] == a[1..] + b;
    }
  }

  lemma {:induction false} NoChildren(rows: seq<Row>, parent: Option<nat>)
    requires forall row | row in rows :: row.parent != parent
    ensures ChildrenOf(rows, parent) == []
  {
    if rows != [] {
      assert rows[0] in rows;
      NoChildren(rows[1..], parent);
    }
  }

  predicate Before(parent: Option<nat>, next: nat) { parent.Some? ==> parent.value < next }

  lemma {:induction false} DirectChildren(items: seq<Item>, parent: Option<nat>, index: nat, next: nat)
    requires Before(parent, next)
    ensures ChildrenOf(RowsOf(items, parent, index, next), parent) == DirectRows(items, parent, index, next)
    decreases items
  {
    if items != [] {
      var item, rest := items[0], RowsOf(items[1..], parent, index + 1, next + IdsOf(items[0]));
      DirectChildren(items[1..], parent, index + 1, next + IdsOf(item));
      ChildrenAppend(Stored(item, parent, index, next), rest, parent);
      OwnChildren(item, parent, index, next);
    }
  }

  lemma OwnChildren(item: Item, parent: Option<nat>, index: nat, id: nat)
    requires Before(parent, id)
    ensures ChildrenOf(Stored(item, parent, index, id), parent) == OwnRow(item, parent, index, id)
  {
    hide RowsOf;
    var own := OwnRow(item, parent, index, id);
    OwnIsChild(item, parent, index, id);
    if item.WithItems? {
      var inside := RowsOf(item.items, Some(id), 0, id + 1);
      forall row | row in inside ensures row.parent != parent {
        RowsRange(item.items, Some(id), 0, id + 1, row);
      }
      hide IdsUsed, ChildrenOf;
      ChildrenAppend(own, inside, parent);
      NoChildren(inside, parent);
    } else {
      assert Stored(item, parent, index, id) == own;
    }
  }

  lemma OwnIsChild(item: Item, parent: Option<nat>, index: nat, id: nat)
    ensures ChildrenOf(OwnRow(item, parent, index, id), parent) == OwnRow(item, parent, index, id)
  {
    var own := OwnRow(item, parent, index, id);
    assert own != [] ==> own[1..] == [];
  }

  // Rows none of which is inside a folder with an id in the range.
  ghost predicate Outside(rows: seq<Row>, low: nat, high: nat) {
    forall row | row in rows :: !Within(row.parent, low, high)
  }

  // ---------------------------------------------------------------- sorting

  predicate InOrder(rows: seq<Row>) {
    forall i, j :: 0 <= i < j < |rows| ==> rows[i].sortOrder <= rows[j].sortOrder
  }

  predicate InStrictOrder(rows: seq<Row>) {
    forall i, j :: 0 <= i < j < |rows| ==> rows[i].sortOrder < rows[j].sortOrder
  }

  lemma {:induction false} InsertSorts(row: Row, sorted: seq<Row>)
    requires InOrder(sorted)
    ensures InOrder(InsertByOrder(row, sorted))
  {
    if sorted != [] && row.sortOrder > sorted[0].sortOrder {
      InsertSorts(row, sorted[1..]);
      InsertKeeps(row, sorted[1..]);
      var rest := InsertByOrder(row, sorted[1..]);
      forall i | 0 <= i < |rest| ensures sorted[0].sortOrder <= rest[i].sortOrder {
        assert rest[i] in multiset(rest);
        assert rest[i] in sorted[1..] || rest[i] == row;
      }
    }
  }

  lemma {:induction false} SortSorts(rows: seq<Row>)
    ensures InOrder(SortedByOrder(rows))
  {
    if rows != [] {
      SortSorts(rows[1..]);
      InsertSorts(rows[0], SortedByOrder(rows[1..]));
    }
  }

  lemma SameHead(a: seq<Row>, b: seq<Row>)
    requires multiset(a) == multiset(b) && InOrder(a) && InStrictOrder(b) && a != [] && b != []
    ensures a[0] == b[0]
  {
    assert a[0] in multiset(b) && b[0] in multiset(a);
    var i :| 0 <= i < |b| && b[i] == a[0];
    var j :| 0 <= j < |a| && a[j] == b[0];
    assert a[0].sortOrder <= a[j].sortOrder;
  }

  lemma TailCounts(head: Row, tail: seq<Row>)
    ensures multiset(tail) == multiset([head] + tail) - multiset{head}
  {}

  lemma {:induction false} OrderIsUnique(a: seq<Row>, b: seq<Row>)
    requires multiset(a) == multiset(b) && InOrder(a) && InStrictOrder(b)
    ensures a == b
  {
    assert |multiset(a)| == |a| && |multiset(b)| == |b|;
    if a != [] {
      SameHead(a, b);
      var head, x, y := a[0], a[1..], b[1..];
      assert InOrder(x) && InStrictOrder(y);
      assert a == [head] + x && b == [head] + y;
      hide InOrder, InStrictOrder;
      TailCounts(head, x);
      TailCounts(head, y);
      OrderIsUnique(x, y);
    } else {
      assert b == [];
    }
  }

  lemma {:induction false} DirectInOrder(items: seq<Item>, parent: Option<nat>, index: nat, next: nat)
    ensures InStrictOrder(DirectRows(items, parent, index, next))
    ensures forall row | row in DirectRows(items, parent, index, next) :: row.sortOrder >= index
    decreases items
  {
    if items != [] {
      DirectInOrder(items[1..], parent, index + 1, next + IdsOf(items[0]));
    }
  }

  lemma {:induction false} ChildrenCount(rows: seq<Row>, parent: Option<nat>, row: Row)
    ensures multiset(ChildrenOf(rows, parent))[row] == if row.parent == parent then multiset(rows)[row] else 0
  {
    if rows != [] {
      ChildrenCount(rows[1..], parent, row);
      assert rows == [rows[0]] + rows[1..];
    }
  }

  // The order in which the table is read does not matter.
  lemma SortedChildrenOf(table: seq<Row>, whole: seq<Row>, parent: Option<nat>, direct: seq<Row>)
    requires multiset(table) == multiset(whole) && ChildrenOf(whole, parent) == direct && InStrictOrder(direct)
    ensures SortedByOrder(ChildrenOf(table, parent)) == direct
  {
    var children := ChildrenOf(table, parent);
    forall row ensures multiset(children)[row] == multiset(direct)[row] {
      ChildrenCount(table, parent, row);
      ChildrenCount(whole, parent, row);
    }
    assert multiset(children) == multiset(direct);
    SortKeeps(children);
    SortSorts(children);
    OrderIsUnique(SortedByOrder(children), direct);
  }

  // ---------------------------------------------------------------- export undoes import

  lemma {:induction false} DirectAreRows(items: seq<Item>, parent: Option<nat>, index: nat, next: nat, row: Row)
    requires row in DirectRows(items, parent, index, next)
    ensures row in RowsOf(items, parent, index, next) && row.parent == parent
    decreases items
  {
    if row !in OwnRow(items[0], parent, index, next) {
      DirectAreRows(items[1..], parent, index + 1, next + IdsOf(items[0]), row);
    }
  }

  // The rows of `items` sit in the table between other rows that are not inside them.
  ghost predicate Placed(table: seq<Row>, pre: seq<Row>, items: seq<Item>, parent: Option<nat>, index: nat, next: nat,
      post: seq<Row>) {
    && multiset(table) == multiset(pre + RowsOf(items, parent, index, next) + post)
    && Outside(pre, next, next + IdsUsed(items)) && Outside(post, next, next + IdsUsed(items))
    && Before(parent, next)
  }

  lemma PlacedInTable(table: seq<Row>, pre: seq<Row>, items: seq<Item>, parent: Option<nat>, index: nat, next: nat,
      post: seq<Row>)
    requires Placed(table, pre, items, parent, index, next, post)
    ensures forall row | row in DirectRows(items, parent, index, next) :: row in table && row.parent == parent
  {
    forall row | row in DirectRows(items, parent, index, next) ensures row in table && row.parent == parent {
      DirectAreRows(items, parent, index, next, row);
      assert row in multiset(pre + RowsOf(items, parent, index, next) + post);
      assert row in multiset(table);
    }
  }

  // The first item done, the rest of them is placed.
  lemma PlacedRest(table: seq<Row>, pre: seq<Row>, items: seq<Item>, parent: Option<nat>, index: nat, next: nat,
      post: seq<Row>)
    requires Placed(table, pre, items, parent, index, next, post) && items != []
    ensures Placed(table, pre + Stored(items[0], parent, index, next), items[1..], parent, index + 1,
              next + IdsOf(items[0]), post)
  {
    hide RowsOf, Stored, IdsUsed, IdsOf, Levels, LevelsOf;
    ImportUnfolds(items, parent, index, next);
    var stored, rest := Stored(items[0], parent, index, next),
        RowsOf(items[1..], parent, index + 1, next + IdsOf(items[0]));
    assert pre + (stored + rest) + post == pre + stored + rest + post;
    forall row | row in stored ensures !Within(row.parent, next + IdsOf(items[0]), next + IdsUsed(items)) {
      StoredRange(items[0], parent, index, next, row);
    }
  }

  // And so is what is inside the first item.
  lemma PlacedInside(table: seq<Row>, pre: seq<Row>, items: seq<Item>, parent: Option<nat>, index: nat, next: nat,
      post: seq<Row>)
    requires Placed(table, pre, items, parent, index, next, post) && items != [] && items[0].WithItems?
    ensures var rest := RowsOf(items[1..], parent, index + 1, next + IdsOf(items[0]));
            Placed(table, pre + OwnRow(items[0], parent, index, next), items[0].items, Some(next), 0, next + 1,
              rest + post)
  {
    hide RowsOf, IdsUsed, Levels, LevelsOf;
    ImportUnfolds(items, parent, index, next);
    var own, inside := OwnRow(items[0], parent, index, next), RowsOf(items[0].items, Some(next), 0, next + 1);
    var rest := RowsOf(items[1..], parent, index + 1, next + IdsOf(items[0]));
    assert RowsOf(items, parent, index, next) == own + inside + rest;
    assert pre + (own + inside + rest) + post == pre + own + inside + (rest + post);
    forall row | row in rest ensures !Within(row.parent, next + 1, next + 1 + IdsUsed(items[0].items)) {
      RowsRange(items[1..], parent, index + 1, next + IdsOf(items[0]), row);
    }
  }

  ghost predicate NoneIn(rows: seq<Row>, folder: nat) {
    forall row | row in rows :: row.parent != Some(folder)
  }

  lemma NoneInJoin(a: seq<Row>, b: seq<Row>, folder: nat)
    requires NoneIn(a, folder) && NoneIn(b, folder)
    ensures NoneIn(a + b, folder)
  {}

  // What the table holds for a folder is the direct rows of its items.
  lemma PlacedChildren(table: seq<Row>, pre: seq<Row>, items: seq<Item>, id: nat, next: nat, post: seq<Row>)
    requires Placed(table, pre, items, Some(id), 0, next, post) && id < next
    requires NoneIn(pre, id) && NoneIn(post, id)
    ensures SortedByOrder(ChildrenOf(table, Some(id))) == DirectRows(items, Some(id), 0, next)
  {
    var rows, parent := RowsOf(items, Some(id), 0, next), Some(id);
    NoChildren(pre, parent);
    NoChildren(post, parent);
    ChildrenAppend(pre + rows, post, parent);
    ChildrenAppend(pre, rows, parent);
    DirectChildren(items, parent, 0, next);
    DirectInOrder(items, parent, 0, next);
    SortedChildrenOf(table, pre + rows + post, parent, DirectRows(items, parent, 0, next));
  }

  lemma FolderChildren(table: seq<Row>, pre: seq<Row>, items: seq<Item>, parent: Option<nat>, index: nat, next: nat,
      post: seq<Row>)
    requires Placed(table, pre, items, parent, index, next, post) && items != [] && items[0].WithItems?
    ensures SortedByOrder(ChildrenOf(table, Some(next))) == DirectRows(items[0].items, Some(next), 0, next + 1)
  {
    hide RowsOf, Levels, LevelsOf, IdsUsed;
    ImportUnfolds(items, parent, index, next);
    PlacedInside(table, pre, items, parent, index, next, post);
    var own, rest := OwnRow(items[0], parent, index, next),
        RowsOf(items[1..], parent, index + 1, next + IdsOf(items[0]));
    assert NoneIn(pre, next) && NoneIn(post, next) && NoneIn(own, next);
    assert NoneIn(rest, next) by {
      forall row | row in rest ensures row.parent != Some(next) {
        RowsRange(items[1..], parent, index + 1, next + IdsOf(items[0]), row);
      }
    }
    hide Placed, NoneIn;
    NoneInJoin(pre, own, next);
    NoneInJoin(rest, post, next);
    PlacedChildren(table, pre + own, items[0].items, next, next + 1, rest + post);
  }

  lemma {:induction false} BuildsItems(table: seq<Row>, path: seq<nat>,
      pre: seq<Row>, items: seq<Item>, parent: Option<nat>, index: nat, next: nat, post: seq<Row>)
    requires UniqueIds(table) && IsPath(table, parent, path) && Placed(table, pre, items, parent, index, next, post)
    ensures forall row | row in DirectRows(items, parent, index, next) :: row in table && row.parent == parent
    ensures BuildNodes(table, parent, DirectRows(items, parent, index, next), path) == Normalised(items)
    decreases items, 1
  {
    hide Placed, IsPath, UniqueIds, RowsOf, Stored, IdsUsed, IdsOf, BuildNodes, BuildItemTree, DirectRows, Normalised,
        NodesOf, OwnRow;
    PlacedInTable(table, pre, items, parent, index, next, post);
    if items == [] {
      NothingToBuild(table, parent, path, index, next);
    } else {
      var item := items[0];
      PlacedRest(table, pre, items, parent, index, next, post);
      BuildsItems(table, path, pre + Stored(item, parent, index, next), items[1..], parent, index + 1,
        next + IdsOf(item), post);
      var rest := DirectRows(items[1..], parent, index + 1, next + IdsOf(item));
      OwnRowBuilds(items, parent, index, next);
      if RowCount(item) == 1 {
        var row := OwnRow(item, parent, index, next)[0];
        BuildUnfolds(table, parent, row, rest, path);
        if item.WithItems? {
          BuildsFolder(table, path + [next], pre, items, parent, index, next, post);
        }
      }
    }
  }

  function RowCount(item: Item): nat { if item.WithoutItems? && item.request.None? then 0 else 1 }

  // The first item's own row and its node.
  lemma OwnRowBuilds(items: seq<Item>, parent: Option<nat>, index: nat, next: nat)
    requires items != []
    ensures var item, own := items[0], OwnRow(items[0], parent, index, next);
            var rest := DirectRows(items[1..], parent, index + 1, next + IdsOf(item));
            && |own| == RowCount(item)
            && (RowCount(item) == 0 ==>
                  DirectRows(items, parent, index, next) == rest && Normalised(items) == Normalised(items[1..]))
            && (RowCount(item) == 1 ==> DirectRows(items, parent, index, next) == [own[0]] + rest && own[0].id == next)
            && (item.WithItems? ==>
                  && own[0].folder
                  && Normalised(items) == [FolderNode(own[0].name, Normalised(item.items))] + Normalised(items[1..]))
            && (RowCount(item) == 1 && !item.WithItems? ==>
                  !own[0].folder && Normalised(items) == [RequestOf(own[0])] + Normalised(items[1..]))
  {}

  lemma NothingToBuild(table: seq<Row>, parent: Option<nat>, path: seq<nat>, index: nat, next: nat)
    requires UniqueIds(table) && IsPath(table, parent, path)
    ensures DirectRows([], parent, index, next) == [] && Normalised([]) == []
              && BuildNodes(table, parent, [], path) == []
  {}

  lemma {:induction false} BuildsFolder(table: seq<Row>, path: seq<nat>,
      pre: seq<Row>, items: seq<Item>, parent: Option<nat>, index: nat, next: nat, post: seq<Row>)
    requires UniqueIds(table) && Placed(table, pre, items, parent, index, next, post)
    requires items != [] && items[0].WithItems? && IsPath(table, Some(next), path)
    ensures BuildItemTree(table, Some(next), path) == Normalised(items[0].items)
    decreases items, 0
  {
    hide Placed, IsPath, UniqueIds, RowsOf, SortedByOrder, ChildrenOf;
    var own, rest := OwnRow(items[0], parent, index, next),
        RowsOf(items[1..], parent, index + 1, next + IdsOf(items[0]));
    PlacedInside(table, pre, items, parent, index, next, post);
    FolderChildren(table, pre, items, parent, index, next, post);
    BuildsItems(table, path, pre + own, items[0].items, Some(next), 0, next + 1, rest + post);
  }

  lemma {:induction false} UniqueRowsOccurOnce(rows: seq<Row>, row: Row)
    requires UniqueIds(rows)
    ensures multiset(rows)[row] <= 1
  {
    if rows != [] {
      UniqueRowsOccurOnce(rows[1..], row);
      assert rows == [rows[0]] + rows[1..];
      assert row == rows[0] ==> row !in rows[1..];
    }
  }

  lemma UniqueInAnyOrder(rows: seq<Row>, table: seq<Row>)
    requires UniqueIds(rows) && multiset(rows) == multiset(table)
    ensures UniqueIds(table)
  {
    forall i, j | 0 <= i < j < |table| ensures table[i].id != table[j].id {
      var a, b := table[i], table[j];
      UniqueRowsOccurOnce(rows, a);
      assert table == table[..j] + [b] + table[j + 1..];
      assert a in multiset(table[..j]) && a in multiset(table) && b in multiset(table);
      assert a != b && a in rows && b in rows;
    }
  }

  // Exporting what an import stored gives back the collection's tree, in whatever order
  // the table is read.
  lemma ExportUndoesImport(items: seq<Item>, table: seq<Row>, next: nat)
    requires multiset(table) == multiset(RowsOf(items, None, 0, next))
    ensures UniqueIds(table) && IsPath(table, None, [])
    ensures BuildItemTree(table, None, []) == Normalised(items)
  {
    var rows := RowsOf(items, None, 0, next);
    ImportedIdsAreUnique(items, None, 0, next);
    UniqueInAnyOrder(rows, table);
    assert [] + rows + [] == rows;
    assert Placed(table, [], items, None, 0, next, []);
    BuildsItems(table, [], [], items, None, 0, next, []);
    DirectChildren(items, None, 0, next);
    DirectInOrder(items, None, 0, next);
    SortedChildrenOf(table, rows, None, DirectRows(items, None, 0, next));
  }

  // The ids an import hands out are distinct.
  lemma {:induction false} ImportedIdsAreUnique(items: seq<Item>, parent: Option<nat>, index: nat, next: nat)
    ensures UniqueIds(RowsOf(items, parent, index, next))
    decreases items
  {
    if items != [] {
      hide RowsOf, Stored, IdsUsed, Levels, LevelsOf, UniqueIds;
      ImportUnfolds(items, parent, index, next);
      var stored, rest := Stored(items[0], parent, index, next),
          RowsOf(items[1..], parent, index + 1, next + IdsOf(items[0]));
      StoredIdsAreUnique(items[0], parent, index, next);
      ImportedIdsAreUnique(items[1..], parent, index + 1, next + IdsOf(items[0]));
      forall row | row in stored ensures row.id < next + IdsOf(items[0]) {
        StoredRange(items[0], parent, index, next, row);
      }
      forall row | row in rest ensures next + IdsOf(items[0]) <= row.id {
        RowsRange(items[1..], parent, index + 1, next + IdsOf(items[0]), row);
      }
      UniqueJoin(stored, rest);
    }
  }

  lemma {:induction false} StoredIdsAreUnique(item: Item, parent: Option<nat>, index: nat, id: nat)
    ensures UniqueIds(Stored(item, parent, index, id))
    decreases item
  {
    if item.WithItems? {
      var own, inside := OwnRow(item, parent, index, id), RowsOf(item.items, Some(id), 0, id + 1);
      ImportedIdsAreUnique(item.items, Some(id), 0, id + 1);
      forall row | row in inside ensures id < row.id {
        RowsRange(item.items, Some(id), 0, id + 1, row);
      }
      hide RowsOf;
      UniqueJoin(own, inside);
    }
  }

  lemma UniqueJoin(a: seq<Row>, b: seq<Row>)
    requires UniqueIds(a) && UniqueIds(b) && forall x, y | x in a && y in b :: x.id != y.id
    ensures UniqueIds(a + b)
  {
    forall i, j | 0 <= i < j < |a + b| ensures (a + b)[i].id != (a + b)[j].id {
      if i < |a| <= j {
        assert a[i] in a && b[j - |a|] in b;
      }
    }
  }

  // ---------------------------------------------------------------- a second round

  // An exported tree, read as a collection.
  function AsItems(nodes: seq<Node>): seq<Item> {
    if nodes == [] then [] else [AsItem(nodes[0])] + AsItems(nodes[1..])
  }

  function AsItem(node: Node): Item {
    match node
    case FolderNode(name, children) => WithItems(name, AsItems(children), None)
    case RequestNode(name, httpMethod, url) => WithoutItems(name,
        Some(Request(Some(httpMethod), Some(Structured(Some(url))))))
  }

  lemma UpperIsIdempotent(s: string)
    ensures Upper(Upper(s)) == Upper(s)
  {
    forall i | 0 <= i < |s| ensures UpperChar(UpperChar(s[i])) == UpperChar(s[i]) {
    }
  }

  // Importing an export again stands for the same tree.
  lemma {:induction false} ExportIsStable(items: seq<Item>)
    ensures Normalised(AsItems(Normalised(items))) == Normalised(items)
    decreases items
  {
    if items != [] {
      ExportIsStable(items[1..]);
      var item, rest := items[0], Normalised(items[1..]);
      match item
      case WithItems(name, children, _) =>
        ExportIsStable(children);
        NormalisedOne(FolderNode(name, Normalised(children)), rest);
      case WithoutItems(name, Some(request)) =>
        UpperIsIdempotent(if request.httpMethod.Some? then request.httpMethod.value else "GET");
        NormalisedOne(RequestNode(name, MethodOf(request), ExtractUrl(request.url)), rest);
      case WithoutItems(_, None) => assert Normalised(items) == rest;
    }
  }

  lemma NormalisedOne(node: Node, rest: seq<Node>)
    ensures Normalised(AsItems([node] + rest)) == NodesOf(AsItem(node)) + Normalised(AsItems(rest))
  {
    assert ([node] + rest)[1..] == rest;
    var items := AsItems([node] + rest);
    assert items == [AsItem(node)] + AsItems(rest) && items[1..] == AsItems(rest);
  }
}
