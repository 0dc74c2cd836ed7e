/** Finding the rows in an untyped backend answer: twenty known places first, then a
    breadth-first search with a seen set over an object graph that may share
    objects and contain cycles. */
module JsonSearch {
  import opened Base
  import opened Keeping

  /** A value: a number, text, boolean or null, or a reference to a dict or a list. */
  datatype Ref = Atom(truthy: bool) | Obj(id: nat)

  datatype Field = Field(key: string, value: Ref)

  datatype Node = Dict(fields: seq<Field>) | List(items: seq<Ref>)

  type Heap = map<nat, Node>

  predicate InHeap(h: Heap, r: Ref) {
    r.Obj? ==> r.id in h
  }

  /** No reference dangles. */
  ghost predicate Closed(h: Heap) {
    forall id :: id in h ==>
      match h[id]
      case Dict(fields) => forall k :: 0 <= k < |fields| ==> InHeap(h, fields[k].value)
      case List(items) => forall k :: 0 <= k < |items| ==> InHeap(h, items[k])
  }

  predicate IsDict(h: Heap, r: Ref) {
    r.Obj? && r.id in h && h[r.id].Dict?
  }

  predicate IsList(h: Heap, r: Ref) {
    r.Obj? && r.id in h && h[r.id].List?
  }

  /** Python's truth value: empty containers are false. */
  predicate Truthy(h: Heap, r: Ref) {
    match r
    case Atom(truthy) => truthy
    case Obj(id) => id in h && (match h[id] case Dict(fields) => fields != [] case List(items) => items != [])
  }

  const NOTHING := Atom(false)

  function Lookup(fields: seq<Field>, key: string): Ref {
    if fields == [] then NOTHING else if fields[0].key == key then fields[0].value else Lookup(fields[1..], key)
  }

  /** `_get(value, *keys)` */
  function Get(h: Heap, r: Ref, keys: seq<string>): Ref
    decreases |keys|
  {
    if keys == [] then r
    else if IsDict(h, r) then Get(h, Lookup(h[r.id].fields, keys[0]), keys[1..])
    else NOTHING
  }

  /** `[row for row in node if isinstance(row, dict)]` */
  function DictRows(h: Heap, items: seq<Ref>): (rows: seq<Ref>)
    ensures rows != [] <==> exists k :: 0 <= k < |items| && IsDict(h, items[k])
  {
    if items == [] then []
    else
      var rest := DictRows(h, items[1..]);
      if IsDict(h, items[0]) then [items[0]] + rest else rest
  }

  const PLACES: seq<seq<string>> := [
    ["value"], ["value", "list"], ["value", "data"], ["value", "records"], ["value", "rows"], ["value", "items"],
    ["value", "content"], ["value", "result"], ["data"], ["data", "list"], ["data", "data"], ["data", "records"],
    ["data", "rows"], ["data", "items"], ["data", "content"], ["records"], ["rows"], ["items"], ["content"], ["result"]]

  function Roots(h: Heap, result: Ref): seq<Ref> {
    [Get(h, result, ["value"]), Get(h, result, ["data"]), Get(h, result, ["result"])]
  }

  // ---- Values, in columns ----------------------------------------------------------------------------

  ghost predicate Dictionary(h: Heap, r: Ref) {
    r.Obj? && r.id in h && h[r.id].Dict?
  }

  ghost function DictTest(h: Heap): Ref -> bool {
    (r: Ref) => Dictionary(h, r)
  }

  /** rows are the dicts among the items, in their order. */
  ghost predicate DictsOf(h: Heap, items: seq<Ref>, rows: seq<Ref>) {
    Kept(items, DictTest(h), rows)
  }

  /** The first field of this name. */
  ghost predicate FirstNamed(fields: seq<Field>, key: string, v: Ref, k: int) {
    0 <= k < |fields| && fields[k] == Field(key, v) && forall j :: 0 <= j < k ==> fields[j].key != key
  }

  /** `node.get(key)` of a dict, None for anything else. */
  ghost predicate Yields(h: Heap, r: Ref, key: string, v: Ref) {
    if Dictionary(h, r) && HasField(h[r.id].fields, key) then
      exists k :: FirstNamed(h[r.id].fields, key, v, k)
    else v == Atom(false)
  }

  /** The value at the end of the keys, taken one after the other. */
  ghost predicate Leads(h: Heap, r: Ref, keys: seq<string>, v: Ref) {
    exists nodes: seq<Ref> :: Trail(h, r, keys, nodes) && nodes[|keys|] == v
  }

  ghost predicate Trail(h: Heap, r: Ref, keys: seq<string>, nodes: seq<Ref>) {
    && |nodes| == |keys| + 1 && nodes[0] == r
    && forall k :: 0 <= k < |keys| ==> Yields(h, nodes[k], keys[k], nodes[k + 1])
  }

  /** Anything but None, a false scalar and an empty container. */
  ghost predicate Something(h: Heap, r: Ref) {
    r == Atom(true) || (r.Obj? && r.id in h && h[r.id] != Dict([]) && h[r.id] != List([]))
  }

  lemma TruthyIff(h: Heap, r: Ref)
    ensures Truthy(h, r) <==> Something(h, r)
  {
  }

  lemma {:induction false} DictRowsAre(h: Heap, items: seq<Ref>)
    ensures DictsOf(h, items, DictRows(h, items))
  {
    if items == [] {
      NothingKept(DictTest(h));
    } else {
      DictRowsAre(h, items[1..]);
      KeptInFront(items, DictTest(h), DictRows(h, items[1..]));
    }
  }

  ghost predicate HasField(fields: seq<Field>, key: string) {
    exists k :: 0 <= k < |fields| && fields[k].key == key
  }

  lemma {:induction false} LookupYields(fields: seq<Field>, key: string)
    ensures HasField(fields, key) ==> exists k :: FirstNamed(fields, key, Lookup(fields, key), k)
    ensures !HasField(fields, key) ==> Lookup(fields, key) == Atom(false)
  {
    if fields != [] && fields[0].key == key {
      assert FirstNamed(fields, key, Lookup(fields, key), 0);
    } else if fields != [] {
      var rest, v := fields[1..], Lookup(fields, key);
      LookupYields(rest, key);
      assert HasField(rest, key) <==> HasField(fields, key) by {
        if k :| 0 <= k < |rest| && rest[k].key == key { assert fields[k + 1].key == key; }
        if k :| 0 <= k < |fields| && fields[k].key == key { assert rest[k - 1].key == key; }
      }
      if HasField(rest, key) {
        var m :| FirstNamed(rest, key, v, m);
        assert FirstNamed(fields, key, v, m + 1);
      }
    }
  }

  lemma {:induction false} NothingLeads(h: Heap, keys: seq<string>)
    ensures Trail(h, NOTHING, keys, seq(|keys| + 1, _ => NOTHING))
  {
  }

  lemma {:induction false} GetLeads(h: Heap, r: Ref, keys: seq<string>)
    ensures Leads(h, r, keys, Get(h, r, keys))
    decreases |keys|
  {
    if keys == [] {
      assert Trail(h, r, keys, [r]);
    } else if IsDict(h, r) {
      var next := Lookup(h[r.id].fields, keys[0]);
      LookupYields(h[r.id].fields, keys[0]);
      GetLeads(h, next, keys[1..]);
      var nodes :| Trail(h, next, keys[1..], nodes) && nodes[|keys[1..]|] == Get(h, next, keys[1..]);
      assert Trail(h, r, keys, [r] + nodes);
    } else {
      NothingLeads(h, keys[1..]);
      assert Trail(h, r, keys, [r] + seq(|keys|, _ => NOTHING));
    }
  }

  ghost function Under(top: string, keys: seq<string>): seq<seq<string>> {
    [[top]] + seq(|keys|, k requires 0 <= k < |keys| => [top, keys[k]])
  }

  /** The known places: "value" and what it may hold, "data" and what it may hold, and what the answer itself may
      hold. */
  lemma PlacesAre()
    ensures var keys := ["list", "data", "records", "rows", "items", "content"];
            PLACES == Under("value", keys + ["result"]) + Under("data", keys)
                      + [["records"], ["rows"], ["items"], ["content"], ["result"]]
  {
  }

  // ---- Reachability --------------------------------------------------------------------------------

  /** A way from a root: the root's number, then positions among dict values. */
  type Path = seq<nat>

  /** The container at the end of a path, if the path leads to one. */
  function Access(h: Heap, roots: seq<Ref>, p: Path): Option<nat>
    decreases |p|
  {
    if p == [] then None
    else if |p| == 1 then
      if p[0] < |roots| && roots[p[0]].Obj? && Truthy(h, roots[p[0]]) then Some(roots[p[0]].id) else None
    else
      var parent := Access(h, roots, p[..|p| - 1]);
      if parent.Some? then Child(h, parent.value, p[|p| - 1]) else None
  }

  /** The container at position k of a dict's values. */
  function Child(h: Heap, id: nat, k: nat): Option<nat> {
    if id in h && h[id].Dict? && k < |h[id].fields| && h[id].fields[k].value.Obj?
    then Some(h[id].fields[k].value.id) else None
  }

  /** A list with a dict in it. */
  ghost predicate Qualifies(h: Heap, id: nat) {
    id in h && h[id].List? && exists k :: 0 <= k < |h[id].items| && Dictionary(h, h[id].items[k])
  }

  /** Shorter paths first, and among equally long ones the smaller at the first difference. */
  predicate Before(p: Path, q: Path) {
    |p| < |q| || (|p| == |q| && Smaller(p, q))
  }

  predicate Smaller(p: Path, q: Path)
    requires |p| == |q|
  {
    p != [] && (p[0] < q[0] || (p[0] == q[0] && Smaller(p[1..], q[1..])))
  }

  lemma {:induction false} SmallerTotal(p: Path, q: Path)
    requires |p| == |q|
    ensures p != q ==> Smaller(p, q) || Smaller(q, p)
    ensures !(Smaller(p, q) && Smaller(q, p)) && !Smaller(p, p)
  {
    if p != [] {
      SmallerTotal(p[1..], q[1..]);
      if p[0] == q[0] && p[1..] == q[1..] { assert p == [p[0]] + p[1..] == q; }
    }
  }

  lemma {:induction false} SmallerTransitive(p: Path, q: Path, r: Path)
    requires |p| == |q| == |r| && Smaller(p, q) && Smaller(q, r)
    ensures Smaller(p, r)
  {
    if p[0] == q[0] == r[0] { SmallerTransitive(p[1..], q[1..], r[1..]); }
  }

  lemma {:induction false} SmallerAppend(p: Path, q: Path, a: nat, b: nat)
    requires |p| == |q| && (Smaller(p, q) || (p == q && a < b))
    ensures Smaller(p + [a], q + [b])
  {
    if p != [] {
      if p[0] == q[0] { SmallerAppend(p[1..], q[1..], a, b); }
      assert (p + [a])[1..] == p[1..] + [a] && (q + [b])[1..] == q[1..] + [b];
    }
  }

  lemma BeforeTransitive(p: Path, q: Path, r: Path)
    requires Before(p, q) && Before(q, r)
    ensures Before(p, r)
  {
    if |p| == |q| == |r| { SmallerTransitive(p, q, r); }
  }

  lemma BeforeStrict(p: Path, q: Path)
    ensures !(Before(p, q) && Before(q, p)) && !Before(p, p)
    ensures p != q ==> Before(p, q) || Before(q, p)
  {
    if |p| == |q| { SmallerTotal(p, q); SmallerTotal(p, p); } else { SmallerTotal(p, p); }
  }

  lemma BeforeAppend(p: Path, q: Path, a: nat, b: nat)
    requires Before(p, q) || (p == q && a < b)
    ensures Before(p + [a], q + [b])
  {
    if |p| == |q| { SmallerAppend(p, q, a, b); }
  }

  /** The first path in search order that ends at a qualifying list. */
  ghost predicate IsFirstHit(h: Heap, roots: seq<Ref>, p: Path) {
    && Access(h, roots, p).Some? && Qualifies(h, Access(h, roots, p).value)
    && forall q :: Before(q, p) && Access(h, roots, q).Some? ==> !Qualifies(h, Access(h, roots, q).value)
  }

  ghost predicate NoHit(h: Heap, roots: seq<Ref>) {
    forall q :: Access(h, roots, q).Some? ==> !Qualifies(h, Access(h, roots, q).value)
  }

  // ---- The search ----------------------------------------------------------------------------------

  /** The containers among the values from position k on, and where they are. */
  function Containers(values: seq<Ref>, k: nat): seq<nat>
    requires k <= |values|
    decreases |values| - k
  {
    if k == |values| then []
    else if values[k].Obj? then [values[k].id] + Containers(values, k + 1)
    else Containers(values, k + 1)
  }

  function Ways(at: Path, values: seq<Ref>, k: nat): seq<Path>
    requires k <= |values|
    decreases |values| - k
  {
    if k == |values| then []
    else if values[k].Obj? then [at + [k]] + Ways(at, values, k + 1)
    else Ways(at, values, k + 1)
  }

  function Values(fields: seq<Field>): (r: seq<Ref>)
    ensures |r| == |fields|
  {
    seq(|fields|, i requires 0 <= i < |fields| => fields[i].value)
  }

  function TruthyRoots(h: Heap, roots: seq<Ref>): (r: seq<Ref>)
    ensures |r| == |roots|
  {
    seq(|roots|, i requires 0 <= i < |roots| => if Truthy(h, roots[i]) then roots[i] else NOTHING)
  }

  ghost predicate SortedPaths(paths: seq<Path>) {
    forall a, b :: 0 <= a < b < |paths| ==> Before(paths[a], paths[b])
  }

  lemma {:induction false} WaysFacts(at: Path, values: seq<Ref>, k: nat)
    requires k <= |values|
    ensures var ways := Ways(at, values, k);
            && |ways| == |Containers(values, k)| && SortedPaths(ways)
            && (forall j :: 0 <= j < |ways| ==>
                  |ways[j]| == |at| + 1 && ways[j][..|at|] == at && k <= ways[j][|at|] < |values|
                  && values[ways[j][|at|]] == Obj(Containers(values, k)[j]))
            && (forall c: nat :: k <= c < |values| && values[c].Obj? ==> at + [c] in ways)
    decreases |values| - k
  {
    if k < |values| {
      WaysFacts(at, values, k + 1);
      var rest := Ways(at, values, k + 1);
      if values[k].Obj? {
        forall b | 0 <= b < |rest| ensures Before(at + [k], rest[b]) {
          assert rest[b] == at + [rest[b][|at|]];
          BeforeAppend(at, at, k, rest[b][|at|]);
        }
      }
    }
  }

  predicate AtMost(p: Path, q: Path) {
    p == q || Before(p, q)
  }

  /** The container x at path p is still queued under that path, or was visited by a path that is no later. */
  predicate Covered(paths: seq<Path>, visited: map<nat, Path>, p: Path, x: nat) {
    p in paths || (x in visited && AtMost(visited[x], p))
  }

  ghost predicate Frontier(h: Heap, roots: seq<Ref>, queue: seq<nat>, paths: seq<Path>) {
    && |paths| == |queue| && SortedPaths(paths)
    && (forall k :: 0 <= k < |paths| ==> Access(h, roots, paths[k]) == Some(queue[k]))
    && (forall k :: 0 <= k < |paths| ==> Before(paths[k], paths[0] + [0]))
  }

  ghost predicate Visited(h: Heap, roots: seq<Ref>, paths: seq<Path>, visited: map<nat, Path>) {
    && (forall id :: id in visited ==> Access(h, roots, visited[id]) == Some(id) && !Qualifies(h, id))
    && (forall id, k :: id in visited && 0 <= k < |paths| ==> Before(visited[id], paths[k]))
  }

  ghost predicate RootsCovered(h: Heap, roots: seq<Ref>, paths: seq<Path>, visited: map<nat, Path>) {
    forall r: nat, x :: Access(h, roots, [r]) == Some(x) ==> Covered(paths, visited, [r], x)
  }

  ghost predicate ChildrenCovered(h: Heap, paths: seq<Path>, visited: map<nat, Path>) {
    forall id, c: nat, x :: id in visited && Child(h, id, c) == Some(x) ==>
      Covered(paths, visited, visited[id] + [c], x)
  }

  ghost predicate Searching(h: Heap, roots: seq<Ref>, queue: seq<nat>, paths: seq<Path>, visited: map<nat, Path>) {
    && Frontier(h, roots, queue, paths) && Visited(h, roots, paths, visited)
    && RootsCovered(h, roots, paths, visited) && ChildrenCovered(h, paths, visited)
  }

  lemma {:induction false} AccessInHeap(h: Heap, roots: seq<Ref>, p: Path)
    requires Closed(h)
    ensures Access(h, roots, p).Some? ==> Access(h, roots, p).value in h
    decreases |p|
  {
    if |p| > 1 {
      AccessInHeap(h, roots, p[..|p| - 1]);
      var parent := Access(h, roots, p[..|p| - 1]);
      if parent.Some? && Child(h, parent.value, p[|p| - 1]).Some? {
        assert InHeap(h, h[parent.value].fields[p[|p| - 1]].value);
      }
    }
  }

  lemma StartSearching(h: Heap, roots: seq<Ref>)
    ensures Searching(h, roots, Containers(TruthyRoots(h, roots), 0), Ways([], TruthyRoots(h, roots), 0), map[])
  {
    var values := TruthyRoots(h, roots);
    var paths := Ways([], values, 0);
    WaysFacts([], values, 0);
    forall k | 0 <= k < |paths| ensures Access(h, roots, paths[k]) == Some(Containers(values, 0)[k]) {
      assert values[paths[k][0]] == Obj(Containers(values, 0)[k]);
    }
    forall r: nat, x | Access(h, roots, [r]) == Some(x) ensures Covered(paths, map[], [r], x) {
      assert values[r].Obj? && [] + [r] == [r];
    }
  }

  lemma RestSorted(paths: seq<Path>)
    requires paths != [] && SortedPaths(paths) && forall k :: 0 <= k < |paths| ==> Before(paths[k], paths[0] + [0])
    ensures SortedPaths(paths[1..])
    ensures forall k :: 0 <= k < |paths[1..]| ==> Before(paths[1..][k], paths[1..][0] + [0])
  {
    var rest := paths[1..];
    if rest != [] {
      BeforeAppend(paths[0], paths[1], 0, 0);
      forall k | 0 <= k < |rest| ensures Before(rest[k], rest[0] + [0]) {
        BeforeTransitive(paths[k + 1], paths[0] + [0], paths[1] + [0]);
      }
    }
  }

  lemma CoveredGrows(paths: seq<Path>, visited: map<nat, Path>, more: seq<Path>, known: map<nat, Path>, p: Path, x: nat)
    requires Covered(paths, visited, p, x) && (forall q :: q in paths ==> q in more || q == paths[0])
    requires paths != [] && (p == paths[0] ==> x in known && AtMost(known[x], p))
    requires forall id :: id in visited ==> id in known && known[id] == visited[id]
    ensures Covered(more, known, p, x)
  {
  }

  /** A node that was visited before is dropped. */
  lemma DropKeepsSearching(h: Heap, roots: seq<Ref>, queue: seq<nat>, paths: seq<Path>, visited: map<nat, Path>)
    requires Searching(h, roots, queue, paths, visited) && queue != [] && queue[0] in visited
    ensures Searching(h, roots, queue[1..], paths[1..], visited)
  {
    RestSorted(paths);
    var rest := paths[1..];
    forall r: nat, x | Access(h, roots, [r]) == Some(x) ensures Covered(rest, visited, [r], x) {
      CoveredGrows(paths, visited, rest, visited, [r], x);
    }
    forall id, c: nat, x | id in visited && Child(h, id, c) == Some(x)
      ensures Covered(rest, visited, visited[id] + [c], x)
    {
      ChildAccess(h, roots, visited[id], id, c);
      CoveredGrows(paths, visited, rest, visited, visited[id] + [c], x);
    }
  }

  lemma ChildAccess(h: Heap, roots: seq<Ref>, p: Path, id: nat, c: nat)
    requires Access(h, roots, p) == Some(id)
    ensures Access(h, roots, p + [c]) == Child(h, id, c)
  {
    assert (p + [c])[..|p|] == p;
  }

  function Kids(h: Heap, id: nat): seq<nat> {
    if id in h && h[id].Dict? then Containers(Values(h[id].fields), 0) else []
  }

  function KidWays(h: Heap, id: nat, p: Path): seq<Path> {
    if id in h && h[id].Dict? then Ways(p, Values(h[id].fields), 0) else []
  }

  lemma KidFacts(h: Heap, roots: seq<Ref>, p: Path, id: nat)
    requires Access(h, roots, p) == Some(id)
    ensures var kids, ways := Kids(h, id), KidWays(h, id, p);
            && |ways| == |kids| && SortedPaths(ways)
            && (forall k :: 0 <= k < |ways| ==> Access(h, roots, ways[k]) == Some(kids[k]))
            && (forall k :: 0 <= k < |ways| ==> |ways[k]| == |p| + 1 && ways[k][..|p|] == p)
            && (forall c: nat :: Child(h, id, c).Some? ==> p + [c] in ways)
  {
    if id in h && h[id].Dict? {
      var values := Values(h[id].fields);
      WaysFacts(p, values, 0);
      var ways := KidWays(h, id, p);
      forall k | 0 <= k < |ways| ensures Access(h, roots, ways[k]) == Some(Kids(h, id)[k]) {
        var c := ways[k][|p|];
        assert ways[k] == p + [c];
        ChildAccess(h, roots, p, id, c);
      }
      forall c: nat | Child(h, id, c).Some? ensures p + [c] in ways { assert values[c].Obj?; }
    }
  }

  lemma PathsAfter(paths: seq<Path>, ways: seq<Path>)
    requires paths != [] && paths[0] != [] && SortedPaths(paths) && SortedPaths(ways)
    requires forall k :: 0 <= k < |paths| ==> Before(paths[k], paths[0] + [0])
    requires forall k :: 0 <= k < |ways| ==> |ways[k]| == |paths[0]| + 1 && ways[k][..|paths[0]|] == paths[0]
    ensures SortedPaths(paths[1..] + ways)
    ensures forall k :: 0 <= k < |paths[1..] + ways| ==> Before((paths[1..] + ways)[k], (paths[1..] + ways)[0] + [0])
  {
    RestSorted(paths);
    var p, rest := paths[0], paths[1..];
    var all := rest + ways;
    forall a, b | 0 <= a < |rest| && 0 <= b < |ways| ensures Before(rest[a], ways[b]) {
      assert ways[b] == p + [ways[b][|p|]];
      RestBeforeWay(p, paths[a + 1], ways[b][|p|]);
    }
    forall k | 0 <= k < |all| ensures Before(all[k], all[0] + [0]) {
      if k >= |rest| && rest != [] {
        var c := ways[k - |rest|][|p|];
        assert all[k] == p + [c];
        BeforeAppend(p, rest[0], c, 0);
      }
    }
  }

  lemma RestBeforeWay(p: Path, q: Path, c: nat)
    requires Before(q, p + [0])
    ensures Before(q, p + [c])
  {
    if c > 0 {
      BeforeAppend(p, p, 0, c);
      BeforeTransitive(q, p + [0], p + [c]);
    }
  }

  lemma ExpandKeepsFrontier(h: Heap, roots: seq<Ref>, queue: seq<nat>, paths: seq<Path>)
    requires Frontier(h, roots, queue, paths) && queue != []
    ensures Frontier(h, roots, queue[1..] + Kids(h, queue[0]), paths[1..] + KidWays(h, queue[0], paths[0]))
  {
    KidFacts(h, roots, paths[0], queue[0]);
    assert paths[0] != [];
    PathsAfter(paths, KidWays(h, queue[0], paths[0]));
  }

  /** Whatever was visited before the head was expanded comes before all that is queued afterwards. */
  lemma VisitedFirst(paths: seq<Path>, ways: seq<Path>, q: Path, k: nat)
    requires paths != [] && SortedPaths(paths) && AtMost(q, paths[0]) && k < |paths| - 1 + |ways|
    requires forall j :: 0 <= j < |ways| ==> |ways[j]| == |paths[0]| + 1
    ensures Before(q, (paths[1..] + ways)[k])
  {
    var next := if k < |paths| - 1 then paths[k + 1] else ways[k - (|paths| - 1)];
    assert (paths[1..] + ways)[k] == next;
    if q != paths[0] { BeforeTransitive(q, paths[0], next); }
  }

  lemma KidWaysAreLonger(h: Heap, id: nat, p: Path, k: nat)
    requires k < |KidWays(h, id, p)|
    ensures |KidWays(h, id, p)[k]| == |p| + 1
  {
    WaysFacts(p, Values(h[id].fields), 0);
  }

  lemma QueuedAfter(paths: seq<Path>, ways: seq<Path>, visited: map<nat, Path>, x: nat)
    requires paths != [] && SortedPaths(paths) && x !in visited
    requires forall id, k :: id in visited && 0 <= k < |paths| ==> Before(visited[id], paths[k])
    requires forall j :: 0 <= j < |ways| ==> |ways[j]| == |paths[0]| + 1
    ensures var all, known := paths[1..] + ways, visited[x := paths[0]];
            forall id, k :: id in known && 0 <= k < |all| ==> Before(known[id], all[k])
  {
    var all, known := paths[1..] + ways, visited[x := paths[0]];
    forall id, k | id in known && 0 <= k < |all| ensures Before(known[id], all[k]) {
      VisitedFirst(paths, ways, known[id], k);
    }
  }

  lemma ExpandKeepsVisited(h: Heap, roots: seq<Ref>, queue: seq<nat>, paths: seq<Path>, visited: map<nat, Path>)
    requires Frontier(h, roots, queue, paths) && Visited(h, roots, paths, visited)
    requires queue != [] && queue[0] !in visited && !Qualifies(h, queue[0])
    ensures Visited(h, roots, paths[1..] + KidWays(h, queue[0], paths[0]), visited[queue[0] := paths[0]])
  {
    var ways := KidWays(h, queue[0], paths[0]);
    forall j | 0 <= j < |ways| ensures |ways[j]| == |paths[0]| + 1 { KidWaysAreLonger(h, queue[0], paths[0], j); }
    QueuedAfter(paths, ways, visited, queue[0]);
  }

  lemma ExpandCovers(h: Heap, roots: seq<Ref>, queue: seq<nat>, paths: seq<Path>, visited: map<nat, Path>, p: Path,
                     x: nat)
    requires Frontier(h, roots, queue, paths) && queue != [] && queue[0] !in visited
    requires Covered(paths, visited, p, x) && Access(h, roots, p) == Some(x)
    ensures Covered(paths[1..] + KidWays(h, queue[0], paths[0]), visited[queue[0] := paths[0]], p, x)
  {
    CoveredGrows(paths, visited, paths[1..] + KidWays(h, queue[0], paths[0]), visited[queue[0] := paths[0]], p, x);
  }

  lemma ExpandKeepsSearching(h: Heap, roots: seq<Ref>, queue: seq<nat>, paths: seq<Path>, visited: map<nat, Path>)
    requires Searching(h, roots, queue, paths, visited) && queue != [] && queue[0] !in visited
             && !Qualifies(h, queue[0])
    ensures Searching(h, roots, queue[1..] + Kids(h, queue[0]), paths[1..] + KidWays(h, queue[0], paths[0]),
                      visited[queue[0] := paths[0]])
  {
    var all, known := paths[1..] + KidWays(h, queue[0], paths[0]), visited[queue[0] := paths[0]];
    ExpandKeepsFrontier(h, roots, queue, paths);
    ExpandKeepsVisited(h, roots, queue, paths, visited);
    forall r: nat, y | Access(h, roots, [r]) == Some(y) ensures Covered(all, known, [r], y) {
      ExpandCovers(h, roots, queue, paths, visited, [r], y);
    }
    forall id, c: nat, y | id in known && Child(h, id, c) == Some(y) ensures Covered(all, known, known[id] + [c], y) {
      ExpandCoversChild(h, roots, queue, paths, visited, id, c, y);
    }
  }

  lemma ExpandCoversChild(h: Heap, roots: seq<Ref>, queue: seq<nat>, paths: seq<Path>, visited: map<nat, Path>,
                          id: nat, c: nat, y: nat)
    requires Searching(h, roots, queue, paths, visited) && queue != [] && queue[0] !in visited
    requires (id == queue[0] || id in visited) && Child(h, id, c) == Some(y)
    ensures var known := visited[queue[0] := paths[0]];
            Covered(paths[1..] + KidWays(h, queue[0], paths[0]), known, known[id] + [c], y)
  {
    if id == queue[0] {
      KidFacts(h, roots, paths[0], queue[0]);
    } else {
      ChildAccess(h, roots, visited[id], id, c);
      ExpandCovers(h, roots, queue, paths, visited, visited[id] + [c], y);
    }
  }

  // ---- What the search has covered -------------------------------------------------------------------

  /** Before everything that is still queued. */
  predicate Ahead(paths: seq<Path>, q: Path) {
    paths == [] || Before(q, paths[0])
  }

  lemma AheadDownward(paths: seq<Path>, p: Path, q: Path)
    requires AtMost(p, q) && Ahead(paths, q)
    ensures Ahead(paths, p)
  {
    if paths != [] && p != q { BeforeTransitive(p, q, paths[0]); }
  }

  lemma AtMostTransitive(p: Path, q: Path, r: Path)
    requires AtMost(p, q) && AtMost(q, r)
    ensures AtMost(p, r)
  {
    if p != q && q != r { BeforeTransitive(p, q, r); }
  }

  /** If the parent was visited in time, so was the child. */
  lemma ChildVisited(h: Heap, paths: seq<Path>, visited: map<nat, Path>, y: nat, parent: Path, c: nat)
    requires SortedPaths(paths) && ChildrenCovered(h, paths, visited) && Ahead(paths, parent + [c])
    requires y in visited && AtMost(visited[y], parent) && Child(h, y, c).Some?
    ensures Child(h, y, c).value in visited && AtMost(visited[Child(h, y, c).value], parent + [c])
  {
    var x := Child(h, y, c).value;
    var way := visited[y] + [c];
    if visited[y] != parent { BeforeAppend(visited[y], parent, c, c); }
    AheadDownward(paths, way, parent + [c]);
    assert Covered(paths, visited, way, x);
    NotQueued(paths, way);
    AtMostTransitive(visited[x], way, parent + [c]);
  }

  /** Every path before the head of the queue leads to a node that was visited, by a path that is no later. */
  lemma {:induction false} EarlierVisited(h: Heap, roots: seq<Ref>, queue: seq<nat>, paths: seq<Path>,
                                          visited: map<nat, Path>, q: Path)
    requires Searching(h, roots, queue, paths, visited) && Access(h, roots, q).Some? && Ahead(paths, q)
    ensures Access(h, roots, q).value in visited && AtMost(visited[Access(h, roots, q).value], q)
    decreases |q|
  {
    if |q| == 1 {
      assert q == [q[0]];
      assert Covered(paths, visited, q, Access(h, roots, q).value);
      NotQueued(paths, q);
    } else {
      var parent, c := q[..|q| - 1], q[|q| - 1];
      assert q == parent + [c];
      AheadDownward(paths, parent, q);
      EarlierVisited(h, roots, queue, paths, visited, parent);
      ChildVisited(h, paths, visited, Access(h, roots, parent).value, parent, c);
    }
  }

  lemma NotQueued(paths: seq<Path>, q: Path)
    requires SortedPaths(paths) && Ahead(paths, q)
    ensures q !in paths
  {
    if q in paths {
      var k :| 0 <= k < |paths| && paths[k] == q;
      BeforeStrict(q, paths[0]);
    }
  }

  lemma HeadIsFirstHit(h: Heap, roots: seq<Ref>, queue: seq<nat>, paths: seq<Path>, visited: map<nat, Path>)
    requires Searching(h, roots, queue, paths, visited) && queue != [] && Qualifies(h, queue[0])
    ensures IsFirstHit(h, roots, paths[0])
  {
    forall q | Before(q, paths[0]) && Access(h, roots, q).Some? ensures !Qualifies(h, Access(h, roots, q).value) {
      EarlierVisited(h, roots, queue, paths, visited, q);
    }
  }

  lemma ExhaustedHasNoHit(h: Heap, roots: seq<Ref>, visited: map<nat, Path>)
    requires Searching(h, roots, [], [], visited)
    ensures NoHit(h, roots)
  {
    forall q | Access(h, roots, q).Some? ensures !Qualifies(h, Access(h, roots, q).value) {
      EarlierVisited(h, roots, [], [], visited, q);
    }
  }

  // ---- extract_rows -----------------------------------------------------------------------------------

  /** The first of the known places that holds a list. */
  predicate IsFirstPlace(h: Heap, result: Ref, i: nat) {
    && i < |PLACES| && IsList(h, Get(h, result, PLACES[i]))
    && forall j :: 0 <= j < i ==> !IsList(h, Get(h, result, PLACES[j]))
  }

  ghost predicate NoPlace(h: Heap, result: Ref) {
    forall i :: 0 <= i < |PLACES| ==> !IsList(h, Get(h, result, PLACES[i]))
  }

  /** The list that the first known place with a list holds. */
  ghost predicate FirstList(h: Heap, result: Ref, i: nat, list: Ref) {
    && i < |PLACES| && Leads(h, result, PLACES[i], list) && list.Obj? && list.id in h && h[list.id].List?
    && forall j, v :: 0 <= j < i && Leads(h, result, PLACES[j], v) ==> !(v.Obj? && v.id in h && h[v.id].List?)
  }

  ghost predicate NoList(h: Heap, result: Ref) {
    forall j, v :: 0 <= j < |PLACES| && Leads(h, result, PLACES[j], v) ==> !(v.Obj? && v.id in h && h[v.id].List?)
  }

  /** The dicts of the first hit, in their order, or nothing if there is no hit. */
  ghost predicate Found(h: Heap, roots: seq<Ref>, rows: seq<Ref>) {
    if NoHit(h, roots) then rows == []
    else exists p :: IsFirstHit(h, roots, p) && DictsOf(h, h[Access(h, roots, p).value].items, rows)
  }

  /** In columns: what extract_rows answers. */
  ghost predicate Extracted(h: Heap, result: Ref, rows: seq<Ref>) {
    && (!Something(h, result) ==> rows == [])
    && (Something(h, result) ==>
          && (forall i: nat, list: Ref :: FirstList(h, result, i, list) ==> DictsOf(h, h[list.id].items, rows))
          && (NoList(h, result) ==>
                exists a, b, c ::
                  && Leads(h, result, ["value"], a) && Leads(h, result, ["data"], b) && Leads(h, result, ["result"], c)
                  && Found(h, [a, b, c], rows)))
  }

  lemma {:induction false} TrailUnique(h: Heap, r: Ref, keys: seq<string>, x: seq<Ref>, y: seq<Ref>, k: nat)
    requires Trail(h, r, keys, x) && Trail(h, r, keys, y) && k <= |keys|
    ensures x[k] == y[k]
  {
    if k > 0 {
      TrailUnique(h, r, keys, x, y, k - 1);
      assert Yields(h, x[k - 1], keys[k - 1], x[k]) && Yields(h, y[k - 1], keys[k - 1], y[k]);
      YieldsOne(h, x[k - 1], keys[k - 1], x[k], y[k]);
    }
  }

  lemma YieldsOne(h: Heap, r: Ref, key: string, v: Ref, w: Ref)
    requires Yields(h, r, key, v) && Yields(h, r, key, w)
    ensures v == w
  {
    if Dictionary(h, r) && HasField(h[r.id].fields, key) {
      var fields := h[r.id].fields;
      var m :| FirstNamed(fields, key, v, m);
      var n :| FirstNamed(fields, key, w, n);
      assert !(m < n) && !(n < m);
    }
  }

  lemma LeadsIff(h: Heap, r: Ref, keys: seq<string>, v: Ref)
    ensures Leads(h, r, keys, v) <==> v == Get(h, r, keys)
  {
    GetLeads(h, r, keys);
    if Leads(h, r, keys, v) {
      var x :| Trail(h, r, keys, x) && x[|keys|] == v;
      var y :| Trail(h, r, keys, y) && y[|keys|] == Get(h, r, keys);
      TrailUnique(h, r, keys, x, y, |keys|);
    }
  }

  lemma FirstListIs(h: Heap, result: Ref, i: nat, n: nat, list: Ref)
    requires IsFirstPlace(h, result, i) && FirstList(h, result, n, list)
    ensures n == i && list == Get(h, result, PLACES[i])
  {
    LeadsIff(h, result, PLACES[n], list);
    LeadsIff(h, result, PLACES[i], Get(h, result, PLACES[i]));
  }

  lemma PlaceExtracts(h: Heap, result: Ref, i: nat)
    requires Something(h, result) && IsFirstPlace(h, result, i)
    ensures Extracted(h, result, DictRows(h, h[Get(h, result, PLACES[i]).id].items))
  {
    var at := Get(h, result, PLACES[i]);
    LeadsIff(h, result, PLACES[i], at);
    DictRowsAre(h, h[at.id].items);
    assert !NoList(h, result);
    forall n: nat, list: Ref | FirstList(h, result, n, list) ensures list == at {
      FirstListIs(h, result, i, n, list);
    }
  }

  lemma SearchExtracts(h: Heap, result: Ref, rows: seq<Ref>)
    requires Something(h, result) && NoPlace(h, result) && Answers(h, Roots(h, result), rows)
    ensures Extracted(h, result, rows)
  {
    var a, b, c := Get(h, result, ["value"]), Get(h, result, ["data"]), Get(h, result, ["result"]);
    LeadsIff(h, result, ["value"], a);
    LeadsIff(h, result, ["data"], b);
    LeadsIff(h, result, ["result"], c);
    forall i: nat, list: Ref ensures !FirstList(h, result, i, list) {
      if i < |PLACES| { LeadsIff(h, result, PLACES[i], list); }
    }
    AnswersFound(h, [a, b, c], rows);
  }

  lemma AnswersFound(h: Heap, roots: seq<Ref>, rows: seq<Ref>)
    requires Answers(h, roots, rows)
    ensures Found(h, roots, rows)
  {
    if rows != [] {
      var p :| IsFirstHit(h, roots, p) && rows == RowsAt(h, Access(h, roots, p).value);
      DictRowsAre(h, h[Access(h, roots, p).value].items);
      assert !NoHit(h, roots);
    }
  }

  /** The dict rows of the first list in a known place; else those of the first list in breadth-first order that has
      any; else none.  Terminates on every finite graph. */
  method ExtractRows(h: Heap, result: Ref) returns (rows: seq<Ref>)
    requires Closed(h)
    ensures !Truthy(h, result) ==> rows == []
    ensures Truthy(h, result) ==> forall i: nat :: IsFirstPlace(h, result, i) ==>
              rows == DictRows(h, h[Get(h, result, PLACES[i]).id].items)
    ensures Truthy(h, result) && NoPlace(h, result) ==> Answers(h, Roots(h, result), rows)
    ensures Extracted(h, result, rows)
  {
    TruthyIff(h, result);
    if !Truthy(h, result) {
      return [];
    }
    for i := 0 to |PLACES|
      invariant forall j :: 0 <= j < i ==> !IsList(h, Get(h, result, PLACES[j]))
    {
      var candidate := Get(h, result, PLACES[i]);
      if IsList(h, candidate) {
        PlaceExtracts(h, result, i);
        return DictRows(h, h[candidate.id].items);
      }
    }
    rows := SearchRows(h, Roots(h, result));
    SearchExtracts(h, result, rows);
  }

  /** The first hit is unique, so the rows found are determined. */
  lemma FirstHitUnique(h: Heap, roots: seq<Ref>, p: Path, q: Path)
    requires IsFirstHit(h, roots, p) && IsFirstHit(h, roots, q)
    ensures p == q
  {
    BeforeStrict(p, q);
  }

  function RowsAt(h: Heap, id: nat): seq<Ref> {
    if id in h && h[id].List? then DictRows(h, h[id].items) else []
  }

  ghost predicate Answers(h: Heap, roots: seq<Ref>, rows: seq<Ref>) {
    if rows == [] then NoHit(h, roots)
    else exists p :: IsFirstHit(h, roots, p) && rows == RowsAt(h, Access(h, roots, p).value)
  }

  /** One turn of the loop: drop a known node, answer with a qualifying list, or queue the children. */
  lemma Turn(h: Heap, roots: seq<Ref>, queue: seq<nat>, paths: seq<Path>, visited: map<nat, Path>)
    requires Closed(h) && Searching(h, roots, queue, paths, visited) && queue != []
    ensures queue[0] in h && paths != []
    ensures queue[0] in visited ==> Searching(h, roots, queue[1..], paths[1..], visited)
    ensures queue[0] !in visited && RowsAt(h, queue[0]) != [] ==> Answers(h, roots, RowsAt(h, queue[0]))
    ensures queue[0] !in visited && RowsAt(h, queue[0]) == [] ==>
              Searching(h, roots, queue[1..] + Kids(h, queue[0]), paths[1..] + KidWays(h, queue[0], paths[0]),
                        visited[queue[0] := paths[0]])
  {
    AccessInHeap(h, roots, paths[0]);
    if queue[0] in visited {
      DropKeepsSearching(h, roots, queue, paths, visited);
    } else if RowsAt(h, queue[0]) != [] {
      HeadIsFirstHit(h, roots, queue, paths, visited);
    } else {
      ExpandKeepsSearching(h, roots, queue, paths, visited);
    }
  }

  lemma KeysGrow(visited: map<nat, Path>, node: nat, p: Path)
    ensures visited[node := p].Keys == visited.Keys + {node}
  {
  }

  method SearchRows(h: Heap, roots: seq<Ref>) returns (rows: seq<Ref>)
    requires Closed(h)
    ensures Answers(h, roots, rows)
  {
    var queue := Containers(TruthyRoots(h, roots), 0);
    ghost var paths := Ways([], TruthyRoots(h, roots), 0);
    ghost var visited: map<nat, Path> := map[];
    var seen: set<nat> := {};
    StartSearching(h, roots);
    while queue != []
      invariant Searching(h, roots, queue, paths, visited) && seen == visited.Keys
      decreases h.Keys - seen, |queue|
    {
      Turn(h, roots, queue, paths, visited);
      var node := queue[0];
      queue := queue[1..];
      if node in seen {
        paths := paths[1..];
      } else {
        seen := seen + {node};
        if h[node].List? && DictRows(h, h[node].items) != [] {
          return DictRows(h, h[node].items);
        }
        queue := queue + Kids(h, node);
        KeysGrow(visited, node, paths[0]);
        paths, visited := paths[1..] + KidWays(h, node, paths[0]), visited[node := paths[0]];
      }
    }
    ExhaustedHasNoHit(h, roots, visited);
    rows := [];
  }
}
