/**
 * Python objects with identity, for the code that changes dicts in place
 * and relies on several places holding the same dict: the schema
 * flattening, the `items` pass and the template context. A dict is a
 * `PyDict` object whose entries are reassigned; lists, tuples and scalars
 * are values, since none of that code changes a list once it is shared.
 */
module Heap {
  import opened Wrappers
  import opened Values

  /** A Python value that may hold dict objects. */
  datatype Val =
    | Leaf(j: Json)          // None, a bool, a number, a str or a foreign object
    | List(items: seq<Val>)
    | Tup(parts: seq<Val>)
    | Dict(d: PyDict)
    | View(w: ItemsView)     // a `_DictWithItemsList`

  type Entries = seq<(string, Val)>

  /** A Python dict object: its entries in insertion order. */
  class PyDict {
    var entries: Entries

    constructor(es: Entries)
      ensures entries == es
    {
      entries := es;
    }
  }

  // ------------------------------------------------------------ dict entries

  /** `d.get(k)` on the entries: the first value stored under `k`. */
  function Find(es: Entries, k: string): (r: Option<Val>)
    decreases |es|
  {
    if es == [] then None else if es[0].0 == k then Some(es[0].1) else Find(es[1..], k)
  }

  /** `k in d` */
  predicate Has(es: Entries, k: string)
  {
    Find(es, k).Some?
  }

  /** Every key of the entries is present. */
  lemma {:induction false} HasAt(es: Entries, i: int)
    requires 0 <= i < |es|
    ensures Has(es, es[i].0)
    decreases i
  {
    if i > 0 && es[0].0 != es[i].0 {
      HasAt(es[1..], i - 1);
    }
  }

  /** `d[k] = v`: an existing key keeps its place, a new one is appended. */
  function Put(es: Entries, k: string, v: Val): (r: Entries)
    ensures !Has(es, k) ==> r == es + [(k, v)]
    decreases |es|
  {
    if es == [] then [(k, v)]
    else if es[0].0 == k then [(k, v)] + es[1..]
    else [es[0]] + Put(es[1..], k, v)
  }

  /** After `d[k] = v`, `k` holds `v` and every other key keeps its value. */
  lemma {:induction false} FindPut(es: Entries, k: string, v: Val, k2: string)
    ensures Find(Put(es, k, v), k2) == if k2 == k then Some(v) else Find(es, k2)
    decreases |es|
  {
    if es != [] && es[0].0 != k {
      FindPut(es[1..], k, v, k2);
    }
  }

  /** `d.pop(k, None)` on the entries: every entry under `k` removed. */
  function Drop(es: Entries, k: string): (r: Entries)
    ensures !Has(r, k)
    decreases |es|
  {
    if es == [] then []
    else if es[0].0 == k then Drop(es[1..], k)
    else [es[0]] + Drop(es[1..], k)
  }

  /** After `d.pop(k)`, every other key keeps its value. */
  lemma {:induction false} FindDrop(es: Entries, k: string, k2: string)
    requires k2 != k
    ensures Find(Drop(es, k), k2) == Find(es, k2)
    decreases |es|
  {
    if es != [] {
      FindDrop(es[1..], k, k2);
    }
  }

  // ------------------------------------------------------------ references

  /** The dict objects `v` holds directly, through lists, tuples and wrappers but not through other dicts. */
  function Refs(v: Val): set<PyDict>
  {
    match v
    case Leaf(_) => {}
    case List(xs) => set i, x | 0 <= i < |xs| && x in Refs(xs[i]) :: x
    case Tup(xs) => set i, x | 0 <= i < |xs| && x in Refs(xs[i]) :: x
    case Dict(d) => {d}
    case View(w) => {w.d}   // the wrapper's own copy
  }

  function EntriesRefs(es: Entries): set<PyDict>
  {
    set i, x | 0 <= i < |es| && x in Refs(es[i].1) :: x
  }

  /** The dicts the `items` pass steps into from `v`: through lists, not through tuples. */
  function Children(v: Val): set<PyDict>
  {
    match v
    case List(xs) => set i, x | 0 <= i < |xs| && x in Children(xs[i]) :: x
    case Dict(d) => {d}
    case _ => {}
  }

  function EntriesChildren(es: Entries): set<PyDict>
  {
    set i, x | 0 <= i < |es| && x in Children(es[i].1) :: x
  }

  // ------------------------------------------------------------ the items pass

  /** `list(d.items())`: the `(key, value)` pairs in order. */
  function ItemsList(es: Entries): (r: Val)
    ensures r.List? && |r.items| == |es|
    ensures forall i :: 0 <= i < |es| ==> r.items[i] == Tup([Leaf(Str(es[i].0)), es[i].1])
  {
    List(seq(|es|, i requires 0 <= i < |es| => Tup([Leaf(Str(es[i].0)), es[i].1])))
  }

  /** What the pass does to one dict that is not the root: an `items` entry listing its pairs, unless it has one. */
  function AddItems(es: Entries): (r: Entries)
  {
    if Has(es, "items") then es else Put(es, "items", ItemsList(es))
  }

  /** The added entry comes last and lists the dict's pairs as they were. */
  lemma AddItemsShape(es: Entries)
    ensures Has(AddItems(es), "items")
    ensures !Has(es, "items") ==> AddItems(es) == es + [("items", ItemsList(es))]
    ensures Find(AddItems(es), "items") == if Has(es, "items") then Find(es, "items") else Some(ItemsList(es))
  {
    FindPut(es, "items", ItemsList(es), "items");
  }

  /** A second pass over a dict changes nothing. */
  lemma AddItemsIdempotent(es: Entries)
    ensures AddItems(AddItems(es)) == AddItems(es)
  {
    AddItemsShape(es);
  }

  /** The pairs list refers to exactly the dicts the entries do. */
  lemma ItemsListRefs(es: Entries)
    ensures Refs(ItemsList(es)) == EntriesRefs(es)
  {
    var l := ItemsList(es);
    forall x | x in Refs(l) ensures x in EntriesRefs(es) {
      var i :| 0 <= i < |l.items| && x in Refs(l.items[i]);
      var pair := l.items[i];
      var j :| 0 <= j < |pair.parts| && x in Refs(pair.parts[j]);
      assert j == 1;
    }
    forall x | x in EntriesRefs(es) ensures x in Refs(l) {
      var i :| 0 <= i < |es| && x in Refs(es[i].1);
      var pair := l.items[i];
      assert pair.parts[1] == es[i].1;
      assert x in Refs(pair);
    }
  }

  /** The dicts an entry list refers to, after one more entry. */
  lemma SnocRefs(es: Entries, e: (string, Val))
    ensures EntriesRefs(es + [e]) == EntriesRefs(es) + Refs(e.1)
  {
    var r := es + [e];
    forall x | x in EntriesRefs(r) ensures x in EntriesRefs(es) + Refs(e.1) {
      var i :| 0 <= i < |r| && x in Refs(r[i].1);
      if i < |es| { assert r[i] == es[i]; }
    }
    forall x | x in EntriesRefs(es) + Refs(e.1) ensures x in EntriesRefs(r) {
      if x in EntriesRefs(es) {
        var i :| 0 <= i < |es| && x in Refs(es[i].1);
        assert r[i] == es[i];
      } else {
        assert r[|es|] == e;
      }
    }
  }

  /** The dicts the pass steps into from an entry list, after one more entry that holds none. */
  lemma SnocChildren(es: Entries, e: (string, Val))
    requires Children(e.1) == {}
    ensures EntriesChildren(es + [e]) == EntriesChildren(es)
  {
    var r := es + [e];
    forall x | x in EntriesChildren(r) ensures x in EntriesChildren(es) {
      var i :| 0 <= i < |r| && x in Children(r[i].1);
      assert r[i] == es[i];
    }
    forall x | x in EntriesChildren(es) ensures x in EntriesChildren(r) {
      var i :| 0 <= i < |es| && x in Children(es[i].1);
      assert r[i] == es[i];
    }
  }

  /** The added entry refers to the dicts the others do, and the pass steps into none of it. */
  lemma AddItemsRefs(es: Entries)
    ensures EntriesRefs(AddItems(es)) == EntriesRefs(es)
    ensures EntriesChildren(AddItems(es)) == EntriesChildren(es)
  {
    AddItemsShape(es);
    if !Has(es, "items") {
      ItemsListRefs(es);
      SnocRefs(es, ("items", ItemsList(es)));
      SnocChildren(es, ("items", ItemsList(es)));
    }
  }

  /** Every dict of `u` refers only into `u`, by its entries in `orig`. */
  predicate ClosedIn(u: set<PyDict>, orig: map<PyDict, Entries>)
  {
    forall x :: x in u ==> x in orig && EntriesRefs(orig[x]) <= u
  }

  /** Every dict of `a` steps only into dicts of `b`, by its entries in `orig`. */
  predicate StepsWithin(a: set<PyDict>, b: set<PyDict>, orig: map<PyDict, Entries>)
  {
    forall x :: x in a ==> x in orig && EntriesChildren(orig[x]) <= b
  }

  /** Two stretches of the pass that each step only into visited dicts make one. */
  lemma StepsWithinJoin(a: set<PyDict>, b: set<PyDict>, c: set<PyDict>, orig: map<PyDict, Entries>)
    requires a <= b <= c
    requires StepsWithin(b - a, b, orig) && StepsWithin(c - b, c, orig)
    ensures StepsWithin(c - a, c, orig)
  {
  }

  /** The dicts the pass steps into from one more list item. */
  lemma ListChildrenStep(xs: seq<Val>, i: int)
    requires 0 <= i < |xs|
    ensures Children(List(xs[..i + 1])) == Children(List(xs[..i])) + Children(xs[i])
  {
    var p, q := xs[..i], xs[..i + 1];
    forall x | x in Children(List(q)) ensures x in Children(List(p)) + Children(xs[i]) {
      var j :| 0 <= j < |q| && x in Children(q[j]);
      if j < i { assert q[j] == p[j]; }
    }
    forall x | x in Children(List(p)) ensures x in Children(List(q)) {
      var j :| 0 <= j < |p| && x in Children(p[j]);
      assert q[j] == p[j];
    }
    assert q[i] == xs[i];
  }

  /**
   * main.py:1762-1776, one call: `v` is visited unless it is a dict
   * already in `seen`; lists are stepped into and nothing else is. `orig`
   * holds every dict's entries as they were when the pass began; the dicts
   * recorded step only into recorded dicts, and lie inside every set that
   * holds `seen` and `v`'s dicts and that the pass cannot step out of.
   */
  method EnsureItems(v: Val, seen: set<PyDict>, root: bool, ghost u: set<PyDict>, ghost orig: map<PyDict, Entries>)
    returns (seen': set<PyDict>)
    requires Refs(v) <= u && seen <= u && ClosedIn(u, orig)
    requires forall x :: x in u && x !in seen ==> x.entries == orig[x]
    modifies u
    ensures seen <= seen' <= u && Children(v) <= seen'
    ensures forall x :: x in u && x !in seen' - seen ==> x.entries == old(x.entries)
    ensures forall x :: x in seen' - seen ==> x.entries == if root && v == Dict(x) then orig[x] else AddItems(orig[x])
    ensures StepsWithin(seen' - seen, seen', orig)
    ensures forall s :: seen <= s <= u && Children(v) <= s && StepsWithin(s - seen, s, orig) ==> seen' <= s
    decreases u - seen, v, 1
  {
    match v {
      case Dict(d) =>
        if d in seen {
          return seen;
        }
        seen' := VisitDict(d, seen, root, u, orig);
      case List(xs) =>
        seen' := VisitList(xs, seen, u, orig);
      case _ =>
        seen' := seen;
    }
  }

  /** `d.values()` */
  function DictValues(es: Entries): (r: seq<Val>)
    ensures |r| == |es| && forall i :: 0 <= i < |es| ==> r[i] == es[i].1
  {
    seq(|es|, i requires 0 <= i < |es| => es[i].1)
  }

  /** A dict's values hold the dicts its entries do. */
  lemma DictValuesRefs(es: Entries)
    ensures Refs(List(DictValues(es))) == EntriesRefs(es)
    ensures Children(List(DictValues(es))) == EntriesChildren(es)
  {
    var vs := DictValues(es);
    forall x | x in Refs(List(vs)) ensures x in EntriesRefs(es) {
      var i :| 0 <= i < |vs| && x in Refs(vs[i]);
    }
    forall x | x in EntriesRefs(es) ensures x in Refs(List(vs)) {
      var i :| 0 <= i < |es| && x in Refs(es[i].1);
      assert vs[i] == es[i].1;
    }
    forall x | x in Children(List(vs)) ensures x in EntriesChildren(es) {
      var i :| 0 <= i < |vs| && x in Children(vs[i]);
    }
    forall x | x in EntriesChildren(es) ensures x in Children(List(vs)) {
      var i :| 0 <= i < |es| && x in Children(es[i].1);
      assert vs[i] == es[i].1;
    }
  }

  /**
   * A dict reached for the first time is recorded, its values are visited
   * in order, and then (unless it is the root) it gets an `items` entry
   * listing its pairs if it has none.
   */
  method VisitDict(d: PyDict, seen: set<PyDict>, root: bool, ghost u: set<PyDict>, ghost orig: map<PyDict, Entries>)
    returns (seen': set<PyDict>)
    requires d in u && d !in seen && seen <= u && ClosedIn(u, orig)
    requires forall x :: x in u && x !in seen ==> x.entries == orig[x]
    modifies u
    ensures seen + {d} <= seen' <= u
    ensures forall x :: x in u && x !in seen' - seen ==> x.entries == old(x.entries)
    ensures forall x :: x in seen' - seen ==> x.entries == if root && x == d then orig[x] else AddItems(orig[x])
    ensures StepsWithin(seen' - seen, seen', orig)
    ensures forall s :: seen <= s <= u && d in s && StepsWithin(s - seen, s, orig) ==> seen' <= s
    decreases u - seen, Dict(d), 0
  {
    var es := d.entries;
    var start := seen + {d};
    DictValuesRefs(es);
    seen' := VisitList(DictValues(es), start, u, orig);
    assert StepsWithin({d}, seen', orig);
    assert seen' - seen == (seen' - start) + {d};
    forall s | seen <= s <= u && d in s && StepsWithin(s - seen, s, orig) ensures seen' <= s {
      assert StepsWithin(s - start, s, orig);
    }
    ghost var mid := seen';
    if !root && !Has(es, "items") {
      d.entries := AddItems(es);
    }
    forall x | x in seen' - seen ensures x.entries == if root && x == d then orig[x] else AddItems(orig[x]) {
      if x != d {
        assert x in mid - start;
      }
    }
  }

  /** The items of a list are visited in order. */
  method VisitList(xs: seq<Val>, seen: set<PyDict>, ghost u: set<PyDict>, ghost orig: map<PyDict, Entries>)
    returns (seen': set<PyDict>)
    requires Refs(List(xs)) <= u && seen <= u && ClosedIn(u, orig)
    requires forall x :: x in u && x !in seen ==> x.entries == orig[x]
    modifies u
    ensures seen <= seen' <= u && Children(List(xs)) <= seen'
    ensures forall x :: x in u && x !in seen' - seen ==> x.entries == old(x.entries)
    ensures forall x :: x in seen' - seen ==> x.entries == AddItems(orig[x])
    ensures StepsWithin(seen' - seen, seen', orig)
    ensures forall s :: seen <= s <= u && Children(List(xs)) <= s && StepsWithin(s - seen, s, orig) ==> seen' <= s
    decreases u - seen, List(xs), 0
  {
    seen' := seen;
    var i := 0;
    while i < |xs|
      invariant 0 <= i <= |xs|
      invariant seen <= seen' <= u
      invariant forall x :: x in u && x !in seen' - seen ==> x.entries == old(x.entries)
      invariant forall x :: x in seen' - seen ==> x.entries == AddItems(orig[x])
      invariant StepsWithin(seen' - seen, seen', orig)
      invariant Children(List(xs[..i])) <= seen'
      invariant forall s :: seen <= s <= u && Children(List(xs)) <= s && StepsWithin(s - seen, s, orig) ==> seen' <= s
    {
      assert Refs(xs[i]) <= Refs(List(xs));
      assert Children(xs[i]) <= Children(List(xs));
      ghost var before := seen';
      seen' := EnsureItems(xs[i], seen', false, u, orig);
      ListChildrenStep(xs, i);
      StepsWithinJoin(seen, before, seen', orig);
      forall x | x in seen' - seen ensures x.entries == AddItems(orig[x]) {
        if x in before {
          assert x !in seen' - before;
        }
      }
      forall s | seen <= s <= u && Children(List(xs)) <= s && StepsWithin(s - seen, s, orig) ensures seen' <= s {
        assert before <= s && Children(xs[i]) <= s;
        assert StepsWithin(s - before, s, orig);
      }
      i := i + 1;
    }
    assert xs[..i] == xs;
  }

  /** What the pass needs of the heap: every dict it can reach lies in `u`. */
  predicate Closed(u: set<PyDict>)
    reads u
  {
    forall x :: x in u ==> EntriesRefs(x.entries) <= u
  }

  /**
   * main.py:1762-1776, `_ensure_items_on_dicts(obj)`: every dict the pass
   * reaches from `obj` through dict values and list items, except `obj`
   * itself, ends up with an `items` entry; a dict that lacked one gets the
   * list of its own pairs as they were, and nothing else changes. Each dict
   * is handled once however many places hold it, the visited dicts step
   * only into visited dicts, and no dict outside a set the pass cannot step
   * out of is visited.
   */
  method EnsureItemsOnDicts(obj: Val, ghost u: set<PyDict>) returns (ghost visited: set<PyDict>)
    requires Refs(obj) <= u && Closed(u)
    modifies u
    ensures Children(obj) <= visited <= u
    ensures forall x :: x in visited ==> EntriesChildren(x.entries) <= visited
    ensures forall x :: x in visited && obj != Dict(x) ==> Has(x.entries, "items")
    ensures forall x :: x in u ==> x.entries == if x in visited && obj != Dict(x) then AddItems(old(x.entries)) else old(x.entries)
    ensures forall s :: s <= u && Children(obj) <= s && old(ShutFrom(s)) ==> visited <= s
    ensures Closed(u)
  {
    ghost var orig := map x | x in u :: x.entries;
    visited := EnsureItems(obj, {}, true, u, orig);
    forall x | x in visited ensures EntriesChildren(x.entries) <= visited {
      AddItemsRefs(orig[x]);
    }
    forall x | x in visited && obj != Dict(x) ensures Has(x.entries, "items") {
      AddItemsShape(orig[x]);
    }
    forall s | s <= u && Children(obj) <= s && old(ShutFrom(s)) ensures visited <= s {
      assert StepsWithin(s - {}, s, orig);
    }
    forall x | x in u ensures EntriesRefs(x.entries) <= u {
      AddItemsRefs(orig[x]);
    }
  }

  /**
   * A loaded value that held `j`, after the pass, reading each dict's
   * entries in `h`: every dict it reaches through dict values and list
   * items has its old entries, then `items` listing them when it had no
   * `items`. The pass does not step into tuples.
   */
  ghost predicate Passed(v: Val, j: Json, h: Store)
    decreases j, 1
  {
    match j
    case Arr(xs) => v.List? && |v.items| == |xs| && forall i :: 0 <= i < |xs| ==> Passed(v.items[i], xs[i], h)
    case Tuple(xs) => v.Tup? && |v.parts| == |xs|
    case Obj(f) => v.Dict? && v.d in h && PassedEntries(h[v.d], f, h)
    case _ => v == Leaf(j)
  }

  /** The entries of a dict that held `f`, after the pass. */
  ghost predicate PassedEntries(es: Entries, f: Fields, h: Store)
    decreases Obj(f), 0
  {
    |f| <= |es| && es == AddItems(es[..|f|])
    && forall i :: 0 <= i < |f| ==> es[i].0 == f[i].0 && Passed(es[i].1, f[i].1, h)
  }

  /**
   * What the pass leaves of a loaded value: given the entries before
   * (`h0`) and after (`h1`), every visited dict of `h0` given `items`, the
   * visited dicts stepping only into visited dicts, and the value's own
   * dicts visited, the value is `Passed`.
   */
  lemma {:induction false} PassedAfter(v: Val, j: Json, h0: Store, h1: Store, visited: set<PyDict>)
    requires Denotes(v, j, h0) && Children(v) <= visited
    requires forall x :: x in h0 && x in visited ==> x in h1 && h1[x] == AddItems(h0[x])
    requires forall x :: x in h0 && x in visited ==> EntriesChildren(h1[x]) <= visited
    ensures Passed(v, j, h1)
    decreases j
  {
    match j
    case Arr(xs) =>
      forall i | 0 <= i < |xs| ensures Passed(v.items[i], xs[i], h1) {
        assert Children(v.items[i]) <= Children(v);
        PassedAfter(v.items[i], xs[i], h0, h1, visited);
      }
    case Obj(f) =>
      var e0, e1 := h0[v.d], h1[v.d];
      assert v.d in Children(v);
      AddItemsShape(e0);
      assert e1[..|f|] == e0;
      forall i | 0 <= i < |f| ensures Passed(e1[i].1, f[i].1, h1) {
        assert e1[i] == e0[i];
        assert Children(e1[i].1) <= EntriesChildren(e1);
        PassedAfter(e0[i].1, f[i].1, h0, h1, visited);
      }
    case _ =>
  }

  /** Every dict of `s` steps only into dicts of `s`. */
  predicate ShutFrom(s: set<PyDict>)
    reads s
  {
    forall x :: x in s ==> EntriesChildren(x.entries) <= s
  }

  /**
   * Running the pass a second time changes nothing: the visited dicts step
   * only into visited dicts, so the second run stays inside them, and every
   * one of them but the root already has `items`.
   */
  method EnsureItemsTwice(obj: Val, ghost u: set<PyDict>) returns (ghost first: map<PyDict, Entries>)
    requires Refs(obj) <= u && Closed(u)
    modifies u
    ensures forall x :: x in u ==> x in first && x.entries == first[x]
  {
    var visited := EnsureItemsOnDicts(obj, u);
    first := map x | x in u :: x.entries;
    assert ShutFrom(visited);
    var again := EnsureItemsOnDicts(obj, u);
    assert again <= visited;
    forall x | x in u ensures x.entries == first[x] {
      if x in again && obj != Dict(x) {
        AddItemsIdempotent(old(x.entries));
      }
    }
  }

  // ------------------------------------------------------------ reading values

  /** `d.get(k, default)` on the entries. */
  function FindOr(es: Entries, k: string, default: Val): (r: Val)
    ensures Has(es, k) ==> Find(es, k) == Some(r)
    ensures !Has(es, k) ==> r == default
    ensures Refs(r) <= EntriesRefs(es) + Refs(default)
  {
    match Find(es, k)
    case Some(v) => FindRefs(es, k); v
    case None => default
  }

  /** The dict `v` is, if it is one: what `isinstance(v, dict)` accepts and an in-place store changes. */
  function DictOf(v: Val): (r: set<PyDict>)
    ensures r <= Refs(v)
  {
    if v.Dict? then {v.d} else {}
  }

  /** The dict a value holds, if it is one: what `isinstance(v, dict)` looks at. */
  function DictsOf(v: Val): (r: set<PyDict>)
    ensures r <= Refs(v)
  {
    if v.Dict? then {v.d} else if v.View? then {v.w.d} else {}
  }

  /** Python truthiness; a wrapper defines no length, so it is always true. */
  predicate TruthyVal(v: Val)
    reads DictOf(v)
  {
    match v
    case Leaf(j) => Truthy(j)
    case List(xs) => xs != []
    case Tup(xs) => xs != []
    case Dict(d) => d.entries != []
    case View(_) => true
  }

  /** `a or b` */
  function OrVal(a: Val, b: Val): (r: Val)
    reads DictOf(a)
    ensures TruthyVal(a) ==> r == a
    ensures !TruthyVal(a) ==> r == b
  {
    if TruthyVal(a) then a else b
  }

  /** `o.get(k, default)`: dicts and wrappers have it, nothing else does. */
  function GetVal(o: Val, k: string, default: Val): (r: Result<Val>)
    reads DictsOf(o)
    ensures r.Ok? <==> o.Dict? || o.View?
    ensures o.Dict? ==> r == Ok(FindOr(o.d.entries, k, default))
    ensures o.View? ==> r == Ok(FindOr(o.w.d.entries, k, default))
    ensures r.Err? ==> r.error == AttributeError
  {
    match o
    case Dict(d) => Ok(FindOr(d.entries, k, default))
    case View(w) => Ok(FindOr(w.d.entries, k, default))
    case _ => Err(AttributeError)
  }

  /** `len(v)`: a wrapper defines no length. */
  function LenVal(v: Val): (r: Result<nat>)
    reads DictOf(v)
    ensures r.Ok? <==> (v.Leaf? && Len(v.j).Ok?) || v.List? || v.Tup? || v.Dict?
    ensures v.Dict? ==> r == Ok(|v.d.entries|)
    ensures r.Err? ==> r.error == TypeError
  {
    match v
    case Leaf(j) => Len(j)
    case List(xs) => Ok(|xs|)
    case Tup(xs) => Ok(|xs|)
    case Dict(d) => Ok(|d.entries|)
    case View(_) => Err(TypeError)
  }

  /** Storing a value refers to no dict but the value's and the entries' own. */
  lemma {:induction false} PutRefs(es: Entries, k: string, v: Val)
    ensures EntriesRefs(Put(es, k, v)) <= EntriesRefs(es) + Refs(v)
    decreases |es|
  {
    var r := Put(es, k, v);
    if es != [] && es[0].0 != k {
      PutRefs(es[1..], k, v);
      forall x | x in EntriesRefs(r) ensures x in EntriesRefs(es) + Refs(v) {
        var i :| 0 <= i < |r| && x in Refs(r[i].1);
        if i == 0 {
          assert r[0] == es[0];
        } else {
          assert r[i] == Put(es[1..], k, v)[i - 1];
          assert x in EntriesRefs(es[1..]) + Refs(v);
          if x in EntriesRefs(es[1..]) {
            var j :| 0 <= j < |es[1..]| && x in Refs(es[1..][j].1);
            assert es[1..][j] == es[j + 1];
          }
        }
      }
    } else {
      forall x | x in EntriesRefs(r) ensures x in EntriesRefs(es) + Refs(v) {
        var i :| 0 <= i < |r| && x in Refs(r[i].1);
        if i > 0 {
          assert r[i] == es[i];
        }
      }
    }
  }

  /** Every stored value refers only into the dicts of `u`. */
  lemma FindRefs(es: Entries, k: string)
    requires Has(es, k)
    ensures Refs(Find(es, k).value) <= EntriesRefs(es)
  {
    var i := FindIndexOf(es, k);
  }

  /** `k in d` is membership in `d.keys()`. */
  lemma HasIn(es: Entries, k: string)
    ensures Has(es, k) <==> k in EntryKeys(es)
  {
    if Has(es, k) {
      var i := FindIndexOf(es, k);
      assert EntryKeys(es)[i] == k;
    }
    if k in EntryKeys(es) {
      var i :| 0 <= i < |es| && EntryKeys(es)[i] == k;
      HasAt(es, i);
    }
  }

  /** In a dict, whose keys are distinct, `d[k] = v` for a present key replaces its entry where it stands. */
  lemma {:induction false} PutAt(es: Entries, i: int, v: Val)
    requires Distinct(EntryKeys(es)) && 0 <= i < |es|
    ensures Put(es, es[i].0, v) == es[i := (es[i].0, v)]
    decreases i
  {
    if i > 0 {
      assert EntryKeys(es)[0] != EntryKeys(es)[i];
      assert Distinct(EntryKeys(es[1..])) by {
        forall a, b | 0 <= a < b < |es| - 1 ensures EntryKeys(es[1..])[a] != EntryKeys(es[1..])[b] {
          assert EntryKeys(es)[a + 1] != EntryKeys(es)[b + 1];
        }
      }
      PutAt(es[1..], i - 1, v);
      assert es[i := (es[i].0, v)] == [es[0]] + es[1..][i - 1 := (es[i].0, v)];
    }
  }

  /** Where `d.get(k)` finds its value. */
  lemma {:induction false} FindIndexOf(es: Entries, k: string) returns (i: int)
    requires Has(es, k)
    ensures 0 <= i < |es| && es[i] == (k, Find(es, k).value)
    decreases |es|
  {
    if es[0].0 == k {
      i := 0;
    } else {
      var j := FindIndexOf(es[1..], k);
      i := j + 1;
    }
  }

  // ------------------------------------------------------------ snapshots

  /** What a wrapper turns into when a walk meets it: a foreign object. */
  const WrapperText := "<_DictWithItemsList object>"

  /**
   * The value `v` denotes, every dict unfolded where it is held. A dict met
   * again inside itself is a cycle that a recursive walk never leaves: the
   * walk fails with RecursionError.
   */
  function Snapshot(v: Val, path: set<PyDict>, ghost u: set<PyDict>): (r: Result<Json>)
    reads u
    requires Refs(v) <= u && path <= u && Closed(u)
    ensures r.Ok? && v.Dict? ==> r.value.Obj?
    ensures r.Ok? && v.List? ==> r.value.Arr?
    ensures v.Leaf? ==> r == Ok(v.j)
    ensures r.Err? ==> r.error == RecursionError
    decreases u - path, v, 1
  {
    match v
    case Leaf(j) => Ok(j)
    case List(xs) =>
      var items :- SnapshotItems(xs, path, u, v);
      Ok(Arr(items))
    case Tup(xs) =>
      var items :- SnapshotItems(xs, path, u, v);
      Ok(Tuple(items))
    case Dict(d) =>
      if d in path then Err(RecursionError)
      else
        var f :- SnapshotFields(d.entries, path + {d}, u, List(DictValues(d.entries)));
        Ok(Obj(f))
    case View(_) => Ok(Opaque(WrapperText))
  }

  function SnapshotItems(xs: seq<Val>, path: set<PyDict>, ghost u: set<PyDict>, ghost parent: Val): (r: Result<seq<Json>>)
    reads u
    requires forall i :: 0 <= i < |xs| ==> xs[i] < parent && Refs(xs[i]) <= u
    requires path <= u && Closed(u)
    ensures r.Ok? ==> |r.value| == |xs|
    ensures r.Err? ==> r.error == RecursionError
    decreases u - path, parent, 0, |xs|
  {
    if xs == [] then Ok([])
    else
      var a :- Snapshot(xs[0], path, u);
      var rest :- SnapshotItems(xs[1..], path, u, parent);
      Ok([a] + rest)
  }

  function SnapshotFields(es: Entries, path: set<PyDict>, ghost u: set<PyDict>, ghost parent: Val): (r: Result<Fields>)
    reads u
    requires forall i :: 0 <= i < |es| ==> es[i].1 < parent && Refs(es[i].1) <= u
    requires path <= u && Closed(u)
    ensures r.Ok? ==> Keys(r.value) == EntryKeys(es)
    ensures r.Err? ==> r.error == RecursionError
    decreases u - path, parent, 0, |es|
  {
    if es == [] then Ok([])
    else
      var a :- Snapshot(es[0].1, path, u);
      var rest :- SnapshotFields(es[1..], path, u, parent);
      Ok([(es[0].0, a)] + rest)
  }

  /** The keys of the entries, in order. */
  function EntryKeys(es: Entries): (r: seq<string>)
    ensures |r| == |es| && forall i :: 0 <= i < |es| ==> r[i] == es[i].0
  {
    seq(|es|, i requires 0 <= i < |es| => es[i].0)
  }

  // ------------------------------------------------------------ building values

  /** The entries of each dict at one moment: the heap read as a value. */
  type Store = map<PyDict, Entries>

  /** The entries each dict of `s` holds now. */
  function StoreOf(s: set<PyDict>): (h: Store)
    reads s
    ensures h.Keys == s && forall x :: x in s ==> h[x] == x.entries
  {
    map x | x in s :: x.entries
  }

  /**
   * `v` holds the value `j` all the way down, reading each dict's entries
   * in `h`: dicts are dict objects with the same keys in the same order,
   * lists are lists, tuples tuples, and scalars stay.
   */
  ghost predicate Denotes(v: Val, j: Json, h: Store)
    decreases j
  {
    match j
    case Arr(xs) => v.List? && |v.items| == |xs| && forall i :: 0 <= i < |xs| ==> Denotes(v.items[i], xs[i], h)
    case Tuple(xs) => v.Tup? && |v.parts| == |xs| && forall i :: 0 <= i < |xs| ==> Denotes(v.parts[i], xs[i], h)
    case Obj(f) =>
      v.Dict? && v.d in h && |h[v.d]| == |f|
      && forall i :: 0 <= i < |f| ==> h[v.d][i].0 == f[i].0 && Denotes(h[v.d][i].1, f[i].1, h)
    case _ => v == Leaf(j)
  }

  /** `h2` holds every dict of `h1` with the same entries. */
  ghost predicate Extends(h1: Store, h2: Store)
  {
    forall x :: x in h1 ==> x in h2 && h2[x] == h1[x]
  }

  /** More dicts in the store change nothing about what a value denotes. */
  lemma {:induction false} DenotesExtend(v: Val, j: Json, h1: Store, h2: Store)
    requires Denotes(v, j, h1) && Extends(h1, h2)
    ensures Denotes(v, j, h2)
    decreases j
  {
    match j
    case Arr(xs) =>
      forall i | 0 <= i < |xs| ensures Denotes(v.items[i], xs[i], h2) {
        DenotesExtend(v.items[i], xs[i], h1, h2);
      }
    case Tuple(xs) =>
      forall i | 0 <= i < |xs| ensures Denotes(v.parts[i], xs[i], h2) {
        DenotesExtend(v.parts[i], xs[i], h1, h2);
      }
    case Obj(f) =>
      forall i | 0 <= i < |f| ensures Denotes(h2[v.d][i].1, f[i].1, h2) {
        DenotesExtend(h1[v.d][i].1, f[i].1, h1, h2);
      }
    case _ =>
  }

  /** Fresh objects holding `j`, nothing shared: what a walk that rebuilds every dict and list returns. */
  method Load(j: Json) returns (v: Val, ghost made: set<PyDict>)
    ensures fresh(made) && Refs(v) <= made && Closed(made)
    ensures Denotes(v, j, StoreOf(made))
    decreases j, 1
  {
    match j {
      case Arr(xs) =>
        var items;
        items, made := LoadItems(xs, j);
        v := List(items);
      case Tuple(xs) =>
        var items;
        items, made := LoadItems(xs, j);
        v := Tup(items);
      case Obj(f) =>
        var es;
        es, made := LoadFields(f, j);
        ghost var h1 := StoreOf(made);
        var d := new PyDict(es);
        made := made + {d};
        forall i | 0 <= i < |f| ensures Denotes(es[i].1, f[i].1, StoreOf(made)) {
          DenotesExtend(es[i].1, f[i].1, h1, StoreOf(made));
        }
        v := Dict(d);
      case _ =>
        v := Leaf(j);
        made := {};
    }
  }

  method LoadItems(xs: seq<Json>, ghost parent: Json) returns (vs: seq<Val>, ghost made: set<PyDict>)
    requires forall i :: 0 <= i < |xs| ==> xs[i] < parent
    ensures fresh(made) && Refs(List(vs)) <= made && Closed(made)
    ensures |vs| == |xs| && forall i :: 0 <= i < |xs| ==> Denotes(vs[i], xs[i], StoreOf(made))
    decreases parent, 0
  {
    vs, made := [], {};
    var i := 0;
    while i < |xs|
      invariant 0 <= i <= |xs|
      invariant fresh(made) && Refs(List(vs)) <= made && Closed(made)
      invariant |vs| == i && forall k :: 0 <= k < i ==> Denotes(vs[k], xs[k], StoreOf(made))
    {
      ghost var h0 := StoreOf(made);
      var x, m := Load(xs[i]);
      ghost var hm := StoreOf(m);
      ListRefsSnoc(vs, x);
      vs, made := vs + [x], made + m;
      forall k | 0 <= k < i ensures Denotes(vs[k], xs[k], StoreOf(made)) {
        DenotesExtend(vs[k], xs[k], h0, StoreOf(made));
      }
      DenotesExtend(x, xs[i], hm, StoreOf(made));
      i := i + 1;
    }
  }

  method LoadFields(f: Fields, ghost parent: Json) returns (es: Entries, ghost made: set<PyDict>)
    requires forall i :: 0 <= i < |f| ==> f[i].1 < parent
    ensures fresh(made) && EntriesRefs(es) <= made && Closed(made)
    ensures EntryKeys(es) == Keys(f) && |es| == |f|
    ensures forall i :: 0 <= i < |f| ==> Denotes(es[i].1, f[i].1, StoreOf(made))
    decreases parent, 0
  {
    es, made := [], {};
    var i := 0;
    while i < |f|
      invariant 0 <= i <= |f|
      invariant fresh(made) && EntriesRefs(es) <= made && Closed(made)
      invariant |es| == i && forall k :: 0 <= k < i ==> es[k].0 == f[k].0 && Denotes(es[k].1, f[k].1, StoreOf(made))
    {
      ghost var h0 := StoreOf(made);
      var x, m := Load(f[i].1);
      ghost var hm := StoreOf(m);
      SnocRefs(es, (f[i].0, x));
      es, made := es + [(f[i].0, x)], made + m;
      forall k | 0 <= k < i ensures Denotes(es[k].1, f[k].1, StoreOf(made)) {
        DenotesExtend(es[k].1, f[k].1, h0, StoreOf(made));
      }
      DenotesExtend(x, f[i].1, hm, StoreOf(made));
      i := i + 1;
    }
  }

  /** The dicts a list refers to, after one more item. */
  lemma ListRefsSnoc(xs: seq<Val>, x: Val)
    ensures Refs(List(xs + [x])) == Refs(List(xs)) + Refs(x)
  {
    var r := xs + [x];
    forall y | y in Refs(List(r)) ensures y in Refs(List(xs)) + Refs(x) {
      var i :| 0 <= i < |r| && y in Refs(r[i]);
      if i < |xs| { assert r[i] == xs[i]; }
    }
    forall y | y in Refs(List(xs)) + Refs(x) ensures y in Refs(List(r)) {
      if y in Refs(List(xs)) {
        var i :| 0 <= i < |xs| && y in Refs(xs[i]);
        assert r[i] == xs[i];
      } else {
        assert r[|xs|] == x;
      }
    }
  }

  // ------------------------------------------------------------ `_DictWithItemsList`

  /** Whether the entry under `items` is a list. */
  predicate ItemsIsList(es: Entries)
  {
    Find(es, "items").Some? && Find(es, "items").value.List?
  }

  /** The wrapper's dict: a copy whose `items` is replaced by the pairs list unless it already is a list. */
  function WithItemsList(es: Entries): (r: Entries)
    ensures ItemsIsList(r)
    ensures ItemsIsList(es) ==> r == es
  {
    if ItemsIsList(es) then es
    else
      FindPut(es, "items", ItemsList(es), "items");
      Put(es, "items", ItemsList(es))
  }

  /**
   * main.py:1729-1759, `_DictWithItemsList`: a read-only view of a copy of
   * a dict, so that a template's `obj.items` is a list.
   */
  /** The methods `_DictWithItemsList` defines (main.py:1733-1759). */
  const ViewMethods: set<string> := {"__init__", "__getitem__", "get", "__getattr__", "__contains__", "__iter__", "keys", "values"}

  class ItemsView {
    const d: PyDict

    /** The copy always has a list under `items`. */
    predicate Valid()
      reads d
    {
      ItemsIsList(d.entries)
    }

    constructor(src: PyDict)
      ensures fresh(d) && d != src
      ensures d.entries == WithItemsList(src.entries)
      ensures Valid()
    {
      var copy := new PyDict(src.entries);
      copy.entries := WithItemsList(copy.entries);
      d := copy;
    }

    /** `view[k]` */
    function GetItem(k: string): (r: Result<Val>)
      reads d
      ensures r.Ok? <==> Has(d.entries, k)
      ensures r.Err? ==> r.error == KeyError
    {
      match Find(d.entries, k)
      case Some(v) => Ok(v)
      case None => Err(KeyError)
    }

    /** `view.get(k, default)` */
    function Get(k: string, default: Val): (r: Val)
      reads d
      ensures Has(d.entries, k) ==> GetItem(k) == Ok(r)
      ensures !Has(d.entries, k) ==> r == default
    {
      match Find(d.entries, k)
      case Some(v) => v
      case None => default
    }

    /**
     * `view.k`. Python finds the slot `_d`, the class's own `__slots__` and
     * its methods before it falls back on `__getattr__`; there `items` is the
     * list and any other name reads like `.get`.
     */
    function Attr(k: string): (r: Val)
      reads d
      requires Valid()
      ensures k == "_d" ==> r == Dict(d)
      ensures k == "__slots__" ==> r == Tup([Leaf(Str("_d"))])
      ensures k in ViewMethods ==> r == Leaf(Opaque("<bound method _DictWithItemsList." + k + ">"))
      ensures k == "items" ==> r.List? && GetItem("items") == Ok(r)
      ensures k !in ViewMethods && k !in {"_d", "__slots__", "items"} ==> r == Get(k, Leaf(Null))
    {
      if k == "_d" then Dict(d)
      else if k == "__slots__" then Tup([Leaf(Str("_d"))])
      else if k in ViewMethods then Leaf(Opaque("<bound method _DictWithItemsList." + k + ">"))
      else if k == "items" then Find(d.entries, "items").value
      else Get(k, Leaf(Null))
    }

    /** `k in view` */
    predicate Contains(k: string)
      reads d
    {
      Has(d.entries, k)
    }

    /** `iter(view)` and `view.keys()`: the copy's keys in order. */
    function Keys(): (r: seq<string>)
      reads d
      ensures |r| == |d.entries|
      ensures forall i :: 0 <= i < |r| ==> Contains(r[i])
    {
      var es := d.entries;
      var r := seq(|es|, i requires 0 <= i < |es| => es[i].0);
      assert forall i :: 0 <= i < |r| ==> Has(es, r[i]) by {
        forall i | 0 <= i < |r| ensures Has(es, r[i]) {
          HasAt(es, i);
        }
      }
      r
    }

    /** `view.values()` */
    function Values(): (r: seq<Val>)
      reads d
      ensures |r| == |d.entries|
      ensures forall i :: 0 <= i < |r| ==> r[i] == d.entries[i].1
    {
      var es := d.entries;
      seq(|es|, i requires 0 <= i < |es| => es[i].1)
    }
  }
}
