/**
 * The template context `fill_template` hands to the renderer
 * (main.py:1779-1812): the flattened record, escaped, merged with the
 * prepared images, given an `images` default, every nested dict given an
 * `items` list, every top-level dict wrapped in a `_DictWithItemsList`,
 * and `sponsors` made a list.
 */
module Assembly {
  import opened Wrappers
  import opened Values
  import opened Heap
  import Escaping
  import Flatten

  // ------------------------------------------------------------ the context as a value

  /**
   * `{**escape_jinja_syntax(flat), **inline_images}` followed by
   * `context.setdefault("images", [])` in effect (main.py:1787-1790).
   */
  function ContextOf(flat: Fields, images: Fields): (r: Fields)
  {
    var m := Merge([], Escaping.EscapeFields(flat, Obj(flat)) + images);
    if HasKey(m, "images") then m else Set(m, "images", Arr([]))
  }

  /** The value the escaped record holds under `k`, if any. */
  function EscapedAt(flat: Fields, k: string): (r: Option<Json>)
  {
    match LastAssigned(flat, k)
    case Some(v) => Some(Escaping.Escape(v))
    case None => None
  }

  /** Escaping each value keeps the last write to every key, escaped. */
  lemma {:induction false} LastAssignedEscaped(flat: Fields, k: string)
    ensures LastAssigned(Escaping.EscapeFields(flat, Obj(flat)), k) == EscapedAt(flat, k)
    decreases |flat|
  {
    var e := Escaping.EscapeFields(flat, Obj(flat));
    if flat != [] {
      var init := flat[..|flat| - 1];
      var ei := Escaping.EscapeFields(init, Obj(init));
      assert e[..|e| - 1] == ei by {
        assert Keys(e[..|e| - 1]) == Keys(ei) by {
          assert Keys(e) == Keys(flat);
        }
      }
      LastAssignedEscaped(init, k);
    }
  }

  /**
   * A dict has one entry per key; every image key holds its image (the
   * images win over the record); every other key holds the record's
   * value, escaped; `images` is always there, an empty list when neither
   * side had it.
   */
  lemma ContextLookup(flat: Fields, images: Fields, k: string)
    requires UniqueKeys(images)
    ensures UniqueKeys(ContextOf(flat, images)) && HasKey(ContextOf(flat, images), "images")
    ensures HasKey(images, k) ==> Lookup(ContextOf(flat, images), k) == Lookup(images, k)
    ensures !HasKey(images, k) && EscapedAt(flat, k).Some? ==> Lookup(ContextOf(flat, images), k) == EscapedAt(flat, k)
    ensures !HasKey(images, k) && EscapedAt(flat, k).None? ==>
      Lookup(ContextOf(flat, images), k) == if k == "images" then Some(Arr([])) else None
  {
    var e := Escaping.EscapeFields(flat, Obj(flat));
    var m := Merge([], e + images);
    MergeUnique([], e + images);
    LookupMergeLast([], e + images, k);
    LookupMergeLast([], e + images, "images");
    LastAssignedAppend(e, images, k);
    LastAssignedAppend(e, images, "images");
    LastAssignedEscaped(flat, k);
    LastAssignedEscaped(flat, "images");
    LastAssignedUnique(images, k);
    HasKeyAppend(e, images, k);
    HasKeyAppend(e, images, "images");
    if !HasKey(m, "images") {
      SetUnique(m, "images", Arr([]));
      LookupSet(m, "images", Arr([]), k);
      LookupSet(m, "images", Arr([]), "images");
    }
  }

  /** A key is among a concatenation's keys when it is among either part's. */
  lemma HasKeyAppend(a: Fields, b: Fields, k: string)
    ensures HasKey(a + b, k) <==> HasKey(a, k) || HasKey(b, k)
  {
    if HasKey(a + b, k) {
      var i :| 0 <= i < |a + b| && (a + b)[i].0 == k;
      if i >= |a| {
        assert b[i - |a|].0 == k;
      }
    }
    if HasKey(b, k) {
      var i :| 0 <= i < |b| && b[i].0 == k;
      assert (a + b)[|a| + i].0 == k;
    }
    if HasKey(a, k) {
      var i :| 0 <= i < |a| && a[i].0 == k;
      assert (a + b)[i].0 == k;
    }
  }

  // ------------------------------------------------------------ wrapping

  /** The keys a wrapper shows for a dict that had `ks` before the `items` pass. */
  function WithItemsKey(ks: seq<string>): (r: seq<string>)
  {
    if "items" in ks then ks else ks + ["items"]
  }

  /**
   * A nested dict that went through the `items` pass and then into a
   * wrapper shows its own keys, then `items` when it had none.
   */
  lemma WrappedKeys(es: Entries)
    ensures EntryKeys(WithItemsList(AddItems(es))) == WithItemsKey(EntryKeys(es))
  {
    var a := AddItems(es);
    AddItemsShape(es);
    HasIn(es, "items");
    if !Has(es, "items") {
      assert EntryKeys(a) == EntryKeys(es) + ["items"];
    }
    if !ItemsIsList(a) {
      var i := FindIndexOf(a, "items");
      PutKeys(a, "items", ItemsList(a));
    }
  }

  /** Storing under a present key keeps the keys. */
  lemma {:induction false} PutKeys(es: Entries, k: string, v: Val)
    requires Has(es, k)
    ensures EntryKeys(Put(es, k, v)) == EntryKeys(es)
    decreases |es|
  {
    var r := Put(es, k, v);
    if es[0].0 != k {
      PutKeys(es[1..], k, v);
      assert r == [es[0]] + Put(es[1..], k, v);
    }
    assert |r| == |es|;
    forall j | 0 <= j < |es| ensures r[j].0 == es[j].0 {
      if j > 0 && es[0].0 != k {
        assert r[j] == Put(es[1..], k, v)[j - 1];
        assert EntryKeys(Put(es[1..], k, v))[j - 1] == EntryKeys(es[1..])[j - 1];
      }
    }
  }

  /**
   * main.py:1789-1791, the loop over `list(context.items())`: every value
   * that is a dict is replaced, where it stands, by a wrapper around a copy
   * of it; nothing else changes.
   */
  method WrapTopLevel(ctx: PyDict)
    requires Distinct(EntryKeys(ctx.entries)) && ctx !in EntriesRefs(ctx.entries)
    modifies ctx
    ensures EntryKeys(ctx.entries) == old(EntryKeys(ctx.entries))
    ensures forall i :: 0 <= i < |ctx.entries| ==> !ctx.entries[i].1.Dict?
    ensures forall i :: 0 <= i < |ctx.entries| && !old(ctx.entries[i].1).Dict? ==> ctx.entries[i].1 == old(ctx.entries[i].1)
    ensures forall i :: 0 <= i < |ctx.entries| && old(ctx.entries[i].1).Dict? ==>
      ctx.entries[i].1.View? && fresh(ctx.entries[i].1.w.d)
      && ctx.entries[i].1.w.d.entries == WithItemsList(old(ctx.entries[i].1.d.entries))
  {
    var items := ctx.entries;
    NotHeld(items, ctx);
    var i := 0;
    while i < |items|
      invariant 0 <= i <= |items|
      invariant EntryKeys(ctx.entries) == EntryKeys(items)
      invariant forall j :: i <= j < |items| ==> ctx.entries[j] == items[j]
      invariant forall j :: 0 <= j < i ==> !ctx.entries[j].1.Dict?
      invariant forall j :: 0 <= j < i && !items[j].1.Dict? ==> ctx.entries[j].1 == items[j].1
      invariant forall j :: 0 <= j < i && items[j].1.Dict? ==>
        ctx.entries[j].1.View? && fresh(ctx.entries[j].1.w.d)
        && ctx.entries[j].1.w.d.entries == WithItemsList(items[j].1.d.entries)
    {
      var (k, v) := items[i];
      if v.Dict? {
        var w := new ItemsView(v.d);
        PutAt(ctx.entries, i, View(w));
        ctx.entries := Put(ctx.entries, k, View(w));
      }
      i := i + 1;
    }
  }

  /** A dict that does not hold itself is none of its own values. */
  lemma NotHeld(es: Entries, x: PyDict)
    requires x !in EntriesRefs(es)
    ensures forall j :: 0 <= j < |es| && es[j].1.Dict? ==> es[j].1.d != x
  {
    forall j | 0 <= j < |es| && es[j].1.Dict? ensures es[j].1.d != x {
      assert es[j].1.d in Refs(es[j].1);
    }
  }

  // ------------------------------------------------------------ `sponsors`

  /** Each key as a template string. */
  function KeyLeaves(ks: seq<string>): (r: seq<Val>)
    ensures |r| == |ks| && forall i :: 0 <= i < |ks| ==> r[i] == Leaf(Str(ks[i]))
  {
    seq(|ks|, i requires 0 <= i < |ks| => Leaf(Str(ks[i])))
  }

  /**
   * main.py:1794: what a `sponsors` that is not a list becomes. A dict
   * gives its values; anything else with `__iter__` but text gives what
   * iterating it yields, which for a wrapper is its copy's keys (the
   * wrapper defines `__iter__` and no `values` shortcut applies to it); a
   * tuple gives its parts; text and objects without `__iter__` give `[]`.
   */
  function Coerce(v: Val): (r: Val)
    reads DictsOf(v)
    ensures r.List?
  {
    match v
    case Dict(d) => List(DictValues(d.entries))
    case View(w) => List(KeyLeaves(EntryKeys(w.d.entries)))
    case Tup(xs) => List(xs)
    case List(xs) => List(xs)
    case Leaf(_) => List([])
  }

  /**
   * A dict-valued `sponsors`, once wrapped, is not a dict any more: the
   * coercion lists the keys the wrapper shows, that is the sponsor dict's
   * own keys and then `items`, and not its values.
   */
  lemma WrappedSponsorsAreKeys(w: ItemsView, es: Entries)
    requires w.d.entries == WithItemsList(AddItems(es))
    ensures Coerce(View(w)) == List(KeyLeaves(WithItemsKey(EntryKeys(es))))
  {
    WrappedKeys(es);
  }

  /** main.py:1792-1794 on the context. */
  method CoerceSponsors(ctx: PyDict)
    modifies ctx
    ensures var s := old(FindOr(ctx.entries, "sponsors", Leaf(Null)));
      ctx.entries == if old(Has(ctx.entries, "sponsors")) && !s.List? then old(Put(ctx.entries, "sponsors", Coerce(s)))
        else old(ctx.entries)
  {
    if Has(ctx.entries, "sponsors") {
      var s := FindOr(ctx.entries, "sponsors", Leaf(Null));
      if !s.List? {
        ctx.entries := Put(ctx.entries, "sponsors", Coerce(s));
      }
    }
  }

  // ------------------------------------------------------------ `loan_issues`

  /** main.py:1798, the issue lists a `loan_issues` dict is checked for. */
  const IssueKeys: seq<string> := ["income_producing", "development"]

  /** `if k in li and li[k] is not None and not isinstance(li[k], list): li[k] = []` */
  function ClearIssue(es: Entries, k: string): (r: Entries)
  {
    match Find(es, k)
    case Some(v) => if v != Leaf(Null) && !v.List? then Put(es, k, List([])) else es
    case None => es
  }

  /** `ClearIssue` for each key, in order. */
  function ClearIssues(es: Entries, ks: seq<string>): (r: Entries)
    decreases |ks|
  {
    if ks == [] then es else ClearIssue(ClearIssues(es, ks[..|ks| - 1]), ks[|ks| - 1])
  }

  /**
   * After the fix, each listed key that is present holds `None` or a list,
   * and every other key keeps its value.
   */
  lemma {:induction false} ClearIssuesShape(es: Entries, ks: seq<string>)
    ensures forall k :: k in ks && Has(ClearIssues(es, ks), k) ==>
      Find(ClearIssues(es, ks), k).value == Leaf(Null) || Find(ClearIssues(es, ks), k).value.List?
    ensures forall k :: k !in ks ==> Find(ClearIssues(es, ks), k) == Find(es, k)
    ensures forall k :: Has(ClearIssues(es, ks), k) <==> Has(es, k)
    decreases |ks|
  {
    if ks != [] {
      var init, last := ks[..|ks| - 1], ks[|ks| - 1];
      var before := ClearIssues(es, init);
      ClearIssuesShape(es, init);
      assert ks == init + [last];
      forall k ensures Find(ClearIssue(before, last), k) == if k == last && Has(before, k)
        && Find(before, k).value != Leaf(Null) && !Find(before, k).value.List? then Some(List([])) else Find(before, k)
      {
        FindPut(before, last, List([]), k);
      }
    }
  }

  /**
   * main.py:1795-1800: a `loan_issues` that is a dict has each issue list
   * that is neither `None` nor a list replaced by `[]`, in place.
   */
  method FixLoanIssues(ctx: PyDict)
    modifies DictOf(FindOr(ctx.entries, "loan_issues", Leaf(Null)))
    ensures var li := old(FindOr(ctx.entries, "loan_issues", Leaf(Null)));
      li.Dict? ==> li.d.entries == ClearIssues(old(li.d.entries), IssueKeys)
  {
    var li := FindOr(ctx.entries, "loan_issues", Leaf(Null));
    if li.Dict? {
      var i := 0;
      while i < |IssueKeys|
        invariant 0 <= i <= |IssueKeys|
        invariant li.d.entries == ClearIssues(old(li.d.entries), IssueKeys[..i])
      {
        assert IssueKeys[..i + 1][..i] == IssueKeys[..i];
        li.d.entries := ClearIssue(li.d.entries, IssueKeys[i]);
        i := i + 1;
      }
      assert IssueKeys[..i] == IssueKeys;
    }
  }

  /**
   * Once every top-level dict is wrapped, `loan_issues` is never a dict,
   * so the fix above changes nothing.
   */
  lemma LoanIssuesNeverDict(es: Entries)
    requires forall i :: 0 <= i < |es| ==> !es[i].1.Dict?
    ensures DictOf(FindOr(es, "loan_issues", Leaf(Null))) == {}
  {
    if Has(es, "loan_issues") {
      var i := FindIndexOf(es, "loan_issues");
    }
  }

  // ------------------------------------------------------------ what the renderer is given

  /**
   * How a value of the assembled context reaches the renderer, reading the
   * dicts below it in `h`: a dict as a wrapper around a copy of its entries
   * after the `items` pass, with `items` made a list; anything else as the
   * pass left it.
   */
  ghost predicate ShownAs(j: Json, v: Val, h: Store)
    reads Refs(v)
  {
    match j
    case Obj(f) => v.View? && v.w.Valid() && exists d :: d in h && PassedEntries(h[d], f, h) && v.w.d.entries == WithItemsList(h[d])
    case _ => Passed(v, j, h)
  }

  /** How `sponsors` reaches the renderer: always a list, a dict's keys when it was a dict. */
  ghost predicate SponsorsShown(j: Json, v: Val, h: Store)
  {
    match j
    case Obj(f) => v == List(KeyLeaves(WithItemsKey(Keys(f))))
    case Arr(xs) => Passed(v, j, h)
    case Tuple(xs) => v.List? && |v.items| == |xs|
    case _ => v == List([])
  }

  /**
   * The context the renderer is given for the assembled dict `given`: the
   * same keys in the same order, no plain dict left at the top, and each
   * value shown as above.
   */
  ghost predicate Presented(given: Fields, context: Entries, h: Store)
    reads EntriesRefs(context)
  {
    && EntryKeys(context) == Keys(given)
    && (forall i :: 0 <= i < |context| ==> !context[i].1.Dict?)
    && (forall i :: 0 <= i < |context| && context[i].0 != "sponsors" ==>
         Refs(context[i].1) <= EntriesRefs(context) && ShownAs(given[i].1, context[i].1, h))
    && (forall i :: 0 <= i < |context| && context[i].0 == "sponsors" ==> SponsorsShown(given[i].1, context[i].1, h))
  }

  /** A wrapped dict shows its own keys, then `items` when it had none. */
  lemma ShownKeys(f: Fields, v: Val, h: Store)
    requires ShownAs(Obj(f), v, h)
    ensures EntryKeys(v.w.d.entries) == WithItemsKey(Keys(f))
  {
    var d :| d in h && PassedEntries(h[d], f, h) && v.w.d.entries == WithItemsList(h[d]);
    var e0 := h[d][..|f|];
    assert EntryKeys(e0) == Keys(f) by {
      assert forall i :: 0 <= i < |f| ==> EntryKeys(e0)[i] == Keys(f)[i];
    }
    WrappedKeys(e0);
  }

  /** A dict's keys are distinct. */
  lemma UniqueDistinct(f: Fields)
    requires UniqueKeys(f)
    ensures Distinct(Keys(f))
  {
  }

  /**
   * main.py:1788-1791: the context as a new dict of fresh objects, after
   * the `items` pass. `h` holds the entries of every dict below the top,
   * and each top-level value is the given one as the pass leaves it.
   */
  method LoadContext(given: Fields) returns (ctx: PyDict, ghost h: Store)
    requires UniqueKeys(given)
    ensures fresh(ctx) && ctx !in EntriesRefs(ctx.entries) && ctx !in h
    ensures EntryKeys(ctx.entries) == Keys(given) && Distinct(Keys(given))
    ensures forall x :: x in h ==> x.entries == h[x]
    ensures forall i :: 0 <= i < |given| ==> Passed(ctx.entries[i].1, given[i].1, h)
  {
    var es, made := LoadFields(given, Obj(given));
    ctx := new PyDict(es);
    UniqueDistinct(given);
    NotHeld(es, ctx);
    h := AddItemsToContext(ctx, made, given);
  }

  /** main.py:1791, the `items` pass over a freshly loaded context. */
  method AddItemsToContext(ctx: PyDict, ghost made: set<PyDict>, ghost given: Fields) returns (ghost h: Store)
    requires ctx !in made && EntriesRefs(ctx.entries) <= made && Closed(made)
    requires |ctx.entries| == |given|
    requires forall i :: 0 <= i < |given| ==> Denotes(ctx.entries[i].1, given[i].1, StoreOf(made))
    modifies made + {ctx}
    ensures ctx.entries == old(ctx.entries)
    ensures ctx !in h && forall x :: x in h ==> x.entries == h[x]
    ensures forall i :: 0 <= i < |given| ==> Passed(ctx.entries[i].1, given[i].1, h)
  {
    var es := ctx.entries;
    ghost var h0 := StoreOf(made);
    ghost var u := made + {ctx};
    var visited := EnsureItemsOnDicts(Dict(ctx), u);
    h := StoreOf(made);
    assert ctx in Children(Dict(ctx));
    assert ctx.entries == es;
    forall i | 0 <= i < |given| ensures Passed(es[i].1, given[i].1, h) {
      assert Children(es[i].1) <= EntriesChildren(es);
      PassedAfter(es[i].1, given[i].1, h0, h, visited);
    }
  }

  /**
   * main.py:1792-1797: the top-level dicts of a loaded context wrapped and
   * `sponsors` coerced to a list.
   */
  method WrapContext(ctx: PyDict, ghost given: Fields, ghost h: Store)
    requires ctx !in EntriesRefs(ctx.entries) && ctx !in h
    requires EntryKeys(ctx.entries) == Keys(given) && Distinct(Keys(given))
    requires forall x :: x in h ==> x.entries == h[x]
    requires forall i :: 0 <= i < |given| ==> Passed(ctx.entries[i].1, given[i].1, h)
    modifies ctx
    ensures forall x :: x in h ==> x.entries == h[x]
    ensures Presented(given, ctx.entries, h)
  {
    ghost var loaded := ctx.entries;
    WrapTopLevel(ctx);
    ghost var wrapped := ctx.entries;
    label Wrapped:
    ghost var sponsors := FindOr(wrapped, "sponsors", Leaf(Null));
    assert sponsors.View? ==> sponsors.w.d != ctx by {
      if Has(wrapped, "sponsors") {
        var p := FindIndexOf(wrapped, "sponsors");
      }
    }
    ghost var coerced := Coerce(sponsors);
    CoerceSponsors(ctx);
    assert Coerce(sponsors) == coerced;
    forall i | 0 <= i < |wrapped| ensures !wrapped[i].1.Dict? && ShownAs(given[i].1, wrapped[i].1, h) {
      if given[i].1.Obj? {
        var d := loaded[i].1.d;
        assert wrapped[i].1.w.d.entries == old@Wrapped(wrapped[i].1.w.d.entries);
        assert d in h && PassedEntries(h[d], given[i].1.fields, h) && wrapped[i].1.w.d.entries == WithItemsList(h[d]);
      }
    }
    CoercedShown(given, wrapped, ctx.entries, h);
  }

  /**
   * main.py:1787-1800 from the assembled dict on: the context is built as
   * a new dict of fresh objects, the `items` pass runs over it, its dicts
   * are wrapped, `sponsors` is coerced and the `loan_issues` fix is tried.
   * `h` is what the dicts below the top hold at the end.
   */
  method PrepareContext(given: Fields) returns (ctx: PyDict, ghost h: Store)
    requires UniqueKeys(given)
    ensures fresh(ctx) && ctx !in h
    ensures forall x :: x in h ==> x.entries == h[x]
    ensures Presented(given, ctx.entries, h)
  {
    ctx, h := LoadContext(given);
    WrapContext(ctx, given, h);
    LoanIssuesNeverDict(ctx.entries);
    FixLoanIssues(ctx);
  }

  /** A value held in a dict refers only to objects the dict refers to. */
  lemma RefsHeld(es: Entries, i: int)
    requires 0 <= i < |es|
    ensures Refs(es[i].1) <= EntriesRefs(es)
  {
    forall x | x in Refs(es[i].1) ensures x in EntriesRefs(es) {
    }
  }

  /** Whatever a shown value was, what the `sponsors` coercion leaves under that key is shown as `SponsorsShown` says. */
  lemma SponsorCoerced(j: Json, v: Val, h: Store)
    requires ShownAs(j, v, h)
    ensures SponsorsShown(j, if v.List? then v else Coerce(v), h)
  {
    if j.Obj? {
      ShownKeys(j.fields, v, h);
    }
  }

  /** Replacing the value at the `sponsors` position by a `SponsorsShown` one presents the dict. */
  lemma SponsorReplaced(given: Fields, wrapped: Entries, p: int, t: Val, h: Store)
    requires EntryKeys(wrapped) == Keys(given) && Distinct(Keys(given))
    requires forall i :: 0 <= i < |wrapped| ==> !wrapped[i].1.Dict? && ShownAs(given[i].1, wrapped[i].1, h)
    requires 0 <= p < |wrapped| && wrapped[p].0 == "sponsors" && t.List? && SponsorsShown(given[p].1, t, h)
    ensures Presented(given, wrapped[p := ("sponsors", t)], h)
  {
    var now := wrapped[p := ("sponsors", t)];
    assert EntryKeys(now) == EntryKeys(wrapped) by {
      assert forall i :: 0 <= i < |now| ==> EntryKeys(now)[i] == EntryKeys(wrapped)[i];
    }
    forall i | 0 <= i < |now| && i != p ensures Refs(now[i].1) <= EntriesRefs(now) {
      RefsHeld(now, i);
    }
    forall i | 0 <= i < |now| && i != p ensures now[i].0 != "sponsors" {
      assert EntryKeys(wrapped)[i] != EntryKeys(wrapped)[p];
    }
  }

  /** Without a `sponsors` key the wrapped dict is presented as it stands. */
  lemma NoSponsorsPresented(given: Fields, wrapped: Entries, h: Store)
    requires EntryKeys(wrapped) == Keys(given) && !Has(wrapped, "sponsors")
    requires forall i :: 0 <= i < |wrapped| ==> !wrapped[i].1.Dict? && ShownAs(given[i].1, wrapped[i].1, h)
    ensures Presented(given, wrapped, h)
  {
    HasIn(wrapped, "sponsors");
    forall i | 0 <= i < |wrapped| ensures wrapped[i].0 != "sponsors" && Refs(wrapped[i].1) <= EntriesRefs(wrapped) {
      assert EntryKeys(wrapped)[i] == wrapped[i].0;
      RefsHeld(wrapped, i);
    }
  }

  /** The `sponsors` value found at position `p` replaced by its coercion, or kept when it already is a list. */
  lemma SponsorCoercedAt(given: Fields, wrapped: Entries, p: int, now: Entries, h: Store)
    requires EntryKeys(wrapped) == Keys(given) && Distinct(Keys(given))
    requires forall i :: 0 <= i < |wrapped| ==> !wrapped[i].1.Dict? && ShownAs(given[i].1, wrapped[i].1, h)
    requires 0 <= p < |wrapped| && wrapped[p].0 == "sponsors"
    requires now == if !wrapped[p].1.List? then Put(wrapped, "sponsors", Coerce(wrapped[p].1)) else wrapped
    ensures Presented(given, now, h)
  {
    var s := wrapped[p].1;
    var t := if s.List? then s else Coerce(s);
    if !s.List? {
      PutAt(wrapped, p, t);
    } else {
      assert wrapped[p := ("sponsors", t)] == wrapped;
    }
    SponsorCoerced(given[p].1, s, h);
    SponsorReplaced(given, wrapped, p, t, h);
  }

  /** The `sponsors` coercion leaves every other value as it was and makes `sponsors` as `SponsorsShown` says. */
  lemma CoercedShown(given: Fields, wrapped: Entries, now: Entries, h: Store)
    requires EntryKeys(wrapped) == Keys(given) && Distinct(Keys(given))
    requires forall i :: 0 <= i < |wrapped| ==> !wrapped[i].1.Dict? && ShownAs(given[i].1, wrapped[i].1, h)
    requires var s := FindOr(wrapped, "sponsors", Leaf(Null));
      now == if Has(wrapped, "sponsors") && !s.List? then Put(wrapped, "sponsors", Coerce(s)) else wrapped
    ensures Presented(given, now, h)
  {
    if Has(wrapped, "sponsors") {
      var p := FindIndexOf(wrapped, "sponsors");
      SponsorCoercedAt(given, wrapped, p, now, h);
    } else {
      NoSponsorsPresented(given, wrapped, h);
    }
  }

  // ------------------------------------------------------------ `fill_template`

  /** What the abstract renderer reports for a context: the document, or the message of the exception it raised. */
  datatype RenderOutcome = Rendered(document: seq<bv8>) | RenderFailed(message: string)

  /** What `fill_template` ends with: the document bytes, an exception, or the HTTP 400 a render failure becomes. */
  datatype FillOutcome = Document(bytes: seq<bv8>) | Failed(error: PyError) | Rejected(status: nat, detail: string)

  /** main.py:1803-1812: a render failure is re-raised as HTTP 400 with the exception's text. */
  function Respond(o: RenderOutcome): (r: FillOutcome)
    ensures r.Failed? == false
    ensures r.Rejected? <==> o.RenderFailed?
    ensures r.Rejected? ==> r.status == 400 && r.detail == "Template rendering failed: " + o.message
    ensures r.Document? ==> r.bytes == o.document
  {
    match o
    case Rendered(doc) => Document(doc)
    case RenderFailed(msg) => Rejected(400, "Template rendering failed: " + msg)
  }

  /** A dict held under `k` is read back as an object under `k`. */
  lemma {:induction false} SnapshotKeepsDict(es: Entries, path: set<PyDict>, u: set<PyDict>, parent: Val, k: string)
    requires forall i :: 0 <= i < |es| ==> es[i].1 < parent && Refs(es[i].1) <= u
    requires path <= u && Closed(u)
    requires SnapshotFields(es, path, u, parent).Ok?
    requires Has(es, k) && Find(es, k).value.Dict?
    ensures var f := SnapshotFields(es, path, u, parent).value;
      Lookup(f, k).Some? && Lookup(f, k).value.Obj?
    decreases |es|
  {
    if es[0].0 != k {
      SnapshotKeepsDict(es[1..], path, u, parent, k);
    }
  }

  /**
   * main.py:1785-1787 up to the escape: the request's record is flattened
   * and read back as a value, which is what the escape's rebuilding walk
   * sees. A cycle would make that walk fail with RecursionError.
   */
  method FlattenRecord(data: Fields) returns (r: Result<Fields>)
    ensures r.Err? ==> r.error in {AttributeError, TypeError, RecursionError}
    ensures r.Ok? ==> Lookup(r.value, "sections").Some? && Lookup(r.value, "sections").value.Obj?
    ensures r.Ok? ==> HasKey(r.value, "default_interest_scenario") && HasKey(r.value, "note_interest_scenario")
  {
    var es, made := LoadFields(data, Obj(data));
    var root := new PyDict(es);
    ghost var u := made + {root};
    var res, made2 := Flatten.FlattenSchema(root, u);
    if res.Err? {
      return Err(res.error);
    }
    r := ReadBack(res.value, u + made2);
  }

  /** The flattened dict read back as a value; `sections` and the two scenarios survive the reading. */
  method ReadBack(fes: Entries, ghost w: set<PyDict>) returns (r: Result<Fields>)
    requires EntriesRefs(fes) <= w && Closed(w)
    requires FindOr(fes, "sections", Leaf(Null)).Dict?
    requires Has(fes, "default_interest_scenario") && Has(fes, "note_interest_scenario")
    ensures r.Err? ==> r.error == RecursionError
    ensures r.Ok? ==> Keys(r.value) == EntryKeys(fes)
    ensures r.Ok? ==> Lookup(r.value, "sections").Some? && Lookup(r.value, "sections").value.Obj?
    ensures r.Ok? ==> HasKey(r.value, "default_interest_scenario") && HasKey(r.value, "note_interest_scenario")
  {
    r := SnapshotFields(fes, {}, w, List(DictValues(fes)));
    if r.Ok? {
      SnapshotKeepsDict(fes, {}, w, List(DictValues(fes)), "sections");
      HasIn(fes, "default_interest_scenario");
      HasIn(fes, "note_interest_scenario");
      HasKeyIn(r.value, "default_interest_scenario");
      HasKeyIn(r.value, "note_interest_scenario");
    }
  }

  /**
   * main.py:1779-1812, `fill_template` on a loaded template: the record is
   * flattened, read back and escaped, merged with the prepared images and
   * prepared as above, then handed to the renderer. Template download, the
   * image preparation and saving the document are not part of this model:
   * `images` is the prepared images, `render` the renderer.
   */
  method FillTemplate(data: Fields, images: Fields, render: Entries -> RenderOutcome)
    returns (r: FillOutcome, ghost flat: Fields, ghost context: Entries, ghost store: Store)
    requires UniqueKeys(images)
    ensures r.Failed? ==> r.error in {AttributeError, TypeError, RecursionError}
    ensures !r.Failed? ==> Lookup(flat, "sections").Some? && Lookup(flat, "sections").value.Obj?
    ensures !r.Failed? ==> HasKey(flat, "default_interest_scenario") && HasKey(flat, "note_interest_scenario")
    ensures !r.Failed? ==> Presented(ContextOf(flat, images), context, store) && r == Respond(render(context))
    ensures !r.Failed? ==> forall x :: x in store ==> x.entries == store[x]
  {
    flat, context, store := [], [], map[];
    var flattened := FlattenRecord(data);
    if flattened.Err? {
      return Failed(flattened.error), flat, context, store;
    }
    var record := flattened.value;
    flat := record;
    var given := ContextOf(record, images);
    ContextLookup(record, images, "images");
    var ctx;
    ctx, store := PrepareContext(given);
    context := ctx.entries;
    r := Respond(render(ctx.entries));
  }
}
