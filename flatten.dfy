/**
 * `flatten_schema_for_template` (main.py:1639-1726): the schema's
 * sections are spread into a copy of the root so that a template can name
 * `deal_facts` or `leverage` directly. The root is a fresh dict, kept here
 * as its entry list; the section dicts are shared objects, so the narrative
 * fixes at the end change them in place, wherever else they are held.
 */
module Flatten {
  import opened Wrappers
  import opened Values
  import opened Heap
  import Numbers

  /** main.py:1634-1636, `TEMPLATE_ALIASES`: template name and the schema key it stands for. */
  const Aliases: seq<(string, string)> := [("leverage", "leverage_metrics")]

  /** main.py:1658, sections copied to the root under their own names. */
  const NamedSections: seq<string> :=
    ["zoning_entitlements", "risks_and_mitigants", "third_party_reports", "validation_flags",
     "foreclosure_analysis", "location", "market"]

  /** main.py:1684, raw Layer 3 objects spread into the root. */
  const RawKeys: seq<string> := ["deal_facts_raw", "leverage_raw", "loan_terms_raw"]

  // ------------------------------------------------------------ entry lists

  /** Every key of `a` holds the same value in `b`. */
  ghost predicate Keeps(a: Entries, b: Entries)
  {
    forall k :: Has(a, k) ==> Find(b, k) == Find(a, k)
  }

  lemma KeepsTrans(a: Entries, b: Entries, c: Entries)
    requires Keeps(a, b) && Keeps(b, c)
    ensures Keeps(a, c)
  {
    forall k | Has(a, k) ensures Find(c, k) == Find(a, k) {
      assert Has(b, k);
    }
  }

  /** Every key outside `keys` holds the same value, or is absent, in both. */
  ghost predicate Only(a: Entries, b: Entries, keys: set<string>)
  {
    forall k :: k !in keys ==> Find(b, k) == Find(a, k)
  }

  lemma OnlyTrans(a: Entries, b: Entries, c: Entries, k1: set<string>, k2: set<string>)
    requires Only(a, b, k1) && Only(b, c, k2)
    ensures Only(a, c, k1 + k2)
  {
  }

  /** Storing under a new key keeps every other key. */
  lemma PutKeeps(es: Entries, k: string, v: Val)
    requires !Has(es, k)
    ensures Keeps(es, Put(es, k, v))
  {
    forall k2 | Has(es, k2) ensures Find(Put(es, k, v), k2) == Find(es, k2) {
      FindPut(es, k, v, k2);
    }
  }

  /** A key `a` has, `b` has too. */
  lemma KeepsHas(a: Entries, b: Entries, k: string)
    requires Keeps(a, b) && Has(a, k)
    ensures Has(b, k)
  {
  }

  /** A lookup in two entry lists one after the other finds the first. */
  lemma {:induction false} FindAppend(a: Entries, b: Entries, k: string)
    ensures Find(a + b, k) == if Has(a, k) then Find(a, k) else Find(b, k)
    decreases |a|
  {
    if a != [] {
      assert (a + b)[0] == a[0] && (a + b)[1..] == a[1..] + b;
      FindAppend(a[1..], b, k);
    } else {
      assert a + b == b;
    }
  }

  // ------------------------------------------------------------ spreading

  /** `for k, v in fields.items(): if k not in flat: flat[k] = v` */
  function Spread(flat: Entries, fields: Entries): Entries
    decreases |fields|
  {
    if fields == [] then flat
    else
      var (k, v) := fields[0];
      Spread(if Has(flat, k) then flat else Put(flat, k, v), fields[1..])
  }

  /** A key the root has keeps its value; any other gets the first value the fields give it. */
  lemma {:induction false} FindSpread(flat: Entries, fields: Entries, k: string)
    ensures Find(Spread(flat, fields), k) == if Has(flat, k) then Find(flat, k) else Find(fields, k)
    decreases |fields|
  {
    if fields != [] {
      var (k0, v0) := fields[0];
      var next := if Has(flat, k0) then flat else Put(flat, k0, v0);
      FindPut(flat, k0, v0, k);
      FindSpread(next, fields[1..], k);
    }
  }

  lemma SpreadKeeps(flat: Entries, fields: Entries)
    ensures Keeps(flat, Spread(flat, fields))
  {
    forall k | Has(flat, k) ensures Find(Spread(flat, fields), k) == Find(flat, k) {
      FindSpread(flat, fields, k);
    }
  }

  lemma {:induction false} SpreadAppend(flat: Entries, a: Entries, b: Entries)
    ensures Spread(flat, a + b) == Spread(Spread(flat, a), b)
    decreases |a|
  {
    if a != [] {
      assert (a + b)[0] == a[0] && (a + b)[1..] == a[1..] + b;
      var (k, v) := a[0];
      SpreadAppend(if Has(flat, k) then flat else Put(flat, k, v), a[1..], b);
    } else {
      assert a + b == b;
    }
  }

  /** The dict objects among the sections' values. */
  function SectionDicts(secs: Entries): set<PyDict>
  {
    set i | 0 <= i < |secs| && secs[i].1.Dict? :: secs[i].1.d
  }

  /** The sections' sub-fields in the order the spread meets them; a section that is not a dict adds none. */
  function SectionFields(secs: Entries): Entries
    reads SectionDicts(secs)
    decreases |secs|
  {
    if secs == [] then []
    else
      var init := secs[..|secs| - 1];
      var last := secs[|secs| - 1].1;
      assert SectionDicts(init) <= SectionDicts(secs) by {
        forall x | x in SectionDicts(init) ensures x in SectionDicts(secs) {
          var i :| 0 <= i < |init| && init[i].1.Dict? && init[i].1.d == x;
          assert secs[i] == init[i];
        }
      }
      SectionFields(init) + (if last.Dict? then last.d.entries else [])
  }

  /** Whether section `i` is a dict holding `k`. */
  predicate SectionHas(secs: Entries, i: int, k: string)
    requires 0 <= i < |secs|
    reads SectionDicts(secs)
  {
    secs[i].1.Dict? && (assert secs[i].1.d in SectionDicts(secs); Has(secs[i].1.d.entries, k))
  }

  /** No section holds `k`: the sub-fields do not either. */
  lemma {:induction false} SectionFieldsMiss(secs: Entries, k: string)
    requires forall j :: 0 <= j < |secs| ==> !SectionHas(secs, j, k)
    ensures !Has(SectionFields(secs), k)
    decreases |secs|
  {
    if secs != [] {
      var init := secs[..|secs| - 1];
      forall j | 0 <= j < |init| ensures !SectionHas(init, j, k) {
        assert init[j] == secs[j];
        assert !SectionHas(secs, j, k);
      }
      SectionFieldsMiss(init, k);
      assert !SectionHas(secs, |secs| - 1, k);
      FindAppend(SectionFields(init), if secs[|secs| - 1].1.Dict? then secs[|secs| - 1].1.d.entries else [], k);
    }
  }

  /** The sub-fields give `k` the value the earliest section holding it has. */
  lemma {:induction false} SectionFieldsFind(secs: Entries, k: string, i: int)
    requires 0 <= i < |secs| && SectionHas(secs, i, k)
    requires forall j :: 0 <= j < i ==> !SectionHas(secs, j, k)
    ensures Find(SectionFields(secs), k) == Find(secs[i].1.d.entries, k)
    decreases |secs|
  {
    var init := secs[..|secs| - 1];
    var tail := if secs[|secs| - 1].1.Dict? then secs[|secs| - 1].1.d.entries else [];
    FindAppend(SectionFields(init), tail, k);
    if i < |secs| - 1 {
      assert init[i] == secs[i];
      assert SectionHas(init, i, k);
      forall j | 0 <= j < i ensures !SectionHas(init, j, k) {
        assert init[j] == secs[j];
        assert !SectionHas(secs, j, k);
      }
      SectionFieldsFind(init, k, i);
    } else {
      forall j | 0 <= j < |init| ensures !SectionHas(init, j, k) {
        assert init[j] == secs[j];
        assert !SectionHas(secs, j, k);
      }
      SectionFieldsMiss(init, k);
    }
  }

  /**
   * main.py:1643-1647: a sub-field reaches the root only when the root
   * lacks its key, and then from the earliest section that has it.
   */
  lemma EarliestSectionWins(flat: Entries, secs: Entries, k: string, i: int)
    requires !Has(flat, k)
    requires 0 <= i < |secs| && SectionHas(secs, i, k)
    requires forall j :: 0 <= j < i ==> !SectionHas(secs, j, k)
    ensures Find(Spread(flat, SectionFields(secs)), k) == Find(secs[i].1.d.entries, k)
  {
    FindSpread(flat, SectionFields(secs), k);
    SectionFieldsFind(secs, k, i);
  }

  /** A key no section holds and the root lacks stays absent. */
  lemma SpreadMiss(flat: Entries, secs: Entries, k: string)
    requires !Has(flat, k)
    requires forall j :: 0 <= j < |secs| ==> !SectionHas(secs, j, k)
    ensures !Has(Spread(flat, SectionFields(secs)), k)
  {
    FindSpread(flat, SectionFields(secs), k);
    SectionFieldsMiss(secs, k);
  }

  /** main.py:1643-1647 */
  method SpreadSections(flat: Entries, secs: Entries, ghost u: set<PyDict>) returns (r: Entries)
    requires EntriesRefs(flat) <= u && EntriesRefs(secs) <= u && Closed(u)
    ensures r == Spread(flat, SectionFields(secs))
    ensures EntriesRefs(r) <= u
  {
    r := flat;
    var i := 0;
    while i < |secs|
      invariant 0 <= i <= |secs|
      invariant r == Spread(flat, SectionFields(secs[..i]))
      invariant EntriesRefs(r) <= u
    {
      var section := secs[i].1;
      var fields := if section.Dict? then section.d.entries else [];
      assert secs[..i + 1][..i] == secs[..i];
      assert SectionFields(secs[..i + 1]) == SectionFields(secs[..i]) + fields;
      SpreadAppend(flat, SectionFields(secs[..i]), fields);
      assert EntriesRefs(fields) <= u by {
        if section.Dict? {
          assert section.d in Refs(secs[i].1);
        }
      }
      var j := 0;
      ghost var before := r;
      while j < |fields|
        invariant 0 <= j <= |fields|
        invariant Spread(r, fields[j..]) == Spread(before, fields)
        invariant Spread(before, fields) == Spread(flat, SectionFields(secs[..i + 1]))
        invariant EntriesRefs(r) <= u
      {
        var (k, v) := fields[j];
        if !Has(r, k) {
          assert Refs(v) <= EntriesRefs(fields) by {
            forall x | x in Refs(v) ensures x in EntriesRefs(fields) {
              assert x in Refs(fields[j].1);
            }
          }
          PutRefs(r, k, v);
          r := Put(r, k, v);
        }
        assert fields[j..][1..] == fields[j + 1..];
        j := j + 1;
      }
      assert fields[j..] == [];
      i := i + 1;
    }
    assert secs[..i] == secs;
  }

  // ------------------------------------------------------------ aliases and copies

  /** `if t not in flat and s in flat: flat[t] = flat[s]` */
  function Alias(flat: Entries, t: string, s: string): Entries
  {
    if !Has(flat, t) && Has(flat, s) then Put(flat, t, Find(flat, s).value) else flat
  }

  function AliasAll(flat: Entries, aliases: seq<(string, string)>): Entries
    decreases |aliases|
  {
    if aliases == [] then flat else AliasAll(Alias(flat, aliases[0].0, aliases[0].1), aliases[1..])
  }

  /** main.py:1648-1650 */
  method ApplyAliases(flat: Entries) returns (r: Entries)
    ensures r == AliasAll(flat, Aliases)
    ensures EntriesRefs(r) <= EntriesRefs(flat)
  {
    r := flat;
    var i := 0;
    while i < |Aliases|
      invariant 0 <= i <= |Aliases|
      invariant AliasAll(r, Aliases[i..]) == AliasAll(flat, Aliases)
      invariant EntriesRefs(r) <= EntriesRefs(flat)
    {
      var (t, s) := Aliases[i];
      if !Has(r, t) && Has(r, s) {
        FindRefs(r, s);
        PutRefs(r, t, Find(r, s).value);
        r := Put(r, t, Find(r, s).value);
      }
      assert Aliases[i..][1..] == Aliases[i + 1..];
      i := i + 1;
    }
  }

  /**
   * main.py:1648-1650: `leverage` stands for `leverage_metrics` only when
   * the root has no `leverage` of its own; no other key changes.
   */
  lemma LeverageAlias(flat: Entries)
    ensures Find(AliasAll(flat, Aliases), "leverage") ==
      if Has(flat, "leverage") then Find(flat, "leverage") else Find(flat, "leverage_metrics")
    ensures forall k :: k != "leverage" ==> Find(AliasAll(flat, Aliases), k) == Find(flat, k)
    ensures Keeps(flat, AliasAll(flat, Aliases))
  {
    var r := Alias(flat, "leverage", "leverage_metrics");
    assert AliasAll(flat, Aliases) == AliasAll(r, []) == r;
    forall k ensures Find(r, k) == if k == "leverage" && !Has(flat, "leverage") then Find(flat, "leverage_metrics") else Find(flat, k) {
      FindPut(flat, "leverage", FindOr(flat, "leverage_metrics", Leaf(Null)), k);
    }
  }

  /** `if key not in flat and name in sections: flat[key] = sections[name]` */
  function CopyIfAbsent(flat: Entries, key: string, secs: Entries, name: string): (r: Entries)
    ensures Keeps(flat, r)
    ensures Find(r, key) == if !Has(flat, key) && Has(secs, name) then Find(secs, name) else Find(flat, key)
    ensures forall k :: k != key ==> Find(r, k) == Find(flat, k)
    ensures EntriesRefs(r) <= EntriesRefs(flat) + EntriesRefs(secs)
  {
    if !Has(flat, key) && Has(secs, name) then
      var v := FindOr(secs, name, Leaf(Null));
      PutRefs(flat, key, v);
      PutKeeps(flat, key, v);
      assert forall k :: Find(Put(flat, key, v), k) == if k == key then Some(v) else Find(flat, k) by {
        forall k ensures Find(Put(flat, key, v), k) == if k == key then Some(v) else Find(flat, k) {
          FindPut(flat, key, v, k);
        }
      }
      Put(flat, key, v)
    else flat
  }

  function CopyAll(flat: Entries, secs: Entries, names: seq<string>): Entries
    decreases |names|
  {
    if names == [] then flat else CopyAll(CopyIfAbsent(flat, names[0], secs, names[0]), secs, names[1..])
  }

  /** A named section reaches the root under its own name only when the root lacks it. */
  lemma {:induction false} FindCopyAll(flat: Entries, secs: Entries, names: seq<string>, k: string)
    ensures Find(CopyAll(flat, secs, names), k) ==
      if !Has(flat, k) && k in names && Has(secs, k) then Find(secs, k) else Find(flat, k)
    decreases |names|
  {
    if names != [] {
      var next := CopyIfAbsent(flat, names[0], secs, names[0]);
      FindCopyAll(next, secs, names[1..], k);
    }
  }

  /** main.py:1658-1660 */
  method CopyNamedSections(flat: Entries, secs: Entries) returns (r: Entries)
    ensures forall k :: Find(r, k) == (if !Has(flat, k) && k in NamedSections && Has(secs, k) then Find(secs, k) else Find(flat, k))
    ensures EntriesRefs(r) <= EntriesRefs(flat) + EntriesRefs(secs)
  {
    r := flat;
    var i := 0;
    while i < |NamedSections|
      invariant 0 <= i <= |NamedSections|
      invariant CopyAll(r, secs, NamedSections[i..]) == CopyAll(flat, secs, NamedSections)
    {
      var name := NamedSections[i];
      r := CopyIfAbsent(r, name, secs, name);
      assert NamedSections[i..][1..] == NamedSections[i + 1..];
      i := i + 1;
    }
    forall k ensures Find(r, k) == if !Has(flat, k) && k in NamedSections && Has(secs, k) then Find(secs, k) else Find(flat, k) {
      FindCopyAll(flat, secs, NamedSections, k);
    }
    CopyAllRefs(flat, secs, NamedSections);
  }

  /** After the named copies, a named section the sections hold is at the root. */
  lemma NamedSectionCopied(flat: Entries, r: Entries, secs: Entries, k: string)
    requires forall k :: Find(r, k) == (if !Has(flat, k) && k in NamedSections && Has(secs, k) then Find(secs, k) else Find(flat, k))
    requires k in NamedSections && Has(secs, k)
    ensures Has(r, k)
  {
    assert Find(r, k) == (if !Has(flat, k) then Find(secs, k) else Find(flat, k));
  }

  // ------------------------------------------------------------ copies through `.get`

  /** What the stored values refer to stays inside `u`. */
  lemma {:induction false} SpreadRefs(flat: Entries, fields: Entries)
    ensures EntriesRefs(Spread(flat, fields)) <= EntriesRefs(flat) + EntriesRefs(fields)
    decreases |fields|
  {
    if fields != [] {
      var (k, v) := fields[0];
      var next := if Has(flat, k) then flat else Put(flat, k, v);
      PutRefs(flat, k, v);
      SpreadRefs(next, fields[1..]);
      forall x | x in EntriesRefs(fields[1..]) ensures x in EntriesRefs(fields) {
        var i :| 0 <= i < |fields[1..]| && x in Refs(fields[1..][i].1);
        assert fields[1..][i] == fields[i + 1];
      }
      assert Refs(v) <= EntriesRefs(fields) by {
        forall x | x in Refs(v) ensures x in EntriesRefs(fields) {
          assert x in Refs(fields[0].1);
        }
      }
    }
  }

  /** `d.pop(k)` removes references, it adds none. */
  lemma {:induction false} DropRefs(es: Entries, k: string)
    ensures EntriesRefs(Drop(es, k)) <= EntriesRefs(es)
    decreases |es|
  {
    if es != [] {
      DropRefs(es[1..], k);
      forall x | x in EntriesRefs(es[1..]) ensures x in EntriesRefs(es) {
        var i :| 0 <= i < |es[1..]| && x in Refs(es[1..][i].1);
        assert es[1..][i] == es[i + 1];
      }
      var r := Drop(es, k);
      if es[0].0 != k {
        forall x | x in EntriesRefs(r) ensures x in EntriesRefs(es) {
          var i :| 0 <= i < |r| && x in Refs(r[i].1);
          if i == 0 {
            assert r[0] == es[0];
          } else {
            assert r[i] == Drop(es[1..], k)[i - 1];
          }
        }
      }
    }
  }

  /** Storing a value of `u` keeps every reference inside `u`, and `k` holds `v` while every other key keeps its value. */
  lemma PutFacts(es: Entries, k: string, v: Val)
    ensures EntriesRefs(Put(es, k, v)) <= EntriesRefs(es) + Refs(v)
    ensures forall k2 :: Find(Put(es, k, v), k2) == if k2 == k then Some(v) else Find(es, k2)
  {
    PutRefs(es, k, v);
    forall k2 ensures Find(Put(es, k, v), k2) == if k2 == k then Some(v) else Find(es, k2) {
      FindPut(es, k, v, k2);
    }
  }

  /**
   * main.py:1651-1654: the root gets `sponsor`, the sponsorship section, and
   * `sponsors`, its `_sponsors_detail` or an empty list, each only when the
   * root lacks it; `.get` on a sponsorship that is not a dict fails.
   */
  function CopySponsor(flat: Entries, secs: Entries, ghost u: set<PyDict>): (r: Result<Entries>)
    reads u
    requires EntriesRefs(flat) <= u && EntriesRefs(secs) <= u && Closed(u)
    ensures var sp := FindOr(secs, "sponsorship", Leaf(Null));
      r.Err? <==> !Has(flat, "sponsors") && Has(secs, "sponsorship") && !(sp.Dict? || sp.View?)
    ensures r.Err? ==> r.error == AttributeError
    ensures r.Ok? ==> Keeps(flat, r.value) && EntriesRefs(r.value) <= u
    ensures r.Ok? ==> forall k :: k != "sponsor" && k != "sponsors" ==> Find(r.value, k) == Find(flat, k)
    ensures r.Ok? && Has(secs, "sponsorship") ==> Has(r.value, "sponsor") && Has(r.value, "sponsors")
    ensures r.Ok? && !Has(flat, "sponsor") ==> Find(r.value, "sponsor") == Find(secs, "sponsorship")
    ensures r.Ok? && !Has(flat, "sponsors") && Has(secs, "sponsorship") ==>
      var detail := GetVal(FindOr(secs, "sponsorship", Leaf(Null)), "_sponsors_detail", Leaf(Null)).value;
      Find(r.value, "sponsors") == Some(if TruthyVal(detail) then detail else List([]))
  {
    var f1 := CopyIfAbsent(flat, "sponsor", secs, "sponsorship");
    if !Has(f1, "sponsors") && Has(secs, "sponsorship") then
      var sp := FindOr(secs, "sponsorship", Leaf(Null));
      var detail :- GetVal(sp, "_sponsors_detail", Leaf(Null));
      assert sp.Dict? ==> EntriesRefs(sp.d.entries) <= u;
      assert sp.View? ==> EntriesRefs(sp.w.d.entries) <= u;
      var v := OrVal(detail, List([]));
      PutKeeps(f1, "sponsors", v);
      KeepsTrans(flat, f1, Put(f1, "sponsors", v));
      PutFacts(f1, "sponsors", v);
      Ok(Put(f1, "sponsors", v))
    else Ok(f1)
  }

  /**
   * `if key not in flat and name in sections: flat[key] = sections[name].get(field, default)`,
   * then `or fallback` when one is given: the root gains `key` only, and
   * only when the root lacks it and the section exists; `.get` on a section
   * that is not a dict fails.
   */
  function DeriveIfAbsent(flat: Entries, key: string, secs: Entries, name: string, field: string, default: Val, fallback: Option<Val>, ghost u: set<PyDict>): (r: Result<Entries>)
    reads u
    requires EntriesRefs(flat) <= u && EntriesRefs(secs) <= u && Closed(u)
    requires Refs(default) <= u && (fallback.Some? ==> Refs(fallback.value) <= u)
    ensures var sec := FindOr(secs, name, Leaf(Null));
      r.Err? <==> !Has(flat, key) && Has(secs, name) && !(sec.Dict? || sec.View?)
    ensures r.Err? ==> r.error == AttributeError
    ensures r.Ok? ==> Keeps(flat, r.value) && EntriesRefs(r.value) <= u
    ensures r.Ok? ==> Has(r.value, key) == (Has(flat, key) || Has(secs, name))
    ensures r.Ok? ==> forall k :: k != key ==> Find(r.value, k) == Find(flat, k)
    ensures r.Ok? && !Has(flat, key) && Has(secs, name) ==>
      var got := GetVal(FindOr(secs, name, Leaf(Null)), field, default).value;
      Find(r.value, key) == Some(if fallback.Some? && !TruthyVal(got) then fallback.value else got)
  {
    if !Has(flat, key) && Has(secs, name) then
      var sec := FindOr(secs, name, Leaf(Null));
      var got :- GetVal(sec, field, default);
      assert sec.Dict? ==> EntriesRefs(sec.d.entries) <= u;
      assert sec.View? ==> EntriesRefs(sec.w.d.entries) <= u;
      var v := if fallback.Some? then OrVal(got, fallback.value) else got;
      PutKeeps(flat, key, v);
      PutFacts(flat, key, v);
      Ok(Put(flat, key, v))
    else Ok(flat)
  }

  lemma {:induction false} CopyAllRefs(flat: Entries, secs: Entries, names: seq<string>)
    ensures EntriesRefs(CopyAll(flat, secs, names)) <= EntriesRefs(flat) + EntriesRefs(secs)
    decreases |names|
  {
    if names != [] {
      CopyAllRefs(CopyIfAbsent(flat, names[0], secs, names[0]), secs, names[1..]);
    }
  }

  /**
   * main.py:1651-1660: the sponsorship, sources and uses, property and
   * named sections reach the root under their template names, each only
   * when the root lacks it.
   */
  method CopySections(flat: Entries, secs: Entries, ghost u: set<PyDict>) returns (r: Result<Entries>)
    requires EntriesRefs(flat) <= u && EntriesRefs(secs) <= u && Closed(u)
    ensures r.Ok? ==> Keeps(flat, r.value) && EntriesRefs(r.value) <= u
    ensures r.Ok? && Has(secs, "sponsorship") ==> Has(r.value, "sponsor") && Has(r.value, "sponsors")
    ensures r.Ok? ==> forall i :: 0 <= i < |NamedSections| && Has(secs, NamedSections[i]) ==> Has(r.value, NamedSections[i])
    ensures r.Ok? ==> Only(flat, r.value, SectionCopies)
    ensures r.Err? <==> CopySponsor(flat, secs, u).Err?
    ensures r.Err? ==> r.error == AttributeError
  {
    var f := CopySponsor(flat, secs, u);
    if f.Err? {
      return Err(f.error);
    }
    var f1 := f.value;
    var f2 := CopyIfAbsent(f1, "sources_and_uses", secs, "sources_and_uses");
    var f3 := CopyIfAbsent(f2, "property_overview", secs, "property");
    var f4 := CopyNamedSections(f3, secs);
    assert Keeps(f3, f4) by {
      forall k | Has(f3, k) ensures Find(f4, k) == Find(f3, k) {
      }
    }
    KeepsTrans(f1, f2, f3);
    KeepsTrans(f1, f3, f4);
    KeepsTrans(flat, f1, f4);
    if Has(secs, "sponsorship") {
      KeepsHas(f1, f4, "sponsor");
      KeepsHas(f1, f4, "sponsors");
    }
    forall i | 0 <= i < |NamedSections| && Has(secs, NamedSections[i]) ensures Has(f4, NamedSections[i]) {
      NamedSectionCopied(f3, f4, secs, NamedSections[i]);
    }
    assert Only(flat, f4, SectionCopies) by {
      forall k | k !in SectionCopies ensures Find(f4, k) == Find(flat, k) {
        assert k !in NamedSections;
      }
    }
    r := Ok(f4);
  }

  /** The root keys main.py:1651-1660 may write. */
  const SectionCopies: set<string> :=
    {"sponsor", "sponsors", "sources_and_uses", "property_overview"} + set k | k in NamedSections

  /** The root keys main.py:1661-1674 may write. */
  const Derived: set<string> :=
    {"location_overview", "market_overview", "property_overview_narrative", "financial_info", "guarantor_financials"}

  /**
   * main.py:1661-1674: the location and market overviews, the property
   * narrative (or `""`) and the sponsorship's financial summary (or `[]`)
   * reach the root, each only when the root lacks it; `.get` on a property
   * or sponsorship section that is not a dict fails.
   */
  method DeriveOverviews(flat: Entries, secs: Entries, ghost u: set<PyDict>) returns (r: Result<Entries>)
    requires EntriesRefs(flat) <= u && EntriesRefs(secs) <= u && Closed(u)
    ensures r.Ok? ==> Keeps(flat, r.value) && EntriesRefs(r.value) <= u
    ensures r.Ok? && Has(secs, "location") ==> Has(r.value, "location_overview")
    ensures r.Ok? && Has(secs, "market") ==> Has(r.value, "market_overview")
    ensures r.Ok? && Has(secs, "sponsorship") ==> Has(r.value, "financial_info") && Has(r.value, "guarantor_financials")
    ensures r.Ok? ==> Only(flat, r.value, Derived)
    ensures r.Err? ==> r.error == AttributeError
  {
    var f5 := CopyIfAbsent(flat, "location_overview", secs, "location");
    var f6 := CopyIfAbsent(f5, "market_overview", secs, "market");
    assert Has(secs, "location") ==> Has(f6, "location_overview") by {
      assert Keeps(f5, f6);
    }
    KeepsTrans(flat, f5, f6);
    r := DeriveNarratives(f6, secs, u);
    if r.Ok? {
      KeepsTrans(flat, f6, r.value);
      assert Has(f6, "location_overview") ==> Has(r.value, "location_overview");
      assert Has(f6, "market_overview") ==> Has(r.value, "market_overview");
      OnlyTrans(flat, f5, f6, {"location_overview"}, {"market_overview"});
      OnlyTrans(flat, f6, r.value, {"location_overview", "market_overview"},
        {"property_overview_narrative", "financial_info", "guarantor_financials"});
    }
  }

  /** main.py:1665-1674, the values read through `.get`. */
  method DeriveNarratives(flat: Entries, secs: Entries, ghost u: set<PyDict>) returns (r: Result<Entries>)
    requires EntriesRefs(flat) <= u && EntriesRefs(secs) <= u && Closed(u)
    ensures r.Ok? ==> Keeps(flat, r.value) && EntriesRefs(r.value) <= u
    ensures r.Ok? && Has(secs, "sponsorship") ==> Has(r.value, "financial_info") && Has(r.value, "guarantor_financials")
    ensures r.Ok? ==> Only(flat, r.value, {"property_overview_narrative", "financial_info", "guarantor_financials"})
    ensures r.Err? ==> r.error == AttributeError
  {
    var g := DeriveIfAbsent(flat, "property_overview_narrative", secs, "property", "description_narrative", Leaf(Null), Some(Leaf(Str(""))), u);
    if g.Err? {
      return Err(g.error);
    }
    var f7 := g.value;
    g := DeriveIfAbsent(f7, "financial_info", secs, "sponsorship", "financial_summary", List([]), None, u);
    if g.Err? {
      return Err(g.error);
    }
    var f8 := g.value;
    g := DeriveIfAbsent(f8, "guarantor_financials", secs, "sponsorship", "financial_summary", List([]), None, u);
    if g.Err? {
      return Err(g.error);
    }
    var f9 := g.value;
    assert Has(f8, "financial_info") ==> Has(f9, "financial_info") by {
      assert Keeps(f8, f9);
    }
    KeepsTrans(flat, f7, f8);
    KeepsTrans(flat, f8, f9);
    OnlyTrans(flat, f7, f8, {"property_overview_narrative"}, {"financial_info"});
    OnlyTrans(flat, f8, f9, {"property_overview_narrative", "financial_info"}, {"guarantor_financials"});
    r := Ok(f9);
  }

  // ------------------------------------------------------------ scenarios

  /** A scenario dict: `rows` and `items` hold the same list. */
  predicate IsScenario(es: Entries)
  {
    Has(es, "rows") && Find(es, "rows") == Find(es, "items") && Find(es, "rows").value.List?
  }

  /** The root holds under `key` a dict made by the pass whose `rows` and `items` hold the same list. */
  predicate NewScenario(es: Entries, key: string, made: set<PyDict>)
    reads made
  {
    var v := FindOr(es, key, Leaf(Null));
    v.Dict? && v.d in made && IsScenario(v.d.entries)
  }

  /**
   * main.py:1676-1680, `_scenario_with_items(s)`: the entries of the new
   * dict, a copy of `s` (or of `{"rows": []}` when `s` is falsy or not a
   * dict) whose `rows` is kept only when it is a list.
   */
  function ScenarioEntries(s: Val): (r: Entries)
    reads DictOf(s)
    ensures IsScenario(r)
    ensures EntriesRefs(r) <= Refs(s) + (if s.Dict? then EntriesRefs(s.d.entries) else {})
    ensures !(s.Dict? && TruthyVal(s)) ==> r == [("rows", List([])), ("items", List([]))]
    ensures s.Dict? && TruthyVal(s) ==> forall k :: k != "rows" && k != "items" ==> Find(r, k) == Find(s.d.entries, k)
    ensures s.Dict? && TruthyVal(s) && FindOr(s.d.entries, "rows", Leaf(Null)).List? ==> Find(r, "rows") == Find(s.d.entries, "rows")
    ensures s.Dict? && TruthyVal(s) && !FindOr(s.d.entries, "rows", Leaf(Null)).List? ==> Find(r, "rows") == Some(List([]))
  {
    var base := if TruthyVal(s) && s.Dict? then s.d.entries else [("rows", List([]))];
    var got := FindOr(base, "rows", Leaf(Null));
    var rows := if got.List? then got else List([]);
    var withRows := Put(base, "rows", rows);
    PutFacts(base, "rows", rows);
    PutFacts(withRows, "items", rows);
    assert EntriesRefs([("rows", List([]))]) == {};
    Put(withRows, "items", rows)
  }

  /** `fa.get(k)` for `fa = sections.get("foreclosure_analysis") or {}` */
  function ForeclosureGet(secs: Entries, k: string): (r: Result<Val>)
    reads DictsOf(FindOr(secs, "foreclosure_analysis", Leaf(Null)))
    ensures var fa := FindOr(secs, "foreclosure_analysis", Leaf(Null));
      r.Err? <==> TruthyVal(fa) && !(fa.Dict? || fa.View?)
    ensures r.Err? ==> r.error == AttributeError
  {
    var fa := FindOr(secs, "foreclosure_analysis", Leaf(Null));
    if TruthyVal(fa) then GetVal(fa, k, Leaf(Null)) else Ok(Leaf(Null))
  }

  /**
   * main.py:1681-1684, one of the two scenario lines: when the root lacks
   * `key` it gets a new dict whose `rows` and `items` hold the same list;
   * the rest of the root is unchanged, and a truthy `foreclosure_analysis`
   * that is not a dict fails.
   */
  method AddScenario(flat: Entries, key: string, field: string, secs: Entries, ghost u: set<PyDict>) returns (r: Result<Entries>, ghost made: set<PyDict>)
    requires EntriesRefs(flat) <= u && EntriesRefs(secs) <= u && Closed(u)
    ensures fresh(made) && Closed(u + made)
    ensures r.Err? <==> !Has(flat, key) && ForeclosureGet(secs, field).Err?
    ensures r.Err? ==> r.error == AttributeError
    ensures r.Ok? ==> Keeps(flat, r.value) && EntriesRefs(r.value) <= u + made && Has(r.value, key)
    ensures r.Ok? ==> forall k :: k != key ==> Find(r.value, k) == Find(flat, k)
    ensures r.Ok? && !Has(flat, key) ==>
      var v := FindOr(r.value, key, Leaf(Null)); v.Dict? && v.d in made && IsScenario(v.d.entries)
  {
    made := {};
    if Has(flat, key) {
      return Ok(flat), made;
    }
    var s := ForeclosureGet(secs, field);
    if s.Err? {
      return Err(s.error), made;
    }
    var fa := FindOr(secs, "foreclosure_analysis", Leaf(Null));
    assert s.value.Dict? ==> EntriesRefs(s.value.d.entries) <= u by {
      if fa.Dict? {
        assert EntriesRefs(fa.d.entries) <= u;
      } else if fa.View? {
        assert EntriesRefs(fa.w.d.entries) <= u;
      }
    }
    var es := ScenarioEntries(s.value);
    var d := new PyDict(es);
    made := {d};
    PutKeeps(flat, key, Dict(d));
    PutFacts(flat, key, Dict(d));
    r := Ok(Put(flat, key, Dict(d)));
  }

  // ------------------------------------------------------------ raw objects and overrides

  /** main.py:1689-1693 for one raw key: a dict under it spreads into the root like a section. */
  function RawStep(flat: Entries, rk: string, ghost u: set<PyDict>): (r: Entries)
    reads u
    requires EntriesRefs(flat) <= u && Closed(u)
    ensures EntriesRefs(r) <= u && Keeps(flat, r)
    ensures var raw := FindOr(flat, rk, Leaf(Null));
      forall k :: !Has(flat, k) ==> Find(r, k) == if raw.Dict? then Find(raw.d.entries, k) else None
  {
    var raw := FindOr(flat, rk, Leaf(Null));
    if raw.Dict? then
      SpreadRefs(flat, raw.d.entries);
      SpreadKeeps(flat, raw.d.entries);
      assert forall k :: !Has(flat, k) ==> Find(Spread(flat, raw.d.entries), k) == Find(raw.d.entries, k) by {
        forall k | !Has(flat, k) ensures Find(Spread(flat, raw.d.entries), k) == Find(raw.d.entries, k) {
          FindSpread(flat, raw.d.entries, k);
        }
      }
      Spread(flat, raw.d.entries)
    else flat
  }

  /** main.py:1689-1693: the raw keys in order, each looked up in the root as the earlier ones left it. */
  function RawSpread(flat: Entries, keys: seq<string>, ghost u: set<PyDict>): (r: Entries)
    reads u
    requires EntriesRefs(flat) <= u && Closed(u)
    ensures EntriesRefs(r) <= u && Keeps(flat, r)
    decreases |keys|
  {
    if keys == [] then flat
    else
      var next := RawStep(flat, keys[0], u);
      var r := RawSpread(next, keys[1..], u);
      KeepsTrans(flat, next, r);
      r
  }

  /**
   * A key the root lacks takes its value from the first raw dict, when that
   * one is a dict holding it.
   */
  lemma RawFirstWins(flat: Entries, k: string, u: set<PyDict>)
    requires EntriesRefs(flat) <= u && Closed(u)
    requires !Has(flat, k)
    requires var raw := FindOr(flat, RawKeys[0], Leaf(Null)); raw.Dict? && Has(raw.d.entries, k)
    ensures Find(RawSpread(flat, RawKeys, u), k) == Find(FindOr(flat, RawKeys[0], Leaf(Null)).d.entries, k)
  {
    var next := RawStep(flat, RawKeys[0], u);
    assert RawSpread(flat, RawKeys, u) == RawSpread(next, RawKeys[1..], u);
  }

  /** main.py:1689-1693 */
  method SpreadRaw(flat: Entries, ghost u: set<PyDict>) returns (r: Entries)
    requires EntriesRefs(flat) <= u && Closed(u)
    ensures r == RawSpread(flat, RawKeys, u)
  {
    r := flat;
    var i := 0;
    while i < |RawKeys|
      invariant 0 <= i <= |RawKeys|
      invariant EntriesRefs(r) <= u
      invariant RawSpread(r, RawKeys[i..], u) == RawSpread(flat, RawKeys, u)
    {
      var raw := FindOr(r, RawKeys[i], Leaf(Null));
      ghost var step := RawStep(r, RawKeys[i], u);
      assert RawSpread(r, RawKeys[i..], u) == RawSpread(step, RawKeys[i + 1..], u) by {
        assert RawKeys[i..][1..] == RawKeys[i + 1..];
      }
      if raw.Dict? {
        r := SpreadFields(r, raw.d.entries);
      }
      i := i + 1;
    }
  }

  /** `for k, v in d.items(): if k not in flat: flat[k] = v` */
  method SpreadFields(flat: Entries, fields: Entries) returns (r: Entries)
    ensures r == Spread(flat, fields)
  {
    r := flat;
    var j := 0;
    while j < |fields|
      invariant 0 <= j <= |fields|
      invariant Spread(r, fields[j..]) == Spread(flat, fields)
    {
      var (k, v) := fields[j];
      if !Has(r, k) {
        r := Put(r, k, v);
      }
      assert fields[j..][1..] == fields[j + 1..];
      j := j + 1;
    }
  }

  /** The root keys a raw object replaces, each with the raw key that replaces it. */
  const Overrides: seq<(string, string)> :=
    [("deal_facts", "deal_facts_raw"), ("leverage", "leverage_raw"), ("loan_terms", "loan_terms_raw")]

  /** `if s in flat: flat[t] = flat[s]` */
  function Override(flat: Entries, t: string, s: string): (r: Entries)
    ensures Find(r, t) == if Has(flat, s) then Find(flat, s) else Find(flat, t)
    ensures forall k :: k != t ==> Find(r, k) == Find(flat, k)
    ensures EntriesRefs(r) <= EntriesRefs(flat)
  {
    if Has(flat, s) then
      var v := FindOr(flat, s, Leaf(Null));
      PutFacts(flat, t, v);
      Put(flat, t, v)
    else flat
  }

  /**
   * main.py:1696-1701: each raw key present replaces its root key
   * unconditionally, so afterwards the two hold the same value; no other
   * key changes.
   */
  function OverrideRaw(flat: Entries): (r: Entries)
    ensures forall i :: 0 <= i < |Overrides| && Has(r, Overrides[i].1) ==> Find(r, Overrides[i].0) == Find(r, Overrides[i].1)
    ensures forall i :: 0 <= i < |Overrides| && !Has(flat, Overrides[i].1) ==> Find(r, Overrides[i].0) == Find(flat, Overrides[i].0)
    ensures forall k :: k != "deal_facts" && k != "leverage" && k != "loan_terms" ==> Find(r, k) == Find(flat, k)
    ensures EntriesRefs(r) <= EntriesRefs(flat)
  {
    var a := Override(flat, "deal_facts", "deal_facts_raw");
    var b := Override(a, "leverage", "leverage_raw");
    Override(b, "loan_terms", "loan_terms_raw")
  }

  // ------------------------------------------------------------ fixes in place

  /** `str(v)` on the heap: the repr of what it denotes, `{...}` standing in for a cycle. */
  function ShowVal(v: Val, ghost u: set<PyDict>): string
    reads u
    requires Refs(v) <= u && Closed(u)
  {
    match Snapshot(v, {}, u)
    case Ok(j) => Repr(j)
    case Err(_) => "{...}"
  }

  /**
   * The loan terms after main.py:1703-1706: a dict under `interest_rate`
   * gives way to its `description`, or to its text when it has none.
   */
  function RateAsText(es: Entries, ghost u: set<PyDict>): (r: Entries)
    reads u
    requires EntriesRefs(es) <= u && Closed(u)
    ensures EntriesRefs(r) <= u
    ensures !FindOr(es, "interest_rate", Leaf(Null)).Dict? ==> r == es
    ensures forall k :: k != "interest_rate" ==> Find(r, k) == Find(es, k)
    ensures var ir := FindOr(es, "interest_rate", Leaf(Null));
      ir.Dict? && Has(ir.d.entries, "description") ==> Find(r, "interest_rate") == Find(ir.d.entries, "description")
    ensures var ir := FindOr(es, "interest_rate", Leaf(Null));
      ir.Dict? && !Has(ir.d.entries, "description") ==> Find(r, "interest_rate") == Some(Leaf(Str(ShowVal(ir, u))))
  {
    var ir := FindOr(es, "interest_rate", Leaf(Null));
    if ir.Dict? then
      var v := FindOr(ir.d.entries, "description", Leaf(Str(ShowVal(ir, u))));
      PutFacts(es, "interest_rate", v);
      Put(es, "interest_rate", v)
    else es
  }

  /** main.py:1703-1706 */
  method NormalizeRate(flat: Entries, ghost u: set<PyDict>)
    requires EntriesRefs(flat) <= u && Closed(u)
    modifies DictOf(FindOr(flat, "loan_terms", Leaf(Null)))
    ensures Closed(u)
    ensures var lt := FindOr(flat, "loan_terms", Leaf(Null));
      lt.Dict? ==> lt.d.entries == old(RateAsText(lt.d.entries, u))
    ensures var lt := FindOr(flat, "loan_terms", Leaf(Null));
      lt.Dict? ==> OnlyFixes(old(lt.d.entries), lt.d.entries)
  {
    var lt := FindOr(flat, "loan_terms", Leaf(Null));
    if lt.Dict? {
      lt.d.entries := RateAsText(lt.d.entries, u);
    }
  }

  /**
   * `if "narrative" not in d and src in d: d["narrative"] = d[src]`: the
   * dict ends up with a `narrative` exactly when it had one or had `src`,
   * and one it had is never replaced.
   */
  function WithNarrative(es: Entries, src: string): (r: Entries)
    ensures Has(r, "narrative") <==> Has(es, "narrative") || Has(es, src)
    ensures Has(es, "narrative") ==> r == es
    ensures !Has(es, "narrative") && Has(es, src) ==> Find(r, "narrative") == Find(es, src)
    ensures forall k :: k != "narrative" ==> Find(r, k) == Find(es, k)
    ensures EntriesRefs(r) <= EntriesRefs(es)
  {
    if !Has(es, "narrative") && Has(es, src) then
      var v := FindOr(es, src, Leaf(Null));
      PutFacts(es, "narrative", v);
      Put(es, "narrative", v)
    else es
  }

  /** main.py:1708-1710 and 1715-1717: the narrative alias on the dict under `key`, when it is a dict. */
  method AliasNarrative(flat: Entries, key: string, src: string, ghost u: set<PyDict>)
    requires EntriesRefs(flat) <= u && Closed(u)
    modifies DictOf(FindOr(flat, key, Leaf(Null)))
    ensures Closed(u)
    ensures var v := FindOr(flat, key, Leaf(Null));
      v.Dict? ==> v.d.entries == old(WithNarrative(v.d.entries, src))
    ensures var v := FindOr(flat, key, Leaf(Null));
      v.Dict? ==> OnlyFixes(old(v.d.entries), v.d.entries)
  {
    var v := FindOr(flat, key, Leaf(Null));
    if v.Dict? {
      v.d.entries := WithNarrative(v.d.entries, src);
    }
  }

  /** `flat.get("narratives", {}).get("loan_terms_narrative", "")` */
  function LoanTermsNarrative(flat: Entries): (r: Result<Val>)
    reads DictsOf(FindOr(flat, "narratives", Leaf(Null)))
    ensures var n := FindOr(flat, "narratives", Leaf(Null));
      r.Err? <==> Has(flat, "narratives") && !(n.Dict? || n.View?)
    ensures r.Err? ==> r.error == AttributeError
    ensures !Has(flat, "narratives") ==> r == Ok(Leaf(Str("")))
  {
    if Has(flat, "narratives") then GetVal(FindOr(flat, "narratives", Leaf(Null)), "loan_terms_narrative", Leaf(Str("")))
    else Ok(Leaf(Str("")))
  }

  /**
   * main.py:1711-1714: a truthy loan-terms narrative from `narratives`
   * becomes the loan terms' `narrative`, replacing any it had; `.get` on
   * `narratives` that is not a dict fails.
   */
  method SetLoanTermsNarrative(flat: Entries, ghost u: set<PyDict>) returns (r: Result<()>)
    requires EntriesRefs(flat) <= u && Closed(u)
    modifies DictOf(FindOr(flat, "loan_terms", Leaf(Null)))
    ensures Closed(u)
    ensures var lt := FindOr(flat, "loan_terms", Leaf(Null));
      r.Err? <==> lt.Dict? && old(LoanTermsNarrative(flat)).Err?
    ensures r.Err? ==> r.error == AttributeError
    ensures var lt := FindOr(flat, "loan_terms", Leaf(Null));
      lt.Dict? && r.Ok? ==> (lt.d.entries ==
        old(var n := LoanTermsNarrative(flat).value; if TruthyVal(n) then Put(lt.d.entries, "narrative", n) else lt.d.entries))
    ensures var lt := FindOr(flat, "loan_terms", Leaf(Null));
      lt.Dict? ==> OnlyFixes(old(lt.d.entries), lt.d.entries)
    ensures var lt := FindOr(flat, "loan_terms", Leaf(Null));
      lt.Dict? && r.Err? ==> lt.d.entries == old(lt.d.entries)
  {
    var lt := FindOr(flat, "loan_terms", Leaf(Null));
    if !lt.Dict? {
      return Ok(());
    }
    var got := LoanTermsNarrative(flat);
    if got.Err? {
      return Err(got.error);
    }
    var n := got.value;
    var nv := FindOr(flat, "narratives", Leaf(Null));
    assert nv.Dict? ==> EntriesRefs(nv.d.entries) <= u;
    assert nv.View? ==> EntriesRefs(nv.w.d.entries) <= u;
    if TruthyVal(n) {
      PutFacts(lt.d.entries, "narrative", n);
      lt.d.entries := Put(lt.d.entries, "narrative", n);
    }
    r := Ok(());
  }

  /**
   * The litigation entries after main.py:1718-1724: without a narrative,
   * they get a count of their cases or "No active litigation."; `len` of
   * truthy cases that have no length fails.
   */
  function LitigationNarrative(es: Entries): (r: Result<Entries>)
    reads DictOf(FindOr(es, "cases", List([])))
    ensures Has(es, "narrative") ==> r == Ok(es)
    ensures var cases := FindOr(es, "cases", List([]));
      r.Err? <==> !Has(es, "narrative") && TruthyVal(cases) && LenVal(cases).Err?
    ensures r.Err? ==> r.error == TypeError
    ensures r.Ok? ==> Has(r.value, "narrative") && EntriesRefs(r.value) <= EntriesRefs(es)
    ensures r.Ok? ==> forall k :: k != "narrative" ==> Find(r.value, k) == Find(es, k)
    ensures !Has(es, "narrative") && !TruthyVal(FindOr(es, "cases", List([]))) ==>
      r.Ok? && Find(r.value, "narrative") == Some(Leaf(Str("No active litigation.")))
    ensures var cases := FindOr(es, "cases", List([]));
      !Has(es, "narrative") && cases.List? && cases.items != [] ==>
      r.Ok? && Find(r.value, "narrative") == Some(Leaf(Str(Numbers.IntToString(|cases.items|) + " active case(s). See details below.")))
  {
    if Has(es, "narrative") then Ok(es)
    else
      var cases := FindOr(es, "cases", List([]));
      var text :- if TruthyVal(cases) then
          var n :- LenVal(cases);
          Ok(Numbers.IntToString(n) + " active case(s). See details below.")
        else Ok("No active litigation.");
      PutFacts(es, "narrative", Leaf(Str(text)));
      Ok(Put(es, "narrative", Leaf(Str(text))))
  }

  /** main.py:1718-1724 */
  method SetLitigationNarrative(flat: Entries, ghost u: set<PyDict>) returns (r: Result<()>)
    requires EntriesRefs(flat) <= u && Closed(u)
    modifies DictOf(FindOr(flat, "active_litigation", Leaf(Null)))
    ensures Closed(u)
    ensures var al := FindOr(flat, "active_litigation", Leaf(Null));
      r.Err? <==> al.Dict? && old(LitigationNarrative(al.d.entries)).Err?
    ensures r.Err? ==> r.error == TypeError
    ensures var al := FindOr(flat, "active_litigation", Leaf(Null));
      al.Dict? && r.Ok? ==> al.d.entries == old(LitigationNarrative(al.d.entries)).value
    ensures var al := FindOr(flat, "active_litigation", Leaf(Null));
      al.Dict? ==> OnlyFixes(old(al.d.entries), al.d.entries)
    ensures var al := FindOr(flat, "active_litigation", Leaf(Null));
      al.Dict? && r.Err? ==> al.d.entries == old(al.d.entries)
  {
    var al := FindOr(flat, "active_litigation", Leaf(Null));
    if !al.Dict? {
      return Ok(());
    }
    var cases := FindOr(al.d.entries, "cases", List([]));
    assert EntriesRefs(al.d.entries) <= u;
    var got := LitigationNarrative(al.d.entries);
    if got.Err? {
      return Err(got.error);
    }
    al.d.entries := got.value;
    r := Ok(());
  }

  /**
   * The sponsorship after main.py:1687-1689: a falsy `overview_narrative`
   * gives way to the sponsor's name, or "See Sponsor Details".
   */
  function WithOverview(es: Entries): (r: Entries)
    reads DictOf(FindOr(es, "overview_narrative", Leaf(Null)))
    ensures TruthyVal(FindOr(es, "overview_narrative", Leaf(Null))) ==> r == es
    ensures !TruthyVal(FindOr(es, "overview_narrative", Leaf(Null))) ==>
      Find(r, "overview_narrative") == Some(FindOr(es, "name", Leaf(Str("See Sponsor Details"))))
    ensures forall k :: k != "overview_narrative" ==> Find(r, k) == Find(es, k)
    ensures EntriesRefs(r) <= EntriesRefs(es)
  {
    if TruthyVal(FindOr(es, "overview_narrative", Leaf(Null))) then es
    else
      var v := FindOr(es, "name", Leaf(Str("See Sponsor Details")));
      PutFacts(es, "overview_narrative", v);
      Put(es, "overview_narrative", v)
  }

  /**
   * The sponsorship the sections hold and what main.py:1686-1688 makes of
   * its entries, when it is a truthy dict; None otherwise.
   */
  ghost function SponsorOverview(sd: PyDict): Option<(PyDict, Entries)>
    reads sd, DictOf(FindOr(sd.entries, "sponsorship", Leaf(Null)))
    reads var sp := FindOr(sd.entries, "sponsorship", Leaf(Null));
      if sp.Dict? then DictOf(FindOr(sp.d.entries, "overview_narrative", Leaf(Null))) else {}
  {
    var sp := FindOr(sd.entries, "sponsorship", Leaf(Null));
    if sp.Dict? && TruthyVal(sp) then Some((sp.d, WithOverview(sp.d.entries))) else None
  }

  /** main.py:1687-1689, on the sections' entries `secs`: only a truthy dict sponsorship changes. */
  method SetSponsorOverview(secs: Entries, ghost u: set<PyDict>)
    requires EntriesRefs(secs) <= u && Closed(u)
    modifies DictOf(FindOr(secs, "sponsorship", Leaf(Null)))
    ensures Closed(u)
    ensures var sp := FindOr(secs, "sponsorship", Leaf(Null));
      sp.Dict? && old(TruthyVal(sp)) ==> sp.d.entries == old(WithOverview(sp.d.entries))
  {
    var sp := FindOr(secs, "sponsorship", Leaf(Null));
    if TruthyVal(sp) && sp.Dict? {
      assert EntriesRefs(sp.d.entries) <= u;
      sp.d.entries := WithOverview(sp.d.entries);
    }
  }

  // ------------------------------------------------------------ the whole pass

  /** Every key of `a` outside `except` holds the same value in `b`. */
  ghost predicate KeepsBut(a: Entries, b: Entries, except: set<string>)
  {
    forall k :: Has(a, k) && k !in except ==> Find(b, k) == Find(a, k)
  }

  /** The root keys the pass may replace: `sections` itself and the three a raw object overrides. */
  const Replaced: set<string> := {"sections"} + Targets

  /** The root keys main.py:1681-1684 may write. */
  const Scenarios: set<string> := {"default_interest_scenario", "note_interest_scenario"}

  /** The root keys a raw object overrides. */
  const Targets: set<string> := {"deal_facts", "leverage", "loan_terms"}

  /** The keys the last steps of the pass write are distinct. */
  lemma DistinctKeys()
    ensures "default_interest_scenario" !in Replaced && "note_interest_scenario" !in Replaced
    ensures "sections" !in Targets
    ensures "default_interest_scenario" !in Targets && "note_interest_scenario" !in Targets
    ensures Scenarios !! (SectionCopies + Derived)
    ensures forall i :: 0 <= i < |Overrides| ==> Overrides[i].0 in Targets && Overrides[i].1 !in Replaced
  {
    forall k | k in Scenarios ensures k !in SectionCopies && k !in Derived {
      assert k !in NamedSections;
    }
  }

  /** The dict sections the spread walks: the popped `sections` when it is a dict, else none. */
  function SectionsOf(es: Entries): (r: Entries)
    reads DictOf(FindOr(es, "sections", Leaf(Null)))
  {
    var sec := FindOr(es, "sections", Leaf(Null));
    if sec.Dict? then sec.d.entries else []
  }

  /** Every section dict is held by the sections. */
  lemma SectionDictsRefs(secs: Entries)
    ensures SectionDicts(secs) <= EntriesRefs(secs)
  {
    forall x | x in SectionDicts(secs) ensures x in EntriesRefs(secs) {
      var i :| 0 <= i < |secs| && secs[i].1.Dict? && secs[i].1.d == x;
      assert x in Refs(secs[i].1);
    }
  }

  /** The root after main.py:1641-1650: the copy without `sections`, the sections spread in, the aliases added. */
  function Spreaded(es: Entries, ghost u: set<PyDict>): (r: Entries)
    reads u
    requires EntriesRefs(es) <= u && Closed(u)
  {
    var sec := FindOr(es, "sections", Leaf(Null));
    assert sec.Dict? ==> EntriesRefs(sec.d.entries) <= u;
    SectionDictsRefs(SectionsOf(es));
    AliasAll(Spread(Drop(es, "sections"), SectionFields(SectionsOf(es))), Aliases)
  }

  /** Every key of the input but `sections` survives the spread and the aliases. */
  lemma SpreadedKeepsInput(es: Entries, u: set<PyDict>)
    requires EntriesRefs(es) <= u && Closed(u)
    ensures forall k :: k != "sections" && Has(es, k) ==> Find(Spreaded(es, u), k) == Find(es, k)
  {
    var flat := Drop(es, "sections");
    var spread := Spread(flat, SectionFields(SectionsOf(es)));
    SpreadKeeps(flat, SectionFields(SectionsOf(es)));
    LeverageAlias(spread);
    forall k | k != "sections" && Has(es, k) ensures Find(Spreaded(es, u), k) == Find(es, k) {
      FindDrop(es, "sections", k);
    }
  }

  /**
   * A key neither the input root nor an earlier section has comes from the
   * earliest section dict holding it, and stays through the aliases.
   */
  lemma SpreadedEarliestSection(es: Entries, u: set<PyDict>, k: string, i: int)
    requires EntriesRefs(es) <= u && Closed(u)
    requires k != "sections" && !Has(es, k)
    requires 0 <= i < |SectionsOf(es)| && SectionHas(SectionsOf(es), i, k)
    requires forall j :: 0 <= j < i ==> !SectionHas(SectionsOf(es), j, k)
    ensures Find(Spreaded(es, u), k) == Find(SectionsOf(es)[i].1.d.entries, k)
  {
    var secs := SectionsOf(es);
    var flat := Drop(es, "sections");
    FindDrop(es, "sections", k);
    EarliestSectionWins(flat, secs, k, i);
    LeverageAlias(Spread(flat, SectionFields(secs)));
  }

  /**
   * main.py:1651-1674: the copies from the sections, in order; what the
   * root held before stays.
   */
  method CopyFromSections(flat: Entries, secs: Entries, ghost u: set<PyDict>) returns (r: Result<Entries>)
    requires EntriesRefs(flat) <= u && EntriesRefs(secs) <= u && Closed(u)
    ensures r.Ok? ==> Keeps(flat, r.value) && EntriesRefs(r.value) <= u
    ensures r.Ok? ==> Only(flat, r.value, SectionCopies + Derived)
    ensures r.Err? ==> r.error == AttributeError
  {
    var c := CopySections(flat, secs, u);
    if c.Err? {
      return Err(c.error);
    }
    var d := DeriveOverviews(c.value, secs, u);
    if d.Err? {
      return Err(d.error);
    }
    KeepsTrans(flat, c.value, d.value);
    OnlyTrans(flat, c.value, d.value, SectionCopies, Derived);
    r := d;
  }

  /** main.py:1675-1686: both scenarios, the default-rate one first. */
  method AddScenarios(flat: Entries, secs: Entries, ghost u: set<PyDict>) returns (r: Result<Entries>, ghost made: set<PyDict>)
    requires EntriesRefs(flat) <= u && EntriesRefs(secs) <= u && Closed(u)
    ensures fresh(made) && Closed(u + made)
    ensures r.Ok? ==> EntriesRefs(r.value) <= u + made && Keeps(flat, r.value)
    ensures r.Ok? ==> Has(r.value, "default_interest_scenario") && Has(r.value, "note_interest_scenario")
    ensures r.Ok? ==> Only(flat, r.value, Scenarios)
    ensures r.Ok? && !Has(flat, "default_interest_scenario") ==> NewScenario(r.value, "default_interest_scenario", made)
    ensures r.Ok? && !Has(flat, "note_interest_scenario") ==> NewScenario(r.value, "note_interest_scenario", made)
    ensures r.Err? ==> r.error == AttributeError
  {
    var s1, m1 := AddScenario(flat, "default_interest_scenario", "scenario_default_rate", secs, u);
    made := m1;
    if s1.Err? {
      return Err(s1.error), made;
    }
    var s2, m2 := AddScenario(s1.value, "note_interest_scenario", "scenario_note_rate", secs, u + m1);
    made := m1 + m2;
    assert u + m1 + m2 == u + made;
    if s2.Err? {
      return Err(s2.error), made;
    }
    assert Keeps(s1.value, s2.value);
    assert Has(s1.value, "default_interest_scenario");
    KeepsTrans(flat, s1.value, s2.value);
    assert Find(s2.value, "default_interest_scenario") == Find(s1.value, "default_interest_scenario");
    r := s2;
  }

  /**
   * main.py:1651-1701 after the aliases: copies, scenarios, `sections` put
   * back, the sponsorship overview fixed in place, the raw objects spread
   * and made to override. What the spread and the aliases gave the root
   * stays, except the keys the pass replaces.
   */
  method Gather(flat: Entries, sd: PyDict, ghost u: set<PyDict>) returns (r: Result<Entries>, ghost made: set<PyDict>)
    requires sd in u && EntriesRefs(flat) <= u && Closed(u)
    modifies DictOf(FindOr(sd.entries, "sponsorship", Leaf(Null)))
    ensures fresh(made) && Closed(u + made)
    ensures r.Ok? ==> EntriesRefs(r.value) <= u + made
    ensures r.Ok? ==> KeepsBut(flat, r.value, Replaced)
    ensures r.Ok? ==> Find(r.value, "sections") == Some(Dict(sd))
    ensures r.Ok? ==> Has(r.value, "default_interest_scenario") && Has(r.value, "note_interest_scenario")
    ensures r.Ok? && !Has(flat, "default_interest_scenario") ==> NewScenario(r.value, "default_interest_scenario", made)
    ensures r.Ok? && !Has(flat, "note_interest_scenario") ==> NewScenario(r.value, "note_interest_scenario", made)
    ensures r.Ok? ==> forall i :: 0 <= i < |Overrides| && Has(r.value, Overrides[i].1) ==>
      Find(r.value, Overrides[i].0) == Find(r.value, Overrides[i].1)
    ensures var o := old(SponsorOverview(sd));
      r.Ok? && o.Some? ==> o.value.0.entries == o.value.1
    ensures r.Err? ==> r.error == AttributeError
  {
    var secs := sd.entries;
    assert EntriesRefs(secs) <= u;
    ghost var sp := FindOr(secs, "sponsorship", Leaf(Null));
    ghost var overview := if sp.Dict? && TruthyVal(sp) then WithOverview(sp.d.entries) else [];
    var sc, m := CopiesAndScenarios(flat, secs, u);
    made := m;
    if sc.Err? {
      return Err(sc.error), made;
    }
    var f := Put(sc.value, "sections", Dict(sd));
    PutRefs(sc.value, "sections", Dict(sd));
    assert EntriesRefs(f) <= u + made;
    ghost var dflt := NewScenario(sc.value, "default_interest_scenario", made);
    ghost var note := NewScenario(sc.value, "note_interest_scenario", made);
    SetSponsorOverview(secs, u + made);
    assert sp.Dict? && old(TruthyVal(sp)) ==> sp.d.entries == overview;
    assert dflt == NewScenario(sc.value, "default_interest_scenario", made);
    assert note == NewScenario(sc.value, "note_interest_scenario", made);
    var f3 := RawAndOverrides(f, u + made);
    GatherKeeps(flat, sc.value, Dict(sd), f3);
    ScenarioKept(sc.value, Dict(sd), f3, "default_interest_scenario");
    ScenarioKept(sc.value, Dict(sd), f3, "note_interest_scenario");
    r := Ok(f3);
  }

  /** main.py:1651-1686: the copies from the sections, then the scenarios the copies did not supply. */
  method CopiesAndScenarios(flat: Entries, secs: Entries, ghost u: set<PyDict>) returns (r: Result<Entries>, ghost made: set<PyDict>)
    requires EntriesRefs(flat) <= u && EntriesRefs(secs) <= u && Closed(u)
    ensures fresh(made) && Closed(u + made)
    ensures r.Ok? ==> EntriesRefs(r.value) <= u + made && Keeps(flat, r.value)
    ensures r.Ok? ==> Has(r.value, "default_interest_scenario") && Has(r.value, "note_interest_scenario")
    ensures r.Ok? && !Has(flat, "default_interest_scenario") ==> NewScenario(r.value, "default_interest_scenario", made)
    ensures r.Ok? && !Has(flat, "note_interest_scenario") ==> NewScenario(r.value, "note_interest_scenario", made)
    ensures r.Err? ==> r.error == AttributeError
  {
    made := {};
    var c := CopyFromSections(flat, secs, u);
    if c.Err? {
      return Err(c.error), made;
    }
    DistinctKeys();
    assert !Has(flat, "default_interest_scenario") ==> !Has(c.value, "default_interest_scenario");
    assert !Has(flat, "note_interest_scenario") ==> !Has(c.value, "note_interest_scenario");
    r, made := AddScenarios(c.value, secs, u);
    if r.Ok? {
      KeepsTrans(flat, c.value, r.value);
    }
  }

  /** What the copies and scenarios kept, `sections` put back and the raw overrides keep too. */
  lemma GatherKeeps(flat: Entries, sc: Entries, v: Val, r: Entries)
    requires Keeps(flat, sc) && KeepsBut(Put(sc, "sections", v), r, Targets)
    ensures KeepsBut(flat, r, Replaced)
    ensures Find(r, "sections") == Some(v)
    ensures Has(sc, "default_interest_scenario") ==> Has(r, "default_interest_scenario")
    ensures Has(sc, "note_interest_scenario") ==> Has(r, "note_interest_scenario")
  {
    var f := Put(sc, "sections", v);
    FindPut(sc, "sections", v, "sections");
    forall k | Has(flat, k) && k !in Replaced ensures Find(r, k) == Find(flat, k) {
      FindPut(sc, "sections", v, k);
    }
    DistinctKeys();
    if Has(sc, "default_interest_scenario") {
      ScenarioKept(sc, v, r, "default_interest_scenario");
    }
    if Has(sc, "note_interest_scenario") {
      ScenarioKept(sc, v, r, "note_interest_scenario");
    }
  }

  /** A scenario the root holds keeps its value through `sections` put back and the raw overrides. */
  lemma ScenarioKept(sc: Entries, v: Val, r: Entries, k: string)
    requires KeepsBut(Put(sc, "sections", v), r, Targets)
    requires k in Scenarios && Has(sc, k)
    ensures Find(r, k) == Find(sc, k)
  {
    DistinctKeys();
    FindPut(sc, "sections", v, k);
  }

  /** main.py:1689-1701: the raw spreads and then the overrides; `sections` and the scenarios stay. */
  method RawAndOverrides(flat: Entries, ghost u: set<PyDict>) returns (r: Entries)
    requires EntriesRefs(flat) <= u && Closed(u)
    ensures EntriesRefs(r) <= u
    ensures KeepsBut(flat, r, Targets)
    ensures forall i :: 0 <= i < |Overrides| && Has(r, Overrides[i].1) ==> Find(r, Overrides[i].0) == Find(r, Overrides[i].1)
  {
    var f2 := SpreadRaw(flat, u);
    assert Keeps(flat, f2) && EntriesRefs(f2) <= u;
    r := OverrideRaw(f2);
  }

  /** The dicts main.py:1703-1725 changes in place: those under the four root keys it fixes. */
  function FixedDicts(flat: Entries): set<PyDict>
  {
    DictOf(FindOr(flat, "loan_terms", Leaf(Null))) + DictOf(FindOr(flat, "property_overview", Leaf(Null)))
    + DictOf(FindOr(flat, "zoning_entitlements", Leaf(Null))) + DictOf(FindOr(flat, "active_litigation", Leaf(Null)))
  }

  /** `b` differs from `a` at most under `interest_rate` and `narrative`, the keys the fixes write. */
  ghost predicate OnlyFixes(a: Entries, b: Entries)
  {
    Only(a, b, {"interest_rate", "narrative"})
  }

  /** The dicts under the litigation's `cases`. */
  function CasesOf(flat: Entries): set<PyDict>
    reads DictOf(FindOr(flat, "active_litigation", Leaf(Null)))
  {
    var al := FindOr(flat, "active_litigation", Leaf(Null));
    if al.Dict? then DictOf(FindOr(al.d.entries, "cases", List([]))) else {}
  }

  /** The zoning, the litigation and its cases are three objects. */
  ghost predicate LitigationApart(flat: Entries)
    reads DictOf(FindOr(flat, "active_litigation", Leaf(Null)))
  {
    var ze, al := DictOf(FindOr(flat, "zoning_entitlements", Leaf(Null))), DictOf(FindOr(flat, "active_litigation", Leaf(Null)));
    ze !! al && CasesOf(flat) !! ze
  }

  /**
   * The four fixed dicts are four objects, and no fix reads what an earlier
   * one wrote: the narratives and the loan-terms narrative are none of the
   * loan terms and the property overview, and the litigation cases are none
   * of the first three. A record decoded from JSON shares no object.
   */
  ghost predicate Apart(flat: Entries)
    reads DictOf(FindOr(flat, "active_litigation", Leaf(Null))), DictsOf(FindOr(flat, "narratives", Leaf(Null)))
  {
    var lt, po := DictOf(FindOr(flat, "loan_terms", Leaf(Null))), DictOf(FindOr(flat, "property_overview", Leaf(Null)));
    var ze, al := DictOf(FindOr(flat, "zoning_entitlements", Leaf(Null))), DictOf(FindOr(flat, "active_litigation", Leaf(Null)));
    var narr := DictsOf(FindOr(flat, "narratives", Leaf(Null)));
    lt !! po && lt !! ze && lt !! al && po !! ze && po !! al
    && narr !! lt + po
    && (forall x :: x in narr ==> DictOf(FindOr(x.entries, "loan_terms_narrative", Leaf(Null))) !! lt + po)
    && CasesOf(flat) !! lt + po
    && LitigationApart(flat)
  }

  /** The loan terms after main.py:1703-1715 when the narratives hold `n` for them. */
  function FixedLoanTerms(es: Entries, n: Val, ghost u: set<PyDict>): (r: Entries)
    reads u, DictOf(n)
    requires EntriesRefs(es) <= u && Closed(u)
    ensures OnlyFixes(es, r)
    ensures TruthyVal(n) ==> Find(r, "narrative") == Some(n)
    ensures !TruthyVal(n) ==> r == RateAsText(es, u)
  {
    var e := RateAsText(es, u);
    if TruthyVal(n) then
      PutFacts(e, "narrative", n);
      Put(e, "narrative", n)
    else e
  }

  /** The loan-terms step fails: the loan terms are a dict and `narratives` has no `.get`. */
  predicate LoanTermsFail(flat: Entries)
    reads DictsOf(FindOr(flat, "narratives", Leaf(Null)))
  {
    FindOr(flat, "loan_terms", Leaf(Null)).Dict? && LoanTermsNarrative(flat).Err?
  }

  /** The litigation step fails: the litigation is a dict whose truthy cases have no length. */
  predicate LitigationFails(flat: Entries)
    reads DictOf(FindOr(flat, "active_litigation", Leaf(Null)))
    reads var al := FindOr(flat, "active_litigation", Leaf(Null)); if al.Dict? then DictOf(FindOr(al.d.entries, "cases", List([]))) else {}
  {
    var al := FindOr(flat, "active_litigation", Leaf(Null));
    al.Dict? && LitigationNarrative(al.d.entries).Err?
  }

  /**
   * main.py:1703-1715: the rate and the narratives of the loan terms and
   * the property overview. When the loan terms, the property overview, the
   * narratives and the loan-terms narrative are apart, each fixed dict ends
   * up as its own fix makes it from what it held before.
   */
  method FixLoanTerms(flat: Entries, ghost u: set<PyDict>) returns (r: Result<()>)
    requires EntriesRefs(flat) <= u && Closed(u)
    modifies DictOf(FindOr(flat, "loan_terms", Leaf(Null))), DictOf(FindOr(flat, "property_overview", Leaf(Null)))
    ensures Closed(u)
    ensures r.Err? ==> r.error == AttributeError
    ensures old(Apart(flat)) ==> (r.Err? <==> old(LoanTermsFail(flat)))
    ensures var lt := FindOr(flat, "loan_terms", Leaf(Null));
      old(Apart(flat)) && lt.Dict? ==> (lt.d.entries ==
        if r.Err? then old(RateAsText(lt.d.entries, u))
        else old(FixedLoanTerms(lt.d.entries, LoanTermsNarrative(flat).value, u)))
    ensures var po := FindOr(flat, "property_overview", Leaf(Null));
      old(Apart(flat)) && po.Dict? ==> po.d.entries == old(WithNarrative(po.d.entries, "description_narrative"))
    ensures old(Apart(flat)) ==> unchanged(DictOf(FindOr(flat, "zoning_entitlements", Leaf(Null))), DictOf(FindOr(flat, "active_litigation", Leaf(Null))), CasesOf(flat))
  {
    var lt := FindOr(flat, "loan_terms", Leaf(Null));
    ghost var apart := Apart(flat);
    ghost var n0 := LoanTermsNarrative(flat);
    ghost var truthy := n0.Ok? && TruthyVal(n0.value);
    NormalizeRate(flat, u);
    AliasNarrative(flat, "property_overview", "description_narrative", u);
    assert apart ==> LoanTermsNarrative(flat) == n0;
    assert apart && n0.Ok? ==> TruthyVal(n0.value) == truthy;
    r := SetLoanTermsNarrative(flat, u);
  }

  /** main.py:1716-1725: the zoning narrative, then the litigation narrative. */
  method FixLitigation(flat: Entries, ghost u: set<PyDict>) returns (r: Result<()>)
    requires EntriesRefs(flat) <= u && Closed(u)
    modifies DictOf(FindOr(flat, "zoning_entitlements", Leaf(Null))), DictOf(FindOr(flat, "active_litigation", Leaf(Null)))
    ensures Closed(u)
    ensures r.Err? ==> r.error == TypeError
    ensures var al := FindOr(flat, "active_litigation", Leaf(Null));
      r.Ok? && al.Dict? ==> Has(al.d.entries, "narrative")
    ensures old(LitigationApart(flat)) ==> (r.Err? <==> old(LitigationFails(flat)))
    ensures var ze := FindOr(flat, "zoning_entitlements", Leaf(Null));
      old(LitigationApart(flat)) && ze.Dict? ==> ze.d.entries == old(WithNarrative(ze.d.entries, "summary_narrative"))
    ensures var al := FindOr(flat, "active_litigation", Leaf(Null));
      old(LitigationApart(flat)) && al.Dict? ==> (al.d.entries ==
        if r.Err? then old(al.d.entries) else old(LitigationNarrative(al.d.entries)).value)
  {
    var al := FindOr(flat, "active_litigation", Leaf(Null));
    ghost var apart := LitigationApart(flat);
    ghost var lit0 := if al.Dict? then LitigationNarrative(al.d.entries) else Ok([]);
    ghost var al0 := if al.Dict? then al.d.entries else [];
    AliasNarrative(flat, "zoning_entitlements", "summary_narrative", u);
    assert apart && al.Dict? ==> al.d.entries == al0 && LitigationNarrative(al.d.entries) == lit0;
    r := SetLitigationNarrative(flat, u);
  }

  /**
   * main.py:1703-1725: the fixes on the dicts the root holds, in order; the
   * litigation always ends up with a narrative. When the dicts are apart,
   * each ends up as its own fix makes it from what it held before, and a
   * failing loan-terms step leaves the zoning and the litigation alone.
   */
  method FixNarratives(flat: Entries, ghost u: set<PyDict>) returns (r: Result<()>)
    requires EntriesRefs(flat) <= u && Closed(u)
    modifies FixedDicts(flat)
    ensures Closed(u)
    ensures r.Err? ==> r.error in {AttributeError, TypeError}
    ensures var al := FindOr(flat, "active_litigation", Leaf(Null));
      r.Ok? && al.Dict? ==> Has(al.d.entries, "narrative")
    ensures old(Apart(flat)) ==> (r.Err? <==> old(LoanTermsFail(flat)) || old(LitigationFails(flat)))
    ensures var lt := FindOr(flat, "loan_terms", Leaf(Null));
      old(Apart(flat)) && lt.Dict? ==> (lt.d.entries ==
        if old(LoanTermsFail(flat)) then old(RateAsText(lt.d.entries, u))
        else old(FixedLoanTerms(lt.d.entries, LoanTermsNarrative(flat).value, u)))
    ensures var po := FindOr(flat, "property_overview", Leaf(Null));
      old(Apart(flat)) && po.Dict? ==> po.d.entries == old(WithNarrative(po.d.entries, "description_narrative"))
    ensures var ze := FindOr(flat, "zoning_entitlements", Leaf(Null));
      old(Apart(flat)) && ze.Dict? ==> (ze.d.entries ==
        if old(LoanTermsFail(flat)) then old(ze.d.entries) else old(WithNarrative(ze.d.entries, "summary_narrative")))
    ensures var al := FindOr(flat, "active_litigation", Leaf(Null));
      old(Apart(flat)) && al.Dict? ==> (al.d.entries ==
        if r.Err? then old(al.d.entries) else old(LitigationNarrative(al.d.entries)).value)
  {
    ghost var apart := Apart(flat);
    ghost var ltFail := LoanTermsFail(flat);
    ghost var litFails := LitigationFails(flat);
    var ze, al := FindOr(flat, "zoning_entitlements", Leaf(Null)), FindOr(flat, "active_litigation", Leaf(Null));
    ghost var ze0 := if ze.Dict? then ze.d.entries else [];
    ghost var al0 := if al.Dict? then al.d.entries else [];
    ghost var want := if ze.Dict? then WithNarrative(ze0, "summary_narrative") else [];
    ghost var lit0 := if al.Dict? then LitigationNarrative(al0) else Ok([]);
    r := FixLoanTerms(flat, u);
    if r.Err? {
      return;
    }
    assert apart ==> LitigationApart(flat) && LitigationFails(flat) == litFails;
    r := FixLitigation(flat, u);
  }

  /**
   * main.py:1651-1725: what `Gather` builds, with the dicts it holds fixed
   * in place. A dict made for a scenario, and the sponsorship, keep what
   * `Gather` gave them unless the root also holds them under a fixed key.
   */
  method GatherFixed(flat: Entries, sd: PyDict, ghost u: set<PyDict>) returns (r: Result<Entries>, ghost made: set<PyDict>)
    requires sd in u && EntriesRefs(flat) <= u && Closed(u)
    modifies u
    ensures fresh(made) && Closed(u + made)
    ensures r.Err? ==> r.error in {AttributeError, TypeError}
    ensures r.Ok? ==> EntriesRefs(r.value) <= u + made
    ensures r.Ok? ==> KeepsBut(flat, r.value, Replaced)
    ensures r.Ok? ==> Find(r.value, "sections") == Some(Dict(sd))
    ensures r.Ok? ==> Has(r.value, "default_interest_scenario") && Has(r.value, "note_interest_scenario")
    ensures r.Ok? ==> forall i :: 0 <= i < |Overrides| && Has(r.value, Overrides[i].1) ==>
      Find(r.value, Overrides[i].0) == Find(r.value, Overrides[i].1)
    ensures forall k :: k in Scenarios && r.Ok? && !Has(flat, k) ==>
      var v := FindOr(r.value, k, Leaf(Null));
      v.Dict? && v.d in made && (v.d !in FixedDicts(r.value) ==> IsScenario(v.d.entries))
    ensures r.Ok? ==> var al := FindOr(r.value, "active_litigation", Leaf(Null));
      al.Dict? ==> Has(al.d.entries, "narrative")
    ensures var o := old(SponsorOverview(sd));
      r.Ok? && o.Some? && o.value.0 !in FixedDicts(r.value) ==> o.value.0.entries == o.value.1
  {
    var g, m := Gather(flat, sd, u);
    made := m;
    if g.Err? {
      return Err(g.error), made;
    }
    var e := FixNarratives(g.value, u + made);
    if e.Err? {
      return Err(e.error), made;
    }
    r := g;
  }

  /**
   * main.py:1639-1726, `flatten_schema_for_template(data)`: the root is a
   * copy of `data` without `sections`; the sections (the popped value, or a
   * new empty dict when it is falsy) are spread in, aliased and copied, the
   * scenarios added, `sections` put back, the raw objects spread and
   * made to override, and the dicts the root holds fixed in place. A
   * truthy `sections` that is not a dict fails at `.items()`.
   */
  method FlattenSchema(data: PyDict, ghost u: set<PyDict>) returns (r: Result<Entries>, ghost made: set<PyDict>)
    requires data in u && Closed(u)
    modifies u
    ensures fresh(made) && Closed(u + made)
    ensures r.Ok? ==> EntriesRefs(r.value) <= u + made
    ensures var sec := old(FindOr(data.entries, "sections", Leaf(Null)));
      old(TruthyVal(sec)) && !sec.Dict? ==> r == Err(if sec.View? then TypeError else AttributeError)
    ensures r.Err? ==> r.error in {AttributeError, TypeError}
    ensures r.Ok? ==> FindOr(r.value, "sections", Leaf(Null)).Dict?
    ensures var sec := old(FindOr(data.entries, "sections", Leaf(Null)));
      r.Ok? && old(TruthyVal(sec)) ==> Find(r.value, "sections") == Some(sec)
    ensures r.Ok? ==> Has(r.value, "default_interest_scenario") && Has(r.value, "note_interest_scenario")
    ensures r.Ok? ==> KeepsBut(old(Spreaded(data.entries, u)), r.value, Replaced)
    ensures r.Ok? ==> forall k :: k !in Replaced && old(Has(data.entries, k)) ==> Find(r.value, k) == old(Find(data.entries, k))
    ensures r.Ok? ==> forall i :: 0 <= i < |Overrides| && Has(r.value, Overrides[i].1) ==>
      Find(r.value, Overrides[i].0) == Find(r.value, Overrides[i].1)
    ensures forall k :: k in Scenarios && r.Ok? && !old(Has(Spreaded(data.entries, u), k)) ==>
      var v := FindOr(r.value, k, Leaf(Null));
      v.Dict? && v.d in made && (v.d !in FixedDicts(r.value) ==> IsScenario(v.d.entries))
    ensures r.Ok? ==> var al := FindOr(r.value, "active_litigation", Leaf(Null));
      al.Dict? ==> Has(al.d.entries, "narrative")
  {
    var es := data.entries;
    assert EntriesRefs(es) <= u;
    ghost var spreaded := Spreaded(es, u);
    SpreadedKeepsInput(es, u);
    var sec := FindOr(es, "sections", Leaf(Null));
    var flat := Drop(es, "sections");
    DropRefs(es, "sections");
    made := {};
    if TruthyVal(sec) && !sec.Dict? {
      return Err(if sec.View? then TypeError else AttributeError), made;
    }
    // a falsy `sections` is replaced by a new empty dict, which spreads nothing
    var secs := if sec.Dict? then sec.d.entries else [];
    assert secs == SectionsOf(es);
    assert EntriesRefs(secs) <= u by {
      assert EntriesRefs([]) == {};
    }
    SectionDictsRefs(secs);
    var f0 := SpreadSections(flat, secs, u);
    var f1 := ApplyAliases(f0);
    assert f1 == spreaded;
    var sd: PyDict;
    if TruthyVal(sec) {
      sd := sec.d;
    } else {
      sd := new PyDict([]);
      made := {sd};
    }
    assert Closed(u + made) by {
      assert EntriesRefs([]) == {};
    }
    var g, m := GatherFixed(f1, sd, u + made);
    assert u + made + m == u + (made + m);
    made := made + m;
    r := g;
  }
}
