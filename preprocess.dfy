/**
 * `preprocess_layer3_data` (main.py:1482-1541): before a Layer 3 record is
 * flattened, its narratives lose their markdown, the loan terms gain
 * single-line display values and the due-diligence firm gets the name the
 * templates read.
 *
 * The pass works on a deep copy of the record, and a request body holds no
 * shared objects, so changing a dict of the copy in place changes nothing
 * the caller can see: the pass is a function of the record's value, and
 * the caller's record is left as it was.
 */
module Preprocess {
  import opened Wrappers
  import opened Values
  import Text
  import Helpers
  import DealState

  /**
   * The rewriting `strip_markdown` does with regular expressions (headings,
   * emphasis markers, a `[GENERATED]` prefix), before its final `strip()`.
   */
  type Markdown = string -> string

  /**
   * `strip_markdown(v)`: a falsy value comes back as it is, text is
   * rewritten and stripped, and anything else fails inside `re.sub`.
   */
  function StripMarkdown(v: Json, md: Markdown): (r: Result<Json>)
    ensures !Truthy(v) ==> r == Ok(v)
    ensures r.Ok? && Truthy(v) ==> r.value.Str? && Text.Stripped(r.value.s)
    ensures r.Err? <==> Truthy(v) && !v.Str?
    ensures r.Err? ==> r.error == TypeError
  {
    if !Truthy(v) then Ok(v)
    else if v.Str? then Ok(Str(Text.Strip(md(v.s))))
    else Err(TypeError)
  }

  // ------------------------------------------------------------ narratives

  /** main.py:1493-1501: the sections whose `narrative` is stripped, in order. */
  const NarrativeSections: seq<string> := ["transaction_overview", "loan_terms", "property_overview",
    "location_overview", "market_overview", "zoning_entitlements", "exit_strategy"]

  /**
   * What becomes of the value stored under a section: a dict holding
   * `narrative` is replaced by a copy whose narrative is stripped; anything
   * else stays.
   */
  function NarrativeOf(o: Option<Json>, md: Markdown): (r: Result<Option<Json>>)
    ensures r.Err? ==> r.error == TypeError
    ensures r.Ok? ==> (r.value.Some? <==> o.Some?)
  {
    match o
    case Some(Obj(f)) =>
      if HasKey(f, "narrative") then
        var s :- StripMarkdown(Lookup(f, "narrative").value, md);
        Ok(Some(Obj(Set(f, "narrative", s))))
      else Ok(o)
    case _ => Ok(o)
  }

  /** main.py:1502-1505 for one section. */
  function StripNarrative(d: Fields, section: string, md: Markdown): (r: Result<Fields>)
    ensures r.Err? ==> r.error == TypeError
    ensures r.Ok? <==> NarrativeOf(Lookup(d, section), md).Ok?
  {
    match Lookup(d, section)
    case Some(Obj(f)) =>
      if HasKey(f, "narrative") then
        var s :- StripMarkdown(Lookup(f, "narrative").value, md);
        Ok(Set(d, section, Obj(Set(f, "narrative", s))))
      else Ok(d)
    case _ => Ok(d)
  }

  /** `StripNarrative` for every section of `secs`, in order. */
  function StripNarratives(d: Fields, secs: seq<string>, md: Markdown): (r: Result<Fields>)
    ensures r.Err? ==> r.error == TypeError
    decreases |secs|
  {
    if secs == [] then Ok(d)
    else
      var before :- StripNarratives(d, secs[..|secs| - 1], md);
      StripNarrative(before, secs[|secs| - 1], md)
  }

  /** No section is listed twice. */
  lemma NarrativeSectionsDistinct()
    ensures Distinct(NarrativeSections)
  {
  }

  // ------------------------------------------------------------ disclosures and bios

  /** main.py:1508-1510, the top-level narratives. */
  const Disclosures: seq<string> := ["loan_issues_disclosure", "collaborative_ventures_disclosure"]

  /** main.py:1515, the sponsor fields that hold prose. */
  const BioKeys: seq<string> := ["overview", "financial_profile", "track_record"]

  /** `if key in d and d[key]: d[key] = strip_markdown(d[key])` */
  function StripTruthy(d: Fields, key: string, md: Markdown): (r: Result<Fields>)
    ensures r.Err? ==> r.error == TypeError
    ensures r.Err? <==> Lookup(d, key).Some? && StripMarkdown(Lookup(d, key).value, md).Err?
  {
    match Lookup(d, key)
    case Some(v) =>
      if Truthy(v) then
        var s :- StripMarkdown(v, md);
        Ok(Set(d, key, s))
      else Ok(d)
    case None => Ok(d)
  }

  /** `StripTruthy` for every key, in order. */
  function StripAll(d: Fields, keys: seq<string>, md: Markdown): (r: Result<Fields>)
    ensures r.Err? ==> r.error == TypeError
    decreases |keys|
  {
    if keys == [] then Ok(d)
    else
      var before :- StripAll(d, keys[..|keys| - 1], md);
      StripTruthy(before, keys[|keys| - 1], md)
  }

  /** A sponsor that is a dict has its bios stripped; anything else is skipped. */
  function StripSponsor(s: Json, md: Markdown): (r: Result<Json>)
    ensures r.Err? ==> r.error == TypeError
  {
    if s.Obj? then
      var f :- StripAll(s.fields, BioKeys, md);
      Ok(Obj(f))
    else Ok(s)
  }

  /** Every sponsor of the list, in order. */
  function StripSponsors(xs: seq<Json>, md: Markdown): (r: Result<seq<Json>>)
    ensures r.Ok? ==> |r.value| == |xs|
    ensures r.Err? ==> r.error == TypeError
    decreases |xs|
  {
    if xs == [] then Ok([])
    else
      var before :- StripSponsors(xs[..|xs| - 1], md);
      var last :- StripSponsor(xs[|xs| - 1], md);
      Ok(before + [last])
  }

  /**
   * main.py:1513-1517: `for sponsor in result.get('sponsors', [])`. The
   * dicts of a list or tuple are changed in place; iterating text or a
   * dict yields strings, which are skipped; anything else cannot be
   * iterated.
   */
  function StripSponsorBios(d: Fields, md: Markdown): (r: Result<Fields>)
    ensures r.Err? ==> r.error == TypeError
  {
    match Lookup(d, "sponsors")
    case None => Ok(d)
    case Some(v) =>
      match v
      case Arr(xs) =>
        var ys :- StripSponsors(xs, md);
        Ok(Set(d, "sponsors", Arr(ys)))
      case Tuple(xs) =>
        var ys :- StripSponsors(xs, md);
        Ok(Set(d, "sponsors", Tuple(ys)))
      case Str(_) => Ok(d)
      case Obj(_) => Ok(d)
      case _ => Err(TypeError)
  }

  // ------------------------------------------------------------ display values

  /** main.py:1523-1533, the keys the display values are stored under, in order. */
  const DisplayKeys: seq<string> := ["interest_rate_display", "origination_fee_display", "exit_fee_display",
    "term_display", "extension_display"]

  /**
   * The display values of `result.get('loan_terms') or {}`: the first line
   * of the interest rate and the fees, term and extension as they are
   * (`""` when absent), or five blanks when the loan terms are not a dict.
   */
  function DisplayValues(loanTerms: Json): (r: seq<Json>)
    ensures |r| == 5
  {
    var lt := Or(loanTerms, Obj([]));
    if lt.Obj? then DisplaysOf(lt.fields) else [Str(""), Str(""), Str(""), Str(""), Str("")]
  }

  /** The loan-term keys the five display values are read from, in order. */
  const LoanTermKeys: seq<string> := ["interest_rate", "origination_fee", "exit_fee", "term", "extension_option"]

  /** The display values of a loan-terms dict. */
  function DisplaysOf(lt: Fields): (r: seq<Json>)
    ensures |r| == 5
  {
    var vs := seq(5, i requires 0 <= i < 5 => DealState.Fetch(lt, LoanTermKeys[i], Str("")));
    [Str(Helpers.ExtractFirstLine(vs[0]))] + vs[1..]
  }

  /** `d[ks[0]] = vs[0]; d[ks[1]] = vs[1]; ...`, in order. */
  function SetEach(d: Fields, ks: seq<string>, vs: seq<Json>): (r: Fields)
    requires |ks| == |vs|
    decreases |ks|
  {
    if ks == [] then d
    else Set(SetEach(d, ks[..|ks| - 1], vs[..|vs| - 1]), ks[|ks| - 1], vs[|vs| - 1])
  }

  /** The five assignments, in order, with the values read from the loan terms before the first. */
  function SetDisplays(d: Fields): (r: Fields)
  {
    SetEach(d, DisplayKeys, DisplayValues(DealState.Fetch(d, "loan_terms", Null)))
  }

  /** No display key is listed twice. */
  lemma DisplayKeysDistinct()
    ensures Distinct(DisplayKeys)
  {
  }

  /** main.py:1536-1539: a due-diligence dict with `background_check` and no `background_check_firm` gains the latter. */
  function NameBackgroundFirm(d: Fields): (r: Fields)
  {
    match Lookup(d, "due_diligence")
    case Some(Obj(dd)) =>
      if HasKey(dd, "background_check") && !HasKey(dd, "background_check_firm") then
        Set(d, "due_diligence", Obj(Set(dd, "background_check_firm", Lookup(dd, "background_check").value)))
      else d
    case _ => d
  }

  /** `preprocess_layer3_data(data)` with the markdown rewriting `md`. */
  function Preprocess(data: Fields, md: Markdown): (r: Result<Fields>)
    ensures r.Err? ==> r.error == TypeError
  {
    var a :- StripNarratives(data, NarrativeSections, md);
    var b :- StripAll(a, Disclosures, md);
    var c :- StripSponsorBios(b, md);
    Ok(NameBackgroundFirm(SetDisplays(c)))
  }

  // ------------------------------------------------------------ the pass, step by step

  /** `StripTruthy` over the keys with a loop. */
  method StripEach(d: Fields, keys: seq<string>, md: Markdown) returns (r: Result<Fields>)
    ensures r == StripAll(d, keys, md)
  {
    var cur := d;
    var i := 0;
    while i < |keys|
      invariant 0 <= i <= |keys|
      invariant StripAll(d, keys[..i], md) == Ok(cur)
    {
      assert keys[..i + 1][..i] == keys[..i];
      var next := StripTruthy(cur, keys[i], md);
      if next.Err? {
        assert StripAll(d, keys[..i + 1], md) == next;
        StripAllStops(d, keys, i + 1, md);
        return next;
      }
      cur := next.value;
      i := i + 1;
    }
    assert keys[..i] == keys;
    r := Ok(cur);
  }

  /** Once a prefix of the keys fails, the whole run fails the same way. */
  lemma {:induction false} StripAllStops(d: Fields, keys: seq<string>, n: int, md: Markdown)
    requires 0 <= n <= |keys| && StripAll(d, keys[..n], md).Err?
    ensures StripAll(d, keys, md) == StripAll(d, keys[..n], md)
    decreases |keys| - n
  {
    if n < |keys| {
      assert keys[..n + 1][..n] == keys[..n];
      StripAllStops(d, keys, n + 1, md);
    } else {
      assert keys[..n] == keys;
    }
  }

  /** `StripNarrative` over the sections with a loop (main.py:1502-1505). */
  method StripEachNarrative(d: Fields, secs: seq<string>, md: Markdown) returns (r: Result<Fields>)
    ensures r == StripNarratives(d, secs, md)
  {
    var cur := d;
    var i := 0;
    while i < |secs|
      invariant 0 <= i <= |secs|
      invariant StripNarratives(d, secs[..i], md) == Ok(cur)
    {
      assert secs[..i + 1][..i] == secs[..i];
      var next := StripNarrative(cur, secs[i], md);
      if next.Err? {
        assert StripNarratives(d, secs[..i + 1], md) == next;
        NarrativesStop(d, secs, i + 1, md);
        return next;
      }
      cur := next.value;
      i := i + 1;
    }
    assert secs[..i] == secs;
    r := Ok(cur);
  }

  /** The sponsor loop of main.py:1513-1517 over a list of sponsors. */
  method StripEachSponsor(xs: seq<Json>, md: Markdown) returns (r: Result<seq<Json>>)
    ensures r == StripSponsors(xs, md)
  {
    var done: seq<Json> := [];
    var i := 0;
    while i < |xs|
      invariant 0 <= i <= |xs|
      invariant StripSponsors(xs[..i], md) == Ok(done)
    {
      assert xs[..i + 1][..i] == xs[..i];
      var s := StripSponsor(xs[i], md);
      if s.Err? {
        assert StripSponsors(xs[..i + 1], md) == Err(s.error);
        SponsorsStop(xs, i + 1, md);
        return Err(s.error);
      }
      done := done + [s.value];
      i := i + 1;
    }
    assert xs[..i] == xs;
    r := Ok(done);
  }

  /** Once a prefix of the sponsors fails, the whole list fails the same way. */
  lemma {:induction false} SponsorsStop(xs: seq<Json>, n: int, md: Markdown)
    requires 0 <= n <= |xs| && StripSponsors(xs[..n], md).Err?
    ensures StripSponsors(xs, md) == StripSponsors(xs[..n], md)
    decreases |xs| - n
  {
    if n < |xs| {
      assert xs[..n + 1][..n] == xs[..n];
      SponsorsStop(xs, n + 1, md);
    } else {
      assert xs[..n] == xs;
    }
  }

  /** main.py:1513-1517: the sponsor loop over what `sponsors` holds. */
  method StripBios(d: Fields, md: Markdown) returns (r: Result<Fields>)
    ensures r == StripSponsorBios(d, md)
  {
    match Lookup(d, "sponsors") {
      case Some(Arr(xs)) =>
        var ys :- StripEachSponsor(xs, md);
        r := Ok(Set(d, "sponsors", Arr(ys)));
      case Some(Tuple(xs)) =>
        var ys :- StripEachSponsor(xs, md);
        r := Ok(Set(d, "sponsors", Tuple(ys)));
      case Some(Str(_)) =>
        r := Ok(d);
      case Some(Obj(_)) =>
        r := Ok(d);
      case None =>
        r := Ok(d);
      case Some(_) =>
        r := Err(TypeError);
    }
  }

  /**
   * main.py:1482-1541, `preprocess_layer3_data(data)`: the sections'
   * narratives, the two disclosures and the sponsor bios stripped in turn,
   * then the display values, then the background-check firm.
   */
  method PreprocessLayer3(data: Fields, md: Markdown) returns (r: Result<Fields>)
    ensures r == Preprocess(data, md)
  {
    var result :- StripEachNarrative(data, NarrativeSections, md);
    result :- StripEach(result, Disclosures, md);
    result :- StripBios(result, md);
    result := SetDisplays(result);
    r := Ok(NameBackgroundFirm(result));
  }

  /** Once a prefix of the sections fails, the whole table fails the same way. */
  lemma {:induction false} NarrativesStop(d: Fields, secs: seq<string>, n: int, md: Markdown)
    requires 0 <= n <= |secs| && StripNarratives(d, secs[..n], md).Err?
    ensures StripNarratives(d, secs, md) == StripNarratives(d, secs[..n], md)
    decreases |secs| - n
  {
    if n < |secs| {
      assert secs[..n + 1][..n] == secs[..n];
      NarrativesStop(d, secs, n + 1, md);
    } else {
      assert secs[..n] == secs;
    }
  }

  // ------------------------------------------------------------ what the pass keeps

  /** Every key outside `touched` holds the same value in `b` as in `a`, and every key of `a` is in `b`. */
  ghost predicate KeepsOthers(a: Fields, b: Fields, touched: set<string>)
  {
    (forall k :: k !in touched ==> Lookup(b, k) == Lookup(a, k))
    && (forall k :: HasKey(a, k) ==> HasKey(b, k))
  }

  lemma KeepsOthersTrans(a: Fields, b: Fields, c: Fields, t1: set<string>, t2: set<string>)
    requires KeepsOthers(a, b, t1) && KeepsOthers(b, c, t2)
    ensures KeepsOthers(a, c, t1 + t2)
  {
  }

  /** An assignment touches only its key. */
  lemma SetKeeps(d: Fields, k: string, v: Json)
    ensures KeepsOthers(d, Set(d, k, v), {k})
    ensures Lookup(Set(d, k, v), k) == Some(v)
  {
    forall k2 ensures Lookup(Set(d, k, v), k2) == if k2 == k then Some(v) else Lookup(d, k2) {
      LookupSet(d, k, v, k2);
    }
    forall k2 | HasKey(d, k2) ensures HasKey(Set(d, k, v), k2) {
      assert Lookup(d, k2).Some?;
    }
  }

  /** One section step touches only its section, and stores there what `NarrativeOf` says. */
  lemma StripNarrativeKeeps(d: Fields, section: string, md: Markdown)
    requires StripNarrative(d, section, md).Ok?
    ensures KeepsOthers(d, StripNarrative(d, section, md).value, {section})
    ensures NarrativeOf(Lookup(d, section), md) == Ok(Lookup(StripNarrative(d, section, md).value, section))
  {
    var r := StripNarrative(d, section, md).value;
    match Lookup(d, section)
    case Some(Obj(f)) =>
      if HasKey(f, "narrative") {
        var s := StripMarkdown(Lookup(f, "narrative").value, md).value;
        SetKeeps(d, section, Obj(Set(f, "narrative", s)));
      } else {
        SetKeeps(d, section, Obj(f));
        assert KeepsOthers(d, r, {section});
      }
    case _ =>
      assert KeepsOthers(d, r, {section});
  }

  /**
   * The table touches only its sections, and when no section is listed
   * twice each one ends up as its own step made it.
   */
  lemma {:induction false} StripNarrativesKeeps(d: Fields, secs: seq<string>, md: Markdown)
    requires StripNarratives(d, secs, md).Ok?
    ensures KeepsOthers(d, StripNarratives(d, secs, md).value, set k | k in secs)
    ensures Distinct(secs) ==> forall j :: 0 <= j < |secs| ==>
      NarrativeOf(Lookup(d, secs[j]), md) == Ok(Lookup(StripNarratives(d, secs, md).value, secs[j]))
    decreases |secs|
  {
    if secs != [] {
      var init := secs[..|secs| - 1];
      var sec := secs[|secs| - 1];
      var before := StripNarratives(d, init, md).value;
      var r := StripNarratives(d, secs, md).value;
      SplitLast(secs, init, sec);
      StripNarrativesKeeps(d, init, md);
      StripNarrativeKeeps(before, sec, md);
      KeepsOthersTrans(d, before, r, set k | k in init, {sec});
      if Distinct(secs) {
        forall j | 0 <= j < |secs|
          ensures NarrativeOf(Lookup(d, secs[j]), md) == Ok(Lookup(r, secs[j]))
        {
          if j < |secs| - 1 {
            assert secs[j] == init[j] && secs[j] != sec;
          }
        }
      }
    }
  }

  /** `StripTruthy` touches only its key. */
  lemma StripTruthyKeeps(d: Fields, key: string, md: Markdown)
    requires StripTruthy(d, key, md).Ok?
    ensures KeepsOthers(d, StripTruthy(d, key, md).value, {key})
  {
    match Lookup(d, key)
    case Some(v) =>
      if Truthy(v) {
        SetKeeps(d, key, StripMarkdown(v, md).value);
      }
    case None =>
  }

  /** `StripAll` touches only its keys. */
  lemma {:induction false} StripAllKeeps(d: Fields, keys: seq<string>, md: Markdown)
    requires StripAll(d, keys, md).Ok?
    ensures KeepsOthers(d, StripAll(d, keys, md).value, set k | k in keys)
    decreases |keys|
  {
    if keys != [] {
      var init := keys[..|keys| - 1];
      var before := StripAll(d, init, md).value;
      SplitLast(keys, init, keys[|keys| - 1]);
      StripAllKeeps(d, init, md);
      StripTruthyKeeps(before, keys[|keys| - 1], md);
      KeepsOthersTrans(d, before, StripAll(d, keys, md).value, set k | k in init, {keys[|keys| - 1]});
    }
  }

  /** The sponsors step touches only `sponsors`. */
  lemma StripSponsorBiosKeeps(d: Fields, md: Markdown)
    requires StripSponsorBios(d, md).Ok?
    ensures KeepsOthers(d, StripSponsorBios(d, md).value, {"sponsors"})
  {
    match Lookup(d, "sponsors")
    case None =>
    case Some(v) =>
      match v
      case Arr(xs) => SetKeeps(d, "sponsors", Arr(StripSponsors(xs, md).value));
      case Tuple(xs) => SetKeeps(d, "sponsors", Tuple(StripSponsors(xs, md).value));
      case Str(_) =>
      case Obj(_) =>
  }

  /** The keys of `init + [last]` are those of `init`, and `last`. */
  lemma SplitLast(ks: seq<string>, init: seq<string>, last: string)
    requires ks == init + [last]
    ensures (set k | k in init) + {last} == set k | k in ks
    ensures Distinct(ks) ==> Distinct(init) && last !in init
  {
    assert forall i :: 0 <= i < |init| ==> ks[i] == init[i];
    assert ks[|init|] == last;
    forall k | k in ks ensures k in init || k == last {
      var i :| 0 <= i < |ks| && ks[i] == k;
    }
    if Distinct(ks) {
      forall i | 0 <= i < |init| ensures init[i] != last {
        assert ks[i] != ks[|init|];
      }
    }
  }

  /** A run of assignments touches only its keys. */
  lemma {:induction false} SetEachKeeps(d: Fields, ks: seq<string>, vs: seq<Json>)
    requires |ks| == |vs|
    ensures KeepsOthers(d, SetEach(d, ks, vs), set k | k in ks)
    decreases |ks|
  {
    if ks != [] {
      var init, k := ks[..|ks| - 1], ks[|ks| - 1];
      SplitLast(ks, init, k);
      var before := SetEach(d, init, vs[..|vs| - 1]);
      SetEachKeeps(d, init, vs[..|vs| - 1]);
      SetKeeps(before, k, vs[|vs| - 1]);
      KeepsOthersTrans(d, before, SetEach(d, ks, vs), set k' | k' in init, {k});
    }
  }

  /** When no key is listed twice, each key ends up holding its own value. */
  lemma {:induction false} SetEachStores(d: Fields, ks: seq<string>, vs: seq<Json>, i: int)
    requires |ks| == |vs| && Distinct(ks) && 0 <= i < |ks|
    ensures Lookup(SetEach(d, ks, vs), ks[i]) == Some(vs[i])
    decreases |ks|
  {
    var init, k := ks[..|ks| - 1], ks[|ks| - 1];
    SplitLast(ks, init, k);
    LookupSet(SetEach(d, init, vs[..|vs| - 1]), k, vs[|vs| - 1], ks[i]);
    if i < |ks| - 1 {
      assert ks[i] == init[i] && ks[i] != k;
      SetEachStores(d, init, vs[..|vs| - 1], i);
    }
  }

  /** The display step stores the five values and touches nothing else. */
  lemma SetDisplaysKeeps(d: Fields)
    ensures KeepsOthers(d, SetDisplays(d), set k | k in DisplayKeys)
    ensures forall i :: 0 <= i < |DisplayKeys| ==>
      Lookup(SetDisplays(d), DisplayKeys[i]) == Some(DisplayValues(DealState.Fetch(d, "loan_terms", Null))[i])
  {
    var vs := DisplayValues(DealState.Fetch(d, "loan_terms", Null));
    DisplayKeysDistinct();
    SetEachKeeps(d, DisplayKeys, vs);
    forall i | 0 <= i < |DisplayKeys| ensures Lookup(SetDisplays(d), DisplayKeys[i]) == Some(vs[i]) {
      SetEachStores(d, DisplayKeys, vs, i);
    }
  }

  /** The firm step touches only `due_diligence`. */
  lemma NameBackgroundFirmKeeps(d: Fields)
    ensures KeepsOthers(d, NameBackgroundFirm(d), {"due_diligence"})
  {
    match Lookup(d, "due_diligence")
    case Some(Obj(dd)) =>
      if HasKey(dd, "background_check") && !HasKey(dd, "background_check_firm") {
        SetKeeps(d, "due_diligence", Obj(Set(dd, "background_check_firm", Lookup(dd, "background_check").value)));
      }
    case _ =>
  }

  /** Every key the pass may write. */
  ghost const Touched: set<string> :=
    (set k | k in NarrativeSections) + (set k | k in Disclosures) + {"sponsors"} + (set k | k in DisplayKeys) + {"due_diligence"}

  /**
   * Nothing is removed, and every key the pass has no business with (the
   * flat template variables such as `sponsor_table` or `sources_list`)
   * passes through unchanged.
   */
  lemma PreprocessKeepsOthers(data: Fields, md: Markdown)
    requires Preprocess(data, md).Ok?
    ensures KeepsOthers(data, Preprocess(data, md).value, Touched)
  {
    var a := StripNarratives(data, NarrativeSections, md).value;
    var b := StripAll(a, Disclosures, md).value;
    var c := StripSponsorBios(b, md).value;
    StripNarrativesKeeps(data, NarrativeSections, md);
    StripAllKeeps(a, Disclosures, md);
    StripSponsorBiosKeeps(b, md);
    SetDisplaysKeeps(c);
    NameBackgroundFirmKeeps(SetDisplays(c));
    KeepsOthersTrans(data, a, b, set k | k in NarrativeSections, set k | k in Disclosures);
    KeepsOthersTrans(data, b, c, (set k | k in NarrativeSections) + (set k | k in Disclosures), {"sponsors"});
    KeepsOthersTrans(data, c, SetDisplays(c),
      (set k | k in NarrativeSections) + (set k | k in Disclosures) + {"sponsors"}, set k | k in DisplayKeys);
    KeepsOthersTrans(data, SetDisplays(c), NameBackgroundFirm(SetDisplays(c)),
      (set k | k in NarrativeSections) + (set k | k in Disclosures) + {"sponsors"} + (set k | k in DisplayKeys), {"due_diligence"});
  }

  // ------------------------------------------------------------ what the pass produces

  /** A section of the table is written by no other step. */
  lemma SectionApart(k: string)
    requires k in NarrativeSections
    ensures k !in Disclosures && k != "sponsors" && k !in DisplayKeys && k != "due_diligence"
  {
  }

  /** No step before the last writes `due_diligence`. */
  lemma FirmApart()
    ensures "due_diligence" !in NarrativeSections && "due_diligence" !in Disclosures && "due_diligence" !in DisplayKeys
  {
  }

  /** Two loan-terms dicts that agree on the five keys have the same display values. */
  lemma DisplaysOfAgree(f: Fields, g: Fields)
    requires forall k :: k in LoanTermKeys ==> Lookup(g, k) == Lookup(f, k)
    ensures DisplaysOf(g) == DisplaysOf(f)
  {
    forall i | 0 <= i < |LoanTermKeys|
      ensures DealState.Fetch(g, LoanTermKeys[i], Str("")) == DealState.Fetch(f, LoanTermKeys[i], Str(""))
    {
      assert Lookup(g, LoanTermKeys[i]) == Lookup(f, LoanTermKeys[i]);
    }
  }

  /** Stripping the narrative of the loan terms leaves their display values as they were. */
  lemma DisplaysIgnoreNarrative(f: Fields, s: Json)
    requires HasKey(f, "narrative")
    ensures DisplayValues(Obj(Set(f, "narrative", s))) == DisplayValues(Obj(f))
  {
    var g := Set(f, "narrative", s);
    assert |g| == |f| > 0;
    assert "narrative" !in LoanTermKeys;
    forall k | k in LoanTermKeys ensures Lookup(g, k) == Lookup(f, k) {
      LookupSet(f, "narrative", s, k);
    }
    DisplaysOfAgree(f, g);
    assert Truthy(Obj(g)) && Truthy(Obj(f));
    assert DisplayValues(Obj(g)) == DisplaysOf(g);
    assert DisplayValues(Obj(f)) == DisplaysOf(f);
  }

  /** Every section of the table ends up as `NarrativeOf` says, from the record as given. */
  lemma PreprocessNarratives(data: Fields, md: Markdown, j: int)
    requires Preprocess(data, md).Ok? && 0 <= j < |NarrativeSections|
    ensures NarrativeOf(Lookup(data, NarrativeSections[j]), md) == Ok(Lookup(Preprocess(data, md).value, NarrativeSections[j]))
  {
    var a := StripNarratives(data, NarrativeSections, md).value;
    NarrativeSectionsDistinct();
    StripNarrativesKeeps(data, NarrativeSections, md);
    SectionApart(NarrativeSections[j]);
    AfterNarrativesKeep(a, md, NarrativeSections[j]);
  }

  /** The steps after the narratives leave every other key as the narratives left it. */
  lemma AfterNarrativesKeep(a: Fields, md: Markdown, k: string)
    requires StripAll(a, Disclosures, md).Ok? && StripSponsorBios(StripAll(a, Disclosures, md).value, md).Ok?
    requires k !in Disclosures && k != "sponsors" && k !in DisplayKeys
    ensures Lookup(SetDisplays(StripSponsorBios(StripAll(a, Disclosures, md).value, md).value), k) == Lookup(a, k)
    ensures k != "due_diligence" ==>
      Lookup(NameBackgroundFirm(SetDisplays(StripSponsorBios(StripAll(a, Disclosures, md).value, md).value)), k)
      == Lookup(a, k)
  {
    var b := StripAll(a, Disclosures, md).value;
    var c := StripSponsorBios(b, md).value;
    StripAllKeeps(a, Disclosures, md);
    assert Lookup(b, k) == Lookup(a, k);
    StripSponsorBiosKeeps(b, md);
    assert Lookup(c, k) == Lookup(a, k);
    SetDisplaysKeeps(c);
    assert Lookup(SetDisplays(c), k) == Lookup(a, k);
    NameBackgroundFirmKeeps(SetDisplays(c));
  }

  /** Stripping the narrative leaves the display values of the loan terms as they were. */
  lemma DisplaysThroughNarrative(d1: Fields, d2: Fields, md: Markdown)
    requires NarrativeOf(Lookup(d1, "loan_terms"), md) == Ok(Lookup(d2, "loan_terms"))
    ensures DisplayValues(DealState.Fetch(d2, "loan_terms", Null)) == DisplayValues(DealState.Fetch(d1, "loan_terms", Null))
  {
    match Lookup(d1, "loan_terms")
    case Some(Obj(f)) =>
      if HasKey(f, "narrative") {
        DisplaysIgnoreNarrative(f, StripMarkdown(Lookup(f, "narrative").value, md).value);
      }
    case _ =>
  }

  /** The disclosure and sponsor steps leave the loan terms alone. */
  lemma LoanTermsKept(a: Fields, md: Markdown)
    requires StripAll(a, Disclosures, md).Ok? && StripSponsorBios(StripAll(a, Disclosures, md).value, md).Ok?
    ensures Lookup(StripSponsorBios(StripAll(a, Disclosures, md).value, md).value, "loan_terms") == Lookup(a, "loan_terms")
  {
    var b := StripAll(a, Disclosures, md).value;
    assert "loan_terms" !in Disclosures;
    StripAllKeeps(a, Disclosures, md);
    StripSponsorBiosKeeps(b, md);
  }

  /** The firm step leaves the display values alone. */
  lemma DisplaysKept(c: Fields, i: int)
    requires 0 <= i < |DisplayKeys|
    ensures Lookup(NameBackgroundFirm(SetDisplays(c)), DisplayKeys[i])
      == Some(DisplayValues(DealState.Fetch(c, "loan_terms", Null))[i])
  {
    assert DisplayKeys[i] != "due_diligence";
    SetDisplaysKeeps(c);
    NameBackgroundFirmKeeps(SetDisplays(c));
  }

  /**
   * The five display values are those of the loan terms the caller sent
   * (stripping their narrative does not change them), or blanks.
   */
  lemma PreprocessDisplays(data: Fields, md: Markdown, i: int)
    requires Preprocess(data, md).Ok? && 0 <= i < |DisplayKeys|
    ensures Lookup(Preprocess(data, md).value, DisplayKeys[i])
      == Some(DisplayValues(DealState.Fetch(data, "loan_terms", Null))[i])
  {
    var a := StripNarratives(data, NarrativeSections, md).value;
    var c := StripSponsorBios(StripAll(a, Disclosures, md).value, md).value;
    NarrativeSectionsDistinct();
    StripNarrativesKeeps(data, NarrativeSections, md);
    assert NarrativeSections[1] == "loan_terms";
    LoanTermsKept(a, md);
    DisplaysThroughNarrative(data, c, md);
    DisplaysKept(c, i);
  }

  /**
   * What `after` holds in place of `before` under `due_diligence`: a dict
   * with `background_check` and no `background_check_firm` gains the
   * latter, holding the former's value, and keeps everything else;
   * anything else is as it was.
   */
  ghost predicate FirmNamed(before: Option<Json>, after: Option<Json>)
  {
    if before.Some? && before.value.Obj? && HasKey(before.value.fields, "background_check")
      && !HasKey(before.value.fields, "background_check_firm")
    then
      exists dd' :: after == Some(Obj(dd'))
        && Lookup(dd', "background_check_firm") == Lookup(before.value.fields, "background_check")
        && KeepsOthers(before.value.fields, dd', {"background_check_firm"})
    else after == before
  }

  /** main.py:1536-1539 names the firm as `FirmNamed` says. */
  lemma NameBackgroundFirmNames(e: Fields)
    ensures FirmNamed(Lookup(e, "due_diligence"), Lookup(NameBackgroundFirm(e), "due_diligence"))
  {
    var o := Lookup(e, "due_diligence");
    if o.Some? && o.value.Obj? && HasKey(o.value.fields, "background_check")
      && !HasKey(o.value.fields, "background_check_firm")
    {
      var dd := o.value.fields;
      var dd' := Set(dd, "background_check_firm", Lookup(dd, "background_check").value);
      SetKeeps(dd, "background_check_firm", Lookup(dd, "background_check").value);
      SetKeeps(e, "due_diligence", Obj(dd'));
      assert Lookup(NameBackgroundFirm(e), "due_diligence") == Some(Obj(dd'));
    }
  }

  /** The pass names the background-check firm as `FirmNamed` says, from the record as given. */
  lemma PreprocessFirm(data: Fields, md: Markdown)
    requires Preprocess(data, md).Ok?
    ensures FirmNamed(Lookup(data, "due_diligence"), Lookup(Preprocess(data, md).value, "due_diligence"))
  {
    var a := StripNarratives(data, NarrativeSections, md).value;
    var c := StripSponsorBios(StripAll(a, Disclosures, md).value, md).value;
    FirmApart();
    StripNarrativesKeeps(data, NarrativeSections, md);
    AfterNarrativesKeep(a, md, "due_diligence");
    NameBackgroundFirmNames(SetDisplays(c));
  }

  // ------------------------------------------------------------ disclosures and bios, stored

  /**
   * What `after` holds in place of `before` under a key stripped with
   * `StripTruthy`: nothing when there was nothing, and otherwise the value
   * `strip_markdown` gives (a falsy value is given back as it is).
   */
  ghost predicate Disclosed(before: Option<Json>, after: Option<Json>, md: Markdown)
  {
    (before.None? <==> after.None?) && (before.Some? ==> StripMarkdown(before.value, md) == Ok(after.value))
  }

  /** One `StripTruthy` stores what `Disclosed` says under its key. */
  lemma StripTruthyStores(d: Fields, key: string, md: Markdown)
    requires StripTruthy(d, key, md).Ok?
    ensures Disclosed(Lookup(d, key), Lookup(StripTruthy(d, key, md).value, key), md)
  {
    match Lookup(d, key)
    case Some(v) =>
      if Truthy(v) {
        SetKeeps(d, key, StripMarkdown(v, md).value);
      }
    case None =>
  }

  /** When no key is listed twice, each key ends up as its own `StripTruthy` left it. */
  lemma {:induction false} StripAllStores(d: Fields, keys: seq<string>, md: Markdown)
    requires StripAll(d, keys, md).Ok? && Distinct(keys)
    ensures forall j :: 0 <= j < |keys| ==> Disclosed(Lookup(d, keys[j]), Lookup(StripAll(d, keys, md).value, keys[j]), md)
    decreases |keys|
  {
    if keys != [] {
      var init, key := keys[..|keys| - 1], keys[|keys| - 1];
      var before := StripAll(d, init, md).value;
      var r := StripAll(d, keys, md).value;
      SplitLast(keys, init, key);
      StripAllStores(d, init, md);
      StripTruthyKeeps(before, key, md);
      StripTruthyStores(before, key, md);
      StripAllKeeps(d, init, md);
      forall j | 0 <= j < |keys| ensures Disclosed(Lookup(d, keys[j]), Lookup(r, keys[j]), md) {
        if j < |keys| - 1 {
          assert keys[j] == init[j] && keys[j] != key;
        }
      }
    }
  }

  /**
   * What a sponsor becomes: a dict keeps every field but the bios, and each
   * bio is as `Disclosed` says; anything else is left as it is.
   */
  ghost predicate SponsorStripped(before: Json, after: Json, md: Markdown)
  {
    if before.Obj? then
      after.Obj? && KeepsOthers(before.fields, after.fields, set k | k in BioKeys)
      && forall j :: 0 <= j < |BioKeys| ==> Disclosed(Lookup(before.fields, BioKeys[j]), Lookup(after.fields, BioKeys[j]), md)
    else after == before
  }

  /** main.py:1514-1517 for one sponsor. */
  lemma StripSponsorStores(s: Json, md: Markdown)
    requires StripSponsor(s, md).Ok?
    ensures SponsorStripped(s, StripSponsor(s, md).value, md)
  {
    if s.Obj? {
      assert Distinct(BioKeys);
      StripAllKeeps(s.fields, BioKeys, md);
      StripAllStores(s.fields, BioKeys, md);
    }
  }

  /** Every sponsor of the list is stripped as `SponsorStripped` says, in place. */
  lemma {:induction false} StripSponsorsStores(xs: seq<Json>, md: Markdown)
    requires StripSponsors(xs, md).Ok?
    ensures forall i :: 0 <= i < |xs| ==> SponsorStripped(xs[i], StripSponsors(xs, md).value[i], md)
    decreases |xs|
  {
    if xs != [] {
      var init := xs[..|xs| - 1];
      StripSponsorsStores(init, md);
      StripSponsorStores(xs[|xs| - 1], md);
      var r := StripSponsors(xs, md).value;
      assert r == StripSponsors(init, md).value + [StripSponsor(xs[|xs| - 1], md).value];
      forall i | 0 <= i < |xs| ensures SponsorStripped(xs[i], r[i], md) {
        if i < |xs| - 1 {
          assert xs[i] == init[i];
        }
      }
    }
  }

  /** Each sponsor of `after` is the one at the same place in `before`, stripped. */
  ghost predicate Stripped(before: seq<Json>, after: seq<Json>, md: Markdown)
  {
    |after| == |before| && forall i :: 0 <= i < |before| ==> SponsorStripped(before[i], after[i], md)
  }

  /**
   * What `after` holds in place of `before` under `sponsors`: a list or a
   * tuple keeps its kind and its length, with every sponsor stripped;
   * anything else is as it was.
   */
  ghost predicate SponsorsStripped(before: Option<Json>, after: Option<Json>, md: Markdown)
  {
    match before
    case Some(Arr(xs)) => after.Some? && after.value.Arr? && Stripped(xs, after.value.items, md)
    case Some(Tuple(xs)) => after.Some? && after.value.Tuple? && Stripped(xs, after.value.parts, md)
    case _ => after == before
  }

  /** main.py:1513-1517 strips the sponsors as `SponsorsStripped` says. */
  lemma StripSponsorBiosStores(d: Fields, md: Markdown)
    requires StripSponsorBios(d, md).Ok?
    ensures SponsorsStripped(Lookup(d, "sponsors"), Lookup(StripSponsorBios(d, md).value, "sponsors"), md)
  {
    match Lookup(d, "sponsors")
    case None =>
    case Some(v) =>
      match v
      case Arr(xs) =>
        SetKeeps(d, "sponsors", Arr(StripSponsors(xs, md).value));
        StripSponsorsStores(xs, md);
      case Tuple(xs) =>
        SetKeeps(d, "sponsors", Tuple(StripSponsors(xs, md).value));
        StripSponsorsStores(xs, md);
      case Str(_) =>
      case Obj(_) =>
  }

  /** A disclosure is written by no other step. */
  lemma DisclosureApart(k: string)
    requires k in Disclosures
    ensures k !in NarrativeSections && k != "sponsors" && k !in DisplayKeys && k != "due_diligence"
  {
  }

  /** `sponsors` is written by no other step. */
  lemma SponsorsApart()
    ensures "sponsors" !in NarrativeSections && "sponsors" !in Disclosures && "sponsors" !in DisplayKeys
  {
  }

  /** No disclosure is listed twice. */
  lemma DisclosuresDistinct()
    ensures Distinct(Disclosures)
  {
  }

  /** The steps after the sponsors leave every key they do not write as the sponsors step left it. */
  lemma AfterBiosKeep(c: Fields, k: string)
    requires k !in DisplayKeys && k != "due_diligence"
    ensures Lookup(NameBackgroundFirm(SetDisplays(c)), k) == Lookup(c, k)
  {
    SetDisplaysKeeps(c);
    NameBackgroundFirmKeeps(SetDisplays(c));
  }

  /** Each disclosure of the result is the input's, stripped as `Disclosed` says. */
  lemma PreprocessDisclosures(data: Fields, md: Markdown, j: int)
    requires Preprocess(data, md).Ok? && 0 <= j < |Disclosures|
    ensures Disclosed(Lookup(data, Disclosures[j]), Lookup(Preprocess(data, md).value, Disclosures[j]), md)
  {
    var k := Disclosures[j];
    var a := StripNarratives(data, NarrativeSections, md).value;
    var b := StripAll(a, Disclosures, md).value;
    var c := StripSponsorBios(b, md).value;
    DisclosureApart(k);
    StripNarrativesKeeps(data, NarrativeSections, md);
    DisclosuresDistinct();
    StripAllStores(a, Disclosures, md);
    assert Disclosed(Lookup(data, k), Lookup(b, k), md);
    StripSponsorBiosKeeps(b, md);
    AfterBiosKeep(c, k);
    assert Preprocess(data, md).value == NameBackgroundFirm(SetDisplays(c));
    assert Lookup(Preprocess(data, md).value, k) == Lookup(b, k);
  }

  /** The sponsors of the result are the input's, each stripped as `SponsorsStripped` says. */
  lemma PreprocessBios(data: Fields, md: Markdown)
    requires Preprocess(data, md).Ok?
    ensures SponsorsStripped(Lookup(data, "sponsors"), Lookup(Preprocess(data, md).value, "sponsors"), md)
  {
    var a := StripNarratives(data, NarrativeSections, md).value;
    var b := StripAll(a, Disclosures, md).value;
    var c := StripSponsorBios(b, md).value;
    SponsorsApart();
    StripNarrativesKeeps(data, NarrativeSections, md);
    StripAllKeeps(a, Disclosures, md);
    assert Lookup(b, "sponsors") == Lookup(data, "sponsors");
    StripSponsorBiosStores(b, md);
    AfterBiosKeep(c, "sponsors");
  }
}
