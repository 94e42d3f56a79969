/**
 * The section builders of `DealInputToSchemaMapper` (main.py:805-1185):
 * each reads the mapper's section dictionaries (the `Parts` of
 * `DealState`) and produces one section of the memo, with fixed
 * placeholders where the deal has nothing to show.
 *
 * A builder calls `.get` on the sections it reads, so a section that is
 * neither empty nor a dict raises AttributeError; iterating a value that
 * is not a collection raises TypeError.
 */
module DealSections {
  import opened Wrappers
  import Text
  import Numbers
  import opened Values
  import Helpers
  import Layer2
  import Layer2Memo
  import Sponsorship
  import opened DealState

  // ---------------------------------------------------------------- helpers

  /** `d.get(k)` on a dict. */
  function Field(f: Fields, k: string): (r: Json)
    ensures HasKey(f, k) ==> r == Lookup(f, k).value
    ensures !HasKey(f, k) ==> r == Null
  {
    Fetch(f, k, Null)
  }

  /** `_str_or_empty(v) or "N/A"`: never blank. */
  function Shown(v: Json): (r: string)
    ensures r != []
    ensures Helpers.StrOrEmpty(v) != [] ==> r == Helpers.StrOrEmpty(v)
    ensures v.Null? ==> r == "N/A"
  {
    var s := Helpers.StrOrEmpty(v);
    if s == [] then "N/A" else s
  }

  /** `s[:n]` on text. */
  function Prefix(s: string, n: nat): (r: string)
    ensures |r| <= n && |r| <= |s| && r == s[..|r|]
    ensures |s| <= n ==> r == s
    ensures |s| >= n ==> |r| == n
  {
    s[..if |s| <= n then |s| else n]
  }

  /**
   * `v[:n]`: text, lists and tuples are cut to their first `n` items;
   * anything else cannot be sliced (a dict raises TypeError up to
   * Python 3.11).
   */
  function Slice(v: Json, n: nat): (r: Result<Json>)
    ensures v.Str? ==> r == Ok(Str(Prefix(v.s, n)))
    ensures v.Arr? ==> r.Ok? && r.value.Arr? && |r.value.items| <= n
    ensures v.Arr? && |v.items| <= n ==> r == Ok(v)
    ensures v.Tuple? ==> r.Ok? && r.value.Tuple? && |r.value.parts| <= n
    ensures r.Err? <==> !(v.Str? || v.Arr? || v.Tuple?)
    ensures r.Err? ==> r.error == TypeError
  {
    match v
    case Str(s) => Ok(Str(Prefix(s, n)))
    case Arr(xs) => if |xs| <= n then Ok(v) else Ok(Arr(xs[..n]))
    case Tuple(xs) => if |xs| <= n then Ok(v) else Ok(Tuple(xs[..n]))
    case _ => Err(TypeError)
  }

  /** `for x in (v or [])` */
  function ItemsOf(v: Json): (r: Result<seq<Json>>)
    ensures !Truthy(v) ==> r == Ok([])
    ensures v.Arr? ==> r == Ok(v.items)
    ensures r.Err? <==> Truthy(v) && !(v.Str? || v.Obj? || v.Arr? || v.Tuple?)
    ensures r.Err? ==> r.error == TypeError
  {
    if Truthy(v) then Iterate(v) else Ok([])
  }

  /** `for x in v[:n]` */
  function FirstItems(v: Json, n: nat): (r: Result<seq<Json>>)
    ensures r.Ok? ==> |r.value| <= n
    ensures r.Err? <==> !(v.Str? || v.Arr? || v.Tuple?)
    ensures r.Err? ==> r.error == TypeError
  {
    var cut :- Slice(v, n);
    Iterate(cut)
  }

  /** How many of the items are dicts. */
  function DictCount(items: seq<Json>): (n: nat)
    ensures n <= |items|
    decreases |items|
  {
    if items == [] then 0 else (if items[0].Obj? then 1 else 0) + DictCount(items[1..])
  }

  /** `[row(x) for x in items if isinstance(x, dict)]`: the loops that skip everything but dicts. */
  function DictRows(items: seq<Json>, row: Fields -> Json): (r: seq<Json>)
    ensures |r| == DictCount(items)
    decreases |items|
  {
    if items == [] then []
    else (if items[0].Obj? then [row(items[0].fields)] else []) + DictRows(items[1..], row)
  }

  /** A single dict gives a single row. */
  lemma DictRowsOne(x: Json, row: Fields -> Json)
    requires x.Obj?
    ensures DictRows([x], row) == [row(x.fields)]
  {
    assert [x][1..] == [];
  }

  /** Each row comes from a dict item, in order: row `j` is the row of some dict at or after position `j`. */
  lemma {:induction false} DictRowsFrom(items: seq<Json>, row: Fields -> Json, j: int)
    requires 0 <= j < |DictRows(items, row)|
    ensures exists i :: j <= i < |items| && items[i].Obj? && DictRows(items, row)[j] == row(items[i].fields)
    decreases |items|
  {
    var rest := DictRows(items[1..], row);
    if items[0].Obj? {
      if j == 0 {
        assert DictRows(items, row)[0] == row(items[0].fields);
      } else {
        DictRowsFrom(items[1..], row, j - 1);
        var i :| j - 1 <= i < |items[1..]| && items[1..][i].Obj? && rest[j - 1] == row(items[1..][i].fields);
        assert items[i + 1] == items[1..][i];
      }
    } else {
      DictRowsFrom(items[1..], row, j);
      var i :| j <= i < |items[1..]| && items[1..][i].Obj? && rest[j] == row(items[1..][i].fields);
      assert items[i + 1] == items[1..][i];
    }
  }

  /** When every item is a dict, there is one row per item, in order. */
  lemma {:induction false} DictRowsAll(items: seq<Json>, row: Fields -> Json)
    requires forall i :: 0 <= i < |items| ==> items[i].Obj?
    ensures |DictRows(items, row)| == |items|
    ensures forall i :: 0 <= i < |items| ==> DictRows(items, row)[i] == row(items[i].fields)
    decreases |items|
  {
    if items != [] {
      DictRowsAll(items[1..], row);
      assert forall i :: 1 <= i < |items| ==> items[i] == items[1..][i - 1];
    }
  }

  /** Items without a single dict among them give no rows. */
  lemma {:induction false} DictRowsNone(items: seq<Json>, row: Fields -> Json)
    requires forall i :: 0 <= i < |items| ==> !items[i].Obj?
    ensures DictRows(items, row) == []
    decreases |items|
  {
    if items != [] {
      DictRowsNone(items[1..], row);
    }
  }

  /** The rows of two lists back to back. */
  lemma {:induction false} DictRowsAppend(a: seq<Json>, b: seq<Json>, row: Fields -> Json)
    ensures DictRows(a + b, row) == DictRows(a, row) + DictRows(b, row)
    decreases |a|
  {
    if a == [] {
      assert a + b == b;
    } else {
      assert (a + b)[0] == a[0] && (a + b)[1..] == a[1..] + b;
      DictRowsAppend(a[1..], b, row);
    }
  }

  /** `out = []; for x in items: if isinstance(x, dict): out.append(row(x))` */
  method CollectDictRows(items: seq<Json>, row: Fields -> Json) returns (out: seq<Json>)
    ensures out == DictRows(items, row)
  {
    out := [];
    var i := 0;
    while i < |items|
      invariant 0 <= i <= |items|
      invariant out + DictRows(items[i..], row) == DictRows(items, row)
    {
      assert items[i..][0] == items[i] && items[i..][1..] == items[i + 1..];
      if items[i].Obj? {
        out := out + [row(items[i].fields)];
      }
      i := i + 1;
    }
    assert items[i..] == [];
  }

  /** Rows `{"label": caption, "value": text}` whose text is never blank. */
  predicate ShownRows(rows: seq<Json>)
  {
    forall i :: 0 <= i < |rows| ==> rows[i].Obj? && |rows[i].fields| == 2 && rows[i].fields[1].1.Str? && rows[i].fields[1].1.s != []
  }

  /** Each caption with `_str_or_empty(value) or "N/A"`. */
  function ShownFacts(captions: seq<string>, values: seq<Json>): (r: seq<Json>)
    requires |captions| == |values|
    ensures Layer2Memo.Captioned(r, captions) && ShownRows(r)
  {
    Layer2Memo.Facts(captions, seq(|values|, i requires 0 <= i < |values| => Str(Shown(values[i]))))
  }

  /** A list of names: non-empty, stripped texts without commas. */
  predicate NameList(v: Json)
  {
    v.Arr? && forall i :: 0 <= i < |v.items| ==>
      v.items[i].Str? && v.items[i].s != [] && ',' !in v.items[i].s && Text.Stripped(v.items[i].s)
  }

  function Names(v: Json): (r: Json)
    ensures NameList(r)
  {
    Arr(Layer2.Strs(Helpers.SplitList(Or(v, Str("")))))
  }

  // ------------------------------------------------------------------ cover

  function CoverJson(name: string, address: string, committee: Json, team: Json, date: string): (r: Json)
    ensures r.Obj? && Keys(r.fields) == ["memo_subtitle", "memo_title", "property_name", "property_address", "credit_committee", "underwriting_team", "memo_date"]
    ensures r.fields[2].1 == Str(name) && r.fields[3].1 == Str(address) && r.fields[4].1 == committee
    ensures r.fields[5].1 == team && r.fields[6].1 == Str(date)
  {
    Obj([("memo_subtitle", Str("CREDIT COMMITTEE MEMO")), ("memo_title", Str("BRIDGE LOAN REQUEST")),
         ("property_name", Str(name)), ("property_address", Str(address)),
         ("credit_committee", committee), ("underwriting_team", team), ("memo_date", Str(date))])
  }

  /** `_build_cover`; the date the clock gives when the deal has none is the parameter `today`. */
  function DealCover(p: Parts, today: string): (r: Result<Json>)
    ensures r.Ok? <==> p.property.Obj? && p.cover.Obj?
    ensures r.Err? ==> r.error == AttributeError
    ensures r.Ok? ==> r.value.Obj? && |r.value.fields| == 7
    ensures r.Ok? ==> NameList(r.value.fields[4].1) && NameList(r.value.fields[5].1)
    ensures r.Ok? ==> var date := Helpers.StrOrEmpty(Field(p.cover.fields, "date"));
      r.value.fields[6].1 == Str(if date != [] then date else today)
    ensures r.Ok? ==> r.value.fields[2].1 == Str(Helpers.StrOrEmpty(Field(p.property.fields, "name")))
  {
    var prop :- AsDict(p.property);
    var cover :- AsDict(p.cover);
    var date := Helpers.StrOrEmpty(Field(cover, "date"));
    Ok(CoverJson(Helpers.StrOrEmpty(Field(prop, "name")), Helpers.StrOrEmpty(Field(cover, "property_address")),
                 Names(Field(cover, "credit_committee")), Names(Field(cover, "underwriting_team")),
                 if date != [] then date else today))
  }

  // ---------------------------------------------------- transaction overview

  const DealFactCaptions: seq<string> := ["Property Type", "Property Name", "Loan Purpose", "Loan Amount", "Source"]
  const LoanTermCaptions: seq<string> := ["Interest Rate", "Origination Fee", "Exit Fee", "Prepayment", "Guaranty"]
  const LeverageCaptions: seq<string> := ["LTC at Closing", "LTV at Closing", "LTV at Maturity", "Debt Yield"]

  /** The interest-rate description: a dict's `description`, or a plain-text rate itself. */
  function RateDescription(raw: Json): (r: Json)
    ensures raw.Str? ==> r == raw
    ensures raw.Obj? ==> r == Field(raw.fields, "description")
    ensures !raw.Str? && !raw.Obj? ==> r == Null
  {
    var ir := if raw.Obj? then raw.fields else if raw.Str? then [("description", raw), ("default_rate", Str(""))] else [];
    Field(ir, "description")
  }

  function DealFactRows(df: Fields, prop: Fields): (r: seq<Json>)
    ensures Layer2Memo.Captioned(r, DealFactCaptions) && ShownRows(r)
  {
    ShownFacts(DealFactCaptions, [Field(df, "property_type"), Field(prop, "name"),
      Field(df, "loan_purpose"), Field(df, "loan_amount"), Field(df, "source")])
  }

  function LoanTermRows(lt: Fields): (r: seq<Json>)
    ensures Layer2Memo.Captioned(r, LoanTermCaptions) && ShownRows(r)
  {
    ShownFacts(LoanTermCaptions, [RateDescription(Field(lt, "interest_rate")), Field(lt, "origination_fee"),
      Field(lt, "exit_fee"), Field(lt, "prepayment"), Field(lt, "guaranty")])
  }

  function LeverageRows(lev: Fields): (r: seq<Json>)
    ensures Layer2Memo.Captioned(r, LeverageCaptions) && ShownRows(r)
  {
    ShownFacts(LeverageCaptions, [Or(Field(lev, "fb_ltc_at_closing"), Field(lev, "ltc_at_closing")),
      Field(lev, "ltv_at_closing"), Field(lev, "ltv_at_maturity"),
      Or(Field(lev, "debt_yield_fully_drawn"), Field(lev, "debt_yield"))])
  }

  /** `_build_transaction_overview`: three tables of facts, every value shown as text or "N/A". */
  function TransactionOverview(p: Parts): (r: Result<Json>)
    ensures r.Ok? <==> p.loanTerms.Obj? && p.dealFacts.Obj? && p.property.Obj? && p.leverage.Obj?
    ensures r.Err? ==> r.error == AttributeError
    ensures r.Ok? ==> r.value.Obj? && Keys(r.value.fields) == ["deal_facts", "loan_terms", "leverage_metrics"]
    ensures r.Ok? ==> var f := r.value.fields;
      f[0].1.Arr? && Layer2Memo.Captioned(f[0].1.items, DealFactCaptions) && ShownRows(f[0].1.items)
      && f[1].1.Arr? && Layer2Memo.Captioned(f[1].1.items, LoanTermCaptions) && ShownRows(f[1].1.items)
      && f[2].1.Arr? && Layer2Memo.Captioned(f[2].1.items, LeverageCaptions) && ShownRows(f[2].1.items)
  {
    var lt :- AsDict(p.loanTerms);
    var df :- AsDict(p.dealFacts);
    var prop :- AsDict(p.property);
    var lev :- AsDict(p.leverage);
    Ok(OverviewJson(DealFactRows(df, prop), LoanTermRows(lt), LeverageRows(lev)))
  }

  function OverviewJson(facts: seq<Json>, terms: seq<Json>, ratios: seq<Json>): (r: Json)
    ensures r.Obj? && Keys(r.fields) == ["deal_facts", "loan_terms", "leverage_metrics"]
    ensures r.fields[0].1 == Arr(facts) && r.fields[1].1 == Arr(terms) && r.fields[2].1 == Arr(ratios)
  {
    Obj([("deal_facts", Arr(facts)), ("loan_terms", Arr(terms)), ("leverage_metrics", Arr(ratios))])
  }

  // ------------------------------------------------------ executive summary

  function HighlightText(h: Fields): Json
  {
    Str(Helpers.StrOrEmpty(Or(Field(h, "highlight"), Field(h, "description"))))
  }

  /** The overview narrative: the one given, else a sentence naming the property. */
  function OverviewNarrative(n: Fields, property: Json): (r: Result<Json>)
    ensures Truthy(Field(n, "transaction_overview")) ==> r == Ok(Field(n, "transaction_overview"))
    ensures r.Ok? <==> Truthy(Field(n, "transaction_overview")) || property.Obj?
    ensures r.Err? ==> r.error == AttributeError
  {
    var given := Or(Field(n, "transaction_overview"), Str(""));
    if Truthy(given) then Ok(given)
    else
      var prop :- AsDict(property);
      Ok(Str("Bridge loan request for " + StrOf(Or(Field(prop, "name"), Str("the property"))) + ". See narratives for full overview."))
  }

  function SummaryJson(text: string, highlights: seq<Json>): (r: Json)
    ensures r.Obj? && Keys(r.fields) == ["narrative", "transaction_overview", "key_highlights", "recommendation", "conditions"]
    ensures r.fields[0].1 == r.fields[1].1 == Str(text)
    ensures r.fields[2].1.Arr? && r.fields[2].1.items != []
    ensures highlights != [] ==> r.fields[2].1 == Arr(highlights)
  {
    Obj([("narrative", Str(text)), ("transaction_overview", Str(text)),
         ("key_highlights", Arr(if highlights == [] then [Str("See deal highlights.")] else highlights)),
         ("recommendation", Str("APPROVE - Subject to conditions")),
         ("conditions", Layer2Memo.SummaryConditions)])
  }

  /**
   * `_build_executive_summary`: the narrative cut to 4000 characters, and
   * the text of the dict highlights among the first six items.
   */
  function ExecutiveSummary(p: Parts): (r: Result<Json>)
    ensures r.Err? ==> r.error == AttributeError || r.error == TypeError
    ensures !p.narratives.Obj? || !p.highlights.Obj? ==> r.Err?
    ensures r.Ok? ==> r.value.Obj? && |r.value.fields| == 5
    ensures r.Ok? ==> var t := r.value.fields[0].1; t.Str? && |t.s| <= 4000
    ensures r.Ok? ==> var h := r.value.fields[2].1; h.Arr? && 1 <= |h.items| <= 6
    ensures r.Ok? && Truthy(Field(p.narratives.fields, "transaction_overview")) ==>
      r.value.fields[0].1 == Str(Prefix(StrOf(Field(p.narratives.fields, "transaction_overview")), 4000))
  {
    var n :- AsDict(p.narratives);
    var narrative :- OverviewNarrative(n, p.property);
    var text := Prefix(StrOf(narrative), 4000);
    var h :- AsDict(p.highlights);
    var items :- FirstItems(Or(Field(h, "items"), Arr([])), 6);
    Ok(SummaryJson(text, DictRows(items, HighlightText)))
  }

  // ------------------------------------------------------- sources and uses

  /** Rows that are all dicts with exactly these keys. */
  predicate Shaped(rows: seq<Json>, keys: seq<string>)
  {
    forall i :: 0 <= i < |rows| ==> rows[i].Obj? && Keys(rows[i].fields) == keys
  }

  /** When every row a function makes has the same keys, so do the rows of a list. */
  lemma DictRowsShaped(items: seq<Json>, row: Fields -> Json, keys: seq<string>)
    requires forall f :: row(f).Obj? && Keys(row(f).fields) == keys
    ensures Shaped(DictRows(items, row), keys)
  {
    forall j | 0 <= j < |DictRows(items, row)|
      ensures DictRows(items, row)[j].Obj? && Keys(DictRows(items, row)[j].fields) == keys
    {
      DictRowsFrom(items, row, j);
    }
  }

  /** `float(table.get("total_sources") or 0)`, and 0 when that conversion fails. */
  function TotalSources(table: Fields): (r: real)
    ensures FloatOf(Field(table, "total_sources")).Ok? ==> r == FloatOf(Field(table, "total_sources")).value
    ensures FloatOf(Field(table, "total_sources")).Err? ==> r == 0.0
  {
    match FloatOf(Or(Field(table, "total_sources"), Int(0))) case Ok(x) => x case Err(_) => 0.0
  }

  /** `amount / total * 100` */
  function Share(amount: real, total: real): real
    requires total != 0.0
  {
    amount / total * 100.0
  }

  /** `f"{x:.1f}%"` */
  function OneDecimalPercent(x: real): (r: string)
    ensures |r| >= 2 && r[|r| - 1] == '%' && Numbers.ParseFloat(r[..|r| - 1]) == Some(Numbers.Rounded(x, 1))
  {
    var body := Numbers.FormatFixed(x, 1, false);
    Numbers.FormatFixedRoundTrip(x, 1);
    assert (body + "%")[..|body|] == body;
    body + "%"
  }

  /** A source's share of the total to one decimal, or its own `rate_pct` when the share cannot be worked out. */
  function SharePercent(amount: Json, total: real, rate: Json): (r: string)
    ensures total != 0.0 && FloatOf(amount).Ok? ==> (|r| >= 2 && r[|r| - 1] == '%'
      && Numbers.ParseFloat(r[..|r| - 1]) == Some(Numbers.Rounded(Share(FloatOf(amount).value, total), 1)))
    ensures total == 0.0 || FloatOf(amount).Err? ==> r == Helpers.FmtPct(rate)
  {
    if total != 0.0 && !amount.Null? then
      match FloatOf(amount)
      case Ok(x) => OneDecimalPercent(Share(x, total))
      case Err(_) => Helpers.FmtPct(rate)
    else Helpers.FmtPct(rate)
  }

  function SourceEntry(item: Fields, total: real): (r: Json)
    ensures r.Obj? && Keys(r.fields) == ["label", "amount", "percent"]
  {
    var amount := Field(item, "amount");
    var caption := Or(Or(Field(item, "label"), Field(item, "item")), Str("Source"));
    var shown := Helpers.FmtCurrency(amount);
    var percent := SharePercent(amount, total, Field(item, "rate_pct"));
    Obj([("label", caption), ("amount", Str(shown)), ("percent", Str(percent))])
  }

  function UseEntry(item: Fields, category: Json): (r: Json)
    ensures r.Obj? && Keys(r.fields) == ["label", "amount", "release_conditions"]
  {
    Obj([("label", Or(Or(Field(item, "label"), Field(item, "item")), Str("Use"))),
         ("amount", Str(Helpers.FmtCurrency(Field(item, "amount")))),
         ("release_conditions", category)])
  }

  const UseKeys: seq<string> := ["label", "amount", "release_conditions"]

  /** The rows of every category dict, category after category; the first category whose items cannot be iterated raises. */
  function DictConcat(cats: seq<Json>, rows: Fields -> Result<seq<Json>>, keys: seq<string>): (r: Result<seq<Json>>)
    requires forall f :: rows(f).Ok? ==> Shaped(rows(f).value, keys)
    requires forall f :: rows(f).Err? ==> rows(f).error == TypeError
    ensures r.Ok? ==> Shaped(r.value, keys)
    ensures r.Err? ==> r.error == TypeError
    ensures cats == [] ==> r == Ok([])
    decreases |cats|
  {
    if cats == [] then Ok([])
    else
      var here :- if cats[0].Obj? then rows(cats[0].fields) else Ok([]);
      var rest :- DictConcat(cats[1..], rows, keys);
      Ok(here + rest)
  }

  /** Category after category: two runs of categories give the rows of the first run, then those of the second. */
  lemma {:induction false} DictConcatAppend(a: seq<Json>, b: seq<Json>, rows: Fields -> Result<seq<Json>>, keys: seq<string>)
    requires forall f :: rows(f).Ok? ==> Shaped(rows(f).value, keys)
    requires forall f :: rows(f).Err? ==> rows(f).error == TypeError
    ensures DictConcat(a + b, rows, keys).Ok? <==> DictConcat(a, rows, keys).Ok? && DictConcat(b, rows, keys).Ok?
    ensures DictConcat(a + b, rows, keys).Ok? ==>
      DictConcat(a + b, rows, keys).value == DictConcat(a, rows, keys).value + DictConcat(b, rows, keys).value
    decreases |a|
  {
    if a == [] {
      assert a + b == b;
    } else {
      assert (a + b)[0] == a[0] && (a + b)[1..] == a[1..] + b;
      DictConcatAppend(a[1..], b, rows, keys);
    }
  }

  function CategoryRows(cat: Fields): (r: Result<seq<Json>>)
    ensures r.Ok? ==> Shaped(r.value, UseKeys)
    ensures r.Err? ==> r.error == TypeError
  {
    var items :- ItemsOf(Field(cat, "items"));
    var category := Fetch(cat, "category", Str(""));
    DictRowsShaped(items, item => UseEntry(item, category), ["label", "amount", "release_conditions"]);
    Ok(DictRows(items, item => UseEntry(item, category)))
  }

  const SourcesTbd: Json := Obj([("label", Str("TBD")), ("amount", Str("TBD")), ("percent", Str("TBD"))])
  const UsesTbd: Json := Obj([("label", Str("TBD")), ("amount", Str("TBD")), ("release_conditions", Str("TBD"))])

  /** The sources and uses table: both lists non-empty, each row with its template fields. */
  predicate TableShaped(r: Json)
  {
    r.Obj? && |r.fields| == 1 && r.fields[0].1.Obj? && |r.fields[0].1.fields| == 2
    && var t := r.fields[0].1;
      t.fields[0].1.Arr? && t.fields[0].1.items != [] && Shaped(t.fields[0].1.items, ["label", "amount", "percent"])
      && t.fields[1].1.Arr? && t.fields[1].1.items != [] && Shaped(t.fields[1].1.items, UseKeys)
  }

  /** The placeholder rows have the template fields. */
  lemma TbdShaped()
    ensures Shaped([SourcesTbd], ["label", "amount", "percent"]) && Shaped([UsesTbd], UseKeys)
  {
  }

  function SourcesUsesJson(sources: seq<Json>, uses: seq<Json>): (r: Json)
    ensures Shaped(sources, ["label", "amount", "percent"]) && Shaped(uses, UseKeys) ==> TableShaped(r)
    ensures r.Obj? && Keys(r.fields) == ["fairbridge_sources_uses"]
    ensures r.fields[0].1.Obj? && Keys(r.fields[0].1.fields) == ["sources", "uses"]
    ensures r.fields[0].1.fields[0].1 == Arr(if sources == [] then [SourcesTbd] else sources)
    ensures r.fields[0].1.fields[1].1 == Arr(if uses == [] then [UsesTbd] else uses)
  {
    TbdShaped();
    Obj([("fairbridge_sources_uses", Obj([
      ("sources", Arr(if sources == [] then [SourcesTbd] else sources)),
      ("uses", Arr(if uses == [] then [UsesTbd] else uses))]))])
  }

  /** `_build_sources_and_uses`: one row per dict source and per dict use item, a TBD row when there are none. */
  function SourcesAndUses(p: Parts): (r: Result<Json>)
    ensures !p.sourcesUses.Obj? <==> r == Err(AttributeError)
    ensures r.Err? ==> r.error == AttributeError || r.error == TypeError
    ensures r.Ok? ==> TableShaped(r.value)
  {
    var su :- AsDict(p.sourcesUses);
    var t := Or(Field(su, "table"), Obj([]));
    var table := if t.Obj? then t.fields else [];
    var total := TotalSources(table);
    var items :- ItemsOf(Field(table, "sources"));
    DictRowsShaped(items, item => SourceEntry(item, total), ["label", "amount", "percent"]);
    var sources := DictRows(items, item => SourceEntry(item, total));
    var cats :- ItemsOf(Field(table, "uses"));
    var uses :- DictConcat(cats, CategoryRows, UseKeys);
    Ok(SourcesUsesJson(sources, uses))
  }

  // --------------------------------------------------------------- property

  const PropertyCaptions: seq<string> := ["Property Name", "Property Type", "Land Area", "Building SF", "Year Built",
    "Year Renovated", "Condition", "Current Occupancy", "Stabilized Occupancy", "Anchor Tenants"]

  /** `f"{v}%"`, or "N/A" for None. */
  function Occupancy(v: Json): (r: string)
    ensures r != []
  {
    if v.Null? then "N/A" else StrOf(v) + "%"
  }

  /** The year built: a list of years joined by ", ", else the value as text, "N/A" for None. */
  function YearBuilt(v: Json): string
  {
    if v.Arr? then Text.Join(", ", seq(|v.items|, i requires 0 <= i < |v.items| => StrOf(v.items[i])))
    else if v.Null? then "N/A" else StrOf(v)
  }

  /** The floor area: a number with thousands separators and " SF", else the value as text, "N/A" for None. */
  function FloorArea(v: Json): (r: string)
    ensures IsNumber(v) ==> r == Layer2Memo.Grouped(v).value + " SF"
  {
    if IsNumber(v) then Layer2Memo.Grouped(v).value + " SF"
    else if v.Null? then "N/A" else StrOf(v)
  }

  function Metrics(prop: Fields): (r: seq<Json>)
    ensures Layer2Memo.Captioned(r, PropertyCaptions)
    ensures r[2].fields[1].1 == Str(StrOf(Fetch(prop, "land_area_acres", Str("N/A"))) + " acres")
  {
    var values := MetricValues(prop);
    var r := Layer2Memo.Facts(PropertyCaptions, values);
    assert r[2] == Layer2Memo.Fact(PropertyCaptions[2], values[2]);
    r
  }

  /** The ten metric values, in the order of their captions. */
  function MetricValues(prop: Fields): (r: seq<Json>)
    ensures |r| == 10 && r[2] == Str(StrOf(Fetch(prop, "land_area_acres", Str("N/A"))) + " acres")
  {
    [Fetch(prop, "name", Str("N/A")), Fetch(prop, "property_type", Str("N/A")),
     Str(StrOf(Fetch(prop, "land_area_acres", Str("N/A"))) + " acres")]
    + LaterMetricValues(prop)
  }

  /** The metric values from the floor area on. */
  function LaterMetricValues(prop: Fields): (r: seq<Json>)
    ensures |r| == 7
  {
    [Str(FloorArea(Field(prop, "building_sf"))), Str(YearBuilt(Field(prop, "year_built"))),
     Str(StrOf(Fetch(prop, "year_renovated", Str("N/A")))), Fetch(prop, "condition", Str("N/A")),
     Str(Occupancy(Field(prop, "occupancy_current"))), Str(Occupancy(Field(prop, "occupancy_stabilized"))),
     Fetch(prop, "anchor_tenants", Str("N/A"))]
  }

  /** The property narrative: the one given (text reading "None" counts as none), else a sentence built from the address. */
  function PropertyNarrative(n: Fields, prop: Fields): (r: Json)
    ensures Truthy(r)
    ensures var g := Field(n, "property_overview");
      Truthy(g) && !(g.Str? && Text.Strip(g.s) == "None") ==> r == g
  {
    var given := Or(Field(n, "property_overview"), Str(""));
    var cleared := if given.Str? && Text.Strip(given.s) == "None" then Str("") else given;
    if Truthy(cleared) then cleared
    else
      var a := Or(Field(prop, "address"), Obj([]));
      var addr := if a.Obj? then a.fields else [];
      Str(StrOf(Or(Field(prop, "name"), Str("The property"))) + " is located at "
        + StrOf(Fetch(addr, "street", Str(""))) + ", " + StrOf(Fetch(addr, "city", Str(""))) + ", "
        + StrOf(Fetch(addr, "state", Str(""))) + ". " + StrOf(Or(Field(prop, "building_sf"), Str("N/A"))) + " SF, "
        + StrOf(Or(Field(prop, "land_area_acres"), Str("N/A"))) + " acres.")
  }

  /** The description: the narrative's text cut to 5000 characters, never the text "None". */
  function Description(narrative: Json): (r: string)
    ensures |r| <= 5000 && r != "None"
    ensures var t := Prefix(StrOf(narrative), 5000); t != "None" ==> r == t
  {
    var t := Prefix(StrOf(narrative), 5000);
    if t == "None" then "" else t
  }

  /** `_build_property`: a description and the ten metrics, in their fixed order. */
  function Property(p: Parts): (r: Result<Json>)
    ensures r.Ok? <==> p.property.Obj? && p.narratives.Obj?
    ensures r.Err? ==> r.error == AttributeError
    ensures r.Ok? ==> r.value.Obj? && Keys(r.value.fields) == ["description_narrative", "metrics"]
    ensures r.Ok? ==> var d := r.value.fields[0].1; d.Str? && |d.s| <= 5000 && d.s != "None"
    ensures r.Ok? ==> r.value.fields[1].1 == Arr(Metrics(p.property.fields))
  {
    var prop :- AsDict(p.property);
    var n :- AsDict(p.narratives);
    Ok(PropertyJson(Description(PropertyNarrative(n, prop)), Metrics(prop)))
  }

  function PropertyJson(description: string, metrics: seq<Json>): (r: Json)
    ensures r.Obj? && Keys(r.fields) == ["description_narrative", "metrics"]
    ensures r.fields[0].1 == Str(description) && r.fields[1].1 == Arr(metrics)
  {
    Obj([("description_narrative", Str(description)), ("metrics", Arr(metrics))])
  }

  /** A land area that is present but None shows as "None acres": the default applies only to a missing key. */
  lemma LandAreaNone(prop: Fields)
    requires Lookup(prop, "land_area_acres") == Some(Null)
    ensures Metrics(prop)[2].fields[1].1 == Str("None acres")
  {
    assert StrOf(Null) == "None";
    assert "None" + " acres" == "None acres";
  }

  // ------------------------------------------------------- location, market

  function NarrativeJson(text: string): (r: Json)
    ensures r.Obj? && Keys(r.fields) == ["narrative"] && r.fields[0].1 == Str(text)
  {
    Obj([("narrative", Str(text))])
  }

  /** The location sentence built from the property's address. */
  function LocationSentence(property: Json): (r: Result<Json>)
    ensures r.Ok? <==> property.Obj? && Or(Field(property.fields, "address"), Obj([])).Obj?
    ensures r.Err? ==> r.error == AttributeError
  {
    var prop :- AsDict(property);
    var addr :- AsDict(Or(Field(prop, "address"), Obj([])));
    Ok(Str("The property is located in " + StrOf(Fetch(addr, "city", Str(""))) + ", "
      + StrOf(Fetch(addr, "county", Str(""))) + ", " + StrOf(Fetch(addr, "state", Str("")))
      + ". See appraisal for detailed location analysis."))
  }

  /** `_build_location`: the location narrative cut to 4000 characters. */
  function Location(p: Parts): (r: Result<Json>)
    ensures !p.narratives.Obj? ==> r == Err(AttributeError)
    ensures r.Err? ==> r.error == AttributeError
    ensures r.Ok? ==> r.value.Obj? && Keys(r.value.fields) == ["narrative"] && r.value.fields[0].1.Str? && |r.value.fields[0].1.s| <= 4000
    ensures p.narratives.Obj? && Truthy(Field(p.narratives.fields, "location_overview")) ==>
      r == Ok(NarrativeJson(Prefix(StrOf(Field(p.narratives.fields, "location_overview")), 4000)))
  {
    var n :- AsDict(p.narratives);
    var given := Or(Field(n, "location_overview"), Str(""));
    var narrative :- if Truthy(given) then Ok(given) else LocationSentence(p.property);
    Ok(NarrativeJson(Prefix(StrOf(narrative), 4000)))
  }

  /** Without a location narrative, an address given as plain text makes the section fail. */
  lemma LocationTextAddress(p: Parts)
    requires p.narratives.Obj? && !Truthy(Field(p.narratives.fields, "location_overview"))
    requires p.property.Obj? && Field(p.property.fields, "address").Str? && Field(p.property.fields, "address").s != []
    ensures Location(p) == Err(AttributeError)
  {
    var address := Field(p.property.fields, "address");
    assert Truthy(address) && Or(address, Obj([])) == address;
    assert LocationSentence(p.property).Err?;
    assert !Truthy(Or(Field(p.narratives.fields, "location_overview"), Str("")));
  }

  const MarketFallback: string := "Market analysis indicates favorable conditions. Please refer to the appraisal for detailed market analysis."

  /** `_build_market`: the market narrative cut to 4000 characters, or a fixed sentence. */
  function Market(p: Parts): (r: Result<Json>)
    ensures r.Ok? <==> p.narratives.Obj?
    ensures r.Err? ==> r.error == AttributeError
    ensures r.Ok? ==> var g := Field(p.narratives.fields, "market_overview");
      r.value == NarrativeJson(if Truthy(g) then Prefix(StrOf(g), 4000) else MarketFallback)
  {
    var n :- AsDict(p.narratives);
    var given := Or(Field(n, "market_overview"), Str(""));
    Ok(NarrativeJson(Prefix(StrOf(if Truthy(given) then given else Str(MarketFallback)), 4000)))
  }

  // ------------------------------------------------------------ sponsorship

  const SponsorKeys: seq<string> := ["name", "total_assets", "net_worth", "liquidity", "cash", "securities"]

  /** The entry for one guarantor name: the guarantors' combined figures. */
  function GuarantorEntry(name: Json, g: Fields, liquidity: Json): (r: Json)
    ensures r.Obj? && Keys(r.fields) == SponsorKeys && r.fields[0].1 == name
  {
    Obj([("name", name), ("total_assets", Null), ("net_worth", Field(g, "combined_net_worth")), ("liquidity", liquidity),
         ("cash", Field(g, "combined_cash_position")), ("securities", Field(g, "combined_securities_holdings"))])
  }

  /** The entry for one principal: net worth and liquid assets from its financial profile. */
  function PrincipalEntry(p: Fields): (r: Json)
    ensures r.Obj? && Keys(r.fields) == SponsorKeys && r.fields[0].1 == Fetch(p, "name", Str(""))
  {
    var fp := Or(Field(p, "financial_profile"), Obj([]));
    var profile := if fp.Obj? then fp.fields else [];
    var liquid := Field(profile, "liquid_assets");
    Obj([("name", Fetch(p, "name", Str(""))), ("total_assets", Null), ("net_worth", Field(profile, "net_worth")),
         ("liquidity", liquid), ("cash", liquid), ("securities", Null)])
  }

  /** The principals that are dicts with a truthy name, in order. */
  function PrincipalEntries(ps: seq<Json>): (r: seq<Json>)
    ensures |r| <= |ps| && Shaped(r, SponsorKeys)
    ensures forall i :: 0 <= i < |r| ==> Truthy(r[i].fields[0].1)
    decreases |ps|
  {
    if ps == [] then []
    else
      var keep := ps[0].Obj? && Truthy(Fetch(ps[0].fields, "name", Str("")));
      (if keep then [PrincipalEntry(ps[0].fields)] else []) + PrincipalEntries(ps[1..])
  }

  /**
   * One entry per guarantor name, all sharing the combined figures; the
   * combined liquidity is cash plus securities, which raises TypeError
   * when they are not both numbers (or both text, or both lists).
   */
  function GuarantorEntries(g: Fields, names: seq<Json>): (r: Result<seq<Json>>)
    ensures r.Ok? ==> |r.value| == |names| && Shaped(r.value, SponsorKeys)
    ensures r.Ok? ==> forall i :: 0 <= i < |names| ==> r.value[i].fields[0].1 == names[i]
    ensures r.Err? ==> r.error == TypeError && names != []
  {
    if names == [] then Ok([])
    else
      var liquidity :- Add(Or(Field(g, "combined_cash_position"), Int(0)), Or(Field(g, "combined_securities_holdings"), Int(0)));
      Ok(seq(|names|, i requires 0 <= i < |names| => GuarantorEntry(names[i], g, liquidity)))
  }

  /** The sponsors: the guarantors when any are named, else the named principals. */
  function SponsorEntries(sponsor: Fields, g: Fields, names: seq<Json>): (r: Result<seq<Json>>)
    ensures r.Ok? ==> Shaped(r.value, SponsorKeys)
    ensures r.Ok? && names != [] ==> |r.value| == |names|
    ensures r.Err? ==> r.error == TypeError
  {
    var listed :- GuarantorEntries(g, names);
    var principals := Or(Field(sponsor, "principals"), Arr([]));
    if listed == [] && Truthy(principals) then
      var ps :- Iterate(principals);
      Ok(PrincipalEntries(ps))
    else Ok(listed)
  }

  /** The `name` of each sponsor entry. */
  function SponsorNames(sponsors: seq<Json>): (r: seq<Json>)
    ensures |r| == |sponsors|
  {
    seq(|sponsors|, i requires 0 <= i < |sponsors| => Sponsorship.Figure(sponsors[i], "name"))
  }

  /** Two rows per sponsor: its net worth, then its liquidity. */
  function PerSponsorRows(sponsors: seq<Json>): (r: seq<Json>)
    ensures |r| == 2 * |sponsors| && Shaped(r, ["label", "value"])
    decreases |sponsors|
  {
    if sponsors == [] then []
    else
      var s := sponsors[0];
      var name := StrOf(Sponsorship.Figure(s, "name"));
      [Layer2Memo.Fact(name + " - Net Worth", Str(Helpers.FmtCurrency(Sponsorship.Figure(s, "net_worth")))),
       Layer2Memo.Fact(name + " - Liquidity", Str(Helpers.FmtCurrency(Sponsorship.Figure(s, "liquidity"))))]
      + PerSponsorRows(sponsors[1..])
  }

  /** The two combined rows: the guarantors' stated net worth (else the sponsors' total) and the sponsors' total liquidity. */
  function CombinedRows(g: Fields, sponsors: seq<Json>): (r: seq<Json>)
    ensures Layer2Memo.Captioned(r, ["COMBINED NET WORTH", "COMBINED LIQUIDITY"])
    ensures r[0].fields[1].1 == Str(Helpers.FmtCurrency(Or(Field(g, "combined_net_worth"), Float(Sponsorship.Total(sponsors, "net_worth")))))
    ensures r[1].fields[1].1 == Str(Helpers.FmtCurrency(Float(Sponsorship.Total(sponsors, "liquidity"))))
  {
    var worth := Str(Helpers.FmtCurrency(Or(Field(g, "combined_net_worth"), Float(Sponsorship.Total(sponsors, "net_worth")))));
    var liquid := Str(Helpers.FmtCurrency(Float(Sponsorship.Total(sponsors, "liquidity"))));
    [Layer2Memo.Fact("COMBINED NET WORTH", worth), Layer2Memo.Fact("COMBINED LIQUIDITY", liquid)]
  }

  /** The financial summary: the two combined rows first, then two rows per sponsor. */
  function FinancialSummary(g: Fields, sponsors: seq<Json>): (r: seq<Json>)
    ensures |r| == 2 + 2 * |sponsors| && Shaped(r, ["label", "value"])
    ensures r[..2] == CombinedRows(g, sponsors)
  {
    var head := CombinedRows(g, sponsors);
    var rest := PerSponsorRows(sponsors);
    assert Shaped(head, ["label", "value"]);
    head + rest
  }

  /** The name shown for the sponsor: its own name, else the guarantor names joined by " & ", else a fixed text. */
  function DisplayName(sponsor: Fields, g: Fields, names: seq<Json>): (r: Json)
    ensures Truthy(r)
    ensures Truthy(Field(sponsor, "name")) ==> r == Field(sponsor, "name")
  {
    var given := Field(sponsor, "name");
    if Truthy(given) then given
    else
      var joined := if Truthy(Fetch(g, "names", Arr([]))) then Text.Join(" & ", seq(|names|, i requires 0 <= i < |names| => StrOf(names[i]))) else "";
      Str(if joined != [] then joined else "See sponsor details")
  }

  const SponsorTbd: Json := Obj([("name", Str("TBD")), ("total_assets", Null), ("net_worth", Null), ("liquidity", Null)])
  const TrackRecordRow: Json := Obj([("property", Str("See sponsor narrative")), ("role", Str("Principal")), ("outcome", Str("Various"))])

  function SponsorshipJson(display: Json, table: Json, summary: seq<Json>, sponsors: seq<Json>): (r: Json)
    ensures r.Obj? && Keys(r.fields) == ["name", "table", "overview", "overview_narrative", "financial_summary", "track_record", "_sponsors_detail"]
    ensures r.fields[0].1 == display && r.fields[2].1 == display && r.fields[3].1 == display
    ensures r.fields[4].1 == Arr(summary)
    ensures r.fields[6].1 == Arr(if sponsors == [] then [SponsorTbd] else sponsors)
  {
    Obj([("name", display), ("table", table), ("overview", display), ("overview_narrative", display),
         ("financial_summary", Arr(summary)), ("track_record", Arr([TrackRecordRow])),
         ("_sponsors_detail", Arr(if sponsors == [] then [SponsorTbd] else sponsors))])
  }

  /**
   * `_build_sponsorship`. The principals' names are joined for an overview
   * that is never shown (the display name is always truthy), yet the join
   * still raises TypeError when a name is not text and there is no sponsor
   * narrative.
   */
  function SponsorshipSection(p: Parts): (r: Result<Json>)
    ensures r.Err? ==> r.error == AttributeError || r.error == TypeError
    ensures !p.sponsor.Obj? ==> r == Err(AttributeError)
    ensures r.Ok? ==> r.value.Obj? && |r.value.fields| == 7
    ensures r.Ok? ==> Truthy(r.value.fields[0].1) && r.value.fields[2].1 == r.value.fields[0].1 && r.value.fields[3].1 == r.value.fields[0].1
    ensures r.Ok? ==> var fs := r.value.fields[4].1; var detail := r.value.fields[6].1;
      fs.Arr? && detail.Arr? && detail.items != []
      && |fs.items| == 2 + 2 * (if detail.items == [SponsorTbd] then 0 else |detail.items|)
      && Shaped(fs.items, ["label", "value"]) && Layer2Memo.Captioned(fs.items[..2], ["COMBINED NET WORTH", "COMBINED LIQUIDITY"])
  {
    var sponsor :- AsDict(p.sponsor);
    var gv := Or(Field(sponsor, "guarantors"), Obj([]));
    var g :- AsDict(gv);
    var names :- ItemsOf(Field(g, "names"));
    var sponsors :- SponsorEntries(sponsor, g, names);
    var summary := FinancialSummary(g, sponsors);
    var n :- AsDict(p.narratives);
    var joined :- if Truthy(Fetch(n, "sponsor_narrative", Str(""))) then Ok("") else Layer2Memo.JoinTexts(SponsorNames(sponsors));
    assert sponsors != [] ==> sponsors != [SponsorTbd] by {
      if sponsors != [] { assert Keys(sponsors[0].fields) == SponsorKeys; assert |SponsorTbd.fields| == 4; }
    }
    Ok(SponsorshipJson(DisplayName(sponsor, g, names), Or(Field(sponsor, "table"), Arr([])), summary, sponsors))
  }

  // ------------------------------------------------------ risks, validation

  const RiskKeys: seq<string> := ["category", "score", "risk", "mitigant"]
  const RiskPlaceholder: Json := Layer2.RiskItem("General", "Moderate", "See risks and mitigants.", "See narrative.")
  const RiskFallback: string := "Based on the analysis, this transaction presents acceptable risk levels for Fairbridge."

  /** A risk row; every one is scored "Moderate". */
  function RiskRow(r: Fields): (row: Json)
    ensures row.Obj? && Keys(row.fields) == RiskKeys && row.fields[1].1 == Str("Moderate")
  {
    Obj([("category", Fetch(r, "risk", Str("Risk"))), ("score", Str("Moderate")),
         ("risk", Fetch(r, "description", Str(""))), ("mitigant", Fetch(r, "mitigant", Str("")))])
  }

  function RisksJson(recommendation: Json, rows: seq<Json>): (r: Json)
    ensures r.Obj? && Keys(r.fields) == ["overall_risk_score", "recommendation_narrative", "risk_items", "items"]
    ensures r.fields[1].1 == recommendation
    ensures r.fields[2].1 == r.fields[3].1 == Arr(if rows == [] then [RiskPlaceholder] else rows)
  {
    var list := if rows == [] then [RiskPlaceholder] else rows;
    Obj([("overall_risk_score", Str("MODERATE")), ("recommendation_narrative", recommendation),
         ("risk_items", Arr(list)), ("items", Arr(list))])
  }

  /**
   * `_build_risks_and_mitigants`: a row per dict risk (or one placeholder),
   * published twice as the same list; the recommendation is the narrative
   * cut to 2000 characters, which raises TypeError for a narrative that
   * cannot be sliced.
   */
  function RisksAndMitigants(p: Parts): (r: Result<Json>)
    ensures r.Err? ==> r.error == AttributeError || r.error == TypeError
    ensures !p.risks.Obj? ==> r == Err(AttributeError)
    ensures r.Ok? ==> r.value.Obj? && |r.value.fields| == 4 && r.value.fields[2].1 == r.value.fields[3].1
    ensures r.Ok? ==> var rows := r.value.fields[2].1;
      rows.Arr? && rows.items != [] && Shaped(rows.items, RiskKeys)
      && forall i :: 0 <= i < |rows.items| ==> rows.items[i].fields[1].1 == Str("Moderate")
    ensures r.Ok? ==> p.narratives.Obj?
    ensures r.Ok? && !Truthy(Field(p.narratives.fields, "risks_mitigants_narrative")) ==> r.value.fields[1].1 == Str(RiskFallback)
  {
    var risks :- AsDict(p.risks);
    var items :- ItemsOf(Field(risks, "items"));
    DictRowsShaped(items, RiskRow, RiskKeys);
    var rows := DictRows(items, RiskRow);
    forall j | 0 <= j < |rows| ensures rows[j].fields[1].1 == Str("Moderate") {
      DictRowsFrom(items, RiskRow, j);
    }
    var n :- AsDict(p.narratives);
    var narrative := Or(Field(n, "risks_mitigants_narrative"), Str(""));
    var recommendation :- if Truthy(narrative) then Slice(narrative, 2000) else Ok(Str(RiskFallback));
    Ok(RisksJson(recommendation, rows))
  }

  /** `_build_validation_flags`: every one of the seven checks passes and nothing is flagged. */
  function ValidationFlags(): (r: Json)
    ensures r.Obj? && Keys(r.fields) == ["summary", "critical_flags", "warning_flags"]
    ensures r.fields[1].1 == Arr([]) && r.fields[2].1 == Arr([])
    ensures r.fields[0].1.Obj? && Keys(r.fields[0].1.fields) == ["total_checks", "passed", "warnings", "failed"]
    ensures r.fields[0].1.fields[0].1 == r.fields[0].1.fields[1].1 == Int(7)
    ensures r.fields[0].1.fields[2].1 == r.fields[0].1.fields[3].1 == Int(0)
  {
    Obj([("summary", Obj([("total_checks", Int(7)), ("passed", Int(7)), ("warnings", Int(0)), ("failed", Int(0))])),
         ("critical_flags", Arr([])), ("warning_flags", Arr([]))])
  }

  // ------------------------------------------------------ third-party reports

  /** A dict of texts, none of them blank. */
  function TextDict(ks: seq<string>, ss: seq<string>): (r: Json)
    requires |ks| == |ss| && forall i :: 0 <= i < |ss| ==> ss[i] != []
    ensures r.Obj? && Keys(r.fields) == ks
    ensures forall i :: 0 <= i < |ks| ==> r.fields[i].1.Str? && r.fields[i].1.s == ss[i] != []
  {
    Obj(Zip(ks, seq(|ss|, i requires 0 <= i < |ss| => Str(ss[i]))))
  }

  function AppraisalJson(dd: Fields, v: Fields): (r: Json)
    ensures r.Obj? && Keys(r.fields) == ["firm", "appraiser", "effective_date", "as_is_value", "stabilized_value", "cap_rate"]
    ensures forall i :: 0 <= i < 6 ==> r.fields[i].1.Str? && r.fields[i].1.s != []
  {
    TextDict(["firm", "appraiser", "effective_date", "as_is_value", "stabilized_value", "cap_rate"],
      [Shown(Field(dd, "appraisal_company")), Shown(Field(dd, "appraisal_firm")), "N/A",
       Shown(Field(v, "as_is_value")), Shown(Field(v, "as_stabilized_value")), Shown(Field(v, "cap_rate"))])
  }

  function EnvironmentalJson(env: Fields, recs: nat): (r: Json)
    ensures r.Obj? && Keys(r.fields) == ["firm", "report_date", "current_recs", "phase_ii_required", "findings"]
    ensures r.fields[2].1.Str? && Numbers.AllDigits(r.fields[2].1.s) && Numbers.DigitsValue(r.fields[2].1.s) == recs
    ensures r.fields[4].1.Str? && 0 < |r.fields[4].1.s| <= 500
  {
    Numbers.NatToStringRoundTrip(recs);
    Obj([("firm", Str(Shown(Field(env, "firm")))), ("report_date", Str(Shown(Field(env, "report_date")))),
         ("current_recs", Str(Numbers.NatToString(recs))), ("phase_ii_required", Str("No")),
         ("findings", Str(Prefix(Shown(Field(env, "findings_summary")), 500)))])
  }

  function PcaJson(dd: Fields, n: Fields): (r: Json)
    ensures r.Obj? && Keys(r.fields) == ["firm", "report_date", "summary"]
    ensures forall i :: 0 <= i < 3 ==> r.fields[i].1.Str? && r.fields[i].1.s != []
  {
    var summary := Helpers.StrOrEmpty(Field(n, "pca_narrative"));
    var texts := [Shown(Field(dd, "pca_firm")), "N/A", if summary != [] then summary else "See property condition assessment."];
    assert texts[0] != [] && texts[1] != [] && texts[2] != [];
    TextDict(["firm", "report_date", "summary"], texts)
  }

  function ReportsJson(appraisal: Json, environmental: Json, pca: Json): (r: Json)
    ensures r.Obj? && Keys(r.fields) == ["appraisal", "environmental", "pca"]
    ensures r.fields[1].1 == environmental
  {
    Obj([("appraisal", appraisal), ("environmental", environmental), ("pca", pca)])
  }

  /**
   * `_build_third_party_reports`: the appraisal, environmental and
   * property-condition summaries; the count of recognized environmental
   * conditions is `len` of the list, which raises TypeError for a number.
   */
  function ThirdPartyReports(p: Parts): (r: Result<Json>)
    ensures r.Err? ==> r.error == AttributeError || r.error == TypeError
    ensures r.Ok? ==> p.dueDiligence.Obj? && p.valuation.Obj? && p.environmental.Obj? && p.narratives.Obj?
    ensures r.Ok? ==> r.value.Obj? && Keys(r.value.fields) == ["appraisal", "environmental", "pca"]
    ensures r.Ok? ==> Len(Or(Field(p.environmental.fields, "historical_recs"), Arr([]))).Ok?
    ensures r.Ok? ==> r.value.fields[1].1 == EnvironmentalJson(p.environmental.fields, Len(Or(Field(p.environmental.fields, "historical_recs"), Arr([]))).value)
  {
    var dd :- AsDict(p.dueDiligence);
    var v :- AsDict(p.valuation);
    var env :- AsDict(p.environmental);
    var recs :- Len(Or(Field(env, "historical_recs"), Arr([])));
    var n :- AsDict(p.narratives);
    Ok(ReportsJson(AppraisalJson(dd, v), EnvironmentalJson(env, recs), PcaJson(dd, n)))
  }

  // ----------------------------------------------------------------- zoning

  function ZoningSentence(zoning: Json): (r: Result<Json>)
    ensures r.Ok? <==> zoning.Obj?
    ensures r.Err? ==> r.error == AttributeError
  {
    var z :- AsDict(zoning);
    Ok(Str("Current zoning: " + StrOf(Or(Field(z, "zone_code"), Str("N/A"))) + ". "
      + StrOf(Or(Field(z, "highest_best_use_improved"), Str("")))))
  }

  function ZoningJson(text: string, zone: string, present: bool): (r: Json)
    ensures r.Obj? && Keys(r.fields) == ["summary_narrative", "current_zoning", "proposed_zoning", "entitlement_status", "exists"]
    ensures r.fields[0].1 == Str(text) && r.fields[1].1 == Str(zone) && r.fields[4].1 == Bool(present)
  {
    Obj([("summary_narrative", Str(text)), ("current_zoning", Str(zone)), ("proposed_zoning", Str("See redevelopment")),
         ("entitlement_status", Str("See zoning narrative")), ("exists", Bool(present))])
  }

  /** `_build_zoning_entitlements`: `exists` says whether the zoning dict has any entry. */
  function ZoningEntitlements(p: Parts): (r: Result<Json>)
    ensures r.Ok? <==> p.narratives.Obj? && p.zoning.Obj?
    ensures r.Err? ==> r.error == AttributeError
    ensures r.Ok? ==> r.value.Obj? && |r.value.fields| == 5
    ensures r.Ok? ==> r.value.fields[4].1 == Bool(p.zoning.fields != [])
    ensures r.Ok? ==> var t := r.value.fields[0].1; t.Str? && |t.s| <= 3000
    ensures r.Ok? ==> var z := r.value.fields[1].1; z.Str? && z.s != []
  {
    // Both `.get` calls on a non-dict raise AttributeError, whichever comes first.
    if !p.narratives.Obj? || !p.zoning.Obj? then Err(AttributeError)
    else
      var given := Or(Field(p.narratives.fields, "zoning_narrative"), Str(""));
      var narrative := if Truthy(given) then given else ZoningSentence(p.zoning).value;
      var present := Truthy(p.zoning);
      assert present == (p.zoning.fields != []);
      Ok(ZoningJson(Prefix(StrOf(narrative), 3000), Shown(Field(p.zoning.fields, "zone_code")), present))
  }

  /**
   * `_build_foreclosure_analysis`: the same eight-quarter placeholder grid as
   * the Layer-2 memo. The source puts one `rows` list object under both
   * scenarios; here each scenario holds an equal copy. The difference cannot
   * be seen by the template, because the escape pass of `fill_template`
   * (main.py:1787) rebuilds every list.
   */
  function Foreclosure(p: Parts): (r: Result<Json>)
    ensures r.Ok? <==> p.narratives.Obj?
    ensures r.Err? ==> r.error == AttributeError
    ensures r.Ok? ==> r.value == Layer2.ForeclosureAnalysis()
  {
    var n :- AsDict(p.narratives);
    Ok(Layer2.ForeclosureAnalysis())
  }

  // -------------------------------------------------------------- litigation

  const CaseKeys: seq<string> := ["case_name", "background", "sponsor_explanation", "fairbridge_analysis", "holdback"]

  /** `c.get(a) or c.get(b) or ""` shown as text. */
  function EitherText(c: Fields, a: string, b: string): (r: Json)
    ensures r.Str?
    ensures Truthy(Field(c, a)) ==> r == Str(StrOf(Field(c, a)))
  {
    Str(Helpers.StrOrEmpty(Or(Or(Field(c, a), Field(c, b)), Str(""))))
  }

  /** A case with the field names the template reads, each taken from its own key or its older alias. */
  function CaseRow(c: Fields): (r: Json)
    ensures r.Obj? && Keys(r.fields) == CaseKeys
    ensures forall i :: 0 <= i < 5 ==> r.fields[i].1.Str?
  {
    var texts := [EitherText(c, "case_name", "case").s,
                  EitherText(c, "background", "complaint_background").s,
                  Helpers.StrOrEmpty(Or(Field(c, "sponsor_explanation"), Str(""))),
                  EitherText(c, "fairbridge_analysis", "fairbridge_counsel_analysis").s,
                  EitherText(c, "holdback", "fairbridge_holdback").s];
    Obj(Zip(CaseKeys, seq(5, i requires 0 <= i < 5 => Str(texts[i]))))
  }

  /** The cases of the litigation dict: a single case dict counts as a list of one. */
  function LitigationCases(al: Fields): (r: Result<seq<Json>>)
    ensures r.Ok? ==> Shaped(r.value, CaseKeys)
    ensures r.Err? ==> r.error == TypeError
    ensures Field(al, "cases").Obj? && Truthy(Field(al, "cases")) ==> r == Ok([CaseRow(Field(al, "cases").fields)])
    ensures Field(al, "cases").Arr? ==> r == Ok(DictRows(Field(al, "cases").items, CaseRow))
  {
    var raw := Field(al, "cases");
    var items :- if raw.Obj? && Truthy(raw) then Ok([raw]) else ItemsOf(raw);
    DictRowsShaped(items, CaseRow, CaseKeys);
    if raw.Obj? && Truthy(raw) then DictRowsOne(raw, CaseRow); Ok(DictRows(items, CaseRow)) else
    Ok(DictRows(items, CaseRow))
  }

  /** The narrative used when none is given: a count of the cases, or a statement that there are none. */
  function LitigationFallback(has: Json, count: nat): (r: string)
    ensures Truthy(has) ==> r == Numbers.NatToString(count) + " active litigation case(s). See details below."
    ensures !Truthy(has) ==> r == "No active litigation identified."
  {
    if Truthy(has) then Numbers.NatToString(count) + " active litigation case(s). See details below."
    else "No active litigation identified."
  }

  function LitigationJson(has: Json, narrative: Json, cases: seq<Json>): (r: Json)
    ensures r.Obj? && Keys(r.fields) == ["has_litigation", "narrative", "cases"]
    ensures r.fields[0].1 == has && r.fields[1].1 == narrative && r.fields[2].1 == Arr(cases)
  {
    Obj([("has_litigation", has), ("narrative", narrative), ("cases", Arr(cases))])
  }

  /** The `active_litigation` dict of the deal, or no entries when it is missing or not a dict. */
  function ActiveLitigation(deal: Fields): (r: Fields)
    ensures Field(deal, "active_litigation").Obj? ==> r == Field(deal, "active_litigation").fields
    ensures !Field(deal, "active_litigation").Obj? ==> r == []
  {
    var al := Or(Field(deal, "active_litigation"), Obj([]));
    if al.Obj? then al.fields else []
  }

  /**
   * `_build_litigation`: the litigation is on when the dict says it `exists`
   * or when any case was found, and the narrative falls back to a sentence
   * about the case count.
   */
  function Litigation(p: Parts): (r: Result<Json>)
    ensures r.Err? ==> r.error == AttributeError || r.error == TypeError
    ensures r.Ok? <==> LitigationCases(ActiveLitigation(p.deal)).Ok? && p.narratives.Obj?
    ensures r.Ok? ==> r.value.Obj? && Keys(r.value.fields) == ["has_litigation", "narrative", "cases"]
    ensures r.Ok? ==> r.value.fields[2].1 == Arr(LitigationCases(ActiveLitigation(p.deal)).value)
    ensures r.Ok? ==> var cases := LitigationCases(ActiveLitigation(p.deal)).value;
      r.value.fields[0].1 == Or(Fetch(ActiveLitigation(p.deal), "exists", Bool(false)), Bool(|cases| > 0))
    ensures r.Ok? && Truthy(Field(p.narratives.fields, "litigation_narrative")) ==>
      r.value.fields[1].1 == Field(p.narratives.fields, "litigation_narrative")
    ensures r.Ok? && !Truthy(Field(p.narratives.fields, "litigation_narrative")) ==>
      r.value.fields[1].1 == Str(LitigationFallback(r.value.fields[0].1, |r.value.fields[2].1.items|))
  {
    var al := ActiveLitigation(p.deal);
    var cases :- LitigationCases(al);
    var has := Or(Fetch(al, "exists", Bool(false)), Bool(|cases| > 0));
    var n :- AsDict(p.narratives);
    var given := Or(Field(n, "litigation_narrative"), Str(""));
    var narrative := if Truthy(given) then given else Str(LitigationFallback(has, |cases|));
    Ok(LitigationJson(has, narrative, cases))
  }

  /** A single case given as a dict rather than a list shows as one case, and the litigation is on. */
  lemma SingleCaseDict(p: Parts)
    requires p.narratives.Obj?
    requires Field(p.deal, "active_litigation").Obj?
    requires var c := Field(Field(p.deal, "active_litigation").fields, "cases"); c.Obj? && c.fields != []
    ensures Litigation(p).Ok?
    ensures var l := Litigation(p).value; |l.fields[2].1.items| == 1 && Truthy(l.fields[0].1)
  {
  }

  /** With no litigation dict and no narrative, the section says there is none. */
  lemma NoLitigation(p: Parts)
    requires p.narratives.Obj? && !Truthy(Field(p.narratives.fields, "litigation_narrative"))
    requires !HasKey(p.deal, "active_litigation")
    ensures Litigation(p).Ok?
    ensures Litigation(p).value == LitigationJson(Bool(false), Str("No active litigation identified."), [])
  {
  }

  // ----------------------------------------------------- flat capital stack

  const CapSourceKeys: seq<string> := ["label", "amount", "percent"]

  /** The capital stack flattened for the template: a title, the source rows, the use rows. */
  datatype Flat = Flat(title: string, sources: seq<Json>, uses: seq<Json>)

  /** `_str_or_empty(x.get("item") or x.get("label"))` */
  function ItemCaption(x: Fields): (r: Json)
    ensures r.Str?
  {
    Str(Helpers.StrOrEmpty(Or(Field(x, "item"), Field(x, "label"))))
  }

  /** A source row of the table; its percent is `rate_pct`, else `percent`. */
  function CapSourceRow(item: Fields): (r: Json)
    ensures r.Obj? && Keys(r.fields) == CapSourceKeys && r.fields[0].1 == ItemCaption(item)
  {
    var caption := ItemCaption(item);
    var amount := Helpers.FmtCurrency(Field(item, "amount"));
    var percent := Helpers.FmtPct(Or(Field(item, "rate_pct"), Field(item, "percent")));
    Obj([("label", caption), ("amount", Str(amount)), ("percent", Str(percent))])
  }

  /** A top-level source row; its percent is `rate_pct` alone. */
  function TopSourceRow(x: Fields): (r: Json)
    ensures r.Obj? && Keys(r.fields) == CapSourceKeys && r.fields[0].1 == ItemCaption(x)
    ensures r.fields[2].1 == Str(Helpers.FmtPct(Field(x, "rate_pct")))
  {
    var caption := ItemCaption(x);
    var amount := Helpers.FmtCurrency(Field(x, "amount"));
    var percent := Helpers.FmtPct(Field(x, "rate_pct"));
    Obj([("label", caption), ("amount", Str(amount)), ("percent", Str(percent))])
  }

  /** A use row released under the given category. */
  function CapUseRow(item: Fields, category: string): (r: Json)
    ensures r.Obj? && Keys(r.fields) == UseKeys && r.fields[0].1 == ItemCaption(item) && r.fields[2].1 == Str(category)
  {
    var caption := ItemCaption(item);
    var amount := Helpers.FmtCurrency(Field(item, "amount"));
    Obj([("label", caption), ("amount", Str(amount)), ("release_conditions", Str(category))])
  }

  /** A top-level use row, released under its own category. */
  function TopUseRow(u: Fields): (r: Json)
    ensures r == CapUseRow(u, Helpers.StrOrEmpty(Field(u, "category")))
  {
    CapUseRow(u, Helpers.StrOrEmpty(Field(u, "category")))
  }

  /** The items of a use category; a category without items that names an item itself is a flat row of its own. */
  function CategoryItems(cat: Fields): (r: Result<seq<Json>>)
    ensures r.Err? ==> r.error == TypeError
    ensures !Truthy(Field(cat, "items")) && !Field(cat, "item").Null? ==> r == Ok([Obj(cat)])
  {
    var given := Or(Field(cat, "items"), Arr([]));
    if !Truthy(given) && (!Field(cat, "item").Null? || !Field(cat, "label").Null?) then Ok([Obj(cat)])
    else Iterate(given)
  }

  /** The use row of an item, released under `category`. */
  function ReleasedUnder(category: string): (f: Fields -> Json)
  {
    item => CapUseRow(item, category)
  }

  /** The use rows of one category: a row per item dict, each released under the category's name. */
  function CapCategoryRows(cat: Fields): (r: Result<seq<Json>>)
    ensures r.Ok? ==> Shaped(r.value, UseKeys)
    ensures r.Err? ==> r.error == TypeError
    ensures !Truthy(Field(cat, "items")) && !Field(cat, "item").Null? ==> r == Ok([CapUseRow(cat, Helpers.StrOrEmpty(Field(cat, "category")))])
  {
    var category := Helpers.StrOrEmpty(Field(cat, "category"));
    var items :- CategoryItems(cat);
    DictRowsShaped(items, ReleasedUnder(category), UseKeys);
    if items == [Obj(cat)] then DictRowsOne(Obj(cat), ReleasedUnder(category)); Ok(DictRows(items, ReleasedUnder(category))) else
    Ok(DictRows(items, ReleasedUnder(category)))
  }

  /**
   * A category gives one row per item dict, and row `j` is the row of an
   * item dict at or after position `j`, released under the category.
   */
  lemma CategoryRowsFrom(cat: Fields, j: int)
    requires CapCategoryRows(cat).Ok? && 0 <= j < |CapCategoryRows(cat).value|
    ensures CategoryItems(cat).Ok? && |CapCategoryRows(cat).value| == DictCount(CategoryItems(cat).value)
    ensures var items := CategoryItems(cat).value;
      exists i :: j <= i < |items| && items[i].Obj?
        && CapCategoryRows(cat).value[j] == CapUseRow(items[i].fields, Helpers.StrOrEmpty(Field(cat, "category")))
  {
    var category := Helpers.StrOrEmpty(Field(cat, "category"));
    DictRowsFrom(CategoryItems(cat).value, ReleasedUnder(category), j);
  }

  /** The dict that holds the rows: `capital_stack.table` when that is a dict, else the capital stack itself. */
  function StackTable(cs: Fields): (r: Fields)
    ensures Field(cs, "table").Obj? ==> r == Field(cs, "table").fields
    ensures !Field(cs, "table").Obj? ==> r == cs
  {
    if Field(cs, "table").Obj? then Field(cs, "table").fields else cs
  }

  /**
   * `_build_capital_stack_flat`. The top-level `sources`/`uses` fallback is
   * taken whenever no source row was found, even when the rows already came
   * from the capital stack itself, so its use rows are then appended a
   * second time (see `DuplicatedUses`).
   */
  function CapitalStackFlat(deal: Fields): (r: Result<Flat>)
    ensures r.Err? ==> r.error == AttributeError || r.error == TypeError
    ensures Truthy(Field(deal, "capital_stack")) && !Field(deal, "capital_stack").Obj? ==> r == Err(AttributeError)
    ensures r.Ok? ==> r.value.title != [] && Shaped(r.value.sources, CapSourceKeys) && Shaped(r.value.uses, UseKeys)
  {
    var cs :- AsDict(Or(Field(deal, "capital_stack"), Obj([])));
    FlatOf(cs)
  }

  /** The flat capital stack of a capital-stack dict. */
  function FlatOf(cs: Fields): (r: Result<Flat>)
    ensures r.Err? ==> r.error == AttributeError || r.error == TypeError
    ensures r.Ok? ==> r.value.title != [] && Shaped(r.value.sources, CapSourceKeys) && Shaped(r.value.uses, UseKeys)
  {
    var table := StackTable(cs);
    var shownTitle := Helpers.StrOrEmpty(Field(table, "title"));
    var title := if shownTitle != [] then shownTitle else "Capital Stack at Closing";
    var sourceItems :- ItemsOf(Field(table, "sources"));
    DictRowsShaped(sourceItems, CapSourceRow, CapSourceKeys);
    var sources := DictRows(sourceItems, CapSourceRow);
    var cats :- ItemsOf(Field(table, "uses"));
    var uses :- DictConcat(cats, CapCategoryRows, UseKeys);
    if sources == [] && (Truthy(Field(cs, "sources")) || Truthy(Field(cs, "uses"))) then
      var topSources :- ItemsOf(Field(cs, "sources"));
      var topUses :- ItemsOf(Field(cs, "uses"));
      DictRowsShaped(topSources, TopSourceRow, CapSourceKeys);
      DictRowsShaped(topUses, TopUseRow, UseKeys);
      Ok(Flat(title, DictRows(topSources, TopSourceRow), uses + DictRows(topUses, TopUseRow)))
    else Ok(Flat(title, sources, uses))
  }

  /**
   * Whatever the capital stack holds, once it is flattened: the title is the
   * table's own or the default; the use rows begin with the rows of the
   * table's categories, category after category; and when the table gave
   * source rows, those are the sources and nothing is appended to the uses.
   */
  lemma FlatRows(cs: Fields)
    requires FlatOf(cs).Ok?
    ensures var shown := Helpers.StrOrEmpty(Field(StackTable(cs), "title"));
      FlatOf(cs).value.title == if shown != [] then shown else "Capital Stack at Closing"
    ensures ItemsOf(Field(StackTable(cs), "uses")).Ok?
      && DictConcat(ItemsOf(Field(StackTable(cs), "uses")).value, CapCategoryRows, UseKeys).Ok?
    ensures var tableUses := DictConcat(ItemsOf(Field(StackTable(cs), "uses")).value, CapCategoryRows, UseKeys).value;
      |tableUses| <= |FlatOf(cs).value.uses| && FlatOf(cs).value.uses[..|tableUses|] == tableUses
    ensures ItemsOf(Field(StackTable(cs), "sources")).Ok?
    ensures var sources := DictRows(ItemsOf(Field(StackTable(cs), "sources")).value, CapSourceRow);
      sources != [] ==> (FlatOf(cs).value.sources == sources
        && FlatOf(cs).value.uses == DictConcat(ItemsOf(Field(StackTable(cs), "uses")).value, CapCategoryRows, UseKeys).value)
  {
    var table := StackTable(cs);
    var uses := DictConcat(ItemsOf(Field(table, "uses")).value, CapCategoryRows, UseKeys).value;
    var r := FlatOf(cs).value;
    assert r.uses[..|uses|] == uses;
  }

  /** One flat category gives its own row. */
  lemma OneCategory(u: Fields)
    requires !Truthy(Field(u, "items")) && !Field(u, "item").Null?
    ensures DictConcat([Obj(u)], CapCategoryRows, UseKeys) == Ok([CapUseRow(u, Helpers.StrOrEmpty(Field(u, "category")))])
  {
    assert [Obj(u)][1..] == [];
  }

  /**
   * A capital stack without a `table` whose only use is a flat row and that
   * has no source rows lists that use twice: once from the table pass and
   * once from the top-level fallback.
   */
  lemma DuplicatedUses(deal: Fields, u: Fields)
    requires Field(deal, "capital_stack").Obj?
    requires var cs := Field(deal, "capital_stack").fields;
      !Field(cs, "table").Obj? && !Truthy(Field(cs, "sources")) && Field(cs, "uses") == Arr([Obj(u)])
    requires !Truthy(Field(u, "items")) && !Field(u, "item").Null?
    ensures CapitalStackFlat(deal).Ok?
    ensures var row := CapUseRow(u, Helpers.StrOrEmpty(Field(u, "category")));
      CapitalStackFlat(deal).value.uses == [row, row]
  {
    var cs := Field(deal, "capital_stack").fields;
    assert Or(Field(deal, "capital_stack"), Obj([])) == Obj(cs);
    DuplicatedUsesOf(cs, u);
  }

  lemma DuplicatedUsesOf(cs: Fields, u: Fields)
    requires !Field(cs, "table").Obj? && !Truthy(Field(cs, "sources")) && Field(cs, "uses") == Arr([Obj(u)])
    requires !Truthy(Field(u, "items")) && !Field(u, "item").Null?
    ensures FlatOf(cs).Ok?
    ensures var row := CapUseRow(u, Helpers.StrOrEmpty(Field(u, "category")));
      FlatOf(cs).value.uses == [row, row]
  {
    assert StackTable(cs) == cs;
    assert ItemsOf(Field(cs, "uses")) == Ok([Obj(u)]);
    assert ItemsOf(Field(cs, "sources")) == Ok([]);
    OneCategory(u);
    DictRowsOne(Obj(u), TopUseRow);
    assert DictRows([], CapSourceRow) == [];
    assert Truthy(Field(cs, "uses"));
  }

  // ----------------------------------------------------- disbursement rows

  const DisbursementKeys: seq<string> := ["payoff_existing_debt", "broker_fee", "origination_fee", "closing_costs_title",
    "lender_legal", "borrower_legal", "misc", "interest_reserve", "total_disbursements", "sponsors_equity_at_closing",
    "fairbridge_release_at_closing"]
  const DisbursementCaptions: seq<string> := ["Payoff Existing Debt", "Broker Fee", "Origination Fee", "Closing Costs (Title)",
    "Lender Legal", "Borrower Legal", "Misc", "Interest Reserve", "Total Disbursements", "Sponsors Equity at Closing",
    "Fairbridge Release at Closing"]

  /**
   * `_build_disbursement_rows`: the eleven closing-disbursement lines in
   * their fixed order, each shown as text ("" when missing); none at all
   * when the closing disbursement is something other than a dict.
   */
  function DisbursementRows(cd: Json): (r: seq<Json>)
    ensures !Or(cd, Obj([])).Obj? ==> r == []
    ensures Or(cd, Obj([])).Obj? ==> Layer2Memo.Captioned(r, DisbursementCaptions)
    ensures Or(cd, Obj([])).Obj? ==> forall i :: 0 <= i < |r| ==> r[i].fields[1].1 == Str(Helpers.StrOrEmpty(Field(Or(cd, Obj([])).fields, DisbursementKeys[i])))
  {
    var d := Or(cd, Obj([]));
    if !d.Obj? then []
    else
      seq(|DisbursementKeys|, i requires 0 <= i < |DisbursementKeys| =>
        Layer2Memo.Fact(DisbursementCaptions[i], Str(Helpers.StrOrEmpty(Field(d.fields, DisbursementKeys[i])))))
  }

  /** A missing or empty closing disbursement still gives all eleven rows, each blank. */
  lemma BlankDisbursement(cd: Json)
    requires !Truthy(cd)
    ensures |DisbursementRows(cd)| == 11
    ensures forall i :: 0 <= i < 11 ==> DisbursementRows(cd)[i].fields[1].1 == Str("")
  {
  }
}
