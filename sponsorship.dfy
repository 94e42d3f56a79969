/**
 * `Layer2ToSchemaMapper._build_sponsorship`: one sponsor per distinct
 * principal named in the personal financial statements, with their assets,
 * net worth and liquidity; the guarantors of the first FB Underwriting or
 * Term Sheet record that lists any when no statement qualifies; the
 * combined totals on top of the summary; and up to ten properties of the
 * schedules of real estate owned as the track record.
 */
module Sponsorship {
  import opened Wrappers
  import Text
  import opened Values
  import Helpers
  import opened Layer2

  /** A `{"label": ..., "value": ...}` row of the financial summary. */
  function Row(caption: string, value: string): Json
  {
    Obj([("label", Str(caption)), ("value", Str(value))])
  }

  /** `d.get(k, default)` on a dict the caller knows to be one. */
  function At(d: Json, k: string, default: Json): Json
    requires d.Obj?
  {
    Get(d, k, default).value
  }

  // ------------------------------------------------------- principal name

  /** `p.get('name', '')` of a principal that is a dict. */
  function NameOf(p: Json): Json
    requires p.Obj?
  {
    At(p, "name", Str(""))
  }

  /**
   * The principals loop, from the remaining principals and the name so
   * far: every dict principal's name replaces the one before, and the first
   * name that mentions Hudson stops the loop.
   */
  function PrincipalsFrom(ps: seq<Json>, name: Json): (r: Result<Json>)
    ensures r.Err? ==> r.error == TypeError
    decreases |ps|
  {
    if ps == [] then Ok(name)
    else if !ps[0].Obj? then PrincipalsFrom(ps[1..], name)
    else
      var n := NameOf(ps[0]);
      if !Truthy(n) then PrincipalsFrom(ps[1..], n)
      else
        var hudson :- InStr("Hudson", n);
        if hudson then Ok(n) else PrincipalsFrom(ps[1..], n)
  }

  /** Pattern 1 of `_build_sponsorship`: the principals loop. */
  method ScanPrincipals(ps: seq<Json>) returns (r: Result<Json>)
    ensures r == PrincipalsFrom(ps, Null)
  {
    var name := Null;
    var i := 0;
    while i < |ps|
      invariant 0 <= i <= |ps|
      invariant PrincipalsFrom(ps[i..], name) == PrincipalsFrom(ps, Null)
    {
      var principal := ps[i];
      assert ps[i..][0] == principal && ps[i..][1..] == ps[i + 1..];
      if principal.Obj? {
        name := NameOf(principal);
        if Truthy(name) {
          var hudson :- InStr("Hudson", name);
          if hudson {
            return Ok(name);
          }
        }
      }
      i := i + 1;
    }
    assert ps[i..] == [];
    return Ok(name);
  }

  /** A principal named in text that mentions Hudson. */
  predicate IsHudson(p: Json)
  {
    p.Obj? && NameOf(p).Str? && Text.Contains(NameOf(p).s, "Hudson")
  }

  /** Every principal that is a dict is named in text (or not named). */
  predicate NamedInText(ps: seq<Json>)
  {
    forall i :: 0 <= i < |ps| && ps[i].Obj? ==> NameOf(ps[i]).Str?
  }

  lemma NamedInTextTail(ps: seq<Json>)
    requires ps != [] && NamedInText(ps)
    ensures NamedInText(ps[1..])
  {
    forall i | 0 <= i < |ps[1..]| && ps[1..][i].Obj? ensures NameOf(ps[1..][i]).Str? {
      assert ps[1..][i] == ps[i + 1];
    }
  }

  /** The first principal mentioning Hudson wins, whatever comes after it. */
  lemma {:induction false} PrincipalsPickHudson(ps: seq<Json>, name: Json, k: int)
    requires NamedInText(ps) && 0 <= k < |ps| && IsHudson(ps[k])
    requires forall j :: 0 <= j < k ==> !IsHudson(ps[j])
    ensures PrincipalsFrom(ps, name) == Ok(NameOf(ps[k]))
    decreases |ps|
  {
    if k > 0 {
      NamedInTextTail(ps);
      var next := if ps[0].Obj? then NameOf(ps[0]) else name;
      forall j | 0 <= j < k - 1 ensures !IsHudson(ps[1..][j]) {
        assert ps[1..][j] == ps[j + 1];
      }
      assert ps[1..][k - 1] == ps[k];
      PrincipalsPickHudson(ps[1..], next, k - 1);
    }
  }

  /** Without a Hudson, the name is that of the last principal that is a dict, or the starting name when there is none. */
  lemma {:induction false} PrincipalsPickLast(ps: seq<Json>, name: Json)
    requires NamedInText(ps)
    requires forall j :: 0 <= j < |ps| ==> !IsHudson(ps[j])
    ensures PrincipalsFrom(ps, name) == Ok(LastName(ps, name))
    decreases |ps|
  {
    if ps != [] {
      NamedInTextTail(ps);
      var next := if ps[0].Obj? then NameOf(ps[0]) else name;
      forall j | 0 <= j < |ps[1..]| ensures !IsHudson(ps[1..][j]) {
        assert ps[1..][j] == ps[j + 1];
      }
      PrincipalsPickLast(ps[1..], next);
      LastNameStep(ps, name);
    }
  }

  /** Reference definition: the name of the last dict in `ps`, or `name` when there is none. */
  function LastName(ps: seq<Json>, name: Json): Json
  {
    if exists i :: 0 <= i < |ps| && ps[i].Obj? then
      var k := LastDict(ps); NameOf(ps[k])
    else name
  }

  /** The position of the last dict. */
  function LastDict(ps: seq<Json>): (k: int)
    requires exists i :: 0 <= i < |ps| && ps[i].Obj?
    ensures 0 <= k < |ps| && ps[k].Obj? && forall j :: k < j < |ps| ==> !ps[j].Obj?
    decreases |ps|
  {
    if ps[|ps| - 1].Obj? then |ps| - 1
    else
      var i :| 0 <= i < |ps| && ps[i].Obj?;
      assert ps[..|ps| - 1][i] == ps[i];
      LastDict(ps[..|ps| - 1])
  }

  /** The last dict of `ps` is the last dict of its tail, unless the tail has none. */
  lemma LastNameStep(ps: seq<Json>, name: Json)
    requires ps != []
    ensures LastName(ps, name) == LastName(ps[1..], if ps[0].Obj? then NameOf(ps[0]) else name)
  {
    var tail := ps[1..];
    if exists i :: 0 <= i < |tail| && tail[i].Obj? {
      var i :| 0 <= i < |tail| && tail[i].Obj?;
      assert ps[i + 1] == tail[i];
      var k := LastDict(tail);
      assert ps[k + 1] == tail[k];
      forall j | k + 1 < j < |ps| ensures !ps[j].Obj? {
        assert ps[j] == tail[j - 1];
      }
      LastDictUnique(ps, k + 1);
    } else if ps[0].Obj? {
      forall j | 0 < j < |ps| ensures !ps[j].Obj? {
        assert ps[j] == tail[j - 1];
      }
      LastDictUnique(ps, 0);
    } else {
      forall i | 0 <= i < |ps| ensures !ps[i].Obj? {
        if i > 0 { assert ps[i] == tail[i - 1]; }
      }
    }
  }

  lemma LastDictUnique(ps: seq<Json>, k: int)
    requires 0 <= k < |ps| && ps[k].Obj? && forall j :: k < j < |ps| ==> !ps[j].Obj?
    ensures LastDict(ps) == k
  {
  }

  /** Patterns 1 to 4 of `_build_sponsorship`: the first truthy name the statement gives. */
  function SponsorName(pfs: Json): (r: Result<Json>)
    ensures r.Err? ==> r.error == TypeError || r.error == AttributeError
    ensures !pfs.Obj? ==> r == Err(AttributeError)
  {
    var principals := Dig(pfs, ["principals"], Arr([]));
    var n1 :- if Truthy(principals) && principals.Arr? then PrincipalsFrom(principals.items, Null) else Ok(Null);
    if Truthy(n1) then Ok(n1)
    else
      var n2 := Dig(pfs, ["signer_information", "name"], Str(""));
      if Truthy(n2) then Ok(n2)
      else
        var n3 := Dig(pfs, ["personal_financial_statement", "personal_info", "name"], Str(""));
        if Truthy(n3) then Ok(n3)
        else
          var inner :- Get(pfs, "individual_name", Str(""));
          Get(pfs, "name", inner)
  }

  /** Pattern 1 to 4 with the principals loop run as a loop. */
  method FindSponsorName(pfs: Json) returns (r: Result<Json>)
    ensures r == SponsorName(pfs)
  {
    var principals := Dig(pfs, ["principals"], Arr([]));
    var name := Null;
    if Truthy(principals) && principals.Arr? {
      name :- ScanPrincipals(principals.items);
    }
    if !Truthy(name) {
      name := Dig(pfs, ["signer_information", "name"], Str(""));
    }
    if !Truthy(name) {
      name := Dig(pfs, ["personal_financial_statement", "personal_info", "name"], Str(""));
    }
    if !Truthy(name) {
      var inner :- Get(pfs, "individual_name", Str(""));
      name := Get(pfs, "name", inner).value;
    }
    return Ok(name);
  }

  // ------------------------------------------------------------- name key

  /** The de-duplication key: lower case, without commas, periods or "jr", stripped. */
  function NameKey(name: string): string
  {
    Text.Strip(Text.Replace(Text.Without(Text.Without(Text.Lower(name), ','), '.'), "jr", ""))
  }

  /** The key has no comma, no period and no white space at either end. */
  lemma NameKeyShape(name: string)
    ensures var r := NameKey(name); ',' !in r && '.' !in r && Text.Stripped(r)
  {
    var a := Text.Without(Text.Lower(name), ',');
    var b := Text.Without(a, '.');
    Text.WithoutKeepsAbsent(a, '.', ',');
    var c := Text.Replace(b, "jr", "");
    Text.ReplaceKeepsAbsent(b, "jr", "", ',');
    Text.ReplaceKeepsAbsent(b, "jr", "", '.');
    Text.StripKeepsAbsent(c, ',');
    Text.StripKeepsAbsent(c, '.');
  }

  /** A name with no comma, period or letter j lower-cases to one without them. */
  lemma LowerPlain(n: string)
    requires ',' !in n && '.' !in n && 'j' !in n && 'J' !in n
    ensures var l := Text.Lower(n); ',' !in l && '.' !in l && 'j' !in l
  {
    var l := Text.Lower(n);
    forall i | 0 <= i < |l| ensures l[i] != ',' && l[i] != '.' && l[i] != 'j' {
      assert n[i] != 'J' && n[i] != 'j' && n[i] != ',' && n[i] != '.';
    }
  }

  /** Such a name's key is its lower-cased, stripped text. */
  lemma NameKeyPlain(n: string)
    requires ',' !in n && '.' !in n && 'j' !in n && 'J' !in n
    ensures NameKey(n) == Text.Strip(Text.Lower(n))
  {
    var l := Text.Lower(n);
    LowerPlain(n);
    Text.WithoutAbsent(l, ',');
    Text.WithoutAbsent(l, '.');
    Text.ReplaceSkip(l, "jr", "", |l|);
    assert l[..|l|] == l && l[|l|..] == [];
    assert Text.Replace(l, "jr", "") == l;
  }

  /** Dropping commas and periods from the lower-cased " Jr." name leaves " jr" after the name. */
  lemma JuniorCleaned(n: string)
    requires ',' !in n && '.' !in n && 'j' !in n && 'J' !in n
    ensures Text.Without(Text.Without(Text.Lower(n + " Jr."), ','), '.') == Text.Lower(n) + " jr"
  {
    var l := Text.Lower(n);
    LowerPlain(n);
    Text.LowerAppend(n, " Jr.");
    assert Text.Lower(" Jr.") == " jr.";
    var full := l + " jr";
    assert Text.Lower(n + " Jr.") == full + ".";
    Text.WithoutAbsent(full + ".", ',');
    Text.WithoutAppend(full, ".", '.');
    assert Text.Without(".", '.') == [];
    Text.WithoutAbsent(full, '.');
  }

  /** Removing "jr" from a text with no j followed by " jr" leaves a trailing blank. */
  lemma JuniorReplaced(l: string)
    requires 'j' !in l
    ensures Text.Replace(l + " jr", "jr", "") == l + " "
  {
    var full := l + " jr";
    assert full[..|l| + 1] == l + " " && full[|l| + 1..] == "jr";
    Text.ReplaceSkip(full, "jr", "", |l| + 1);
    assert Text.Replace("jr", "jr", "") == "" + Text.Replace([], "jr", "");
  }

  /** With " Jr." appended, the suffix leaves only a trailing blank before the strip. */
  lemma NameKeyWithJunior(n: string)
    requires ',' !in n && '.' !in n && 'j' !in n && 'J' !in n
    ensures NameKey(n + " Jr.") == Text.Strip(Text.Lower(n) + " ")
  {
    LowerPlain(n);
    JuniorCleaned(n);
    JuniorReplaced(Text.Lower(n));
  }

  /**
   * main.py:420: a " Jr." suffix does not change the key of a name with no
   * comma, period or letter j, so the junior and the senior are listed once.
   */
  lemma NameKeyJunior(n: string)
    requires ',' !in n && '.' !in n && 'j' !in n && 'J' !in n
    ensures NameKey(n + " Jr.") == NameKey(n)
  {
    NameKeyPlain(n);
    NameKeyWithJunior(n);
    Text.StripSpaceEnd(Text.Lower(n));
  }

  /** The case the source comments on: "Steve Hudson Jr." and "Steve Hudson" share a key. */
  lemma NameKeySuffix()
    ensures NameKey("Steve Hudson" + " Jr.") == NameKey("Steve Hudson")
  {
    NameKeyJunior("Steve Hudson");
  }

  // ------------------------------------------------------------ financials

  /** Whether a lower-cased asset type mentions every word. */
  predicate MentionsAll(t: string, words: seq<string>)
  {
    forall i :: 0 <= i < |words| ==> Text.Contains(Text.Lower(t), words[i])
  }

  /**
   * The asset-items loop, from the remaining items: the value of the first
   * item whose type mentions every word, `otherwise` when none does. An
   * item that is not a dict, or whose type is not text, raises.
   */
  function FirstValue(items: seq<Json>, words: seq<string>, otherwise: Json): (r: Result<Json>)
    ensures r.Err? ==> r.error == AttributeError
    decreases |items|
  {
    if items == [] then Ok(otherwise)
    else
      var t :- Get(items[0], "asset_type", Str(""));
      if !t.Str? then Err(AttributeError)
      else if MentionsAll(t.s, words) then Ok(At(items[0], "value", Int(0)))
      else FirstValue(items[1..], words, otherwise)
  }

  /** The cash loop and the securities loop of `_build_sponsorship`. */
  method ScanAssetItems(items: seq<Json>, words: seq<string>, otherwise: Json) returns (r: Result<Json>)
    ensures r == FirstValue(items, words, otherwise)
  {
    var i := 0;
    while i < |items|
      invariant 0 <= i <= |items|
      invariant FirstValue(items[i..], words, otherwise) == FirstValue(items, words, otherwise)
    {
      var item := items[i];
      assert items[i..][0] == item && items[i..][1..] == items[i + 1..];
      var t :- Get(item, "asset_type", Str(""));
      if !t.Str? {
        return Err(AttributeError);
      }
      if MentionsAll(t.s, words) {
        return Ok(At(item, "value", Int(0)));
      }
      i := i + 1;
    }
    assert items[i..] == [];
    return Ok(otherwise);
  }

  /** An item with a text type that does not mention every word. */
  predicate Passed(item: Json, words: seq<string>)
  {
    item.Obj? && At(item, "asset_type", Str("")).Str? && !MentionsAll(At(item, "asset_type", Str("")).s, words)
  }

  /** The loop takes the value of the first item that mentions every word, when all before it are dicts with text types. */
  lemma {:induction false} FirstValueFirst(items: seq<Json>, words: seq<string>, otherwise: Json, k: int)
    requires 0 <= k < |items| && items[k].Obj?
    requires var t := At(items[k], "asset_type", Str("")); t.Str? && MentionsAll(t.s, words)
    requires forall j :: 0 <= j < k ==> Passed(items[j], words)
    ensures FirstValue(items, words, otherwise) == Ok(At(items[k], "value", Int(0)))
    decreases |items|
  {
    if k > 0 {
      assert Passed(items[0], words);
      forall j | 0 <= j < k - 1 ensures Passed(items[1..][j], words) {
        assert items[1..][j] == items[j + 1];
      }
      assert items[1..][k - 1] == items[k];
      FirstValueFirst(items[1..], words, otherwise, k - 1);
    }
  }

  /** When no item mentions every word, the loop leaves the value it started with. */
  lemma {:induction false} FirstValueNone(items: seq<Json>, words: seq<string>, otherwise: Json)
    requires forall j :: 0 <= j < |items| ==> Passed(items[j], words)
    ensures FirstValue(items, words, otherwise) == Ok(otherwise)
    decreases |items|
  {
    if items != [] {
      assert Passed(items[0], words);
      forall j | 0 <= j < |items[1..]| ensures Passed(items[1..][j], words) {
        assert items[1..][j] == items[j + 1];
      }
      FirstValueNone(items[1..], words, otherwise);
    }
  }

  /** A sponsor's entry and its three summary rows. */
  datatype Entry = Entry(sponsor: Json, rows: seq<Json>)

  /** `total_assets - (total_liabilities or 0)` when the statement gives no net worth but some assets. */
  function NetWorth(given: Json, totalAssets: Json, totalLiabilities: Json): (r: Result<Json>)
    ensures r.Err? ==> r.error == TypeError
    ensures Truthy(given) || !Truthy(totalAssets) ==> r == Ok(given)
    ensures !Truthy(given) && Truthy(totalAssets) && IsNumber(totalAssets) && IsNumber(totalLiabilities) ==>
      r.Ok? && IsNumber(r.value) && NumValue(r.value) == NumValue(totalAssets) - (if Truthy(totalLiabilities) then NumValue(totalLiabilities) else 0.0)
  {
    if !Truthy(given) && Truthy(totalAssets) then Sub(totalAssets, Or(totalLiabilities, Int(0)))
    else Ok(given)
  }

  /** The cash (`words` ["cash"]) or securities (["securities", "listed"]) figure: the field itself, or the first matching asset item. */
  function Holding(assets: Json, field: string, words: seq<string>): (r: Result<Json>)
    requires assets.Obj?
    ensures Truthy(At(assets, field, Int(0))) ==> r == Ok(At(assets, field, Int(0)))
    ensures r.Err? ==> r.error == AttributeError || r.error == TypeError
  {
    var given := At(assets, field, Int(0));
    if Truthy(given) then Ok(given)
    else
      var items :- Iterate(At(assets, "items", Arr([])));
      FirstValue(items, words, given)
  }

  /** `total_liabilities`, from the liabilities section or else from the summary's own liabilities. */
  function TotalLiabilities(financial: Json, section: Json): (r: Result<Json>)
    ensures r.Err? ==> r.error == AttributeError
  {
    var listed :- Get(Dig(section, ["liabilities"], Obj([])), "total_liabilities", Int(0));
    Ok(if Truthy(listed) then listed else Dig(financial, ["liabilities", "total_liabilities"], Int(0)))
  }

  /** The sponsor entry and its three summary rows. */
  function MakeEntry(name: string, totalAssets: Json, netWorth: Json, cash: Json, securities: Json, liquidity: Json): (e: Entry)
    ensures |e.rows| == 3 && e.sponsor.Obj? && |e.sponsor.fields| == 6
    ensures e.sponsor.fields[0] == ("name", Str(name)) && e.sponsor.fields[1].1 == totalAssets && e.sponsor.fields[2].1 == netWorth
    ensures e.sponsor.fields[3].1 == liquidity && e.sponsor.fields[4].1 == cash && e.sponsor.fields[5].1 == securities
    ensures Keys(e.sponsor.fields) == ["name", "total_assets", "net_worth", "liquidity", "cash", "securities"]
    ensures e.rows[0] == Row(name + " - Total Assets", Helpers.FormatCurrency(totalAssets))
    ensures e.rows[1] == Row(name + " - Net Worth", Helpers.FormatCurrency(netWorth))
    ensures e.rows[2] == Row(name + " - Cash & Securities", Helpers.FormatCurrency(liquidity))
  {
    Entry(
      Obj([("name", Str(name)), ("total_assets", totalAssets), ("net_worth", netWorth),
           ("liquidity", liquidity), ("cash", cash), ("securities", securities)]),
      [ Row(name + " - Total Assets", Helpers.FormatCurrency(totalAssets)),
        Row(name + " - Net Worth", Helpers.FormatCurrency(netWorth)),
        Row(name + " - Cash & Securities", Helpers.FormatCurrency(liquidity)) ])
  }

  /** A sponsor counts when it shows some assets or some net worth. */
  predicate Counts(sponsor: Json)
  {
    sponsor.Obj? && |sponsor.fields| >= 3 && (Truthy(sponsor.fields[1].1) || Truthy(sponsor.fields[2].1))
  }

  /**
   * The financial part of one statement: its sponsor entry and three summary
   * rows, or nothing when it shows neither assets nor net worth.
   */
  function Financials(pfs: Json, name: string): (r: Result<Option<Entry>>)
    ensures r.Err? ==> r.error == AttributeError || r.error == TypeError
    ensures r.Ok? && r.value.Some? ==>
      (|r.value.value.rows| == 3 && Counts(r.value.value.sponsor) && r.value.value.sponsor.fields[0] == ("name", Str(name)))
  {
    var financial := FinancialOf(pfs);
    var assets := AssetsOf(pfs);
    var totalAssets :- Get(assets, "total_assets", Int(0));
    var section := SectionOf(pfs);
    var totalLiabilities :- TotalLiabilities(financial, section);
    var given :- Get(section, "net_worth", Int(0));
    var netWorth :- NetWorth(given, totalAssets, totalLiabilities);
    var cash :- Holding(assets, "cash_and_cash_equivalents", ["cash"]);
    var securities :- Holding(assets, "marketable_securities", ["securities", "listed"]);
    var liquidity :- Add(Or(cash, Int(0)), Or(securities, Int(0)));
    if Truthy(totalAssets) || Truthy(netWorth) then Ok(Some(MakeEntry(name, totalAssets, netWorth, cash, securities, liquidity)))
    else Ok(None)
  }

  /** `_safe_get(pfs, 'financial_summary', default={})` */
  function FinancialOf(pfs: Json): Json
  {
    Dig(pfs, ["financial_summary"], Obj([]))
  }

  /** `_safe_get(financial, 'assets', default={})` */
  function AssetsOf(pfs: Json): Json
  {
    Dig(FinancialOf(pfs), ["assets"], Obj([]))
  }

  /** `_safe_get(financial, 'liabilities_and_net_worth', default={})` */
  function SectionOf(pfs: Json): Json
  {
    Dig(FinancialOf(pfs), ["liabilities_and_net_worth"], Obj([]))
  }

  /**
   * main.py:436-465: the sponsor a statement yields carries the statement's
   * total assets; its net worth is the stated one or, when that is falsy
   * and there are assets, assets minus liabilities; its cash and securities
   * are the figures found for them, and its liquidity is their sum, each
   * counted as 0 when falsy.
   */
  lemma FinancialsFigures(pfs: Json, name: string)
    requires Financials(pfs, name).Ok? && Financials(pfs, name).value.Some?
    ensures var f := Financials(pfs, name).value.value.sponsor.fields;
      |f| == 6 && Get(AssetsOf(pfs), "total_assets", Int(0)) == Ok(f[1].1)
    ensures var f := Financials(pfs, name).value.value.sponsor.fields;
      |f| == 6 && Get(SectionOf(pfs), "net_worth", Int(0)).Ok? && TotalLiabilities(FinancialOf(pfs), SectionOf(pfs)).Ok? &&
      NetWorth(Get(SectionOf(pfs), "net_worth", Int(0)).value, f[1].1, TotalLiabilities(FinancialOf(pfs), SectionOf(pfs)).value) == Ok(f[2].1)
    ensures var f := Financials(pfs, name).value.value.sponsor.fields;
      |f| == 6 && AssetsOf(pfs).Obj? &&
      Holding(AssetsOf(pfs), "cash_and_cash_equivalents", ["cash"]) == Ok(f[4].1) &&
      Holding(AssetsOf(pfs), "marketable_securities", ["securities", "listed"]) == Ok(f[5].1)
    ensures var f := Financials(pfs, name).value.value.sponsor.fields;
      |f| == 6 && Add(Or(f[4].1, Int(0)), Or(f[5].1, Int(0))) == Ok(f[3].1)
    ensures var f := Financials(pfs, name).value.value.sponsor.fields;
      |f| == 6 && IsNumber(Or(f[4].1, Int(0))) && IsNumber(Or(f[5].1, Int(0))) ==>
      IsNumber(f[3].1) && NumValue(f[3].1) == NumValue(Or(f[4].1, Int(0))) + NumValue(Or(f[5].1, Int(0)))
  {
    var assets, section := AssetsOf(pfs), SectionOf(pfs);
    var totalAssets := Get(assets, "total_assets", Int(0));
    var totalLiabilities := TotalLiabilities(FinancialOf(pfs), section);
    var given := Get(section, "net_worth", Int(0));
    assert totalAssets.Ok? && totalLiabilities.Ok? && given.Ok?;
    var netWorth := NetWorth(given.value, totalAssets.value, totalLiabilities.value);
    var cash := Holding(assets, "cash_and_cash_equivalents", ["cash"]);
    var securities := Holding(assets, "marketable_securities", ["securities", "listed"]);
    assert netWorth.Ok? && cash.Ok? && securities.Ok?;
    var liquidity := Add(Or(cash.value, Int(0)), Or(securities.value, Int(0)));
    assert liquidity.Ok?;
    assert Financials(pfs, name).value.value
      == MakeEntry(name, totalAssets.value, netWorth.value, cash.value, securities.value, liquidity.value);
  }

  /** The cash or securities figure, with its asset-item loop run as a loop. */
  method FindHolding(assets: Json, field: string, words: seq<string>) returns (r: Result<Json>)
    requires assets.Obj?
    ensures r == Holding(assets, field, words)
  {
    var value := At(assets, field, Int(0));
    if !Truthy(value) {
      var items :- Iterate(At(assets, "items", Arr([])));
      value :- ScanAssetItems(items, words, value);
    }
    return Ok(value);
  }

  /** The financial part of the statement loop, with the two asset-item loops run as loops. */
  method ExtractFinancials(pfs: Json, name: string) returns (r: Result<Option<Entry>>)
    ensures r == Financials(pfs, name)
  {
    var financial := FinancialOf(pfs);
    var assets := AssetsOf(pfs);
    var totalAssets :- Get(assets, "total_assets", Int(0));
    var section := SectionOf(pfs);
    var totalLiabilities :- TotalLiabilities(financial, section);
    var netWorth :- Get(section, "net_worth", Int(0));
    netWorth :- NetWorth(netWorth, totalAssets, totalLiabilities);
    var cash :- FindHolding(assets, "cash_and_cash_equivalents", ["cash"]);
    var securities :- FindHolding(assets, "marketable_securities", ["securities", "listed"]);
    var liquidity :- Add(Or(cash, Int(0)), Or(securities, Int(0)));
    if Truthy(totalAssets) || Truthy(netWorth) {
      r := Ok(Some(MakeEntry(name, totalAssets, netWorth, cash, securities, liquidity)));
    } else {
      r := Ok(None);
    }
  }

  // ------------------------------------------------------ statement loop

  /** What the statement loop has gathered: sponsors, summary rows and the keys of the names seen. */
  datatype Gathered = Gathered(sponsors: seq<Json>, rows: seq<Json>, seen: set<string>)

  /**
   * One turn of the statement loop: a statement without a name is skipped,
   * a name that is not text cannot be lower-cased, a name whose key was
   * seen is skipped, and otherwise the key is marked seen and the sponsor
   * added when it shows assets or net worth.
   */
  function PfsStep(pfs: Json, g: Gathered): (r: Result<Gathered>)
    ensures r.Err? ==> r.error == AttributeError || r.error == TypeError
  {
    var name :- SponsorName(pfs);
    if !Truthy(name) then Ok(g)
    else if !name.Str? then Err(AttributeError)
    else
      var key := NameKey(name.s);
      if key in g.seen then Ok(g)
      else
        var found :- Financials(pfs, name.s);
        var seen := g.seen + {key};
        match found
        case None => Ok(g.(seen := seen))
        case Some(e) => Ok(Gathered(g.sponsors + [e.sponsor], g.rows + e.rows, seen))
  }

  /** The statement loop, from the remaining statements and what has been gathered. */
  function PfsFrom(docs: seq<Json>, g: Gathered): (r: Result<Gathered>)
    ensures r.Err? ==> r.error == AttributeError || r.error == TypeError
    decreases |docs|
  {
    if docs == [] then Ok(g)
    else
      var next :- PfsStep(docs[0], g);
      PfsFrom(docs[1..], next)
  }

  /** The statement loop of `_build_sponsorship`. */
  method GatherSponsors(docs: seq<Json>) returns (r: Result<Gathered>)
    ensures r == PfsFrom(docs, Gathered([], [], {}))
  {
    var sponsors: seq<Json> := [];
    var rows: seq<Json> := [];
    var seen: set<string> := {};
    var i := 0;
    while i < |docs|
      invariant 0 <= i <= |docs|
      invariant PfsFrom(docs[i..], Gathered(sponsors, rows, seen)) == PfsFrom(docs, Gathered([], [], {}))
    {
      var pfs := docs[i];
      assert docs[i..][0] == pfs && docs[i..][1..] == docs[i + 1..];
      i := i + 1;
      var name :- FindSponsorName(pfs);
      if !Truthy(name) {
        continue;
      }
      if !name.Str? {
        return Err(AttributeError);
      }
      var key := NameKey(name.s);
      if key in seen {
        continue;
      }
      seen := seen + {key};
      var found :- ExtractFinancials(pfs, name.s);
      if found.Some? {
        sponsors := sponsors + [found.value.sponsor];
        rows := rows + found.value.rows;
      }
    }
    assert docs[i..] == [];
    return Ok(Gathered(sponsors, rows, seen));
  }

  /** The name key of a sponsor entry. */
  function KeyOf(sponsor: Json): string
  {
    if sponsor.Obj? && sponsor.fields != [] && sponsor.fields[0].1.Str? then NameKey(sponsor.fields[0].1.s) else ""
  }

  /** The name keys of the sponsors, in order. */
  function SponsorKeys(sponsors: seq<Json>): (r: seq<string>)
    ensures |r| == |sponsors|
    decreases |sponsors|
  {
    if sponsors == [] then [] else SponsorKeys(sponsors[..|sponsors| - 1]) + [KeyOf(sponsors[|sponsors| - 1])]
  }

  /**
   * What the loop keeps true: no two sponsors share a name key, every
   * sponsor's key has been seen, every sponsor counts, and there are three
   * summary rows per sponsor.
   */
  predicate Consistent(g: Gathered)
  {
    var ks := SponsorKeys(g.sponsors);
    && Distinct(ks)
    && (forall i :: 0 <= i < |ks| ==> ks[i] in g.seen)
    && (forall i :: 0 <= i < |g.sponsors| ==> Counts(g.sponsors[i]))
    && |g.rows| == 3 * |g.sponsors|
  }

  /** One turn keeps the loop's invariant and forgets no key. */
  lemma PfsStepConsistent(pfs: Json, g: Gathered)
    requires Consistent(g) && PfsStep(pfs, g).Ok?
    ensures Consistent(PfsStep(pfs, g).value)
    ensures g.seen <= PfsStep(pfs, g).value.seen
  {
    var name := SponsorName(pfs).value;
    if Truthy(name) && NameKey(name.s) !in g.seen {
      var key := NameKey(name.s);
      var found := Financials(pfs, name.s).value;
      if found.Some? {
        AddSponsor(g, found.value, key);
      }
    }
  }

  /** Adding a sponsor under a key not seen before keeps the invariant. */
  lemma AddSponsor(g: Gathered, e: Entry, key: string)
    requires Consistent(g) && key !in g.seen
    requires KeyOf(e.sponsor) == key && Counts(e.sponsor) && |e.rows| == 3
    ensures Consistent(Gathered(g.sponsors + [e.sponsor], g.rows + e.rows, g.seen + {key}))
  {
    var s := g.sponsors + [e.sponsor];
    var ks := SponsorKeys(g.sponsors);
    assert s[..|s| - 1] == g.sponsors;
    assert SponsorKeys(s) == ks + [key];
    AddKey(ks, key, g.seen);
    forall i | 0 <= i < |s| ensures Counts(s[i]) {
      if i < |g.sponsors| {
        assert s[i] == g.sponsors[i];
      }
    }
  }

  /** A key not seen before keeps the keys distinct and all seen. */
  lemma AddKey(ks: seq<string>, key: string, seen: set<string>)
    requires Distinct(ks) && (forall i :: 0 <= i < |ks| ==> ks[i] in seen) && key !in seen
    ensures Distinct(ks + [key])
    ensures forall i :: 0 <= i < |ks + [key]| ==> (ks + [key])[i] in seen + {key}
  {
    var t := ks + [key];
    forall i, j | 0 <= i < j < |t| ensures t[i] != t[j] {
      assert t[i] == ks[i] && ks[i] in seen;
    }
  }

  /** The statement loop keeps its sponsors distinct by name key, each with assets or net worth, three rows apiece. */
  lemma {:induction false} PfsFromConsistent(docs: seq<Json>, g: Gathered)
    requires Consistent(g) && PfsFrom(docs, g).Ok?
    ensures Consistent(PfsFrom(docs, g).value)
    decreases |docs|
  {
    if docs != [] {
      PfsStepConsistent(docs[0], g);
      PfsFromConsistent(docs[1..], PfsStep(docs[0], g).value);
    }
  }

  // -------------------------------------------------------------- fallback

  /** `{"name": name, "total_assets": None, "net_worth": None, "liquidity": None}` */
  function Guarantor(name: Json): Json
  {
    Obj([("name", name), ("total_assets", Null), ("net_worth", Null), ("liquidity", Null)])
  }

  /** The guarantors of a record, when it lists any. */
  function GuarantorsOf(doc: Json): Json
  {
    Dig(Dig(doc, ["sponsorship"], Obj([])), ["guarantors"], Obj([]))
  }

  /** What the first record with guarantors contributes: one entry per name and the two combined rows. */
  function FromGuarantors(g: Json, sponsors: seq<Json>, rows: seq<Json>): (r: Result<(seq<Json>, seq<Json>)>)
    ensures r.Ok? ==> |r.value.1| == |rows| + 2 && |sponsors| <= |r.value.0|
  {
    var names :- Get(g, "names", Arr([]));
    var netWorth := At(g, "combined_net_worth", Int(0));
    var cash := At(g, "combined_cash_position", Int(0));
    var securities := At(g, "combined_securities_holdings", Int(0));
    var ns :- Iterate(names);
    var liquidity :- Add(Or(cash, Int(0)), Or(securities, Int(0)));
    Ok((sponsors + seq(|ns|, i requires 0 <= i < |ns| => Guarantor(ns[i])),
        rows + [Row("Combined Net Worth (Guarantors)", Helpers.FormatCurrency(netWorth)),
                Row("Combined Liquidity", Helpers.FormatCurrency(liquidity))]))
  }

  /** The fallback loop, from the remaining records: the first record with guarantors is used, and only it. */
  function FallbackFrom(docs: seq<Json>, sponsors: seq<Json>, rows: seq<Json>): (r: Result<(seq<Json>, seq<Json>)>)
    decreases |docs|
  {
    if docs == [] then Ok((sponsors, rows))
    else if Truthy(GuarantorsOf(docs[0])) then FromGuarantors(GuarantorsOf(docs[0]), sponsors, rows)
    else FallbackFrom(docs[1..], sponsors, rows)
  }

  /** The fallback loop of `_build_sponsorship`. */
  method Fallback(docs: seq<Json>, sponsors: seq<Json>, rows: seq<Json>) returns (r: Result<(seq<Json>, seq<Json>)>)
    ensures r == FallbackFrom(docs, sponsors, rows)
  {
    var i := 0;
    while i < |docs|
      invariant 0 <= i <= |docs|
      invariant FallbackFrom(docs[i..], sponsors, rows) == FallbackFrom(docs, sponsors, rows)
    {
      assert docs[i..][0] == docs[i] && docs[i..][1..] == docs[i + 1..];
      var guarantors := GuarantorsOf(docs[i]);
      if Truthy(guarantors) {
        return FromGuarantors(guarantors, sponsors, rows);
      }
      i := i + 1;
    }
    assert docs[i..] == [];
    return Ok((sponsors, rows));
  }

  /** Records before the first one with guarantors, and all records after it, change nothing. */
  lemma {:induction false} FallbackFirst(docs: seq<Json>, sponsors: seq<Json>, rows: seq<Json>, k: int)
    requires 0 <= k < |docs| && Truthy(GuarantorsOf(docs[k]))
    requires forall j :: 0 <= j < k ==> !Truthy(GuarantorsOf(docs[j]))
    ensures FallbackFrom(docs, sponsors, rows) == FromGuarantors(GuarantorsOf(docs[k]), sponsors, rows)
    decreases |docs|
  {
    if k > 0 {
      forall j | 0 <= j < k - 1 ensures !Truthy(GuarantorsOf(docs[1..][j])) {
        assert docs[1..][j] == docs[j + 1];
      }
      assert docs[1..][k - 1] == docs[k];
      FallbackFirst(docs[1..], sponsors, rows, k - 1);
    }
  }

  /** With no record listing guarantors the fallback adds nothing. */
  lemma {:induction false} FallbackNone(docs: seq<Json>, sponsors: seq<Json>, rows: seq<Json>)
    requires forall j :: 0 <= j < |docs| ==> !Truthy(GuarantorsOf(docs[j]))
    ensures FallbackFrom(docs, sponsors, rows) == Ok((sponsors, rows))
    decreases |docs|
  {
    if docs != [] {
      forall j | 0 <= j < |docs[1..]| ensures !Truthy(GuarantorsOf(docs[1..][j])) {
        assert docs[1..][j] == docs[j + 1];
      }
      FallbackNone(docs[1..], sponsors, rows);
    }
  }

  // ------------------------------------------------------- combined totals

  /** `s.get(key)` of a sponsor entry. */
  function Figure(sponsor: Json, key: string): Json
  {
    if sponsor.Obj? then match Lookup(sponsor.fields, key) case Some(v) => v case None => Null
    else Null
  }

  /** `sum(parse_currency_to_number(s.get(key)) for s in sponsors)` */
  function Total(sponsors: seq<Json>, key: string): real
    decreases |sponsors|
  {
    if sponsors == [] then 0.0 else Helpers.ParseCurrency(Figure(sponsors[0], key)) + Total(sponsors[1..], key)
  }

  /** The guarantor entries carry no figures, so they add up to nothing. */
  lemma {:induction false} GuarantorsTotalNothing(names: seq<Json>, key: string)
    requires key in {"total_assets", "net_worth", "liquidity"}
    ensures Total(seq(|names|, i requires 0 <= i < |names| => Guarantor(names[i])), key) == 0.0
    decreases |names|
  {
    var gs := seq(|names|, i requires 0 <= i < |names| => Guarantor(names[i]));
    if names != [] {
      assert gs[1..] == seq(|names[1..]|, i requires 0 <= i < |names[1..]| => Guarantor(names[1..][i]));
      assert Figure(gs[0], key) == Null;
      GuarantorsTotalNothing(names[1..], key);
    }
  }

  /** The summary rows with the two combined rows put in front when there are sponsors with a positive combined net worth. */
  function WithCombined(sponsors: seq<Json>, rows: seq<Json>): (r: seq<Json>)
    ensures |r| == |rows| + 2 <==> sponsors != [] && Total(sponsors, "net_worth") > 0.0
    ensures |r| != |rows| + 2 ==> r == rows
    ensures |r| == |rows| + 2 ==> r[2..] == rows && r[0] == Row("COMBINED NET WORTH", Helpers.FormatCurrency(Float(Total(sponsors, "net_worth"))))
    ensures |r| == |rows| + 2 ==> r[1] == Row("COMBINED LIQUIDITY", Helpers.FormatCurrency(Float(Total(sponsors, "liquidity"))))
  {
    var netWorth := Total(sponsors, "net_worth");
    var liquidity := Total(sponsors, "liquidity");
    if sponsors != [] && netWorth > 0.0 then
      [ Row("COMBINED NET WORTH", Helpers.FormatCurrency(Float(netWorth))),
        Row("COMBINED LIQUIDITY", Helpers.FormatCurrency(Float(liquidity))) ] + rows
    else rows
  }

  /** The overview: the sponsors' names joined by "and" with the combined figures; a name that is not text cannot be joined. */
  function Overview(sponsors: seq<Json>, netWorth: real, liquidity: real): (r: Result<string>)
    ensures sponsors == [] ==> r == Ok("Sponsor information to be completed.")
    ensures r.Err? <==> exists i :: 0 <= i < |sponsors| && !Figure(sponsors[i], "name").Str?
    ensures r.Err? ==> r.error == TypeError
  {
    if sponsors == [] then Ok("Sponsor information to be completed.")
    else if exists i :: 0 <= i < |sponsors| && !Figure(sponsors[i], "name").Str? then Err(TypeError)
    else
      var names := seq(|sponsors|, i requires 0 <= i < |sponsors| => Figure(sponsors[i], "name").s);
      Ok("The principals on this transaction are " + Text.Join(" and ", names) + ". "
        + "Combined net worth of the guarantors is " + Helpers.FormatCurrency(Float(netWorth)) + " "
        + "with combined liquidity of " + Helpers.FormatCurrency(Float(liquidity)) + ".")
  }

  // ---------------------------------------------------------- track record

  /** `prop.get('property_name', prop.get('name', ''))` */
  function PropertyName(prop: Json): (r: Result<Json>)
    ensures r.Ok? <==> prop.Obj?
  {
    var inner :- Get(prop, "name", Str(""));
    Get(prop, "property_name", inner)
  }

  /** A property the track record lists: it has a name other than "N/A". */
  predicate Listed(name: Json)
  {
    Truthy(name) && name != Str("N/A")
  }

  /** The property's status, else its disposition's status, else "Active". */
  function Outcome(prop: Json): Json
    requires prop.Obj?
  {
    var status := At(prop, "status", Str(""));
    if Truthy(status) then status
    else
      var disposition := At(prop, "disposition", Obj([]));
      if disposition.Obj? then At(disposition, "status", Str("Active")) else Str("Active")
  }

  /** A track-record entry naming a listed property. */
  predicate ListedEntry(e: Json)
  {
    e.Obj? && e.fields != [] && e.fields[0].0 == "property" && Listed(e.fields[0].1)
  }

  function TrackEntry(prop: Json, name: Json): (r: Json)
    requires prop.Obj?
    ensures ListedEntry(r) <==> Listed(name)
  {
    Obj([("property", name), ("role", At(prop, "role", Str("Principal"))), ("outcome", Outcome(prop))])
  }

  /** `r` is `acc` followed by listed entries only. */
  predicate Extends(r: seq<Json>, acc: seq<Json>)
  {
    |acc| <= |r| && r[..|acc|] == acc && forall i :: |acc| <= i < |r| ==> ListedEntry(r[i])
  }

  lemma ExtendsTrans(r: seq<Json>, mid: seq<Json>, acc: seq<Json>)
    requires Extends(mid, acc) && Extends(r, mid)
    ensures Extends(r, acc)
  {
    assert r[..|acc|] == r[..|mid|][..|acc|];
    forall i | |acc| <= i < |r| ensures ListedEntry(r[i]) {
      if i < |mid| {
        assert r[i] == r[..|mid|][i];
      }
    }
  }

  /** The property loop, from the remaining properties and the record so far; the tenth entry stops it. */
  function PropsFrom(props: seq<Json>, acc: seq<Json>): (r: Result<seq<Json>>)
    ensures r.Err? ==> r.error == AttributeError
    ensures r.Ok? ==> Extends(r.value, acc)
    ensures r.Ok? && |acc| < 10 ==> |r.value| <= 10
    decreases |props|
  {
    if props == [] then Ok(acc)
    else
      var name :- PropertyName(props[0]);
      if !Listed(name) then PropsFrom(props[1..], acc)
      else
        var acc' := acc + [TrackEntry(props[0], name)];
        if |acc'| >= 10 then Ok(acc')
        else
          var r := PropsFrom(props[1..], acc');
          if r.Ok? then ExtendsTrans(r.value, acc', acc); r else r
  }

  /** The record loop over the schedules of real estate owned; the tenth entry stops it too. */
  function TrackFrom(sreos: seq<Json>, acc: seq<Json>): (r: Result<seq<Json>>)
    requires |acc| < 10
    ensures r.Err? ==> r.error == AttributeError || r.error == TypeError
    ensures r.Ok? ==> |r.value| <= 10 && Extends(r.value, acc)
    decreases |sreos|
  {
    if sreos == [] then Ok(acc)
    else
      var props :- Iterate(Dig(sreos[0], ["properties"], Arr([])));
      var acc' :- PropsFrom(props, acc);
      if |acc'| >= 10 then Ok(acc')
      else
        var r := TrackFrom(sreos[1..], acc');
        if r.Ok? then ExtendsTrans(r.value, acc', acc); r else r
  }

  const TrackPlaceholder: Json := Obj([("property", Str("See SREO for details")), ("role", Str("Principal")), ("outcome", Str("Various"))])

  /** The track record: between one and ten entries, each a listed property, or the single placeholder. */
  function TrackRecord(sreos: seq<Json>): (r: Result<seq<Json>>)
    ensures r.Ok? ==> 1 <= |r.value| <= 10
    ensures r.Ok? ==> r.value == [TrackPlaceholder] || forall i :: 0 <= i < |r.value| ==> ListedEntry(r.value[i])
  {
    var t :- TrackFrom(sreos, []);
    Ok(if t == [] then [TrackPlaceholder] else t)
  }

  /** The inner loop over one schedule's properties. */
  method ScanProperties(props: seq<Json>, acc: seq<Json>) returns (r: Result<seq<Json>>)
    ensures r == PropsFrom(props, acc)
  {
    var record := acc;
    var i := 0;
    while i < |props|
      invariant 0 <= i <= |props|
      invariant PropsFrom(props[i..], record) == PropsFrom(props, acc)
    {
      var prop := props[i];
      assert props[i..][0] == prop && props[i..][1..] == props[i + 1..];
      i := i + 1;
      var name :- PropertyName(prop);
      if !Listed(name) {
        continue;
      }
      record := record + [TrackEntry(prop, name)];
      if |record| >= 10 {
        break;
      }
    }
    if i == |props| {
      assert props[i..] == [];
    }
    return Ok(record);
  }

  /** The track-record loops of `_build_sponsorship`. */
  method BuildTrackRecord(sreos: seq<Json>) returns (r: Result<seq<Json>>)
    ensures r == TrackRecord(sreos)
  {
    var record: seq<Json> := [];
    var i := 0;
    while i < |sreos|
      invariant 0 <= i <= |sreos| && |record| < 10
      invariant TrackFrom(sreos[i..], record) == TrackFrom(sreos, [])
    {
      assert sreos[i..][0] == sreos[i] && sreos[i..][1..] == sreos[i + 1..];
      var props :- Iterate(Dig(sreos[i], ["properties"], Arr([])));
      record :- ScanProperties(props, record);
      i := i + 1;
      if |record| >= 10 {
        return Ok(record);
      }
    }
    assert sreos[i..] == [];
    if record == [] {
      record := [TrackPlaceholder];
    }
    return Ok(record);
  }

  // -------------------------------------------------------------- section

  /** The FB Underwriting records, then the Term Sheet records. */
  function FallbackDocs(idx: Index): seq<Json>
  {
    GetAllDocs(idx, "FB Underwriting") + GetAllDocs(idx, "Term Sheet")
  }

  function SponsorshipJson(overview: string, rows: seq<Json>, track: seq<Json>, sponsors: seq<Json>): Json
  {
    Obj([("overview_narrative", Str(overview)),
         ("financial_summary", Arr(if rows != [] then rows else [Row("TBD", "TBD")])),
         ("track_record", Arr(track)),
         ("_sponsors_detail", Arr(sponsors))])
  }

  function SponsorshipSection(idx: Index): Result<Json>
  {
    var g :- PfsFrom(GetAllDocs(idx, "PFS"), Gathered([], [], {}));
    var both :- if g.sponsors == [] then FallbackFrom(FallbackDocs(idx), g.sponsors, g.rows) else Ok((g.sponsors, g.rows));
    var sponsors := both.0;
    var netWorth := Total(sponsors, "net_worth");
    var liquidity := Total(sponsors, "liquidity");
    var overview :- Overview(sponsors, netWorth, liquidity);
    var track :- TrackRecord(GetAllDocs(idx, "SREO"));
    Ok(SponsorshipJson(overview, WithCombined(sponsors, both.1), track, sponsors))
  }

  /** `_build_sponsorship` */
  method BuildSponsorship(idx: Index) returns (r: Result<Json>)
    ensures r == SponsorshipSection(idx)
  {
    var g :- GatherSponsors(GetAllDocs(idx, "PFS"));
    var sponsors := g.sponsors;
    var rows := g.rows;
    if sponsors == [] {
      var both :- Fallback(FallbackDocs(idx), sponsors, rows);
      sponsors, rows := both.0, both.1;
    }
    var netWorth := Total(sponsors, "net_worth");
    var liquidity := Total(sponsors, "liquidity");
    rows := WithCombined(sponsors, rows);
    var overview :- Overview(sponsors, netWorth, liquidity);
    var track :- BuildTrackRecord(GetAllDocs(idx, "SREO"));
    return Ok(SponsorshipJson(overview, rows, track, sponsors));
  }

  /** The section's sponsors from the statements are distinct by name key, each with assets or net worth, three summary rows apiece. */
  lemma StatementSponsorsDistinct(idx: Index)
    requires PfsFrom(GetAllDocs(idx, "PFS"), Gathered([], [], {})).Ok?
    ensures Consistent(PfsFrom(GetAllDocs(idx, "PFS"), Gathered([], [], {})).value)
  {
    PfsFromConsistent(GetAllDocs(idx, "PFS"), Gathered([], [], {}));
  }

  /**
   * Sponsors taken from guarantors carry no figures, so the combined rows
   * never appear for them and the overview states a combined net worth
   * of zero.
   */
  lemma FallbackHasNoCombinedRows(names: seq<Json>, rows: seq<Json>)
    ensures var gs := seq(|names|, i requires 0 <= i < |names| => Guarantor(names[i]));
      WithCombined(gs, rows) == rows && Total(gs, "net_worth") == 0.0 && Total(gs, "liquidity") == 0.0
  {
    GuarantorsTotalNothing(names, "net_worth");
    GuarantorsTotalNothing(names, "liquidity");
  }
}
