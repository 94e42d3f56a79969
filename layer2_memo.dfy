/**
 * The remaining builders of the Layer-2 mapper (`_build_cover`,
 * `_build_transaction_overview`, `_build_executive_summary`,
 * `_build_property`) and `transform`, which puts every section of the memo
 * together in its fixed order.
 */
module Layer2Memo {
  import opened Wrappers
  import Numbers
  import Text
  import opened Values
  import Helpers
  import opened Layer2
  import Sponsorship

  /** `{"label": caption, "value": value}` */
  function Fact(caption: string, value: Json): (r: Json)
    ensures r.Obj? && Keys(r.fields) == ["label", "value"] && r.fields[0].1 == Str(caption) && r.fields[1].1 == value
  {
    Obj([("label", Str(caption)), ("value", value)])
  }

  /** The rows carry exactly these captions, in this order. */
  predicate Captioned(rows: seq<Json>, captions: seq<string>)
  {
    |rows| == |captions| &&
    forall i :: 0 <= i < |rows| ==> rows[i].Obj? && Keys(rows[i].fields) == ["label", "value"] && rows[i].fields[0].1 == Str(captions[i])
  }

  /** Rows pairing each caption with its value. */
  function Facts(captions: seq<string>, values: seq<Json>): (r: seq<Json>)
    requires |captions| == |values|
    ensures Captioned(r, captions)
    ensures forall i :: 0 <= i < |r| ==> r[i] == Fact(captions[i], values[i])
  {
    seq(|captions|, i requires 0 <= i < |captions| => Fact(captions[i], values[i]))
  }

  // ------------------------------------------------------------ formatting

  /**
   * `format(v, ",")`: numbers with thousands separators (`True` is `1`);
   * a string rejects the `,` option and every other value has no such
   * format.
   */
  function Grouped(v: Json): (r: Result<string>)
    ensures r.Ok? <==> IsNumber(v)
    ensures r.Err? ==> r.error == (if v.Str? then ValueError else TypeError)
  {
    match v
    case Bool(b) => Ok(if b then "1" else "0")
    case Int(i) => Ok((if i < 0 then "-" else "") + Numbers.Group(Numbers.NatToString(Numbers.Abs(i))))
    case Float(x) => Ok(Numbers.FloatGrouped(x))
    case Str(_) => Err(ValueError)
    case _ => Err(TypeError)
  }

  /** Dropping the separators of a grouped number gives text that reads back as the number (for a float, one written exactly by at most 17 decimals). */
  lemma GroupedParsesBack(v: Json, k: nat)
    requires IsNumber(v) && (v.Float? ==> k <= 17 && Numbers.ExactAt(v.r, k))
    ensures Numbers.ParseFloat(Text.Without(Grouped(v).value, ',')) == Some(NumValue(v))
  {
    match v
    case Bool(b) =>
      var d := if b then 1 else 0;
      assert Grouped(v).value == Numbers.IntToString(d);
      Numbers.IntToStringParses(d);
    case Int(i) =>
      var sign := if i < 0 then "-" else "";
      var digits := Numbers.NatToString(Numbers.Abs(i));
      Numbers.GroupUngroup(digits);
      Text.WithoutAbsent(sign, ',');
      Text.WithoutAppend(sign, Numbers.Group(digits), ',');
      assert sign + digits == Numbers.IntToString(i);
      Numbers.IntToStringParses(i);
    case Float(x) =>
      Numbers.FormatFixedUngroup(x, Numbers.ExactDecimals(x, 1));
      Numbers.FloatReprRoundTrip(x, k);
  }

  // ----------------------------------------------------------------- cover

  const AddressTrim: set<char> := {',', ' '}

  const CreditCommittee: Json := Arr([Str("Tony Balbo, Partner"), Str("Keith Konon, Partner"), Str("Greg Halajian, CFO")])

  /** `f"{street}, {city}, {state} {zip_code}".strip(', ')` */
  function FullAddress(street: Json, city: Json, state: Json, zip: Json): (r: string)
    ensures r != [] ==> r[0] !in AddressTrim && r[|r| - 1] !in AddressTrim
  {
    Text.StripChars(StrOf(street) + ", " + StrOf(city) + ", " + StrOf(state) + " " + StrOf(zip), AddressTrim)
  }

  /** Address parts that are non-empty text without a comma or blank at their ends are joined unchanged. */
  lemma FullAddressOfParts(street: string, city: string, state: string, zip: string)
    requires street != [] && street[0] !in AddressTrim
    requires zip != [] && zip[|zip| - 1] !in AddressTrim
    ensures FullAddress(Str(street), Str(city), Str(state), Str(zip)) == street + ", " + city + ", " + state + " " + zip
  {
    var s := street + ", " + city + ", " + state + " " + zip;
    assert s[0] == street[0] && s[|s| - 1] == zip[|zip| - 1];
  }

  /** An address with no part at all is stripped down to nothing. */
  lemma FullAddressBlank()
    ensures FullAddress(Str(""), Str(""), Str(""), Str("")) == ""
  {
    var s := "" + ", " + "" + ", " + "" + " " + "";
    assert StrOf(Str("")) == "";
    assert s == [',', ' ', ',', ' ', ' '];
    Text.StripCharsAll(s, AddressTrim);
  }

  /** The cover dict. */
  function CoverJson(name: Json, address: string, date: string): (r: Json)
    ensures r.Obj? && Keys(r.fields) == ["memo_subtitle", "memo_title", "property_name", "property_address", "credit_committee", "underwriting_team", "memo_date"]
    ensures r.fields[2].1 == name && r.fields[3].1 == Str(address) && r.fields[6].1 == Str(date)
  {
    Obj([
      ("memo_subtitle", Str("CREDIT COMMITTEE MEMO")),
      ("memo_title", Str("BRIDGE LOAN REQUEST")),
      ("property_name", name),
      ("property_address", Str(address)),
      ("credit_committee", CreditCommittee),
      ("underwriting_team", Arr([Str("Colton Proctor, Associate")])),
      ("memo_date", Str(date))])
  }

  /** `_build_cover`; the memo date, read from the clock in the source, is a parameter. */
  function Cover(idx: Index, date: string): (r: Json)
    ensures r.Obj? && |r.fields| == 7 && r.fields[3].1.Str? && r.fields[6].1 == Str(date)
    ensures var a := r.fields[3].1.s; a != [] ==> a[0] !in AddressTrim && a[|a| - 1] !in AddressTrim
  {
    var details := Dig(GetDoc(idx, "Appraisal", 0), ["property_details"], Obj([]));
    var address := Dig(details, ["address"], Obj([]));
    var full := FullAddress(Dig(address, ["street"], Str("")), Dig(address, ["city"], Str("")),
                            Dig(address, ["state"], Str("")), Dig(address, ["zip"], Str("")));
    CoverJson(Dig(details, ["property_name"], Str("")), full, date)
  }

  /** Without an appraisal the cover has an empty property name and an empty address. */
  lemma CoverWithoutAppraisal(idx: Index, date: string)
    requires GetDoc(idx, "Appraisal", 0) == Obj([])
    ensures Cover(idx, date).fields[2].1 == Str("")
    ensures Cover(idx, date).fields[3].1 == Str("")
  {
    var e := Obj([]);
    SafeGetPath(e, ["property_details"], e);
    SafeGetPath(e, ["address"], e);
    SafeGetPath(e, ["property_name"], Str(""));
    SafeGetPath(e, ["street"], Str(""));
    SafeGetPath(e, ["city"], Str(""));
    SafeGetPath(e, ["state"], Str(""));
    SafeGetPath(e, ["zip"], Str(""));
    FullAddressBlank();
  }

  // ---------------------------------------------------- transaction overview

  predicate IsAmountChar(c: char) { Numbers.IsDigit(c) || c == ',' }

  /** The longest prefix made of digits and commas. */
  function Run(s: string): (r: string)
    ensures |r| <= |s| && r == s[..|r|]
    ensures forall i :: 0 <= i < |r| ==> IsAmountChar(r[i])
    ensures |r| < |s| ==> !IsAmountChar(s[|r|])
    decreases |s|
  {
    if s != [] && IsAmountChar(s[0]) then [s[0]] + Run(s[1..]) else []
  }

  /**
   * Group 1 of `re.search(r'\$?([\d,]+)', s)`: the run of digits and commas
   * that starts at the first such character (an optional `$` in front of
   * it never moves where the run starts).
   */
  function AmountRun(s: string): (r: Option<string>)
    ensures r.None? <==> forall i :: 0 <= i < |s| ==> !IsAmountChar(s[i])
    ensures r.Some? ==> r.value != [] && forall i :: 0 <= i < |r.value| ==> IsAmountChar(r.value[i])
    decreases |s|
  {
    if s == [] then None
    else if IsAmountChar(s[0]) then Some(Run(s))
    else
      var rest := AmountRun(s[1..]);
      assert forall i :: 1 <= i < |s| ==> s[i] == s[1..][i - 1];
      rest
  }

  /**
   * `loan_amount_num`: a number is taken as it is; text gives the number
   * written by its first run of digits and commas, and `int()` raises when
   * that run holds only commas; text without a digit or comma, and any other
   * value, give `None`.
   */
  function LoanAmountNumber(amount: Json): (r: Result<Json>)
    ensures IsNumber(amount) ==> r == Ok(amount)
    ensures r.Ok? ==> r.value.Null? || IsNumber(r.value)
    ensures r.Err? <==> amount.Str? && AmountRun(amount.s).Some? && Text.Without(AmountRun(amount.s).value, ',') == []
    ensures r.Err? ==> r.error == ValueError
  {
    match amount
    case Str(s) =>
      (match AmountRun(s)
       case None => Ok(Null)
       case Some(run) =>
         var digits := Text.Without(run, ',');
         if digits == [] then Err(ValueError)
         else
           assert Numbers.AllDigits(digits) by { DigitsOfRun(run); }
           Ok(Int(Numbers.DigitsValue(digits))))
    case Bool(_) => Ok(amount)
    case Int(_) => Ok(amount)
    case Float(_) => Ok(amount)
    case _ => Ok(Null)
  }

  lemma {:induction false} DigitsOfRun(run: string)
    requires forall i :: 0 <= i < |run| ==> IsAmountChar(run[i])
    ensures Numbers.AllDigits(Text.Without(run, ','))
    decreases |run|
  {
    if run != [] {
      DigitsOfRun(run[1..]);
      assert run == [run[0]] + run[1..];
      Text.WithoutAppend([run[0]], run[1..], ',');
    }
  }

  lemma {:induction false} GroupAmountChars(d: string)
    requires Numbers.AllDigits(d)
    ensures forall i :: 0 <= i < |Numbers.Group(d)| ==> IsAmountChar(Numbers.Group(d)[i])
    decreases |d|
  {
    if |d| > 3 {
      GroupAmountChars(d[..|d| - 3]);
      assert Numbers.AllDigits(d[|d| - 3..]);
    }
  }

  lemma {:induction false} RunOf(g: string, tail: string)
    requires forall i :: 0 <= i < |g| ==> IsAmountChar(g[i])
    requires tail == [] || !IsAmountChar(tail[0])
    ensures Run(g + tail) == g
    decreases |g|
  {
    if g == [] {
      assert g + tail == tail;
    } else {
      assert (g + tail)[0] == g[0] && (g + tail)[1..] == g[1..] + tail;
      RunOf(g[1..], tail);
      assert [g[0]] + g[1..] == g;
    }
  }

  /** `"$35,610,000"` and the like: a dollar amount written with separators reads back as its number. */
  lemma LoanAmountOfDollars(n: nat, tail: string)
    requires tail == [] || !IsAmountChar(tail[0])
    ensures LoanAmountNumber(Str("$" + Numbers.Group(Numbers.NatToString(n)) + tail)) == Ok(Int(n))
  {
    var d := Numbers.NatToString(n);
    var g := Numbers.Group(d);
    var s := "$" + g + tail;
    GroupAmountChars(d);
    assert s[1..] == g + tail;
    assert AmountRun(s) == AmountRun(g + tail);
    assert IsAmountChar((g + tail)[0]);
    RunOf(g, tail);
    Numbers.GroupUngroup(d);
    Numbers.NatToStringRoundTrip(n);
  }

  /**
   * `(loan_amount_num / as_is_value) * 100` when both are truthy, else
   * `None`; dividing by a value that is not a number raises TypeError.
   */
  function LoanToValue(loan: Json, asIs: Json): (r: Result<Json>)
    requires loan.Null? || IsNumber(loan)
    ensures !(Truthy(loan) && Truthy(asIs)) ==> r == Ok(Null)
    ensures Truthy(loan) && Truthy(asIs) && IsNumber(asIs) ==>
      NumValue(asIs) != 0.0 && r == Ok(Float(NumValue(loan) / NumValue(asIs) * 100.0))
    ensures r.Err? <==> Truthy(loan) && Truthy(asIs) && !IsNumber(asIs)
    ensures r.Err? ==> r.error == TypeError
  {
    if !(Truthy(loan) && Truthy(asIs)) then Ok(Null)
    else if IsNumber(asIs) then
      assert NumValue(asIs) != 0.0;
      Ok(Float(NumValue(loan) / NumValue(asIs) * 100.0))
    else Err(TypeError)
  }

  const DealFactCaptions: seq<string> := ["Property Type", "Property Name", "Location", "Land Area", "Building SF", "Year Built", "Occupancy"]
  const LoanTermCaptions: seq<string> := ["Loan Amount", "Term", "Amortization", "Extension", "Origination Fee", "Exit Fee"]
  const LeverageCaptions: seq<string> := ["As-Is Value", "Stabilized Value", "Loan-to-Value (As-Is)", "Loan Amount"]

  /** The `deal_facts` rows. */
  function DealFacts(details: Json): (r: seq<Json>)
    ensures Captioned(r, DealFactCaptions)
  {
    var improvements := Dig(details, ["improvements"], Obj([]));
    var land := Dig(details, ["land_area"], Obj([]));
    var gla := Dig(improvements, ["gross_leasable_area_sf"], Null);
    Facts(DealFactCaptions, [
      Dig(details, ["property_type"], Str("Retail")),
      Dig(details, ["property_name"], Str("")),
      Str(StrOf(Dig(details, ["address", "city"], Str(""))) + ", " + StrOf(Dig(details, ["address", "state"], Str("")))),
      Str(StrOf(Dig(land, ["acres"], Str("N/A"))) + " acres"),
      Str(if IsNumber(gla) then Grouped(gla).value + " SF" else "N/A"),
      Str(StrOf(Dig(improvements, ["year_built"], Str("N/A")))),
      Str(Helpers.FormatPercent(Dig(details, ["occupancy", "current_occupancy_percent"], Null)))])
  }

  /** The `loan_terms` rows. */
  function LoanTerms(terms: Json, loan: Json): (r: seq<Json>)
    ensures Captioned(r, LoanTermCaptions)
  {
    Facts(LoanTermCaptions, [
      Str(Helpers.FormatCurrency(loan)),
      Str(StrOf(Dig(terms, ["term_months"], Str("N/A"))) + " months"),
      Dig(terms, ["amortization"], Str("Interest Only")),
      Str(StrOf(Dig(terms, ["extension_option", "count"], Str("1"))) + "x "
          + StrOf(Dig(terms, ["extension_option", "term_months"], Str("6"))) + "-month"),
      Dig(terms, ["origination_fee"], Str("1.00%")),
      Dig(terms, ["exit_fee"], Str("1.00%"))])
  }

  /** The `leverage_metrics` rows. */
  function LeverageMetrics(asIs: Json, stabilized: Json, ltv: Json, loan: Json): (r: seq<Json>)
    ensures Captioned(r, LeverageCaptions)
    ensures r[2] == Fact("Loan-to-Value (As-Is)", Str(if Truthy(ltv) then Helpers.FormatPercent(ltv) else "N/A"))
  {
    Facts(LeverageCaptions, [
      Str(Helpers.FormatCurrency(asIs)),
      Str(Helpers.FormatCurrency(stabilized)),
      Str(if Truthy(ltv) then Helpers.FormatPercent(ltv) else "N/A"),
      Str(Helpers.FormatCurrency(loan))])
  }

  /** The valuation conclusions the overview scans. */
  function Conclusions(idx: Index): Json
  {
    var valuation := Dig(GetDoc(idx, "Appraisal", 0), ["valuation_summary"], Obj([]));
    Dig(valuation, ["market_value_conclusions"], Arr([]))
  }

  /** The loan amount as the term sheet states it. */
  function StatedLoanAmount(idx: Index): Json
  {
    Dig(Dig(GetDoc(idx, "Term Sheet", 0), ["loan_terms"], Obj([])), ["loan_amount"], Str(""))
  }

  /** The overview dict. */
  function OverviewJson(facts: seq<Json>, terms: seq<Json>, leverage: seq<Json>): (r: Json)
    ensures r.Obj? && Keys(r.fields) == ["deal_facts", "loan_terms", "leverage_metrics"]
    ensures r.fields[0].1 == Arr(facts) && r.fields[1].1 == Arr(terms) && r.fields[2].1 == Arr(leverage)
  {
    Obj([("deal_facts", Arr(facts)), ("loan_terms", Arr(terms)), ("leverage_metrics", Arr(leverage))])
  }

  /** `_build_transaction_overview`, given the values its valuation loop found. */
  function OverviewSpec(idx: Index, asIs: Json, stabilized: Json): (r: Result<Json>)
    ensures r.Err? ==> r.error == ValueError || r.error == TypeError
    ensures r.Ok? ==> (r.value.Obj? && |r.value.fields| == 3
      && r.value.fields[0].1.Arr? && Captioned(r.value.fields[0].1.items, DealFactCaptions)
      && r.value.fields[1].1.Arr? && Captioned(r.value.fields[1].1.items, LoanTermCaptions)
      && r.value.fields[2].1.Arr? && Captioned(r.value.fields[2].1.items, LeverageCaptions))
  {
    var details := Dig(GetDoc(idx, "Appraisal", 0), ["property_details"], Obj([]));
    var terms := Dig(GetDoc(idx, "Term Sheet", 0), ["loan_terms"], Obj([]));
    var loan :- LoanAmountNumber(StatedLoanAmount(idx));
    var ltv :- LoanToValue(loan, asIs);
    Ok(OverviewJson(DealFacts(details), LoanTerms(terms, loan), LeverageMetrics(asIs, stabilized, ltv, loan)))
  }

  function TransactionOverview(idx: Index): (r: Result<Json>)
    ensures r.Err? ==> r.error in {AttributeError, TypeError, ValueError}
  {
    var mvs :- Iterate(Conclusions(idx));
    var values :- ValuesFrom(mvs, Null, Null);
    OverviewSpec(idx, values.0, values.1)
  }

  /** `_build_transaction_overview`, with its valuation loop. */
  method BuildTransactionOverview(idx: Index) returns (r: Result<Json>)
    ensures r == TransactionOverview(idx)
  {
    var values :- ScanValuations(Conclusions(idx));
    r := OverviewSpec(idx, values.0, values.1);
  }

  /** The ratio of a non-zero loan to a non-zero number, in percent, is itself non-zero. */
  lemma LoanToValueOfNumbers(n: nat, asIs: Json)
    requires n > 0 && IsNumber(asIs) && Truthy(asIs)
    ensures var ltv := Float(n as real / NumValue(asIs) * 100.0);
      LoanToValue(Int(n), asIs) == Ok(ltv) && Truthy(ltv)
  {
    assert NumValue(asIs) != 0.0;
    assert n as real / NumValue(asIs) != 0.0;
  }

  /**
   * A term sheet stating `"$<grouped digits>"` and an appraisal whose last
   * "As Is" conclusion is a non-zero number give the loan-to-value ratio in
   * percent.
   */
  lemma OverviewLoanToValue(idx: Index, n: nat, asIs: Json, stabilized: Json)
    requires n > 0
    requires StatedLoanAmount(idx) == Str("$" + Numbers.Group(Numbers.NatToString(n)))
    requires IsNumber(asIs) && Truthy(asIs)
    ensures OverviewSpec(idx, asIs, stabilized).Ok?
    ensures OverviewSpec(idx, asIs, stabilized).value.fields[2].1.items[2]
      == Fact("Loan-to-Value (As-Is)", Str(Helpers.FormatPercent(Float(n as real / NumValue(asIs) * 100.0))))
  {
    var s := "$" + Numbers.Group(Numbers.NatToString(n));
    LoanAmountOfDollars(n, "");
    assert s + "" == s;
    LoanToValueOfNumbers(n, asIs);
    var loan := Int(n);
    var ltv := Float(n as real / NumValue(asIs) * 100.0);
    var details := Dig(GetDoc(idx, "Appraisal", 0), ["property_details"], Obj([]));
    var terms := Dig(GetDoc(idx, "Term Sheet", 0), ["loan_terms"], Obj([]));
    var leverage := LeverageMetrics(asIs, stabilized, ltv, loan);
    assert OverviewSpec(idx, asIs, stabilized) == Ok(OverviewJson(DealFacts(details), LoanTerms(terms, loan), leverage));
  }

  // ----------------------------------------------------- executive summary

  const SummaryConditions: Json := Arr([Str("Standard closing conditions"), Str("Satisfactory title and survey review"), Str("Completion of legal documentation")])

  /** The key highlights: property, location, floor area, and the occupancy when it is truthy. */
  function Highlights(name: Json, city: Json, state: Json, gla: Json, glaText: string, occupancy: Json): (r: seq<Json>)
    ensures |r| == if Truthy(occupancy) then 4 else 3
    ensures r[2] == Str(if Truthy(gla) then "GLA: " + glaText + " SF" else "GLA: See appraisal")
  {
    [Str("Property: " + StrOf(name)),
     Str("Location: " + StrOf(city) + ", " + StrOf(state)),
     Str(if Truthy(gla) then "GLA: " + glaText + " SF" else "GLA: See appraisal")]
    + (if Truthy(occupancy) then [Str("Current Occupancy: " + StrOf(occupancy) + "%")] else [])
  }

  /** The summary dict. */
  function SummaryJson(narrative: string, highlights: seq<Json>): (r: Json)
    ensures r.Obj? && Keys(r.fields) == ["narrative", "key_highlights", "recommendation", "conditions"]
    ensures r.fields[1].1 == Arr(highlights)
  {
    Obj([
      ("narrative", Str(narrative)),
      ("key_highlights", Arr(highlights)),
      ("recommendation", Str("APPROVE - Subject to conditions")),
      ("conditions", SummaryConditions)])
  }

  /**
   * `_build_executive_summary`. The floor area is formatted with `,` in the
   * narrative whatever it is, so a text floor area raises ValueError; a
   * redevelopment plan that is not a dict has no `.get`.
   */
  function ExecutiveSummary(idx: Index): (r: Result<Json>)
    ensures var details := Dig(GetDoc(idx, "Appraisal", 0), ["property_details"], Obj([]));
      var gla := Dig(details, ["improvements", "gross_leasable_area_sf"], Int(0));
      var plan := Dig(GetDoc(idx, "Appraisal", 0), ["redevelopment_plan"], Obj([]));
      var occupancy := Dig(details, ["occupancy", "current_occupancy_percent"], Null);
      (r.Ok? <==> IsNumber(gla) && plan.Obj?)
      && (!IsNumber(gla) ==> r == Err(if gla.Str? then ValueError else TypeError))
      && (IsNumber(gla) && !plan.Obj? ==> r == Err(AttributeError))
      && (r.Ok? ==> (r.value.Obj? && |r.value.fields| == 4 && r.value.fields[1].1.Arr?
            && |r.value.fields[1].1.items| == if Truthy(occupancy) then 4 else 3))
  {
    var appraisal := GetDoc(idx, "Appraisal", 0);
    var details := Dig(appraisal, ["property_details"], Obj([]));
    var plan := Dig(appraisal, ["redevelopment_plan"], Obj([]));
    var name := Dig(details, ["property_name"], Str("the property"));
    var city := Dig(details, ["address", "city"], Str(""));
    var state := Dig(details, ["address", "state"], Str(""));
    var gla := Dig(details, ["improvements", "gross_leasable_area_sf"], Int(0));
    var glaText :- Grouped(gla);
    var description :- Get(plan, "description", Null);
    var narrative := "Fairbridge is being asked to provide a bridge loan secured by " + StrOf(name) + ", "
      + "a " + glaText + " SF retail center located in " + StrOf(city) + ", " + StrOf(state) + ". "
      + (if Truthy(description) then "\n\nThe business plan involves: " + StrOf(description) else "");
    var occupancy := Dig(details, ["occupancy", "current_occupancy_percent"], Null);
    Ok(SummaryJson(narrative, Highlights(name, city, state, gla, glaText, occupancy)))
  }

  // -------------------------------------------------------------- property

  /** The texts of items that are all text. */
  function Texts(xs: seq<Json>): (r: seq<string>)
    requires forall i :: 0 <= i < |xs| ==> xs[i].Str?
    ensures |r| == |xs| && forall i :: 0 <= i < |xs| ==> r[i] == xs[i].s
  {
    seq(|xs|, i requires 0 <= i < |xs| => xs[i].s)
  }

  /** `", ".join(xs)`: every item must be text. */
  function JoinTexts(xs: seq<Json>): (r: Result<string>)
    ensures r.Ok? <==> forall i :: 0 <= i < |xs| ==> xs[i].Str?
    ensures r.Ok? ==> r.value == Text.Join(", ", Texts(xs))
    ensures r.Err? ==> r.error == TypeError
  {
    if forall i :: 0 <= i < |xs| ==> xs[i].Str? then Ok(Text.Join(", ", Texts(xs)))
    else Err(TypeError)
  }

  /** The first five items, or all of them when there are fewer. */
  function FirstFive<T>(xs: seq<T>): (r: seq<T>)
    ensures |r| <= 5 && |r| <= |xs| && r == xs[..|r|]
    ensures |xs| >= 5 ==> |r| == 5
    ensures |xs| < 5 ==> r == xs
  {
    xs[..if |xs| < 5 then |xs| else 5]
  }

  /**
   * `", ".join(anchors[:5])`: at most the first five tenants, which must be
   * text (a string's first five characters); slicing anything else raises.
   */
  function AnchorList(anchors: Json): (r: Result<string>)
    ensures anchors.Arr? ==> r == JoinTexts(FirstFive(anchors.items))
    ensures r.Err? ==> r.error == TypeError
  {
    match anchors
    case Arr(xs) => JoinTexts(FirstFive(xs))
    case Tuple(xs) => JoinTexts(FirstFive(xs))
    case Str(s) =>
      var shown := FirstFive(s);
      Ok(Text.Join(", ", seq(|shown|, i requires 0 <= i < |shown| => [shown[i]])))
    case _ => Err(TypeError)
  }

  const PropertyCaptions: seq<string> := ["Property Name", "Property Type", "Land Area", "Gross Leasable Area", "Number of Buildings",
    "Year Built", "Year Renovated", "Condition", "Current Occupancy", "Stabilized Occupancy"]

  /** The ten fixed property metrics. */
  function PropertyMetrics(details: Json, landText: string, glaText: string): (r: seq<Json>)
    ensures Captioned(r, PropertyCaptions)
  {
    var improvements := Dig(details, ["improvements"], Obj([]));
    Facts(PropertyCaptions, [
      Dig(details, ["property_name"], Str("N/A")),
      Dig(details, ["property_type"], Str("Retail")),
      Str(landText),
      Str(glaText + " SF"),
      Str(StrOf(Dig(improvements, ["number_of_buildings"], Str("N/A")))),
      Str(StrOf(Dig(improvements, ["year_built"], Str("N/A")))),
      Str(StrOf(Dig(improvements, ["year_renovated"], Str("N/A")))),
      Dig(improvements, ["condition"], Str("N/A")),
      Str(Helpers.FormatPercent(Dig(details, ["occupancy", "current_occupancy_percent"], Null))),
      Str(Helpers.FormatPercent(Dig(details, ["occupancy", "stabilized_occupancy_percent"], Null)))])
  }

  /** The floor area as the property section shows it: grouped when it is a number, as it is otherwise. */
  function AreaText(gla: Json): (r: string)
    ensures !IsNumber(gla) ==> r == StrOf(gla)
    ensures IsNumber(gla) ==> r == Grouped(gla).value
  {
    if IsNumber(gla) then Grouped(gla).value else StrOf(gla)
  }

  /** The property narrative. */
  function PropertyNarrative(details: Json, glaText: string, acres: string): string
  {
    var improvements := Dig(details, ["improvements"], Obj([]));
    "The subject property is " + StrOf(Dig(details, ["property_name"], Str("a retail center"))) + " "
      + "located at " + StrOf(Dig(details, ["address", "street"], Str(""))) + ". "
      + "The property consists of " + StrOf(Dig(improvements, ["number_of_buildings"], Str("multiple"))) + " buildings "
      + "totaling " + glaText + " SF of gross leasable area "
      + "on approximately " + acres + " acres."
  }

  /** The land area: its acres, and its square feet when that is a number. */
  function LandText(acres: string, landSf: Json): string
  {
    acres + " acres" + (if IsNumber(landSf) then " (" + Grouped(landSf).value + " SF)" else "")
  }

  /** The anchor-tenant row, present only when there are anchor tenants. */
  function AnchorRows(anchors: Json): (r: Result<seq<Json>>)
    ensures r.Ok? <==> !Truthy(anchors) || AnchorList(anchors).Ok?
    ensures r.Ok? ==> |r.value| == if Truthy(anchors) then 1 else 0
    ensures r.Ok? && Truthy(anchors) ==> r.value[0] == Fact("Anchor Tenants", Str(AnchorList(anchors).value))
    ensures r.Err? ==> r.error == TypeError
  {
    if Truthy(anchors) then
      var tenants :- AnchorList(anchors);
      Ok([Fact("Anchor Tenants", Str(tenants))])
    else Ok([])
  }

  /** The property dict: the narrative, then the fixed metrics followed by the extra ones. */
  function PropertyJson(narrative: string, metrics: seq<Json>, extra: seq<Json>): (r: Json)
    ensures r.Obj? && Keys(r.fields) == ["description_narrative", "metrics"]
    ensures r.fields[1].1 == Arr(metrics + extra)
  {
    Obj([("description_narrative", Str(narrative)), ("metrics", Arr(metrics + extra))])
  }

  /**
   * `_build_property`: ten fixed metrics, and an eleventh listing the
   * anchor tenants when there are any.
   */
  function PropertySection(idx: Index): (r: Result<Json>)
    ensures var anchors := Dig(Dig(GetDoc(idx, "Appraisal", 0), ["property_details"], Obj([])), ["anchor_tenants"], Arr([]));
      (r.Ok? <==> !Truthy(anchors) || AnchorList(anchors).Ok?)
      && (r.Err? ==> r.error == TypeError)
      && (r.Ok? ==> (r.value.Obj? && |r.value.fields| == 2 && r.value.fields[1].1.Arr?
            && var metrics := r.value.fields[1].1.items;
            |metrics| == (if Truthy(anchors) then 11 else 10) && Captioned(metrics[..10], PropertyCaptions)
            && (Truthy(anchors) ==> metrics[10] == Fact("Anchor Tenants", Str(AnchorList(anchors).value)))))
  {
    var details := Dig(GetDoc(idx, "Appraisal", 0), ["property_details"], Obj([]));
    var improvements := Dig(details, ["improvements"], Obj([]));
    var land := Dig(details, ["land_area"], Obj([]));
    var glaText := AreaText(Dig(improvements, ["gross_leasable_area_sf"], Str("N/A")));
    var acres := StrOf(Dig(land, ["acres"], Str("N/A")));
    var metrics := PropertyMetrics(details, LandText(acres, Dig(land, ["square_feet"], Null)), glaText);
    var extra :- AnchorRows(Dig(details, ["anchor_tenants"], Arr([])));
    Ok(PropertyJson(PropertyNarrative(details, glaText, acres), metrics, extra))
  }

  // ------------------------------------------------------------- transform

  const SectionKeys: seq<string> := ["transaction_overview", "executive_summary", "sources_and_uses", "property", "location",
    "market", "sponsorship", "risks_and_mitigants", "validation_flags", "third_party_reports", "zoning_entitlements",
    "foreclosure_analysis"]

  /** The `sections` dict, in its fixed order. */
  function SectionsJson(overview: Json, summary: Json, sourcesUses: Json, property: Json, location: Json, sponsorship: Json,
                        validation: Json, thirdParty: Json, zoning: Json): (r: Json)
    ensures r.Obj? && Keys(r.fields) == SectionKeys
  {
    Obj([
      ("transaction_overview", overview),
      ("executive_summary", summary),
      ("sources_and_uses", sourcesUses),
      ("property", property),
      ("location", location),
      ("market", Market),
      ("sponsorship", sponsorship),
      ("risks_and_mitigants", Risks),
      ("validation_flags", validation),
      ("third_party_reports", thirdParty),
      ("zoning_entitlements", zoning),
      ("foreclosure_analysis", ForeclosureAnalysis())])
  }

  /** The memo dict: cover, table-of-contents marker, sections. */
  function MemoJson(cover: Json, sections: Json): (r: Json)
    ensures r.Obj? && Keys(r.fields) == ["cover", "toc", "sections"]
    ensures r.fields[0].1 == cover && r.fields[1].1 == Str("{{TOC}}") && r.fields[2].1 == sections
  {
    Obj([("cover", cover), ("toc", Str("{{TOC}}")), ("sections", sections)])
  }

  /**
   * `Layer2ToSchemaMapper.transform` over an index: the cover, the `{{TOC}}`
   * marker and the twelve sections, built in order; the first builder that
   * raises ends it.
   */
  function Memo(idx: Index, date: string): (r: Result<Json>)
    ensures r.Ok? ==> (r.value.Obj? && Keys(r.value.fields) == ["cover", "toc", "sections"] && r.value.fields[1].1 == Str("{{TOC}}")
      && r.value.fields[2].1.Obj? && Keys(r.value.fields[2].1.fields) == SectionKeys)
  {
    var overview :- TransactionOverview(idx);
    var summary :- ExecutiveSummary(idx);
    var sourcesUses :- SourcesAndUses(idx);
    var property :- PropertySection(idx);
    var location :- Location(idx);
    var sponsorship :- Sponsorship.SponsorshipSection(idx);
    var thirdParty :- ThirdPartyReports(idx);
    var zoning :- ZoningEntitlements(idx);
    Ok(MemoJson(Cover(idx, date),
      SectionsJson(overview, summary, sourcesUses, property, location, sponsorship, ValidationFlags(idx), thirdParty, zoning)))
  }

  /** The mapper's constructor indexes the records; `transform` then builds the memo. */
  function Transform(rawData: seq<Json>, date: string): (r: Result<Json>)
  {
    var idx :- IndexFrom([], rawData);
    Memo(idx, date)
  }

  /** `Layer2ToSchemaMapper(layer2_data).transform()`, running each builder's loops. */
  method Layer2Transform(rawData: seq<Json>, date: string) returns (r: Result<Json>)
    ensures r == Transform(rawData, date)
  {
    var idx :- IndexByDocumentType(rawData);
    var overview :- BuildTransactionOverview(idx);
    var summary :- ExecutiveSummary(idx);
    var sourcesUses :- BuildSourcesAndUses(idx);
    var property :- PropertySection(idx);
    var location :- Location(idx);
    var sponsorship :- Sponsorship.BuildSponsorship(idx);
    var validation := BuildValidationFlags(idx);
    var thirdParty :- BuildThirdPartyReports(idx);
    var zoning :- ZoningEntitlements(idx);
    var foreclosure := BuildForeclosureAnalysis();
    r := Ok(MemoJson(Cover(idx, date), SectionsJson(overview, summary, sourcesUses, property, location, sponsorship, validation, thirdParty, zoning)));
  }
}
