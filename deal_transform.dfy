/**
 * `DealInputToSchemaMapper.transform` (main.py:1187-1400): the template
 * context for a Layer-3 deal. The cover, the `{{TOC}}` marker and the
 * thirteen sections come first; then a run of direct template variables is
 * assigned stage by stage, later assignments overwriting earlier ones; last,
 * every deal-facts, leverage and loan-terms entry whose key is still free is
 * copied to the root, the first writer winning.
 *
 * The regular-expression searches that shorten long rate and fee texts, the
 * markdown stripping of the narratives and today's date are parameters.
 */
module DealTransform {
  import opened Wrappers
  import Text
  import opened Values
  import Helpers
  import opened DealState
  import opened DealSections

  /**
   * What the transform takes from outside the model: today's date for the
   * cover, the first match of `SOFR\s*\+\s*\d+|[\d.]+%` and of `[\d.]+%` in
   * a text, and markdown stripping.
   */
  datatype Externals = Externals(
    today: string,
    rateMatch: string -> Option<string>,
    feeMatch: string -> Option<string>,
    stripMarkdown: string -> string)

  // ------------------------------------------------------------- small helpers

  /** `f.get(k1) or f.get(k2) or ... or default` */
  function FirstOf(f: Fields, ks: seq<string>, default: Json): (r: Json)
    ensures ks != [] && Truthy(Field(f, ks[0])) ==> r == Field(f, ks[0])
    ensures (forall i :: 0 <= i < |ks| ==> !Truthy(Field(f, ks[i]))) ==> r == default
    ensures Truthy(r) ==> r == default || exists i :: 0 <= i < |ks| && r == Field(f, ks[i])
    decreases |ks|
  {
    if ks == [] then default else Or(Field(f, ks[0]), FirstOf(f, ks[1..], default))
  }

  /** `{k: g(v) for k, v in d.items()}` */
  function MapValues(d: Fields, g: Json -> Json): (r: Fields)
    ensures Keys(r) == Keys(d)
    ensures forall i :: 0 <= i < |d| ==> r[i].1 == g(d[i].1)
  {
    seq(|d|, i requires 0 <= i < |d| => (d[i].0, g(d[i].1)))
  }

  /** `_str_or_empty(v)` as a value. */
  function ShownText(v: Json): (r: Json)
    ensures r.Str? && (v.Null? ==> r == Str(""))
  {
    Str(Helpers.StrOrEmpty(v))
  }

  /** The dict a value holds, or no entries when it is anything else. */
  function DictOr(v: Json): (r: Fields)
    ensures v.Obj? ==> r == v.fields
    ensures !v.Obj? ==> r == []
  {
    if v.Obj? then v.fields else []
  }

  // ------------------------------------------------------------ the head

  const SectionKeys: seq<string> := ["transaction_overview", "executive_summary", "sources_and_uses", "property",
    "location", "market", "sponsorship", "risks_and_mitigants", "validation_flags", "third_party_reports",
    "zoning_entitlements", "foreclosure_analysis", "litigation"]

  function SectionsJson(parts: seq<Json>): (r: Json)
    requires |parts| == |SectionKeys|
    ensures r.Obj? && Keys(r.fields) == SectionKeys
    ensures forall i :: 0 <= i < |parts| ==> r.fields[i].1 == parts[i]
  {
    Obj(seq(|parts|, i requires 0 <= i < |parts| => (SectionKeys[i], parts[i])))
  }

  /** The section dictionaries the builders call `.get` on: once they have all run, each of these is a dict. */
  predicate CoreDicts(p: Parts)
  {
    p.loanTerms.Obj? && p.dealFacts.Obj? && p.property.Obj? && p.leverage.Obj? && p.narratives.Obj?
    && p.highlights.Obj? && p.sourcesUses.Obj? && p.sponsor.Obj?
  }

  /** The first four section builders, in order. */
  function SectionsA(p: Parts): (r: Result<seq<Json>>)
    ensures r.Ok? ==> |r.value| == 4
    ensures r.Ok? ==> p.loanTerms.Obj? && p.dealFacts.Obj? && p.property.Obj? && p.leverage.Obj?
    ensures r.Ok? ==> p.narratives.Obj? && p.highlights.Obj? && p.sourcesUses.Obj?
  {
    var overview :- TransactionOverview(p);
    var summary :- ExecutiveSummary(p);
    var sourcesUses :- SourcesAndUses(p);
    // The overview and the summary have already required the property and the narratives to be dicts.
    var property := Property(p);
    Ok([overview, summary, sourcesUses, property.value])
  }

  /** The next four: location, market, sponsorship, risks. */
  function SectionsB(p: Parts): (r: Result<seq<Json>>)
    ensures r.Ok? ==> |r.value| == 4 && p.sponsor.Obj?
  {
    var location :- Location(p);
    var market :- Market(p);
    var sponsorship :- SponsorshipSection(p);
    var risks :- RisksAndMitigants(p);
    Ok([location, market, sponsorship, risks])
  }

  /** The last five, the validation flags among them. */
  function SectionsC(p: Parts): (r: Result<seq<Json>>)
    ensures r.Ok? ==> |r.value| == 5 && r.value[0] == ValidationFlags()
  {
    var reports :- ThirdPartyReports(p);
    var zoning :- ZoningEntitlements(p);
    // The zoning section has already required the narratives to be a dict.
    var foreclosure := Foreclosure(p);
    var litigation :- Litigation(p);
    Ok([ValidationFlags(), reports, zoning, foreclosure.value, litigation])
  }

  function Joined(a: seq<Json>, b: seq<Json>, c: seq<Json>): (r: Json)
    requires |a| == 4 && |b| == 4 && |c| == 5
    ensures r.Obj? && Keys(r.fields) == SectionKeys
    ensures r.fields[8].1 == c[0]
  {
    var parts := a + b + c;
    assert parts[8] == c[0];
    SectionsJson(parts)
  }

  /** The thirteen section builders, in order; the first that raises ends the transform. */
  function Sections(p: Parts): (r: Result<Json>)
    ensures r.Ok? ==> r.value.Obj? && Keys(r.value.fields) == SectionKeys
    ensures r.Ok? ==> r.value.fields[8].1 == ValidationFlags()
    ensures r.Ok? ==> CoreDicts(p)
  {
    var a :- SectionsA(p);
    var b :- SectionsB(p);
    var c :- SectionsC(p);
    Ok(Joined(a, b, c))
  }

  const HeadKeys: seq<string> := ["cover", "toc", "sections"]

  /** `out` as first written: the cover, the table-of-contents marker, the sections. */
  function Head(p: Parts, today: string): (r: Result<Fields>)
    ensures r.Ok? ==> Keys(r.value) == HeadKeys && r.value[1].1 == Str("{{TOC}}")
    ensures r.Ok? ==> r.value[2].1.Obj? && Keys(r.value[2].1.fields) == SectionKeys
    ensures r.Ok? ==> UniqueKeys(r.value) && CoreDicts(p)
  {
    var cover :- DealCover(p, today);
    var sections :- Sections(p);
    Ok(HeadJson(cover, sections))
  }

  function HeadJson(cover: Json, sections: Json): (r: Fields)
    ensures Keys(r) == HeadKeys && UniqueKeys(r)
    ensures r[1].1 == Str("{{TOC}}") && r[2].1 == sections
  {
    [("cover", cover), ("toc", Str("{{TOC}}")), ("sections", sections)]
  }

  // ------------------------------------------------------------ loan issues

  const IssueKeys: seq<string> := ["loan_issues_income_producing", "loan_issues_development", "loan_issues_disclosure"]

  /** A list, or an empty list in place of anything else. */
  function ListOrEmpty(v: Json): (r: Json)
    ensures r.Arr? && (v.Arr? ==> r == v) && (!v.Arr? ==> r == Arr([]))
  {
    if v.Arr? then v else Arr([])
  }

  /**
   * main.py:1213-1222: the `loan_issues` dict is copied only when it has
   * entries, where a non-list category falls back to `or []`; the two flat
   * lists are always lists.
   */
  function LoanIssues(deal: Fields): (r: Result<Fields>)
    ensures r.Ok? ==> Keys(r.value) == (if Truthy(Field(deal, "loan_issues")) then ["loan_issues"] else []) + IssueKeys
    ensures r.Ok? ==> r.value[|r.value| - 3].1.Arr? && r.value[|r.value| - 2].1.Arr?
    ensures r.Err? <==> Truthy(Field(deal, "loan_issues")) && !Field(deal, "loan_issues").Obj?
    ensures r.Err? ==> r.error == AttributeError
  {
    var li :- AsDict(Or(Field(deal, "loan_issues"), Obj([])));
    var ip := Field(li, "income_producing");
    var dev := Field(li, "development");
    var flat := [("loan_issues_income_producing", ListOrEmpty(ip)), ("loan_issues_development", ListOrEmpty(dev)),
                 ("loan_issues_disclosure", Or(Field(li, "disclosure_statement"), Str("")))];
    if li != [] then
      var copied := Obj([("income_producing", if ip.Arr? then ip else Or(ip, Arr([]))),
                         ("development", if dev.Arr? then dev else Or(dev, Arr([])))]);
      Ok([("loan_issues", copied)] + flat)
    else Ok(flat)
  }

  // --------------------------------------------------- collaborative ventures

  const VentureKeys: seq<string> := ["collaborative_ventures", "collaborative_ventures_list", "collaborative_ventures_disclosure"]

  /** `cv.get("items") or cv.get("ventures") or list(cv.values())`; an empty dict gives an empty list. */
  function VentureItems(cv: Fields): (r: Json)
    ensures cv == [] ==> r == Arr([])
    ensures cv != [] ==> Truthy(r)
  {
    Or(Or(Field(cv, "items"), Field(cv, "ventures")), Arr(seq(|cv|, i requires 0 <= i < |cv| => cv[i].1)))
  }

  /**
   * main.py:1224-1239: the ventures as a wrapped list and as a flat list
   * (the same list either way), and the disclosure text.
   */
  function Ventures(deal: Fields): (r: Fields)
    ensures Keys(r) == VentureKeys
    ensures r[0].1 == Obj([("items", r[1].1)])
    ensures Field(deal, "collaborative_ventures").Arr? ==> r[1].1 == Field(deal, "collaborative_ventures")
    ensures !Field(deal, "collaborative_ventures").Obj? ==> r[2].1 == Str("")
  {
    var cv := Field(deal, "collaborative_ventures");
    var items := if cv.Obj? then VentureItems(cv.fields) else if cv.Arr? then cv else Arr([]);
    var disclosure := if cv.Obj? then Or(Field(cv.fields, "disclosure_statement"), Str("")) else Str("");
    [("collaborative_ventures", Obj([("items", items)])), ("collaborative_ventures_list", items),
     ("collaborative_ventures_disclosure", disclosure)]
  }

  // ------------------------------------------------------------ capital stack

  const FlatKeys: seq<string> := ["capital_stack_title", "capital_stack_sources", "capital_stack_uses", "capital_stack"]

  /** main.py:1241-1246: the flattened capital stack, as three variables and as one dict of the same three. */
  function FlatPairs(flat: Flat): (r: Fields)
    ensures Keys(r) == FlatKeys
    ensures r[3].1 == Obj([("title", r[0].1), ("sources", r[1].1), ("uses", r[2].1)])
    ensures r[0].1 == Str(flat.title) && r[1].1 == Arr(flat.sources) && r[2].1 == Arr(flat.uses)
  {
    var title := Str(flat.title);
    var sources := Arr(flat.sources);
    var uses := Arr(flat.uses);
    [("capital_stack_title", title), ("capital_stack_sources", sources), ("capital_stack_uses", uses),
     ("capital_stack", Obj([("title", title), ("sources", sources), ("uses", uses)]))]
  }

  const RawCapitalKeys: seq<string> := ["capital_stack_sources", "capital_stack_uses", "capital_stack_total"]

  /** The capital stack's own `sources`/`uses` lists, unformatted: the table's, else the stack's, else empty. */
  function RawCapitalSources(cs: Fields): Json
  {
    Or(Or(Field(StackTable(cs), "sources"), Field(cs, "sources")), Arr([]))
  }

  function RawCapitalUses(cs: Fields): Json
  {
    Or(Or(Field(StackTable(cs), "uses"), Field(cs, "uses")), Arr([]))
  }

  /**
   * main.py:1270-1274: the raw lists are assigned again under the names the
   * flattened rows were given, so the formatted rows survive only inside
   * `capital_stack`.
   */
  function RawCapital(deal: Fields): (r: Result<Fields>)
    ensures r.Ok? ==> Keys(r.value) == RawCapitalKeys
    ensures r.Ok? ==> Field(deal, "capital_stack").Obj? || !Truthy(Field(deal, "capital_stack"))
    ensures r.Ok? ==> var cs := DictOr(Or(Field(deal, "capital_stack"), Obj([])));
      r.value[0].1 == RawCapitalSources(cs) && r.value[1].1 == RawCapitalUses(cs)
    ensures r.Err? ==> r.error == AttributeError
  {
    var cs :- AsDict(Or(Field(deal, "capital_stack"), Obj([])));
    Ok([("capital_stack_sources", RawCapitalSources(cs)), ("capital_stack_uses", RawCapitalUses(cs)),
        ("capital_stack_total", FirstOf(cs, ["total", "sources_total"], Str("")))])
  }

  // ------------------------------------------------------------ sponsor table

  const SponsorTableKeys: seq<string> := ["entity", "profit_pct", "membership_interest", "capital_interest", "capital_pct"]
  const SponsorPairKeys: seq<string> := ["sponsor_table", "sponsors"]

  /** A row of the sponsor table under the template's names, each taken from its first non-empty alias. */
  function SponsorRow(row: Fields): (r: Json)
    ensures r.Obj? && Keys(r.fields) == SponsorTableKeys
  {
    Obj(Zip(SponsorTableKeys, [FirstOf(row, ["entity", "name", "member"], Str("")),
      FirstOf(row, ["profit_pct", "profit_percentage_interest", "profit_percentage"], Str("")),
      FirstOf(row, ["membership_interest", "membership_units"], Str("")),
      FirstOf(row, ["capital_interest", "capital_contribution"], Str("")),
      FirstOf(row, ["capital_pct", "capital_interest_percentage", "capital_percentage"], Str(""))]))
  }

  function SponsorPairs(rows: seq<Json>, principals: Json): (r: Fields)
    ensures Keys(r) == SponsorPairKeys && r[0].1 == Arr(rows)
  {
    [("sponsor_table", Arr(rows)), ("sponsors", Or(principals, Arr([])))]
  }

  /** The raw rows of the sponsor table: `sponsor.get("table") or []`, iterated. */
  function SponsorTableItems(p: Parts): (r: Result<seq<Json>>)
    ensures r.Err? ==> r.error == AttributeError || r.error == TypeError
  {
    var sponsor :- AsDict(p.sponsor);
    ItemsOf(Field(sponsor, "table"))
  }

  /** main.py:1248-1262: one normalized row per dict row of the sponsor table, and the principals. */
  function SponsorTable(p: Parts): (r: Result<Fields>)
    ensures r.Ok? ==> Keys(r.value) == SponsorPairKeys
    ensures r.Ok? ==> r.value[0].1.Arr? && Shaped(r.value[0].1.items, SponsorTableKeys)
    ensures r.Ok? ==> SponsorTableItems(p).Ok? && |r.value[0].1.items| == DictCount(SponsorTableItems(p).value)
    ensures r.Err? ==> r.error == AttributeError || r.error == TypeError
  {
    var items :- SponsorTableItems(p);
    DictRowsShaped(items, SponsorRow, SponsorTableKeys);
    Ok(SponsorPairs(DictRows(items, SponsorRow), Field(p.sponsor.fields, "principals")))
  }

  // ---------------------------------------------------------- sources and uses

  const SourcesUsesKeys: seq<string> := ["sources_list", "uses_list", "sources_total", "uses_total", "sources_uses_max_rows"]

  /** `max(a, b, 1)` */
  function MaxRows(a: nat, b: nat): (r: nat)
    ensures r >= 1 && r >= a && r >= b
    ensures r == 1 || r == a || r == b
  {
    if a >= b && a >= 1 then a else if b >= 1 then b else 1
  }

  /**
   * main.py:1263-1268: the raw source and use lists (the table's, else the
   * top level's, else empty), their totals, and the number of rows the
   * side-by-side table needs.
   */
  function SourcesUsesPairs(p: Parts): (r: Result<Fields>)
    ensures r.Ok? ==> Keys(r.value) == SourcesUsesKeys
    ensures r.Ok? ==> Len(r.value[0].1).Ok? && Len(r.value[1].1).Ok?
    ensures r.Ok? ==> r.value[4].1 == Int(MaxRows(Len(r.value[0].1).value, Len(r.value[1].1).value))
    ensures r.Err? ==> r.error == AttributeError || r.error == TypeError
  {
    var su :- AsDict(p.sourcesUses);
    var table :- AsDict(Or(Field(su, "table"), Obj([])));
    var sources := FirstOf(table, ["sources"], FirstOf(su, ["sources"], Arr([])));
    var uses := FirstOf(table, ["uses"], FirstOf(su, ["uses"], Arr([])));
    var a :- Len(sources);
    var b :- Len(uses);
    Ok(SourcesUsesFields(sources, uses, FirstOf(su, ["total_sources", "sources_total"], Str("")),
      FirstOf(su, ["total_uses", "uses_total"], Str("")), MaxRows(a, b)))
  }

  function SourcesUsesFields(sources: Json, uses: Json, sourcesTotal: Json, usesTotal: Json, maxRows: int): (r: Fields)
    ensures Keys(r) == SourcesUsesKeys
    ensures r[0].1 == sources && r[1].1 == uses && r[4].1 == Int(maxRows)
  {
    Zip(SourcesUsesKeys, [sources, uses, sourcesTotal, usesTotal, Int(maxRows)])
  }

  // ------------------------------------------------------ closing disbursement

  const DisbursementOut: seq<string> := ["disbursement_payoff", "disbursement_broker_fee", "disbursement_origination_fee",
    "disbursement_closing_costs", "disbursement_lender_legal", "disbursement_borrower_legal", "disbursement_misc",
    "disbursement_interest_reserve", "disbursement_total", "disbursement_sponsor_equity", "disbursement_fairbridge_release"]

  /** main.py:1276-1287: each closing-disbursement line as its own variable, "" when missing or empty. */
  function DisbursementPairs(cd: Json): (r: Result<Fields>)
    ensures r.Ok? <==> Or(cd, Obj([])).Obj?
    ensures r.Err? ==> r.error == AttributeError
    ensures r.Ok? ==> Keys(r.value) == DisbursementOut
    ensures r.Ok? ==> forall i :: 0 <= i < |DisbursementOut| ==>
      (Truthy(r.value[i].1) <==> Truthy(Field(Or(cd, Obj([])).fields, DisbursementKeys[i])))
  {
    var d :- AsDict(Or(cd, Obj([])));
    Ok(seq(|DisbursementOut|, i requires 0 <= i < |DisbursementOut| => (DisbursementOut[i], Or(Field(d, DisbursementKeys[i]), Str("")))))
  }

  /**
   * The flat disbursement variables and the disbursement table describe the
   * same eleven lines in the same order: a line that is set shows the same
   * text in both.
   */
  lemma DisbursementAgrees(cd: Json, i: int)
    requires Or(cd, Obj([])).Obj? && 0 <= i < |DisbursementOut|
    requires Truthy(DisbursementPairs(cd).value[i].1)
    ensures DisbursementRows(cd)[i].fields[1].1 == Str(StrOf(DisbursementPairs(cd).value[i].1))
  {
  }

  // ------------------------------------------------------------ display values

  const DisplayKeys: seq<string> := ["interest_rate_display", "origination_fee_display", "exit_fee_display"]
  const SeeLoanTerms: string := "See Loan Terms"

  /** A text longer than `limit` is shortened to what `find` matches in it, or to "See Loan Terms"; anything else is kept. */
  function Display(raw: Json, limit: nat, find: string -> Option<string>): (r: Json)
    ensures !(raw.Str? && |raw.s| > limit) ==> r == raw
    ensures raw.Str? && |raw.s| > limit && find(raw.s).None? ==> r == Str(SeeLoanTerms)
    ensures raw.Str? && |raw.s| > limit && find(raw.s).Some? ==> r == Str(find(raw.s).value)
  {
    if raw.Str? && |raw.s| > limit then
      match find(raw.s)
      case Some(m) => Str(m)
      case None => Str(SeeLoanTerms)
    else raw
  }

  /** `lt.get("interest_rate") or deal_facts.get("interest_rate") or ""`; the deal facts are only read when needed. */
  function RawRate(lt: Fields, dealFacts: Json): (r: Result<Json>)
    ensures Truthy(Field(lt, "interest_rate")) ==> r == Ok(Field(lt, "interest_rate"))
    ensures r.Err? <==> !Truthy(Field(lt, "interest_rate")) && !dealFacts.Obj?
    ensures r.Err? ==> r.error == AttributeError
  {
    if Truthy(Field(lt, "interest_rate")) then Ok(Field(lt, "interest_rate"))
    else
      var df :- AsDict(dealFacts);
      Ok(Or(Field(df, "interest_rate"), Str("")))
  }

  /**
   * main.py:1289-1310: the rate and fees for the deal-facts table, a long
   * rate (over 50 characters) or fee (over 20) shortened to its first match.
   */
  function DisplayPairs(p: Parts, ext: Externals): (r: Result<Fields>)
    ensures r.Ok? ==> Keys(r.value) == DisplayKeys
    ensures r.Err? ==> r.error == AttributeError
  {
    var lt :- AsDict(Or(p.loanTerms, Obj([])));
    var rate :- RawRate(lt, p.dealFacts);
    var origination := Or(Field(lt, "origination_fee"), Str(""));
    var exit := Or(Field(lt, "exit_fee"), Str(""));
    Ok([("interest_rate_display", Display(rate, 50, ext.rateMatch)),
        ("origination_fee_display", Display(origination, 20, ext.feeMatch)),
        ("exit_fee_display", Display(exit, 20, ext.feeMatch))])
  }

  // -------------------------------------------------- disbursement table, inputs

  const ClosingKeys: seq<string> := ["disbursement_rows", "closing_disbursement"]

  /** main.py:1312-1316: the disbursement table and the closing disbursement with every value shown as text. */
  function ClosingPairs(cd: Json): (r: Result<Fields>)
    ensures r.Ok? <==> Or(cd, Obj([])).Obj?
    ensures r.Err? ==> r.error == AttributeError
    ensures r.Ok? ==> Keys(r.value) == ClosingKeys && r.value[0].1 == Arr(DisbursementRows(cd))
    ensures r.Ok? ==> r.value[1].1.Obj? && Keys(r.value[1].1.fields) == Keys(Or(cd, Obj([])).fields)
    ensures r.Ok? ==> forall i :: 0 <= i < |r.value[1].1.fields| ==> r.value[1].1.fields[i].1.Str?
  {
    var d :- AsDict(Or(cd, Obj([])));
    Ok([("disbursement_rows", Arr(DisbursementRows(cd))), ("closing_disbursement", Obj(MapValues(d, ShownText)))])
  }

  const PassedKeys: seq<string> := ["rent_roll", "construction_budget", "comps", "redevelopment"]
  const DueDiligenceKeys: seq<string> := ["lenders_counsel", "borrowers_counsel", "pca_firm", "background_check",
    "site_visit", "appraisal_firm", "appraisal_company", "environmental_firm"]
  const InputKeys: seq<string> := PassedKeys + ["due_diligence", "active_litigation", "deal_highlights"]

  /** `deal.get(key) if deal.get(key) is not None else {}` */
  function Passed(deal: Fields, key: string): (r: Json)
    ensures Field(deal, key).Null? ==> r == Obj([])
    ensures !Field(deal, key).Null? ==> r == Field(deal, key)
  {
    if Field(deal, key).Null? then Obj([]) else Field(deal, key)
  }

  /** main.py:1321-1334: the due-diligence firms, each as text, two of them with an older alias. */
  function DueDiligenceOut(deal: Fields): (r: Json)
    ensures r.Obj? && Keys(r.fields) == DueDiligenceKeys
    ensures forall i :: 0 <= i < |r.fields| ==> r.fields[i].1.Str?
  {
    var dd := DictOr(Or(Field(deal, "due_diligence"), Obj([])));
    var sources := [Field(dd, "lenders_counsel"), Field(dd, "borrowers_counsel"), Field(dd, "pca_firm"),
      Or(Field(dd, "background_check"), Field(dd, "background_check_firm")), Or(Field(dd, "site_visit"), Field(dd, "site_visit_team")),
      Field(dd, "appraisal_firm"), Field(dd, "appraisal_company"), Field(dd, "environmental_firm")];
    Obj(seq(|DueDiligenceKeys|, i requires 0 <= i < |DueDiligenceKeys| => (DueDiligenceKeys[i], ShownText(sources[i]))))
  }

  /** Dicts whose values are all text. */
  predicate AllText(cs: seq<Json>)
  {
    forall i :: 0 <= i < |cs| ==> cs[i].Obj? && forall j :: 0 <= j < |cs[i].fields| ==> cs[i].fields[j].1.Str?
  }

  /** A case with every value shown as text; anything but a dict becomes an empty dict. */
  function CaseText(c: Json): (r: Json)
    ensures r.Obj? && forall i :: 0 <= i < |r.fields| ==> r.fields[i].1.Str?
  {
    Obj(if c.Obj? then MapValues(c.fields, ShownText) else [])
  }

  /** The `cases` entry made a list: a dict's values, or an empty list for None; anything else is kept. */
  function CasesListed(al: Fields): (r: Fields)
    ensures Field(al, "cases").Obj? || Field(al, "cases").Null? ==> HasKey(r, "cases")
  {
    var cases := Field(al, "cases");
    var values := if cases.Obj? then Arr(seq(|cases.fields|, i requires 0 <= i < |cases.fields| => cases.fields[i].1)) else Arr([]);
    LookupSet(al, "cases", values, "cases");
    if cases.Obj? || cases.Null? then Set(al, "cases", values) else al
  }

  /**
   * main.py:1336-1346: the litigation dict with its cases as a list of
   * dicts whose values are all text; a litigation value that is not a dict
   * passes through unchanged.
   */
  function LitigationOut(deal: Fields): (r: Result<Json>)
    ensures r.Err? ==> r.error == TypeError
    ensures !Or(Field(deal, "active_litigation"), Obj([])).Obj? ==> r == Ok(Field(deal, "active_litigation"))
    ensures r.Ok? && Or(Field(deal, "active_litigation"), Obj([])).Obj? ==> (r.value.Obj?
      && Lookup(r.value.fields, "cases").Some? && Lookup(r.value.fields, "cases").value.Arr?
      && AllText(Lookup(r.value.fields, "cases").value.items))
  {
    var al := Or(Field(deal, "active_litigation"), Obj([]));
    if !al.Obj? then Ok(al)
    else
      var listed := CasesListed(al.fields);
      var cases :- ItemsOf(Field(listed, "cases"));
      var texts := seq(|cases|, i requires 0 <= i < |cases| => CaseText(cases[i]));
      LookupSet(listed, "cases", Arr(texts), "cases");
      Ok(Obj(Set(listed, "cases", Arr(texts))))
  }

  /** main.py:1348-1351: a copy of the highlights dict that always has `items`. */
  function HighlightsOut(deal: Fields): (r: Json)
    ensures r.Obj? && HasKey(r.fields, "items")
    ensures var dh := DictOr(Or(Field(deal, "deal_highlights"), Obj([])));
      HasKey(dh, "items") ==> r == Obj(dh)
  {
    var dh := DictOr(Or(Field(deal, "deal_highlights"), Obj([])));
    if HasKey(dh, "items") then Obj(dh)
    else
      assert (dh + [("items", Arr([]))])[|dh|].0 == "items";
      Obj(dh + [("items", Arr([]))])
  }

  /** main.py:1318-1351: the deal's own data passed on, the due diligence, the litigation and the highlights. */
  function InputPairs(deal: Fields): (r: Result<Fields>)
    ensures r.Ok? ==> Keys(r.value) == InputKeys
    ensures r.Ok? ==> r.value[4].1 == DueDiligenceOut(deal) && r.value[6].1 == HighlightsOut(deal)
    ensures r.Err? ==> r.error == TypeError
  {
    var litigation :- LitigationOut(deal);
    var dd := DueDiligenceOut(deal);
    var highlights := HighlightsOut(deal);
    Ok(InputJson(PassedOut(deal), dd, litigation, highlights))
  }

  /** The four inputs passed through as they are. */
  function PassedOut(deal: Fields): (r: Fields)
    ensures Keys(r) == PassedKeys
    ensures forall i :: 0 <= i < |r| ==> r[i].1 == Passed(deal, PassedKeys[i])
  {
    seq(|PassedKeys|, i requires 0 <= i < |PassedKeys| => (PassedKeys[i], Passed(deal, PassedKeys[i])))
  }

  function InputJson(passed: Fields, dd: Json, litigation: Json, highlights: Json): (r: Fields)
    requires Keys(passed) == PassedKeys
    ensures Keys(r) == InputKeys
    ensures r[..4] == passed && r[4].1 == dd && r[5].1 == litigation && r[6].1 == highlights
  {
    passed + [("due_diligence", dd), ("active_litigation", litigation), ("deal_highlights", highlights)]
  }

  // ------------------------------------------------------- narratives and ratios

  const TailKeys: seq<string> := ["closing_funding_and_reserves", "LTC", "LTV", "property_value", "exit_strategy",
    "foreclosure_assumptions", "narratives"]

  /** A narrative as a dict: text is wrapped, a dict is kept, anything else becomes an empty narrative. */
  function NarrativeBox(v: Json): (r: Json)
    ensures r.Obj?
    ensures v.Str? ==> r == Obj([("narrative", v)])
    ensures v.Obj? ==> r == v
  {
    if v.Str? then Obj([("narrative", v)]) else if v.Obj? then v else Obj([("narrative", Str(""))])
  }

  /** The closing disbursement as text, with the closing-funding narrative added when there is one. */
  function Reserves(cd: Fields, narrative: Json): (r: Fields)
    ensures Truthy(narrative) ==> Lookup(r, "narrative") == Some(narrative)
    ensures !Truthy(narrative) ==> Keys(r) == Keys(cd)
  {
    var shown := MapValues(cd, ShownText);
    if Truthy(narrative) then
      LookupSet(shown, "narrative", narrative, "narrative");
      Set(shown, "narrative", narrative)
    else shown
  }

  /** A narrative value with markdown stripped when it is text. */
  function Stripped(ext: Externals, v: Json): Json
  {
    if v.Str? then Str(ext.stripMarkdown(v.s)) else v
  }

  function TailJson(reserves: Json, ltc: Json, ltv: Json, value: Json, exit: Json, foreclosure: Json, narratives: Json): (r: Fields)
    ensures Keys(r) == TailKeys
    ensures r[1].1 == ltc && r[2].1 == ltv && r[3].1 == value && r[4].1 == exit && r[5].1 == foreclosure
  {
    [("closing_funding_and_reserves", reserves), ("LTC", ltc), ("LTV", ltv), ("property_value", value),
     ("exit_strategy", exit), ("foreclosure_assumptions", foreclosure), ("narratives", narratives)]
  }

  /**
   * main.py:1352-1364: the closing funding and reserves, the loan-to-cost
   * and loan-to-value ratios (each its first non-empty source, else "N/A"),
   * the valuation, the exit and foreclosure narratives as dicts, and the
   * narratives with markdown stripped.
   */
  function NarrativePairs(p: Parts, ext: Externals): (r: Result<Fields>)
    ensures r.Ok? ==> Keys(r.value) == TailKeys
    ensures r.Ok? ==> r.value[4].1.Obj? && r.value[5].1.Obj?
    ensures r.Ok? ==> p.leverage.Obj? && Truthy(r.value[1].1) && Truthy(r.value[2].1)
    ensures r.Ok? ==> (Truthy(p.valuation) ==> r.value[3].1 == p.valuation) && (!Truthy(p.valuation) ==> r.value[3].1 == Obj([]))
    ensures r.Err? ==> r.error == AttributeError
  {
    var n :- AsDict(p.narratives);
    var funding := Or(Field(n, "closing_funding_narrative"), Str(""));
    var cd :- AsDict(Or(p.closingDisbursement, Obj([])));
    var lev :- AsDict(p.leverage);
    var ltc := FirstOf(lev, ["fb_ltc_at_closing", "ltc_at_closing", "ltc_at_maturity"], Str("N/A"));
    var ltv := FirstOf(lev, ["ltv_at_closing", "ltv_at_maturity"], Str("N/A"));
    var value := if Truthy(p.valuation) then p.valuation else Obj([]);
    var exit := NarrativeBox(Or(Field(n, "exit_strategy"), Str("")));
    var foreclosure := NarrativeBox(Or(Field(n, "foreclosure_assumptions"), Str("")));
    var stripped := MapValues(n, v => Stripped(ext, v));
    var reserves := Reserves(cd, funding);
    Ok(TailJson(Obj(reserves), ltc, ltv, value, exit, foreclosure, Obj(stripped)))
  }

  // --------------------------------------------------------- raw Layer-3 fields

  const RawKeys: seq<string> := ["deal_facts_raw", "leverage_raw", "loan_terms_raw"]
  const DefaultedKeys: seq<string> := ["origination_fee", "exit_fee", "prepayment", "guaranty", "collateral"]
  const DefaultTerm: string := "See Loan Terms narrative"

  /** `val is None or (isinstance(val, str) and not val.strip())`, where a missing key reads as None. */
  predicate Missing(v: Option<Json>)
  {
    v.None? || v.value.Null? || (v.value.Str? && Text.Strip(v.value.s) == [])
  }

  /** The loan terms with each listed key that is missing, None or blank set to the default text, key by key. */
  function WithDefaults(lt: Fields, keys: seq<string>): (r: Fields)
    decreases |keys|
  {
    if keys == [] then lt
    else WithDefaults(if Missing(Lookup(lt, keys[0])) then Set(lt, keys[0], Str(DefaultTerm)) else lt, keys[1..])
  }

  /** Defaulting one key: it is then set, and every other key keeps its value. */
  lemma DefaultOne(lt: Fields, key: string, k: string)
    ensures var d := if Missing(Lookup(lt, key)) then Set(lt, key, Str(DefaultTerm)) else lt;
      (k == key ==> !Missing(Lookup(d, k))) && (k != key ==> Lookup(d, k) == Lookup(lt, k))
      && (!Missing(Lookup(lt, k)) ==> Lookup(d, k) == Lookup(lt, k))
  {
    if Missing(Lookup(lt, key)) {
      LookupSet(lt, key, Str(DefaultTerm), k);
      if k == key {
        DefaultTermKept();
      }
    }
  }

  /** The default text is not blank. */
  lemma DefaultTermKept()
    ensures Text.Strip(DefaultTerm) != []
  {
    Text.StripStripped(DefaultTerm);
  }

  /**
   * After defaulting, no listed key is missing, None or blank; a key that
   * already had a value keeps it, and an unlisted key is untouched.
   */
  lemma {:induction false} WithDefaultsFills(lt: Fields, keys: seq<string>, k: string)
    ensures k in keys ==> !Missing(Lookup(WithDefaults(lt, keys), k))
    ensures k !in keys ==> Lookup(WithDefaults(lt, keys), k) == Lookup(lt, k)
    ensures !Missing(Lookup(lt, k)) ==> Lookup(WithDefaults(lt, keys), k) == Lookup(lt, k)
    decreases |keys|
  {
    if keys != [] {
      var d := if Missing(Lookup(lt, keys[0])) then Set(lt, keys[0], Str(DefaultTerm)) else lt;
      DefaultOne(lt, keys[0], k);
      WithDefaultsFills(d, keys[1..], k);
      DefaultOne(lt, keys[0], keys[0]);
      if k == keys[0] && k !in keys[1..] {
        assert Lookup(WithDefaults(d, keys[1..]), k) == Lookup(d, k);
      }
    }
  }

  /** The loop at main.py:1375-1378 that defaults the loan terms, key by key. */
  method FillDefaults(lt: Fields, keys: seq<string>) returns (r: Fields)
    ensures r == WithDefaults(lt, keys)
  {
    r := lt;
    var i := 0;
    while i < |keys|
      invariant 0 <= i <= |keys|
      invariant WithDefaults(r, keys[i..]) == WithDefaults(lt, keys)
    {
      assert keys[i..][0] == keys[i] && keys[i..][1..] == keys[i + 1..];
      if Missing(Lookup(r, keys[i])) {
        r := Set(r, keys[i], Str(DefaultTerm));
      }
      i := i + 1;
    }
    assert keys[i..] == [];
  }

  /** main.py:1371-1378: the raw deal facts and leverage, and a copy of the loan terms with its blanks defaulted. */
  function RawPairs(p: Parts): (r: Result<Fields>)
    ensures r.Ok? ==> Keys(r.value) == RawKeys && r.value[0].1 == p.dealFacts && r.value[1].1 == p.leverage
    ensures r.Ok? ==> r.value[2].1 == Obj(WithDefaults(DictOr(Or(p.loanTerms, Obj([]))), DefaultedKeys))
    ensures r.Err? ==> r.error == AttributeError
  {
    var lt :- AsDict(Or(p.loanTerms, Obj([])));
    Ok(Zip(RawKeys, [p.dealFacts, p.leverage, Obj(WithDefaults(lt, DefaultedKeys))]))
  }

  // ------------------------------------------------------------ the whole transform

  /** The runs of assignments to `out`, in the order `transform` makes them. */
  datatype Stages = Stages(head: Fields, issues: Fields, ventures: Fields, flat: Fields, sponsors: Fields,
    sourcesUses: Fields, rawCapital: Fields, disbursement: Fields, display: Fields, closing: Fields,
    inputs: Fields, tail: Fields, raw: Fields)

  function Runs(s: Stages): (r: seq<Fields>)
    ensures |r| == |StageKeys|
  {
    [s.head, s.issues, s.ventures, s.flat, s.sponsors, s.sourcesUses, s.rawCapital, s.disbursement, s.display,
     s.closing, s.inputs, s.tail, s.raw]
  }

  /** The keys each run may assign. */
  const StageKeys: seq<seq<string>> := [HeadKeys, ["loan_issues"] + IssueKeys, VentureKeys, FlatKeys, SponsorPairKeys,
    SourcesUsesKeys, RawCapitalKeys, DisbursementOut, DisplayKeys, ClosingKeys, InputKeys, TailKeys, RawKeys]

  /** Each run assigns only its own keys. */
  predicate Laid(s: Stages)
  {
    forall j, x :: 0 <= j < |StageKeys| && x in Keys(Runs(s)[j]) ==> x in StageKeys[j]
  }

  /** The keys of each run, as its builder states them. */
  predicate KeysLaid(s: Stages)
  {
    Keys(s.head) == HeadKeys && (Keys(s.issues) == IssueKeys || Keys(s.issues) == ["loan_issues"] + IssueKeys)
    && Keys(s.ventures) == VentureKeys && Keys(s.flat) == FlatKeys && Keys(s.sponsors) == SponsorPairKeys
    && Keys(s.sourcesUses) == SourcesUsesKeys && Keys(s.rawCapital) == RawCapitalKeys
    && Keys(s.disbursement) == DisbursementOut && Keys(s.display) == DisplayKeys && Keys(s.closing) == ClosingKeys
    && Keys(s.inputs) == InputKeys && Keys(s.tail) == TailKeys && Keys(s.raw) == RawKeys
  }

  lemma KeysLaidLaid(s: Stages)
    requires KeysLaid(s)
    ensures Laid(s)
  {
    forall j, x | 0 <= j < |StageKeys| && x in Keys(Runs(s)[j]) ensures x in StageKeys[j] {
      if j == 1 && Keys(s.issues) == IssueKeys {
        assert x in IssueKeys;
      }
    }
  }

  /** `k` is assigned by none of the runs with these keys. */
  predicate Absent(k: string, lists: seq<seq<string>>)
  {
    forall j :: 0 <= j < |lists| ==> k !in lists[j]
  }

  /** main.py:1195-1274: the stages up to the raw capital stack; later runs are left empty. */
  function FrontStages(p: Parts, ext: Externals): (r: Result<Stages>)
    ensures r.Ok? ==> CoreDicts(p)
    ensures r.Ok? ==> Head(p, ext.today) == Ok(r.value.head) && LoanIssues(p.deal) == Ok(r.value.issues)
    ensures r.Ok? ==> r.value.ventures == Ventures(p.deal)
    ensures r.Ok? ==> CapitalStackFlat(p.deal).Ok? && r.value.flat == FlatPairs(CapitalStackFlat(p.deal).value)
    ensures r.Ok? ==> SponsorTable(p) == Ok(r.value.sponsors)
    ensures r.Ok? ==> SourcesUsesPairs(p) == Ok(r.value.sourcesUses) && RawCapital(p.deal) == Ok(r.value.rawCapital)
  {
    var head :- Head(p, ext.today);
    var issues :- LoanIssues(p.deal);
    var flat :- CapitalStackFlat(p.deal);
    var sponsors :- SponsorTable(p);
    var sourcesUses :- SourcesUsesPairs(p);
    var rawCapital :- RawCapital(p.deal);
    Ok(Stages(head, issues, Ventures(p.deal), FlatPairs(flat), sponsors, sourcesUses, rawCapital, [], [], [], [], [], []))
  }

  /** main.py:1276-1378: the remaining stages, once the sections have been built. */
  function BackStages(p: Parts, ext: Externals, front: Stages): (r: Result<Stages>)
    requires CoreDicts(p)
    ensures r.Ok? ==> r.value.head == front.head && r.value.issues == front.issues && r.value.ventures == front.ventures
    ensures r.Ok? ==> r.value.flat == front.flat && r.value.sponsors == front.sponsors
    ensures r.Ok? ==> r.value.sourcesUses == front.sourcesUses && r.value.rawCapital == front.rawCapital
    ensures r.Ok? ==> DisbursementPairs(p.closingDisbursement) == Ok(r.value.disbursement)
    ensures r.Ok? ==> DisplayPairs(p, ext) == Ok(r.value.display) && ClosingPairs(p.closingDisbursement) == Ok(r.value.closing)
    ensures r.Ok? ==> InputPairs(p.deal) == Ok(r.value.inputs) && NarrativePairs(p, ext) == Ok(r.value.tail)
    ensures r.Ok? ==> RawPairs(p) == Ok(r.value.raw)
  {
    var disbursement :- DisbursementPairs(p.closingDisbursement);
    var display :- DisplayPairs(p, ext);
    // The closing table and the narratives need only dicts the stages before them have already used.
    var closing := ClosingPairs(p.closingDisbursement).value;
    var inputs :- InputPairs(p.deal);
    var tail := NarrativePairs(p, ext).value;
    var raw :- RawPairs(p);
    Ok(front.(disbursement := disbursement, display := display, closing := closing, inputs := inputs, tail := tail, raw := raw))
  }

  /** main.py:1195-1378: every stage in the order the source runs it; the first that raises ends the transform. */
  function StagesOf(p: Parts, ext: Externals): (r: Result<Stages>)
    ensures r.Ok? ==> KeysLaid(r.value) && CoreDicts(p)
    ensures r.Ok? ==> Head(p, ext.today) == Ok(r.value.head) && LoanIssues(p.deal) == Ok(r.value.issues)
    ensures r.Ok? ==> IssueLists(r.value.issues)
    ensures r.Ok? ==> r.value.ventures == Ventures(p.deal)
    ensures r.Ok? ==> CapitalStackFlat(p.deal).Ok? && r.value.flat == FlatPairs(CapitalStackFlat(p.deal).value)
    ensures r.Ok? ==> SourcesUsesPairs(p) == Ok(r.value.sourcesUses) && RawCapital(p.deal) == Ok(r.value.rawCapital)
    ensures r.Ok? ==> RawPairs(p) == Ok(r.value.raw) && InputPairs(p.deal) == Ok(r.value.inputs)
    ensures r.Ok? ==> NarrativePairs(p, ext) == Ok(r.value.tail)
  {
    var front :- FrontStages(p, ext);
    BackStages(p, ext, front)
  }

  /** `out` after every run of assignments: each key where it was first assigned, holding what it was last assigned. */
  function Assemble(s: Stages): (r: Fields)
    ensures UniqueKeys(r)
  {
    MergeUnique([], Concat(Runs(s)));
    Merge([], Concat(Runs(s)))
  }

  /** A key that a run assigns and no later run may assign holds what that run last assigned it. */
  lemma AssembledFrom(s: Stages, i: int, k: string)
    requires Laid(s) && 0 <= i < |StageKeys| && HasKey(Runs(s)[i], k) && Absent(k, StageKeys[i + 1..])
    ensures Lookup(Assemble(s), k) == LastAssigned(Runs(s)[i], k)
  {
    var runs := Runs(s);
    forall j | i < j < |runs| ensures !HasKey(runs[j], k) {
      HasKeyIn(runs[j], k);
      assert StageKeys[i + 1..][j - i - 1] == StageKeys[j];
    }
    LastInRun(runs, i, k);
    LookupMergeLast([], Concat(runs), k);
  }

  /** The entry at position `m` of run `i` survives when neither the rest of its run nor a later run assigns its key. */
  lemma AssembledAt(s: Stages, i: int, m: int)
    requires Laid(s) && 0 <= i < |StageKeys| && 0 <= m < |Runs(s)[i]|
    requires Runs(s)[i][m].0 !in Keys(Runs(s)[i][m + 1..]) && Absent(Runs(s)[i][m].0, StageKeys[i + 1..])
    ensures Lookup(Assemble(s), Runs(s)[i][m].0) == Some(Runs(s)[i][m].1)
  {
    var run := Runs(s)[i];
    HasKeyIn(run, run[m].0);
    AssembledFrom(s, i, run[m].0);
    LastAssignedAt(run, m);
  }

  // ------------------------------------------------------------ spreading the inputs

  /** `for key, val in items: if key not in out: out[key] = val` */
  function Spread(out: Fields, items: Fields): (r: Fields)
    decreases |items|
  {
    if items == [] then out
    else Spread(if HasKey(out, items[0].0) then out else out + [items[0]], items[1..])
  }

  /** A key `out` already has keeps its value; any other key gets the first value `items` gives it. */
  lemma {:induction false} SpreadLookup(out: Fields, items: Fields, k: string)
    ensures Lookup(Spread(out, items), k) == if HasKey(out, k) then Lookup(out, k) else Lookup(items, k)
    decreases |items|
  {
    if items != [] {
      var x := items[0];
      var next := if HasKey(out, x.0) then out else out + [x];
      SpreadLookup(next, items[1..], k);
      LookupSnoc(out, x, k);
      HasKeyCons(items, k);
    }
  }

  /** Spreading never adds a key twice. */
  lemma {:induction false} SpreadUnique(out: Fields, items: Fields)
    requires UniqueKeys(out)
    ensures UniqueKeys(Spread(out, items))
    decreases |items|
  {
    if items != [] {
      var x := items[0];
      var next := if HasKey(out, x.0) then out else out + [x];
      assert UniqueKeys(next) by {
        if !HasKey(out, x.0) {
          forall i, j | 0 <= i < j < |next| ensures next[i].0 != next[j].0 {
            if j == |out| {
              assert next[i] == out[i];
            }
          }
        }
      }
      SpreadUnique(next, items[1..]);
    }
  }

  /** The loops at main.py:1379-1387, one source at a time. */
  method SpreadInto(out: Fields, items: Fields) returns (r: Fields)
    ensures r == Spread(out, items)
  {
    r := out;
    var i := 0;
    while i < |items|
      invariant 0 <= i <= |items|
      invariant Spread(r, items[i..]) == Spread(out, items)
    {
      assert items[i..][0] == items[i] && items[i..][1..] == items[i + 1..];
      if !HasKey(r, items[i].0) {
        r := r + [items[i]];
      }
      i := i + 1;
    }
    assert items[i..] == [];
  }

  // ------------------------------------------------------------ the transform

  /**
   * main.py:1379-1387: the variables the stages assigned, then the deal
   * facts, the leverage and the loan terms add the keys still missing. The
   * loan terms are a dict here, so `loan_terms or {}` is the loan terms
   * themselves.
   */
  function TemplateVars(built: Fields, facts: Fields, leverage: Fields, loanTerms: Fields): (r: Fields)
    requires UniqueKeys(built)
    ensures UniqueKeys(r)
  {
    var withFacts := Spread(built, facts);
    var withLeverage := Spread(withFacts, leverage);
    SpreadUnique(built, facts);
    SpreadUnique(withFacts, leverage);
    SpreadUnique(withLeverage, loanTerms);
    Spread(withLeverage, loanTerms)
  }

  /** A variable holds what the stages assigned it, else the deal facts' value, else the leverage's, else the loan terms'. */
  lemma TemplateVarsLookup(built: Fields, facts: Fields, leverage: Fields, loanTerms: Fields, k: string)
    requires UniqueKeys(built)
    ensures Lookup(TemplateVars(built, facts, leverage, loanTerms), k)
      == if HasKey(built, k) then Lookup(built, k)
         else if HasKey(facts, k) then Lookup(facts, k)
         else if HasKey(leverage, k) then Lookup(leverage, k)
         else Lookup(loanTerms, k)
  {
    var withFacts := Spread(built, facts);
    var withLeverage := Spread(withFacts, leverage);
    SpreadLookup(built, facts, k);
    SpreadLookup(withFacts, leverage, k);
    SpreadLookup(withLeverage, loanTerms, k);
  }

  /**
   * main.py:1187-1401: the template variables. Every key `transform`
   * assigns is kept and the three spreads add the keys still missing. The
   * debug print at the end takes `len` of five lists; four of them are
   * lists by construction, but the ventures list is whatever the deal's
   * `collaborative_ventures` dict holds under `items`, so a truthy value
   * without a length raises TypeError there.
   */
  function TransformSpec(p: Parts, ext: Externals): (r: Result<Fields>)
    ensures r.Ok? <==> StagesOf(p, ext).Ok? && Len(Ventures(p.deal)[1].1).Ok?
    ensures r.Err? && StagesOf(p, ext).Ok? ==> r.error == TypeError
    ensures r.Ok? ==> UniqueKeys(r.value)
  {
    var s :- StagesOf(p, ext);
    var built := Assemble(s);
    var out := TemplateVars(built, p.dealFacts.fields, p.leverage.fields, p.loanTerms.fields);
    VenturesSurvive(s);
    TemplateVarsLookup(built, p.dealFacts.fields, p.leverage.fields, p.loanTerms.fields, "collaborative_ventures_list");
    DebugPrinted(out)
  }

  /**
   * main.py:1389-1399: the debug print after the variables are built. Its
   * only `len` that can fail is the one of the ventures list.
   */
  function DebugPrinted(out: Fields): (r: Result<Fields>)
    ensures r.Ok? <==> Len(Fetch(out, "collaborative_ventures_list", Arr([]))).Ok?
    ensures r.Ok? ==> r.value == out
    ensures r.Err? ==> r.error == TypeError
  {
    var rows :- Len(Fetch(out, "collaborative_ventures_list", Arr([])));
    Ok(out)
  }

  /**
   * The transform on the mapper's fields: the stages, the three loops that
   * spread the deal facts, the leverage and the loan terms into the keys
   * still missing, and the `len` of the debug print that can fail.
   */
  method BuildTemplateVars(p: Parts, ext: Externals) returns (r: Result<Fields>)
    ensures r == TransformSpec(p, ext)
  {
    var stages := StagesOf(p, ext);
    if stages.Err? {
      return Err(stages.error);
    }
    var out := Assemble(stages.value);
    out := SpreadInto(out, p.dealFacts.fields);
    out := SpreadInto(out, p.leverage.fields);
    out := SpreadInto(out, p.loanTerms.fields);
    r := DebugPrinted(out);
  }

  /** Only a `collaborative_ventures` dict can give the debug print a ventures list without a length. */
  lemma VenturesListSized(deal: Fields)
    ensures !Field(deal, "collaborative_ventures").Obj? ==> Len(Ventures(deal)[1].1).Ok?
    ensures var cv := Field(deal, "collaborative_ventures");
      cv.Obj? && Truthy(Field(cv.fields, "items")) ==>
        (Len(Ventures(deal)[1].1).Ok? <==>
           (Field(cv.fields, "items").Str? || Field(cv.fields, "items").Obj?
            || Field(cv.fields, "items").Arr? || Field(cv.fields, "items").Tuple?))
  {
  }

  /** The deal `{"collaborative_ventures": {"items": 7}}` makes the debug print raise TypeError. */
  lemma UnsizedVentures()
    ensures Len(Ventures([("collaborative_ventures", Obj([("items", Int(7))]))])[1].1) == Err(TypeError)
  {
    var cv := [("items", Int(7))];
    assert Field(cv, "items") == Int(7);
    assert VentureItems(cv) == Int(7);
  }

  /**
   * What each template variable holds: what the transform assigned it,
   * else the deal facts' value, else the leverage's, else the loan terms'.
   */
  lemma TransformLookup(p: Parts, ext: Externals, k: string)
    requires TransformSpec(p, ext).Ok?
    ensures var built := Assemble(StagesOf(p, ext).value);
      Lookup(TransformSpec(p, ext).value, k)
      == if HasKey(built, k) then Lookup(built, k)
         else if HasKey(p.dealFacts.fields, k) then Lookup(p.dealFacts.fields, k)
         else if HasKey(p.leverage.fields, k) then Lookup(p.leverage.fields, k)
         else Lookup(p.loanTerms.fields, k)
  {
    TransformValue(p, ext);
    TemplateVarsLookup(Assemble(StagesOf(p, ext).value), p.dealFacts.fields, p.leverage.fields, p.loanTerms.fields, k);
  }

  /** A transform that succeeds gives the template variables of its stages. */
  lemma TransformValue(p: Parts, ext: Externals)
    requires TransformSpec(p, ext).Ok?
    ensures StagesOf(p, ext).Ok? && CoreDicts(p)
    ensures TransformSpec(p, ext).value
      == TemplateVars(Assemble(StagesOf(p, ext).value), p.dealFacts.fields, p.leverage.fields, p.loanTerms.fields)
  {
    var s := StagesOf(p, ext).value;
    var out := TemplateVars(Assemble(s), p.dealFacts.fields, p.leverage.fields, p.loanTerms.fields);
    assert TransformSpec(p, ext) == DebugPrinted(out);
  }

  /** The value of a key that the transform itself assigns. */
  lemma TransformBuilt(p: Parts, ext: Externals, k: string, v: Json)
    requires TransformSpec(p, ext).Ok? && Lookup(Assemble(StagesOf(p, ext).value), k) == Some(v)
    ensures Lookup(TransformSpec(p, ext).value, k) == Some(v)
  {
    TransformLookup(p, ext, k);
  }

  /** The table of contents is always the placeholder the renderer replaces. */
  lemma TransformToc(p: Parts, ext: Externals)
    requires TransformSpec(p, ext).Ok?
    ensures Lookup(TransformSpec(p, ext).value, "toc") == Some(Str("{{TOC}}"))
  {
    var s := StagesOf(p, ext).value;
    HeadSurvives(s);
    TransformBuilt(p, ext, "toc", Str("{{TOC}}"));
  }

  /**
   * The sections are the thirteen builders' and nothing else; in particular
   * there is no `loan_terms` section, so the narrative clean-up at
   * main.py:1365-1368 never runs.
   */
  lemma TransformSections(p: Parts, ext: Externals)
    requires TransformSpec(p, ext).Ok?
    ensures var v := Lookup(TransformSpec(p, ext).value, "sections");
      v.Some? && v.value.Obj? && Keys(v.value.fields) == SectionKeys && !HasKey(v.value.fields, "loan_terms")
  {
    var s := StagesOf(p, ext).value;
    var sections := s.head[2].1;
    HeadSurvives(s);
    TransformBuilt(p, ext, "sections", sections);
    NoLoanTermsSection(sections.fields);
  }

  lemma NoLoanTermsSection(f: Fields)
    requires Keys(f) == SectionKeys
    ensures !HasKey(f, "loan_terms")
  {
    HasKeyIn(f, "loan_terms");
  }

  /** The `m`-th key of run `i` is assigned by no later entry of its run and by no later run. */
  predicate LastWrite(i: int, m: int)
  {
    0 <= i < |StageKeys| && 0 <= m < |StageKeys[i]|
    && StageKeys[i][m] !in StageKeys[i][m + 1..] && Absent(StageKeys[i][m], StageKeys[i + 1..])
  }

  /** An entry of a run survives when its key is not assigned again, in its run or later. */
  lemma Survives(s: Stages, i: int, m: int, run: Fields, keys: seq<string>)
    requires Laid(s) && LastWrite(i, m) && Runs(s)[i] == run && StageKeys[i] == keys && Keys(run) == keys
    ensures Lookup(Assemble(s), keys[m]) == Some(run[m].1)
  {
    assert Keys(run[m + 1..]) == keys[m + 1..];
    AssembledAt(s, i, m);
  }

  lemma HeadLast()
    ensures LastWrite(0, 1) && LastWrite(0, 2)
  {
  }

  /** The table of contents and the sections are never reassigned. */
  lemma HeadSurvives(s: Stages)
    requires KeysLaid(s)
    ensures Lookup(Assemble(s), "toc") == Some(s.head[1].1) && Lookup(Assemble(s), "sections") == Some(s.head[2].1)
  {
    KeysLaidLaid(s);
    HeadLast();
    assert StageKeys[0] == HeadKeys && Runs(s)[0] == s.head;
    Survives(s, 0, 1, s.head, HeadKeys);
    Survives(s, 0, 2, s.head, HeadKeys);
  }

  lemma VenturesLast()
    ensures LastWrite(2, 0) && LastWrite(2, 1)
  {
  }

  lemma VenturesSurvive(s: Stages)
    requires KeysLaid(s)
    ensures Lookup(Assemble(s), "collaborative_ventures") == Some(s.ventures[0].1)
    ensures Lookup(Assemble(s), "collaborative_ventures_list") == Some(s.ventures[1].1)
  {
    KeysLaidLaid(s);
    VenturesLast();
    assert StageKeys[2] == VentureKeys && Runs(s)[2] == s.ventures;
    Survives(s, 2, 0, s.ventures, VentureKeys);
    Survives(s, 2, 1, s.ventures, VentureKeys);
  }

  lemma CapitalStackLast()
    ensures LastWrite(3, 3)
  {
  }

  lemma CapitalStackSurvives(s: Stages)
    requires KeysLaid(s)
    ensures Lookup(Assemble(s), "capital_stack") == Some(s.flat[3].1)
  {
    KeysLaidLaid(s);
    CapitalStackLast();
    assert StageKeys[3] == FlatKeys && Runs(s)[3] == s.flat;
    Survives(s, 3, 3, s.flat, FlatKeys);
  }

  lemma RawCapitalLast()
    ensures LastWrite(6, 0) && LastWrite(6, 1)
  {
  }

  lemma RawCapitalSurvives(s: Stages)
    requires KeysLaid(s)
    ensures Lookup(Assemble(s), "capital_stack_sources") == Some(s.rawCapital[0].1)
    ensures Lookup(Assemble(s), "capital_stack_uses") == Some(s.rawCapital[1].1)
  {
    KeysLaidLaid(s);
    RawCapitalLast();
    assert StageKeys[6] == RawCapitalKeys && Runs(s)[6] == s.rawCapital;
    Survives(s, 6, 0, s.rawCapital, RawCapitalKeys);
    Survives(s, 6, 1, s.rawCapital, RawCapitalKeys);
  }

  lemma SourcesUsesLast()
    ensures LastWrite(5, 0) && LastWrite(5, 1) && LastWrite(5, 4)
  {
  }

  lemma SourcesUsesSurvive(s: Stages)
    requires KeysLaid(s)
    ensures Lookup(Assemble(s), "sources_list") == Some(s.sourcesUses[0].1)
    ensures Lookup(Assemble(s), "uses_list") == Some(s.sourcesUses[1].1)
    ensures Lookup(Assemble(s), "sources_uses_max_rows") == Some(s.sourcesUses[4].1)
  {
    KeysLaidLaid(s);
    SourcesUsesLast();
    assert StageKeys[5] == SourcesUsesKeys && Runs(s)[5] == s.sourcesUses;
    Survives(s, 5, 0, s.sourcesUses, SourcesUsesKeys);
    Survives(s, 5, 1, s.sourcesUses, SourcesUsesKeys);
    Survives(s, 5, 4, s.sourcesUses, SourcesUsesKeys);
  }

  lemma RawLast()
    ensures LastWrite(12, 2)
  {
  }

  lemma RawSurvives(s: Stages)
    requires KeysLaid(s)
    ensures Lookup(Assemble(s), "loan_terms_raw") == Some(s.raw[2].1)
  {
    KeysLaidLaid(s);
    RawLast();
    assert StageKeys[12] == RawKeys && Runs(s)[12] == s.raw;
    Survives(s, 12, 2, s.raw, RawKeys);
  }

  lemma InputsLast()
    ensures LastWrite(10, 4) && LastWrite(10, 6)
  {
  }

  lemma InputsSurvive(s: Stages)
    requires KeysLaid(s)
    ensures Lookup(Assemble(s), "due_diligence") == Some(s.inputs[4].1)
    ensures Lookup(Assemble(s), "deal_highlights") == Some(s.inputs[6].1)
  {
    KeysLaidLaid(s);
    InputsLast();
    assert StageKeys[10] == InputKeys && Runs(s)[10] == s.inputs;
    Survives(s, 10, 4, s.inputs, InputKeys);
    Survives(s, 10, 6, s.inputs, InputKeys);
  }

  lemma IssueListsSurvive(s: Stages)
    requires KeysLaid(s) && IssueLists(s.issues)
    ensures var v := Lookup(Assemble(s), "loan_issues_income_producing"); v.Some? && v.value.Arr?
    ensures var v := Lookup(Assemble(s), "loan_issues_development"); v.Some? && v.value.Arr?
  {
    IssuesSurvive(s, 0);
    IssuesSurvive(s, 1);
  }

  lemma TailLast()
    ensures LastWrite(11, 1) && LastWrite(11, 2)
  {
  }

  lemma TailSurvives(s: Stages)
    requires KeysLaid(s)
    ensures Lookup(Assemble(s), "LTC") == Some(s.tail[1].1) && Lookup(Assemble(s), "LTV") == Some(s.tail[2].1)
  {
    KeysLaidLaid(s);
    TailLast();
    assert StageKeys[11] == TailKeys && Runs(s)[11] == s.tail;
    Survives(s, 11, 1, s.tail, TailKeys);
    Survives(s, 11, 2, s.tail, TailKeys);
  }

  lemma IssuesLast()
    ensures Absent(IssueKeys[0], StageKeys[2..]) && Absent(IssueKeys[1], StageKeys[2..])
  {
  }

  /** The two flat loan-issue variables survive: nothing after the loan issues assigns them. */
  lemma IssuesSurvive(s: Stages, m: int)
    requires KeysLaid(s) && 0 <= m < 2
    ensures Lookup(Assemble(s), IssueKeys[m]) == Some(s.issues[|s.issues| - 3 + m].1)
  {
    var n := |s.issues| - 3 + m;
    var ks := Keys(s.issues);
    KeysLaidLaid(s);
    IssuesLast();
    assert Runs(s)[1] == s.issues;
    assert ks[n] == IssueKeys[m] && ks[n + 1..] == IssueKeys[m + 1..] by {
      if ks == IssueKeys {
        assert n == m;
      } else {
        assert ks == ["loan_issues"] + IssueKeys && n == m + 1;
      }
    }
    assert Keys(s.issues[n + 1..]) == ks[n + 1..];
    AssembledAt(s, 1, n);
  }

  /** The flat loan-issue entries of the loan-issues run are lists. */
  predicate IssueLists(issues: Fields)
  {
    |issues| >= 3 && issues[|issues| - 3].1.Arr? && issues[|issues| - 2].1.Arr?
  }

  /** The two flat loan-issue variables are always lists. */
  lemma TransformLoanIssueLists(p: Parts, ext: Externals)
    requires TransformSpec(p, ext).Ok?
    ensures var r := TransformSpec(p, ext).value;
      Lookup(r, "loan_issues_income_producing").Some? && Lookup(r, "loan_issues_income_producing").value.Arr?
      && Lookup(r, "loan_issues_development").Some? && Lookup(r, "loan_issues_development").value.Arr?
  {
    var s := StagesOf(p, ext).value;
    IssueListsSurvive(s);
    var built := Assemble(s);
    TransformBuilt(p, ext, "loan_issues_income_producing", Lookup(built, "loan_issues_income_producing").value);
    TransformBuilt(p, ext, "loan_issues_development", Lookup(built, "loan_issues_development").value);
  }

  /** The wrapped ventures and the flat venture list are the same list; a list given by the deal is passed on as it is. */
  lemma TransformVentures(p: Parts, ext: Externals)
    requires TransformSpec(p, ext).Ok?
    ensures var r := TransformSpec(p, ext).value;
      Lookup(r, "collaborative_ventures_list").Some?
      && Lookup(r, "collaborative_ventures") == Some(Obj([("items", Lookup(r, "collaborative_ventures_list").value)]))
    ensures Field(p.deal, "collaborative_ventures").Arr? ==>
      Lookup(TransformSpec(p, ext).value, "collaborative_ventures_list") == Some(Field(p.deal, "collaborative_ventures"))
  {
    var s := StagesOf(p, ext).value;
    VenturesSurvive(s);
    TransformBuilt(p, ext, "collaborative_ventures", s.ventures[0].1);
    TransformBuilt(p, ext, "collaborative_ventures_list", s.ventures[1].1);
  }

  /**
   * `capital_stack` holds the formatted rows of the flattened stack, while
   * `capital_stack_sources` and `capital_stack_uses` end up holding the
   * stack's raw lists: the assignments at main.py:1272-1273 overwrite the
   * formatted rows assigned at main.py:1243-1244.
   */
  lemma TransformCapitalStack(p: Parts, ext: Externals)
    requires TransformSpec(p, ext).Ok?
    ensures CapitalStackFlat(p.deal).Ok?
    ensures var flat := CapitalStackFlat(p.deal).value;
      Lookup(TransformSpec(p, ext).value, "capital_stack")
        == Some(Obj([("title", Str(flat.title)), ("sources", Arr(flat.sources)), ("uses", Arr(flat.uses))]))
    ensures var cs := DictOr(Or(Field(p.deal, "capital_stack"), Obj([])));
      Lookup(TransformSpec(p, ext).value, "capital_stack_sources") == Some(RawCapitalSources(cs))
      && Lookup(TransformSpec(p, ext).value, "capital_stack_uses") == Some(RawCapitalUses(cs))
  {
    var s := StagesOf(p, ext).value;
    CapitalStackSurvives(s);
    RawCapitalSurvives(s);
    TransformBuilt(p, ext, "capital_stack", s.flat[3].1);
    TransformBuilt(p, ext, "capital_stack_sources", s.rawCapital[0].1);
    TransformBuilt(p, ext, "capital_stack_uses", s.rawCapital[1].1);
  }

  /** The side-by-side table has at least one row, and at least as many as each list has entries. */
  lemma TransformMaxRows(p: Parts, ext: Externals)
    requires TransformSpec(p, ext).Ok?
    ensures var r := TransformSpec(p, ext).value;
      Lookup(r, "sources_list").Some? && Lookup(r, "uses_list").Some? && Lookup(r, "sources_uses_max_rows").Some?
    ensures var r := TransformSpec(p, ext).value;
      var a := Len(Lookup(r, "sources_list").value); var b := Len(Lookup(r, "uses_list").value);
      a.Ok? && b.Ok? && Lookup(r, "sources_uses_max_rows").value == Int(MaxRows(a.value, b.value))
  {
    var s := StagesOf(p, ext).value;
    SourcesUsesSurvive(s);
    TransformBuilt(p, ext, "sources_list", s.sourcesUses[0].1);
    TransformBuilt(p, ext, "uses_list", s.sourcesUses[1].1);
    TransformBuilt(p, ext, "sources_uses_max_rows", s.sourcesUses[4].1);
  }

  lemma RawLoanTerms(p: Parts, raw: Fields)
    requires p.loanTerms.Obj? && RawPairs(p) == Ok(raw)
    ensures raw[2].1 == Obj(WithDefaults(p.loanTerms.fields, DefaultedKeys))
  {
    assert DictOr(Or(p.loanTerms, Obj([]))) == p.loanTerms.fields;
  }

  /** `loan_terms_raw` is the loan terms with their blank terms defaulted (see `WithDefaultsFills`). */
  lemma TransformLoanTermsRaw(p: Parts, ext: Externals)
    requires TransformSpec(p, ext).Ok?
    ensures p.loanTerms.Obj?
    ensures Lookup(TransformSpec(p, ext).value, "loan_terms_raw") == Some(Obj(WithDefaults(p.loanTerms.fields, DefaultedKeys)))
  {
    var s := StagesOf(p, ext).value;
    RawLoanTerms(p, s.raw);
    RawSurvives(s);
    TransformBuilt(p, ext, "loan_terms_raw", s.raw[2].1);
  }

  /** The due-diligence firms are all text, and the highlights always have `items`. */
  lemma TransformInputs(p: Parts, ext: Externals)
    requires TransformSpec(p, ext).Ok?
    ensures var r := TransformSpec(p, ext).value;
      Lookup(r, "due_diligence") == Some(DueDiligenceOut(p.deal)) && Lookup(r, "deal_highlights") == Some(HighlightsOut(p.deal))
  {
    var s := StagesOf(p, ext).value;
    InputsSurvive(s);
    TransformBuilt(p, ext, "due_diligence", s.inputs[4].1);
    TransformBuilt(p, ext, "deal_highlights", s.inputs[6].1);
  }

  /** The loan-to-cost and loan-to-value ratios are never empty: "N/A" stands in for a missing one. */
  lemma TransformRatios(p: Parts, ext: Externals)
    requires TransformSpec(p, ext).Ok?
    ensures var r := TransformSpec(p, ext).value;
      Lookup(r, "LTC").Some? && Truthy(Lookup(r, "LTC").value) && Lookup(r, "LTV").Some? && Truthy(Lookup(r, "LTV").value)
  {
    var s := StagesOf(p, ext).value;
    TailSurvives(s);
    TransformBuilt(p, ext, "LTC", s.tail[1].1);
    TransformBuilt(p, ext, "LTV", s.tail[2].1);
  }

  /** Every key of the deal facts, the leverage and the loan terms is a template variable. */
  lemma TransformKeepsInputs(p: Parts, ext: Externals, k: string)
    requires TransformSpec(p, ext).Ok?
    ensures HasKey(p.dealFacts.fields, k) || HasKey(p.leverage.fields, k) || HasKey(p.loanTerms.fields, k)
      ==> HasKey(TransformSpec(p, ext).value, k)
  {
    TransformLookup(p, ext, k);
  }
}
