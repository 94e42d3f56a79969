/**
 * The state of `DealInputToSchemaMapper`: the deal it was given, the
 * section dictionaries its constructor picks out of the deal
 * (`deal.get(key) or {}`), and how `_normalize_from_layer3_shape` fills
 * the empty ones from the Layer 3 alternate structure
 * (`deal_memo_ready`, `extracted_data`, `deal_identification`,
 * `calculations`).
 */
module DealState {
  import opened Wrappers
  import Text
  import opened Values

  /** `d.get(k, default)` on a value already known to be a dict. */
  function Fetch(f: Fields, k: string, default: Json): (r: Json)
    ensures HasKey(f, k) ==> r == Lookup(f, k).value
    ensures !HasKey(f, k) ==> r == default
  {
    match Lookup(f, k) case Some(v) => v case None => default
  }

  /** A value whose `.get` or `.items` is called: only a dict has them. */
  function AsDict(v: Json): (r: Result<Fields>)
    ensures r.Ok? <==> v.Obj?
    ensures r.Ok? ==> r.value == v.fields
    ensures r.Err? ==> r.error == AttributeError
  {
    if v.Obj? then Ok(v.fields) else Err(AttributeError)
  }

  /** What `x or {}` leaves: a truthy value, or the empty dict. */
  predicate Settled(v: Json) { Truthy(v) || v == Obj([]) }

  /** `x or {}` */
  function OrEmpty(v: Json): (r: Json)
    ensures Settled(r)
    ensures Truthy(v) ==> r == v
    ensures !Truthy(v) ==> r == Obj([])
  {
    Or(v, Obj([]))
  }

  /** The mapper's fields: the deal itself and the fifteen section dictionaries. */
  datatype Parts = Parts(
    deal: Fields,
    cover: Json, property: Json, dealFacts: Json, loanTerms: Json, leverage: Json,
    closingDisbursement: Json, sponsor: Json, sourcesUses: Json, valuation: Json,
    narratives: Json, risks: Json, highlights: Json, dueDiligence: Json,
    environmental: Json, zoning: Json)

  predicate AllSettled(p: Parts)
  {
    Settled(p.cover) && Settled(p.property) && Settled(p.dealFacts) && Settled(p.loanTerms)
    && Settled(p.leverage) && Settled(p.closingDisbursement) && Settled(p.sponsor)
    && Settled(p.sourcesUses) && Settled(p.valuation) && Settled(p.narratives) && Settled(p.risks)
    && Settled(p.highlights) && Settled(p.dueDiligence) && Settled(p.environmental) && Settled(p.zoning)
  }

  /** `deal.get(key) or {}` */
  function Section(deal: Fields, key: string): (r: Json)
    ensures Settled(r)
  {
    OrEmpty(Fetch(deal, key, Null))
  }

  /** The assignments of the constructor before it normalizes (main.py:685-704). */
  function Initial(deal: Fields): (p: Parts)
    ensures p.deal == deal && AllSettled(p)
  {
    Parts(deal,
      Section(deal, "cover"), Section(deal, "property"), Section(deal, "deal_facts"),
      Section(deal, "loan_terms"), Section(deal, "leverage"), Section(deal, "closing_disbursement"),
      Section(deal, "sponsor"), Section(deal, "sources_and_uses"), Section(deal, "valuation"),
      Section(deal, "narratives"), Section(deal, "risks_and_mitigants"), Section(deal, "deal_highlights"),
      Section(deal, "due_diligence"), Section(deal, "environmental"), Section(deal, "zoning"))
  }

  // ------------------------------------------------ normalization steps

  /** `deal_facts` from `deal_memo_ready.deal_facts_table`. */
  function FillDealFacts(p: Parts, memo: Json): (r: Result<Parts>)
    ensures Truthy(p.dealFacts) ==> r == Ok(p)
    ensures r.Ok? ==> r.value == p.(dealFacts := r.value.dealFacts)
    ensures r.Ok? && Settled(p.dealFacts) ==> Settled(r.value.dealFacts)
    ensures r.Err? <==> !Truthy(p.dealFacts) && !memo.Obj?
    ensures r.Err? ==> r.error == AttributeError
  {
    if Truthy(p.dealFacts) then Ok(p)
    else
      var m :- AsDict(memo);
      Ok(p.(dealFacts := OrEmpty(Fetch(m, "deal_facts_table", Null))))
  }

  /** `leverage` from the memo's ratio table, else from `calculations.leverage_ratios`. */
  function FillLeverage(p: Parts, memo: Json): (r: Result<Parts>)
    ensures Truthy(p.leverage) ==> r == Ok(p)
    ensures r.Ok? ==> r.value == p.(leverage := r.value.leverage)
    ensures r.Ok? && Settled(p.leverage) ==> Settled(r.value.leverage)
    ensures !Truthy(p.leverage) && !memo.Obj? ==> r.Err?
    ensures r.Err? ==> r.error == AttributeError
  {
    if Truthy(p.leverage) then Ok(p)
    else
      var m :- AsDict(memo);
      var table := Fetch(m, "leverage_ratios_table", Null);
      if Truthy(table) then Ok(p.(leverage := table))
      else
        var calcs :- AsDict(Fetch(p.deal, "calculations", Obj([])));
        Ok(p.(leverage := OrEmpty(Fetch(calcs, "leverage_ratios", Null))))
  }

  /** `loan_terms` from `extracted_data.loan_terms`, preferring its `data` dict. */
  function FillLoanTerms(p: Parts, extracted: Json): (r: Result<Parts>)
    ensures Truthy(p.loanTerms) ==> r == Ok(p)
    ensures r.Ok? ==> r.value == p.(loanTerms := r.value.loanTerms)
    ensures r.Ok? && Settled(p.loanTerms) ==> Settled(r.value.loanTerms)
    ensures r.Err? ==> r.error == AttributeError
  {
    if Truthy(p.loanTerms) then Ok(p)
    else
      var e :- AsDict(extracted);
      var lt := OrEmpty(Fetch(e, "loan_terms", Null));
      var l :- AsDict(lt);
      var data := Fetch(l, "data", Null);
      Ok(p.(loanTerms := if data.Obj? then data else lt))
  }

  /** `closing_disbursement` from the memo, else from the deal's own key. */
  function FillClosing(p: Parts, memo: Json): (r: Result<Parts>)
    ensures Truthy(p.closingDisbursement) ==> r == Ok(p)
    ensures r.Ok? ==> r.value == p.(closingDisbursement := r.value.closingDisbursement)
    ensures r.Ok? && Settled(p.closingDisbursement) ==> Settled(r.value.closingDisbursement)
    ensures !Truthy(p.closingDisbursement) && !memo.Obj? ==> r.Err?
    ensures r.Err? ==> r.error == AttributeError
  {
    if Truthy(p.closingDisbursement) then Ok(p)
    else
      var m :- AsDict(memo);
      Ok(p.(closingDisbursement := OrEmpty(Or(Fetch(m, "closing_disbursement", Null), Fetch(p.deal, "closing_disbursement", Null)))))
  }

  /** The memo date when it is text, else "". */
  function MemoDate(memo: Json): (r: Result<Json>)
    ensures r.Ok? <==> memo.Obj?
    ensures r.Ok? ==> r.value.Str?
    ensures r.Err? ==> r.error == AttributeError
  {
    var m :- AsDict(memo);
    var d := Fetch(m, "memo_date", Null);
    Ok(if d.Str? then d else Str(""))
  }

  /** The cover dict built from `deal_identification`. */
  function CoverOf(di: Fields, date: Json): (r: Json)
    ensures Truthy(r)
    ensures r.Obj? && Keys(r.fields) == ["property_address", "credit_committee", "underwriting_team", "date"]
  {
    Obj([("property_address", Fetch(di, "property_address", Str(""))),
         ("credit_committee", Or(Fetch(di, "sponsor_names", Null), Fetch(di, "credit_committee", Str("")))),
         ("underwriting_team", Fetch(di, "underwriting_team", Str(""))),
         ("date", date)])
  }

  /** `cover` from `deal_identification`, when there is one or a memo. */
  function FillCover(p: Parts, memo: Json): (r: Result<Parts>)
    ensures Truthy(p.cover) ==> r == Ok(p)
    ensures r.Ok? ==> r.value == p.(cover := r.value.cover)
    ensures r.Ok? && Settled(p.cover) ==> Settled(r.value.cover)
    ensures r.Ok? && r.value.cover != p.cover ==>
      (r.value.cover.Obj? && Keys(r.value.cover.fields) == ["property_address", "credit_committee", "underwriting_team", "date"])
    ensures r.Err? ==> r.error == AttributeError
  {
    var ident := Fetch(p.deal, "deal_identification", Null);
    if Truthy(p.cover) || !(Truthy(ident) || Truthy(memo)) then Ok(p)
    else
      var di :- AsDict(OrEmpty(ident));
      var given := Fetch(di, "date", Str(""));
      var date :- if Truthy(given) then Ok(given) else MemoDate(memo);
      Ok(p.(cover := CoverOf(di, date)))
  }

  /** The property dict built from the memo's `property_summary`. */
  function PropertyOf(ps: Fields): (r: Json)
    ensures Truthy(r)
    ensures r.Obj? && Keys(r.fields) == ["name", "address", "property_type", "building_sf", "land_area_acres", "year_built", "occupancy_current"]
  {
    Obj(Zip(["name", "address", "property_type", "building_sf", "land_area_acres", "year_built", "occupancy_current"],
      PropertyValues(ps)))
  }

  function PropertyValues(ps: Fields): (r: seq<Json>)
    ensures |r| == 7
  {
    [Or(Fetch(ps, "property_name", Null), Fetch(ps, "project_name", Str(""))),
     Obj([("street", Fetch(ps, "address", Str(""))), ("city", Fetch(ps, "city", Str(""))),
          ("state", Fetch(ps, "state", Str(""))), ("zip", Fetch(ps, "zip", Str("")))]),
     Fetch(ps, "property_type", Str("")),
     Or(Fetch(ps, "gla", Null), Fetch(ps, "gross_leasable_area_sf", Null)),
     Or(Fetch(ps, "site_size_acres", Null), Fetch(ps, "land_area_acres", Null)),
     Fetch(ps, "year_built", Null),
     Fetch(ps, "occupancy", Null)]
  }

  /** `property` from the memo's `property_summary` when that is a dict. */
  function FillProperty(p: Parts, memo: Json): (r: Result<Parts>)
    ensures Truthy(p.property) ==> r == Ok(p)
    ensures r.Ok? ==> r.value == p.(property := r.value.property)
    ensures r.Ok? && Settled(p.property) ==> Settled(r.value.property)
    ensures r.Err? ==> r.error == AttributeError
  {
    if Truthy(p.property) || !Truthy(memo) then Ok(p)
    else
      var m :- AsDict(memo);
      var ps := OrEmpty(Fetch(m, "property_summary", Null));
      if ps.Obj? then Ok(p.(property := PropertyOf(ps.fields))) else Ok(p)
  }

  /** The narratives dict built from the memo's narrative placeholders. */
  function NarrativesOf(ph: Fields): (r: Json)
    ensures Truthy(r) && r.Obj? && |r.fields| == 6
  {
    Obj([("property_overview", Or(Fetch(ph, "property_description", Null), Fetch(ph, "property_overview", Str("")))),
         ("location_overview", Fetch(ph, "location_overview", Str(""))),
         ("market_overview", Fetch(ph, "market_overview", Str(""))),
         ("transaction_overview", Fetch(ph, "deal_summary", Str(""))),
         ("sponsor_narrative", Fetch(ph, "sponsor_summary", Str(""))),
         ("closing_funding_narrative", Fetch(ph, "closing_funding_narrative", Str("")))])
  }

  /** A property overview that says nothing: blank, or the text "None". */
  predicate Blank(s: string) { Text.Strip(s) == [] || Text.Strip(s) == "None" }

  /** The placeholder text for a blank property overview. */
  function PlaceholderOverview(ph: Fields): Json
  {
    Or(Or(Fetch(ph, "property_description", Null), Fetch(ph, "property_overview", Str(""))), Str(""))
  }

  /**
   * A given narratives dict: a blank `property_overview` is replaced from
   * the placeholders, any other overview keeps the dict as it is.
   */
  function GivenNarratives(narratives: Json, placeholders: Json): (r: Result<Json>)
    requires Truthy(narratives)
    ensures r.Ok? ==> narratives.Obj? && Truthy(r.value)
    ensures r.Ok? ==> (r.value == narratives
      || (placeholders.Obj? && r.value == Obj(Set(narratives.fields, "property_overview", PlaceholderOverview(placeholders.fields)))))
    ensures r.Ok? ==> var current := Or(Fetch(narratives.fields, "property_overview", Null), Str(""));
      (current.Str? && Blank(current.s) ==> (placeholders.Obj?
        && r.value == Obj(Set(narratives.fields, "property_overview", PlaceholderOverview(placeholders.fields)))))
    ensures r.Err? ==> r.error == AttributeError
  {
    var n :- AsDict(narratives);
    var current := Or(Fetch(n, "property_overview", Null), Str(""));
    if !current.Str? then Err(AttributeError)
    else if !Blank(current.s) then Ok(narratives)
    else
      var ph :- AsDict(placeholders);
      var filled := PlaceholderOverview(ph);
      HasKeyCons(Set(n, "property_overview", filled), "property_overview");
      Ok(Obj(Set(n, "property_overview", filled)))
  }

  /**
   * `narratives` from the placeholders when it is empty; when it is not,
   * only a blank `property_overview` is replaced.
   */
  function FillNarratives(p: Parts, memo: Json): (r: Result<Parts>)
    ensures r.Ok? ==> r.value == p.(narratives := r.value.narratives)
    ensures r.Ok? && Settled(p.narratives) ==> Settled(r.value.narratives)
    ensures !memo.Obj? ==> r.Err?
    ensures r.Err? ==> r.error == AttributeError
  {
    var m :- AsDict(memo);
    var placeholders := OrEmpty(Fetch(m, "narrative_placeholders", Null));
    if !Truthy(p.narratives) && Truthy(placeholders) then
      var ph :- AsDict(placeholders);
      Ok(p.(narratives := NarrativesOf(ph)))
    else if Truthy(p.narratives) && Truthy(placeholders) then
      var n :- GivenNarratives(p.narratives, placeholders);
      Ok(p.(narratives := n))
    else Ok(p)
  }

  function Memo(deal: Fields): Json { Section(deal, "deal_memo_ready") }

  /** main.py:710-740: the steps before the narratives, each filling one empty field. */
  function FillSections(p: Parts): (r: Result<Parts>)
    ensures r.Ok? ==> var q := r.value;
      q.deal == p.deal && q.narratives == p.narratives && q.sponsor == p.sponsor && q.sourcesUses == p.sourcesUses
      && q.valuation == p.valuation && q.risks == p.risks && q.highlights == p.highlights
      && q.dueDiligence == p.dueDiligence && q.environmental == p.environmental && q.zoning == p.zoning
    ensures r.Ok? ==> var q := r.value;
      (Truthy(p.dealFacts) ==> q.dealFacts == p.dealFacts) && (Truthy(p.leverage) ==> q.leverage == p.leverage)
      && (Truthy(p.loanTerms) ==> q.loanTerms == p.loanTerms)
      && (Truthy(p.closingDisbursement) ==> q.closingDisbursement == p.closingDisbursement)
      && (Truthy(p.cover) ==> q.cover == p.cover) && (Truthy(p.property) ==> q.property == p.property)
    ensures r.Ok? && AllSettled(p) ==> AllSettled(r.value)
    ensures r.Err? ==> r.error == AttributeError
  {
    var q :- FillFigures(p);
    FillIdentity(q)
  }

  /** Main.py:713-724: the deal facts, the leverage and the loan terms. */
  function FillFigures(p: Parts): (r: Result<Parts>)
    ensures r.Ok? ==> r.value.deal == p.deal
  {
    var memo := Memo(p.deal);
    var p1 :- FillDealFacts(p, memo);
    var p2 :- FillLeverage(p1, memo);
    FillLoanTerms(p2, Section(p.deal, "extracted_data"))
  }

  /** Main.py:725-740: the closing disbursement, the cover and the property. */
  function FillIdentity(p: Parts): (r: Result<Parts>)
    ensures r.Ok? ==> r.value.deal == p.deal
  {
    var memo := Memo(p.deal);
    var p4 :- FillClosing(p, memo);
    var p5 :- FillCover(p4, memo);
    FillProperty(p5, memo)
  }

  /** `_normalize_from_layer3_shape` (main.py:707-754) as a function of the fields it reads and writes. */
  function Normalize(p: Parts): (r: Result<Parts>)
    ensures r.Ok? ==> r.value.deal == p.deal
    ensures r.Err? ==> r.error == AttributeError
  {
    var q :- FillSections(p);
    FillNarratives(q, Memo(p.deal))
  }

  /**
   * The constructor (main.py:684-705): the fields, then normalization. The
   * debugging print at main.py:695 calls `.get` on the sponsor, so a
   * sponsor that is neither empty nor a dict already fails there.
   */
  function Construct(deal: Fields): (r: Result<Parts>)
    ensures r.Err? ==> r.error == AttributeError
  {
    var p := Initial(deal);
    if !p.sponsor.Obj? then Err(AttributeError) else Normalize(p)
  }

  // ------------------------------------------------------------ properties

  /** Normalization keeps every field the deal already filled, except that a blank property overview is replaced. */
  lemma NormalizeKeepsGiven(p: Parts)
    requires Normalize(p).Ok?
    ensures var q := Normalize(p).value;
      (Truthy(p.dealFacts) ==> q.dealFacts == p.dealFacts)
      && (Truthy(p.leverage) ==> q.leverage == p.leverage)
      && (Truthy(p.loanTerms) ==> q.loanTerms == p.loanTerms)
      && (Truthy(p.closingDisbursement) ==> q.closingDisbursement == p.closingDisbursement)
      && (Truthy(p.cover) ==> q.cover == p.cover)
      && (Truthy(p.property) ==> q.property == p.property)
      && q.sponsor == p.sponsor && q.sourcesUses == p.sourcesUses && q.valuation == p.valuation
      && q.risks == p.risks && q.highlights == p.highlights && q.dueDiligence == p.dueDiligence
      && q.environmental == p.environmental && q.zoning == p.zoning
  {
  }

  /** The placeholder text that replaces a blank property overview. */
  function OverviewFill(memo: Fields): Json
  {
    var ph := OrEmpty(Fetch(memo, "narrative_placeholders", Null));
    PlaceholderOverview(if ph.Obj? then ph.fields else [])
  }

  /** On a given narratives dict the narrative step either changes nothing or replaces a blank `property_overview`. */
  lemma FillNarrativesGiven(q: Parts, memo: Json)
    requires FillNarratives(q, memo).Ok? && q.narratives.Obj? && q.narratives.fields != []
    ensures memo.Obj?
    ensures var n := FillNarratives(q, memo).value.narratives;
      n == q.narratives || n == Obj(Set(q.narratives.fields, "property_overview", OverviewFill(memo.fields)))
    ensures var current := Or(Fetch(q.narratives.fields, "property_overview", Null), Str(""));
      Truthy(Fetch(memo.fields, "narrative_placeholders", Null)) && current.Str? && Blank(current.s) ==>
      FillNarratives(q, memo).value.narratives == Obj(Set(q.narratives.fields, "property_overview", OverviewFill(memo.fields)))
  {
    var placeholders := OrEmpty(Fetch(memo.fields, "narrative_placeholders", Null));
    assert Truthy(q.narratives);
    if Truthy(placeholders) {
      assert FillNarratives(q, memo).value.narratives == GivenNarratives(q.narratives, placeholders).value;
    }
  }

  /** A narratives dict that is given keeps every entry except `property_overview`. */
  lemma NormalizeKeepsNarratives(p: Parts, k: string)
    requires Normalize(p).Ok? && p.narratives.Obj? && p.narratives.fields != [] && k != "property_overview"
    ensures Normalize(p).value.narratives.Obj?
    ensures Lookup(Normalize(p).value.narratives.fields, k) == Lookup(p.narratives.fields, k)
  {
    var memo := Memo(p.deal);
    var q := FillSections(p).value;
    FillNarrativesGiven(q, memo);
    LookupSet(p.narratives.fields, "property_overview", OverviewFill(memo.fields), k);
  }

  /** A blank property overview is replaced by the placeholders' property description, when there is one. */
  lemma NormalizeFillsBlankOverview(p: Parts)
    requires Normalize(p).Ok? && p.narratives.Obj? && p.narratives.fields != []
    requires Memo(p.deal).Obj? && Fetch(Memo(p.deal).fields, "narrative_placeholders", Null).Obj?
    requires Truthy(Fetch(Fetch(Memo(p.deal).fields, "narrative_placeholders", Null).fields, "property_description", Null))
    requires Or(Fetch(p.narratives.fields, "property_overview", Null), Str("")).Str?
    requires Blank(Or(Fetch(p.narratives.fields, "property_overview", Null), Str("")).s)
    ensures Normalize(p).value.narratives.Obj?
    ensures Lookup(Normalize(p).value.narratives.fields, "property_overview")
      == Some(Fetch(Fetch(Memo(p.deal).fields, "narrative_placeholders", Null).fields, "property_description", Null))
  {
    var memo := Memo(p.deal);
    var q := FillSections(p).value;
    var ph := Fetch(memo.fields, "narrative_placeholders", Null);
    assert ph.fields != [];
    assert Truthy(ph) && OrEmpty(ph) == ph;
    assert OverviewFill(memo.fields) == Fetch(ph.fields, "property_description", Null);
    assert q.narratives == p.narratives;
    FillNarrativesGiven(q, memo);
    LookupSet(p.narratives.fields, "property_overview", OverviewFill(memo.fields), "property_overview");
  }

  /** Empty deal facts come from the memo's `deal_facts_table` (or stay `{}`). */
  lemma NormalizeFillsDealFacts(p: Parts)
    requires Normalize(p).Ok? && !Truthy(p.dealFacts)
    ensures Memo(p.deal).Obj?
    ensures Normalize(p).value.dealFacts == OrEmpty(Fetch(Memo(p.deal).fields, "deal_facts_table", Null))
  {
  }

  /** Empty loan terms come from `extracted_data.loan_terms`, its `data` dict taking precedence. */
  lemma NormalizeFillsLoanTerms(p: Parts)
    requires Normalize(p).Ok? && !Truthy(p.loanTerms)
    ensures var e := Section(p.deal, "extracted_data"); var lt := OrEmpty(Fetch(e.fields, "loan_terms", Null));
      e.Obj? && lt.Obj?
      && Normalize(p).value.loanTerms == (if Fetch(lt.fields, "data", Null).Obj? then Fetch(lt.fields, "data", Null) else lt)
  {
  }

  /** A memo that is neither empty nor a dict makes normalization fail, whatever else the deal holds. */
  lemma NormalizeNeedsDictMemo(p: Parts)
    requires Truthy(Memo(p.deal)) && !Memo(p.deal).Obj?
    ensures Normalize(p) == Err(AttributeError)
  {
  }

  /** Normalization leaves every field either truthy or `{}`. */
  lemma NormalizeSettled(p: Parts)
    requires AllSettled(p) && Normalize(p).Ok?
    ensures AllSettled(Normalize(p).value)
  {
    assert Normalize(p) == FillNarratives(FillSections(p).value, Memo(p.deal));
  }
}
