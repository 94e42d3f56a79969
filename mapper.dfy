/**
 * `DealInputToSchemaMapper` as an object: the constructor stores the deal
 * and its section dictionaries in fields, `_normalize_from_layer3_shape`
 * fills the empty ones in place, and `transform` reads them to build the
 * template variables.
 */
module DealMapper {
  import opened Wrappers
  import opened Values
  import opened DealState
  import opened DealTransform

  class DealInputMapper {
    var deal: Fields
    var cover: Json
    var property: Json
    var dealFacts: Json
    var loanTerms: Json
    var leverage: Json
    var closingDisbursement: Json
    var sponsor: Json
    var sourcesUses: Json
    var valuation: Json
    var narratives: Json
    var risks: Json
    var highlights: Json
    var dueDiligence: Json
    var environmental: Json
    var zoning: Json

    /** The fields, as the value the section builders read. */
    function State(): Parts
      reads this
    {
      Parts(deal, cover, property, dealFacts, loanTerms, leverage, closingDisbursement, sponsor, sourcesUses,
        valuation, narratives, risks, highlights, dueDiligence, environmental, zoning)
    }

    /** main.py:684-704: each section dictionary is `deal.get(key) or {}`. */
    constructor (deal: Fields)
      ensures State() == Initial(deal)
    {
      this.deal := deal;
      cover := Section(deal, "cover");
      property := Section(deal, "property");
      dealFacts := Section(deal, "deal_facts");
      loanTerms := Section(deal, "loan_terms");
      leverage := Section(deal, "leverage");
      closingDisbursement := Section(deal, "closing_disbursement");
      sponsor := Section(deal, "sponsor");
      sourcesUses := Section(deal, "sources_and_uses");
      valuation := Section(deal, "valuation");
      narratives := Section(deal, "narratives");
      risks := Section(deal, "risks_and_mitigants");
      highlights := Section(deal, "deal_highlights");
      dueDiligence := Section(deal, "due_diligence");
      environmental := Section(deal, "environmental");
      zoning := Section(deal, "zoning");
    }

    /** main.py:710-740: the empty fields before the narratives, filled one at a time. */
    method FillSectionsInPlace() returns (r: Result<()>)
      modifies this
      ensures r.Ok? <==> FillSections(old(State())).Ok?
      ensures r.Ok? ==> State() == FillSections(old(State())).value
      ensures r.Err? ==> r.error == AttributeError
    {
      r := FillFiguresInPlace();
      if r.Err? { return; }
      r := FillIdentityInPlace();
    }

    /** main.py:713-724: deal facts, leverage and loan terms, each only when empty. */
    method FillFiguresInPlace() returns (r: Result<()>)
      modifies this
      ensures r.Ok? <==> FillFigures(old(State())).Ok?
      ensures r.Ok? ==> State() == FillFigures(old(State())).value
      ensures r.Err? ==> r.error == AttributeError
    {
      var memo := Memo(deal);
      var q := FillDealFacts(State(), memo);
      if q.Err? { return Err(q.error); }
      dealFacts := q.value.dealFacts;
      assert State() == q.value;
      q := FillLeverage(State(), memo);
      if q.Err? { return Err(q.error); }
      leverage := q.value.leverage;
      assert State() == q.value;
      q := FillLoanTerms(State(), Section(deal, "extracted_data"));
      if q.Err? { return Err(q.error); }
      loanTerms := q.value.loanTerms;
      assert State() == q.value;
      return Ok(());
    }

    /** main.py:725-740: closing disbursement, cover and property, each only when empty. */
    method FillIdentityInPlace() returns (r: Result<()>)
      modifies this
      ensures r.Ok? <==> FillIdentity(old(State())).Ok?
      ensures r.Ok? ==> State() == FillIdentity(old(State())).value
      ensures r.Err? ==> r.error == AttributeError
    {
      var memo := Memo(deal);
      var q := FillClosing(State(), memo);
      if q.Err? { return Err(q.error); }
      closingDisbursement := q.value.closingDisbursement;
      assert State() == q.value;
      q := FillCover(State(), memo);
      if q.Err? { return Err(q.error); }
      cover := q.value.cover;
      assert State() == q.value;
      q := FillProperty(State(), memo);
      if q.Err? { return Err(q.error); }
      property := q.value.property;
      assert State() == q.value;
      return Ok(());
    }

    /**
     * main.py:707-754: each empty field is filled from the Layer 3
     * alternate structure, one field at a time; on success the fields are
     * exactly what `Normalize` computes.
     */
    method NormalizeFromLayer3() returns (r: Result<()>)
      modifies this
      ensures r.Ok? <==> Normalize(old(State())).Ok?
      ensures r.Ok? ==> State() == Normalize(old(State())).value
      ensures r.Err? ==> r.error == AttributeError
    {
      var s := FillSectionsInPlace();
      if s.Err? { return Err(s.error); }
      var q := FillNarratives(State(), Memo(deal));
      if q.Err? { return Err(q.error); }
      narratives := q.value.narratives;
      assert State() == q.value;
      return Ok(());
    }

    /**
     * The whole constructor (main.py:684-705): the fields, the debugging
     * print that calls `.get` on the sponsor, then normalization.
     */
    static method Create(deal: Fields) returns (r: Result<DealInputMapper>)
      ensures r.Ok? <==> Construct(deal).Ok?
      ensures r.Ok? ==> fresh(r.value) && r.value.State() == Construct(deal).value
      ensures r.Err? ==> r.error == AttributeError
    {
      var m := new DealInputMapper(deal);
      if !m.sponsor.Obj? {
        return Err(AttributeError);
      }
      var n := m.NormalizeFromLayer3();
      if n.Err? {
        return Err(n.error);
      }
      return Ok(m);
    }

    /**
     * main.py:1187-1401: the template variables. The stages are computed
     * from the fields, then the three loops spread the deal facts, the
     * leverage and the loan terms into the keys still missing, and the
     * debug print takes the `len` of the ventures list.
     */
    method Transform(ext: Externals) returns (r: Result<Fields>)
      ensures r == TransformSpec(State(), ext)
      ensures r.Ok? ==> UniqueKeys(r.value)
    {
      r := BuildTemplateVars(State(), ext);
    }
  }
}
