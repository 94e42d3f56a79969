/**
 * `Layer2ToSchemaMapper`, first half: Layer-2 extraction output is a list of
 * records, each naming its document type (`dd_name`) and carrying what was
 * extracted from that document (`extracted_data`). The mapper indexes the
 * records by document type once, at construction, and every section builder
 * reads that index through `_get_doc`, `_get_all_docs` and `_safe_get`.
 *
 * The index never changes after construction, so the builders here are
 * functions of it.
 */
module Layer2 {
  import opened Wrappers
  import Numbers
  import opened Values
  import Helpers
  import Text

  // -------------------------------------------------------------- the index

  /** `docs_by_type`: each document type with the extracted data of its records, types in order of first arrival. */
  type Index = seq<(Json, seq<Json>)>

  /** No document type is listed twice. */
  predicate UniqueTypes(idx: Index)
  {
    forall i, j :: 0 <= i < j < |idx| ==> idx[i].0 != idx[j].0
  }

  /** `docs_by_type.get(t, [])` */
  function Docs(idx: Index, t: Json): seq<Json>
    decreases |idx|
  {
    if idx == [] then [] else if idx[0].0 == t then idx[0].1 else Docs(idx[1..], t)
  }

  /** Number of records filed across all types. */
  function TotalDocs(idx: Index): nat
    decreases |idx|
  {
    if idx == [] then 0 else |idx[0].1| + TotalDocs(idx[1..])
  }

  /** `index[t].append(doc)`, after `index[t] = []` when `t` is new. */
  function AddDoc(idx: Index, t: Json, doc: Json): (r: Index)
    ensures Docs(r, t) == Docs(idx, t) + [doc]
    ensures TotalDocs(r) == TotalDocs(idx) + 1
    decreases |idx|
  {
    if idx == [] then [(t, [doc])]
    else if idx[0].0 == t then [(t, idx[0].1 + [doc])] + idx[1..]
    else
      var rest := AddDoc(idx[1..], t, doc);
      assert ([idx[0]] + rest)[1..] == rest;
      [idx[0]] + rest
  }

  /** Filing under `t` leaves every other type's records alone. */
  lemma {:induction false} AddDocOthers(idx: Index, t: Json, doc: Json, u: Json)
    requires u != t
    ensures Docs(AddDoc(idx, t, doc), u) == Docs(idx, u)
    decreases |idx|
  {
    if idx != [] && idx[0].0 != t {
      var rest := AddDoc(idx[1..], t, doc);
      assert ([idx[0]] + rest)[1..] == rest;
      AddDocOthers(idx[1..], t, doc, u);
    }
  }

  /** Filing never lists a type twice: a new type goes at the end, a known one keeps its place. */
  lemma {:induction false} AddDocUnique(idx: Index, t: Json, doc: Json)
    requires UniqueTypes(idx)
    ensures UniqueTypes(AddDoc(idx, t, doc))
    ensures forall i :: 0 <= i < |AddDoc(idx, t, doc)| ==> AddDoc(idx, t, doc)[i].0 == t || exists j :: 0 <= j < |idx| && idx[j].0 == AddDoc(idx, t, doc)[i].0
    decreases |idx|
  {
    if idx != [] && idx[0].0 != t {
      var rest := AddDoc(idx[1..], t, doc);
      var r := [idx[0]] + rest;
      AddDocUnique(idx[1..], t, doc);
      forall i | 0 <= i < |r| ensures r[i].0 == t || exists j :: 0 <= j < |idx| && idx[j].0 == r[i].0 {
        if i == 0 {
          assert idx[0].0 == r[0].0;
        } else {
          assert r[i] == rest[i - 1];
          if rest[i - 1].0 != t {
            var j :| 0 <= j < |idx[1..]| && idx[1..][j].0 == rest[i - 1].0;
            assert idx[j + 1].0 == r[i].0;
          }
        }
      }
      forall i, j | 0 <= i < j < |r| ensures r[i].0 != r[j].0 {
        if i == 0 {
          assert r[j] == rest[j - 1];
          if rest[j - 1].0 != t {
            var k :| 0 <= k < |idx[1..]| && idx[1..][k].0 == rest[j - 1].0;
            assert idx[k + 1].0 == r[j].0;
          }
        } else {
          assert r[i] == rest[i - 1] && r[j] == rest[j - 1];
        }
      }
    } else if idx != [] {
      var r := AddDoc(idx, t, doc);
      forall i | 0 <= i < |r| ensures r[i].0 == t || exists j :: 0 <= j < |idx| && idx[j].0 == r[i].0 {
        if i > 0 { assert r[i] == idx[i]; }
      }
      forall i, j | 0 <= i < j < |r| ensures r[i].0 != r[j].0 {
        assert r[j] == idx[j];
        if i > 0 { assert r[i] == idx[i]; }
      }
    }
  }

  /** A record the index loop accepts: a dict whose type can be a dict key. */
  predicate RecordOk(item: Json)
  {
    item.Obj? && Hashable(TypeOf(item))
  }

  /** `item.get('dd_name', 'Unknown')` */
  function TypeOf(item: Json): Json
    requires item.Obj?
  {
    match Lookup(item.fields, "dd_name") case Some(v) => v case None => Str("Unknown")
  }

  /** `item.get('extracted_data', {})` */
  function DataOf(item: Json): Json
    requires item.Obj?
  {
    match Lookup(item.fields, "extracted_data") case Some(v) => v case None => Obj([])
  }

  predicate AllRecordsOk(items: seq<Json>)
  {
    forall i :: 0 <= i < |items| ==> RecordOk(items[i])
  }

  /** Reference definition: the extracted data of the records of type `t`, in arrival order. */
  function Selected(items: seq<Json>, t: Json): seq<Json>
    requires AllRecordsOk(items)
    decreases |items|
  {
    if items == [] then []
    else (if TypeOf(items[0]) == t then [DataOf(items[0])] else []) + Selected(items[1..], t)
  }

  /** One turn of the indexing loop: a non-dict record has no `.get`, an unhashable type cannot be a key. */
  function IndexRecord(idx: Index, item: Json): (r: Result<Index>)
    ensures r.Ok? <==> RecordOk(item)
    ensures r.Err? ==> r.error == (if item.Obj? then TypeError else AttributeError)
  {
    if !item.Obj? then Err(AttributeError)
    else if !Hashable(TypeOf(item)) then Err(TypeError)
    else Ok(AddDoc(idx, TypeOf(item), DataOf(item)))
  }

  /** The records are all good exactly when the first one is and the rest are. */
  lemma AllRecordsOkCons(items: seq<Json>)
    requires items != []
    ensures AllRecordsOk(items) <==> RecordOk(items[0]) && AllRecordsOk(items[1..])
  {
    if RecordOk(items[0]) && AllRecordsOk(items[1..]) {
      forall i | 0 <= i < |items| ensures RecordOk(items[i]) {
        if i > 0 { assert items[i] == items[1..][i - 1]; }
      }
    }
  }

  /**
   * The index built from `idx` by the remaining records; the first record
   * that is not a dict, or whose type cannot be a key, stops the loop.
   */
  function IndexFrom(idx: Index, items: seq<Json>): (r: Result<Index>)
    ensures r.Ok? <==> AllRecordsOk(items)
    ensures r.Err? ==> r.error == AttributeError || r.error == TypeError
    decreases |items|
  {
    if items == [] then Ok(idx)
    else
      AllRecordsOkCons(items);
      match IndexRecord(idx, items[0])
      case Err(e) => Err(e)
      case Ok(next) => IndexFrom(next, items[1..])
  }

  /** One turn of the loop over good records: the first is filed, then the rest. */
  lemma IndexFromStep(idx: Index, items: seq<Json>, t: Json)
    requires items != [] && AllRecordsOk(items)
    ensures RecordOk(items[0]) && AllRecordsOk(items[1..])
    ensures IndexFrom(idx, items) == IndexFrom(AddDoc(idx, TypeOf(items[0]), DataOf(items[0])), items[1..])
    ensures Selected(items, t) == (if TypeOf(items[0]) == t then [DataOf(items[0])] else []) + Selected(items[1..], t)
  {
    AllRecordsOkCons(items);
  }

  /** Filing a record under `u` adds it to the records of `t` exactly when `u` is `t`. */
  lemma AddDocDocs(idx: Index, u: Json, d: Json, t: Json)
    ensures Docs(AddDoc(idx, u, d), t) == Docs(idx, t) + (if u == t then [d] else [])
  {
    if u != t {
      AddDocOthers(idx, u, d, t);
    }
  }

  /** Every record is filed under its own type, after the ones filed before it. */
  lemma {:induction false} IndexFromDocs(idx: Index, items: seq<Json>, t: Json)
    requires AllRecordsOk(items)
    ensures Docs(IndexFrom(idx, items).value, t) == Docs(idx, t) + Selected(items, t)
    decreases |items|
  {
    if items != [] {
      IndexFromStep(idx, items, t);
      var u, d := TypeOf(items[0]), DataOf(items[0]);
      IndexFromDocs(AddDoc(idx, u, d), items[1..], t);
      AddDocDocs(idx, u, d, t);
      Regroup(Docs(idx, t), if u == t then [d] else [], Selected(items[1..], t));
    }
  }

  /** Every record is filed exactly once. */
  lemma {:induction false} IndexFromTotal(idx: Index, items: seq<Json>)
    requires AllRecordsOk(items)
    ensures TotalDocs(IndexFrom(idx, items).value) == TotalDocs(idx) + |items|
    decreases |items|
  {
    if items != [] {
      AllRecordsOkCons(items);
      IndexFromTotal(AddDoc(idx, TypeOf(items[0]), DataOf(items[0])), items[1..]);
    }
  }

  /** No type is listed twice in the index. */
  lemma {:induction false} IndexFromUnique(idx: Index, items: seq<Json>)
    requires UniqueTypes(idx) && AllRecordsOk(items)
    ensures UniqueTypes(IndexFrom(idx, items).value)
    decreases |items|
  {
    if items != [] {
      AllRecordsOkCons(items);
      AddDocUnique(idx, TypeOf(items[0]), DataOf(items[0]));
      IndexFromUnique(AddDoc(idx, TypeOf(items[0]), DataOf(items[0])), items[1..]);
    }
  }

  /** `__init__` with `_index_by_document_type`: file every record under its type. */
  method IndexByDocumentType(rawData: seq<Json>) returns (r: Result<Index>)
    ensures r == IndexFrom([], rawData)
  {
    var index: Index := [];
    var i := 0;
    while i < |rawData|
      invariant 0 <= i <= |rawData|
      invariant IndexFrom(index, rawData[i..]) == IndexFrom([], rawData)
    {
      var item := rawData[i];
      assert rawData[i..][0] == item && rawData[i..][1..] == rawData[i + 1..];
      if !item.Obj? {
        return Err(AttributeError);
      }
      var ddName := match Lookup(item.fields, "dd_name") case Some(v) => v case None => Str("Unknown");
      if !Hashable(ddName) {
        return Err(TypeError);
      }
      var data := match Lookup(item.fields, "extracted_data") case Some(v) => v case None => Obj([]);
      assert IndexFrom(index, rawData[i..]) == IndexFrom(AddDoc(index, ddName, data), rawData[i + 1..]);
      index := AddDoc(index, ddName, data);
      i := i + 1;
    }
    assert rawData[i..] == [];
    return Ok(index);
  }

  /** `_get_all_docs(name)` */
  function GetAllDocs(idx: Index, name: string): seq<Json>
  {
    Docs(idx, Str(name))
  }

  /** `_get_doc(name, index)`: `{}` when there are not that many records of the type. */
  function GetDoc(idx: Index, name: string, index: nat): Json
  {
    var docs := GetAllDocs(idx, name);
    if index < |docs| then docs[index] else Obj([])
  }

  /** Looking up the index built from `items` finds exactly that type's records, in arrival order ([] when there are none). */
  lemma GetAllDocsOfRecords(items: seq<Json>, name: string)
    requires IndexFrom([], items).Ok?
    ensures GetAllDocs(IndexFrom([], items).value, name) == Selected(items, Str(name))
  {
    IndexFromDocs([], items, Str(name));
  }

  /** `_get_doc` on the index built from `items`: the `index`-th record of the type, or `{}` past the last one. */
  lemma GetDocOfRecords(items: seq<Json>, name: string, index: nat)
    requires IndexFrom([], items).Ok?
    ensures GetDoc(IndexFrom([], items).value, name, index) ==
      var docs := Selected(items, Str(name)); if index < |docs| then docs[index] else Obj([])
  {
    GetAllDocsOfRecords(items, name);
  }

  // ------------------------------------------------------------- _safe_get

  /**
   * `_safe_get(data, *keys, default=default)`: walk through dicts; a
   * missing key yields `default` and the walk goes on from it; a value that
   * is not a dict ends the walk with `default`; a final `None` becomes
   * `default`. Only an unhashable key can make it raise.
   */
  function SafeGet(data: Json, keys: seq<Json>, default: Json): (r: Result<Json>)
    ensures r.Ok? && r.value.Null? ==> default.Null?
    ensures r.Err? ==> r.error == TypeError
    ensures (forall i :: 0 <= i < |keys| ==> Hashable(keys[i])) ==> r.Ok?
    ensures keys != [] && !data.Obj? ==> r == Ok(default)
    decreases |keys|
  {
    if keys == [] then Ok(if data.Null? then default else data)
    else if !data.Obj? then Ok(default)
    else
      match GetAny(data, keys[0], default)
      case Err(e) => Err(e)
      case Ok(next) =>
        assert forall i :: 0 <= i < |keys[1..]| ==> keys[1..][i] == keys[i + 1];
        SafeGet(next, keys[1..], default)
  }

  /** The loop of `_safe_get`. */
  method SafeGetWalk(data: Json, keys: seq<Json>, default: Json) returns (r: Result<Json>)
    ensures r == SafeGet(data, keys, default)
  {
    var result := data;
    var i := 0;
    while i < |keys|
      invariant 0 <= i <= |keys|
      invariant SafeGet(result, keys[i..], default) == SafeGet(data, keys, default)
    {
      assert keys[i..][0] == keys[i] && keys[i..][1..] == keys[i + 1..];
      if result.Obj? {
        result :- GetAny(result, keys[i], default);
      } else {
        return Ok(default);
      }
      i := i + 1;
    }
    return Ok(if result.Null? then default else result);
  }

  /** Reference definition: the value at the end of a path of string keys, if every step finds a dict with the key. */
  function Path(data: Json, ks: seq<string>): Option<Json>
    decreases |ks|
  {
    if ks == [] then Some(data)
    else if data.Obj? && HasKey(data.fields, ks[0]) then Path(Lookup(data.fields, ks[0]).value, ks[1..])
    else None
  }

  function Strs(ks: seq<string>): (r: seq<Json>)
    ensures |r| == |ks|
    ensures forall i :: 0 <= i < |ks| ==> r[i] == Str(ks[i])
  {
    seq(|ks|, i requires 0 <= i < |ks| => Str(ks[i]))
  }

  /** `_safe_get` with string keys, which never raises. */
  function Dig(data: Json, ks: seq<string>, default: Json): (r: Json)
    ensures r.Null? ==> default.Null?
    ensures ks != [] && !data.Obj? ==> r == default
  {
    SafeGet(data, Strs(ks), default).value
  }

  /**
   * With string keys and a default that is not a non-empty dict, `_safe_get`
   * is the value at the end of the path, or `default` when the path breaks
   * off or ends in `None`.
   */
  lemma {:induction false} SafeGetPath(data: Json, ks: seq<string>, default: Json)
    requires !(default.Obj? && default.fields != [])
    ensures SafeGet(data, Strs(ks), default) ==
      Ok(match Path(data, ks) case Some(v) => (if v.Null? then default else v) case None => default)
    decreases |ks|
  {
    if ks != [] {
      assert Strs(ks)[1..] == Strs(ks[1..]);
      if data.Obj? {
        if HasKey(data.fields, ks[0]) {
          SafeGetPath(Lookup(data.fields, ks[0]).value, ks[1..], default);
        } else {
          SafeGetDefault(default, Strs(ks[1..]));
        }
      }
    }
  }

  /** Walking on from a default that is not a non-empty dict ends at that default. */
  lemma {:induction false} SafeGetDefault(default: Json, keys: seq<Json>)
    requires !(default.Obj? && default.fields != [])
    requires forall i :: 0 <= i < |keys| ==> keys[i].Str?
    ensures SafeGet(default, keys, default) == Ok(default)
    decreases |keys|
  {
    if keys != [] && default.Obj? {
      assert GetAny(default, keys[0], default) == Ok(default);
      SafeGetDefault(default, keys[1..]);
    }
  }

  // ------------------------------------------------------- small builders

  const LocationTail: string :=
    "The area benefits from strong demographics and accessibility. Please refer to the appraisal for detailed location analysis."

  /** `_build_location`: the appraisal's city, county and state in a fixed sentence; an address that is not a dict has no `.get`. */
  function Location(idx: Index): (r: Result<Json>)
    ensures r.Err? ==> r.error == AttributeError
    ensures r.Ok? ==> r.value.Obj? && Keys(r.value.fields) == ["narrative"]
  {
    var appraisal := GetDoc(idx, "Appraisal", 0);
    var details := SafeGet(appraisal, [Str("property_details")], Obj([])).value;
    var address := SafeGet(details, [Str("address")], Obj([])).value;
    var city :- Get(address, "city", Str(""));
    var county := Get(address, "county", Str("")).value;
    var state := Get(address, "state", Str("")).value;
    Ok(Obj([("narrative", Str("The property is located in " + StrOf(city) + ", " + StrOf(county) + ", " + StrOf(state) + ". " + LocationTail))]))
  }

  /** Without an appraisal the narrative keeps its three place-holders empty. */
  lemma LocationWithoutAppraisal(idx: Index)
    requires GetDoc(idx, "Appraisal", 0) == Obj([])
    ensures Location(idx) == Ok(Obj([("narrative", Str("The property is located in , , . " + LocationTail))]))
  {
    var e := Obj([]);
    assert SafeGet(e, [Str("property_details")], e) == Ok(e) by {
      assert GetAny(e, Str("property_details"), e) == Ok(e);
      assert [Str("property_details")][1..] == [];
    }
    assert SafeGet(e, [Str("address")], e) == Ok(e) by {
      assert GetAny(e, Str("address"), e) == Ok(e);
      assert [Str("address")][1..] == [];
    }
    assert Get(e, "city", Str("")) == Ok(Str(""));
    assert Get(e, "county", Str("")) == Ok(Str(""));
    assert Get(e, "state", Str("")) == Ok(Str(""));
    assert StrOf(Str("")) == "";
    var blank := "";
    assert "The property is located in " + blank + ", " + blank + ", " + blank + ". " + LocationTail
        == "The property is located in , , . " + LocationTail;
  }

  /** `_build_market` */
  const Market: Json := Obj([("narrative", Str(
    "Market analysis indicates favorable conditions for the subject property type. "
    + "Please refer to the appraisal for detailed market analysis including "
    + "comparable sales, rental comparables, and market trends."))])

  function RiskItem(category: string, score: string, risk: string, mitigant: string): Json
  {
    Obj([("category", Str(category)), ("score", Str(score)), ("risk", Str(risk)), ("mitigant", Str(mitigant))])
  }

  /** `_build_risks_and_mitigants` */
  const Risks: Json := Obj([
    ("overall_risk_score", Str("MODERATE")),
    ("recommendation_narrative", Str("Based on the analysis, this transaction presents acceptable risk levels for Fairbridge. The strong sponsor financials and property fundamentals support the loan request.")),
    ("risk_items", Arr([
      RiskItem("Credit/Sponsor", "Low", "Sponsor net worth and liquidity meet requirements", "Strong combined financials of guarantors"),
      RiskItem("Market", "Moderate", "Retail market conditions", "Strong location and anchor tenant mix"),
      RiskItem("Property", "Moderate", "Property condition and age", "Recent renovations and ongoing maintenance"),
      RiskItem("Exit", "Low", "Refinance or sale at maturity", "Multiple exit strategies available")]))])

  // ----------------------------------------------------------- validation

  /** The seven document checks of `_build_validation_flags`, in order. */
  function Checks(idx: Index): (r: seq<(string, bool)>)
    ensures |r| == 7
  {
    [ ("Appraisal", Truthy(GetDoc(idx, "Appraisal", 0))),
      ("Term Sheet", Truthy(GetDoc(idx, "Term Sheet", 0))),
      ("PFS", GetAllDocs(idx, "PFS") != []),
      ("SREO", GetAllDocs(idx, "SREO") != []),
      ("Phase I ESA", Truthy(GetDoc(idx, "Phase I ESA", 0))),
      ("Zoning", Truthy(GetDoc(idx, "Zoning", 0))),
      ("Title", Truthy(GetDoc(idx, "Title & Survey", 0))) ]
  }

  /** A missing document of one of these kinds fails the memo; any other only warns. */
  predicate IsCritical(name: string)
  {
    name == "Appraisal" || name == "Term Sheet" || name == "PFS"
  }

  function CriticalFlag(name: string): Json
  {
    Obj([("rule", Str(name + " Required")), ("message", Str(name + " document not found in extraction"))])
  }

  function WarningFlag(name: string): Json
  {
    Obj([("rule", Str(name + " Recommended")), ("message", Str(name + " document not found - verify if required"))])
  }

  /** `sum(1 for v in checks.values() if v)` */
  function Passed(checks: seq<(string, bool)>): nat
    decreases |checks|
  {
    if checks == [] then 0 else (if checks[0].1 then 1 else 0) + Passed(checks[1..])
  }

  /** Missing checks of the given severity. */
  function Missing(checks: seq<(string, bool)>, critical: bool): nat
    decreases |checks|
  {
    if checks == [] then 0
    else (if !checks[0].1 && IsCritical(checks[0].0) == critical then 1 else 0) + Missing(checks[1..], critical)
  }

  /**
   * The flag loop, from the remaining checks and the flags so far: every
   * missing document adds one flag, critical or warning by its kind.
   */
  function FlagsFrom(checks: seq<(string, bool)>, critical: seq<Json>, warning: seq<Json>): (r: (seq<Json>, seq<Json>))
    ensures |r.0| == |critical| + Missing(checks, true)
    ensures |r.1| == |warning| + Missing(checks, false)
    decreases |checks|
  {
    if checks == [] then (critical, warning)
    else if checks[0].1 then FlagsFrom(checks[1..], critical, warning)
    else if IsCritical(checks[0].0) then FlagsFrom(checks[1..], critical + [CriticalFlag(checks[0].0)], warning)
    else FlagsFrom(checks[1..], critical, warning + [WarningFlag(checks[0].0)])
  }

  /** Every check passes, warns or fails. */
  lemma {:induction false} ChecksPartition(checks: seq<(string, bool)>)
    ensures Passed(checks) + Missing(checks, false) + Missing(checks, true) == |checks|
    decreases |checks|
  {
    if checks != [] {
      ChecksPartition(checks[1..]);
    }
  }

  function ValidationFlags(idx: Index): Json
  {
    var checks := Checks(idx);
    var (critical, warning) := FlagsFrom(checks, [], []);
    Obj([
      ("summary", Obj([("total_checks", Int(|checks|)), ("passed", Int(Passed(checks))),
                       ("warnings", Int(|warning|)), ("failed", Int(|critical|))])),
      ("critical_flags", Arr(critical)),
      ("warning_flags", Arr(warning))])
  }

  /** `_build_validation_flags` */
  method BuildValidationFlags(idx: Index) returns (r: Json)
    ensures r == ValidationFlags(idx)
  {
    var checks := Checks(idx);
    var critical: seq<Json> := [];
    var warning: seq<Json> := [];
    var i := 0;
    while i < |checks|
      invariant 0 <= i <= |checks|
      invariant FlagsFrom(checks[i..], critical, warning) == FlagsFrom(checks, [], [])
    {
      assert checks[i..][0] == checks[i] && checks[i..][1..] == checks[i + 1..];
      var (check, available) := checks[i];
      if !available {
        if IsCritical(check) {
          critical := critical + [CriticalFlag(check)];
        } else {
          warning := warning + [WarningFlag(check)];
        }
      }
      i := i + 1;
    }
    assert checks[i..] == [];
    r := Obj([
      ("summary", Obj([("total_checks", Int(|checks|)), ("passed", Int(Passed(checks))),
                       ("warnings", Int(|warning|)), ("failed", Int(|critical|))])),
      ("critical_flags", Arr(critical)),
      ("warning_flags", Arr(warning))]);
  }

  /**
   * The summary adds up: 7 checks, each passed, warned or failed; only a
   * missing Appraisal, Term Sheet or PFS fails.
   */
  lemma ValidationTotals(idx: Index)
    ensures var s := ValidationFlags(idx).fields[0].1.fields;
      s[0].1 == Int(7) && s[1].1.i + s[2].1.i + s[3].1.i == 7
      && s[3].1.i == (if Truthy(GetDoc(idx, "Appraisal", 0)) then 0 else 1)
                   + (if Truthy(GetDoc(idx, "Term Sheet", 0)) then 0 else 1)
                   + (if GetAllDocs(idx, "PFS") != [] then 0 else 1)
  {
    var c := Checks(idx);
    ChecksPartition(c);
    assert c[7..] == [];
    assert Missing(c[6..], true) == 0;
    assert Missing(c[5..], true) == 0 by { assert c[5..][1..] == c[6..]; }
    assert Missing(c[4..], true) == 0 by { assert c[4..][1..] == c[5..]; }
    assert Missing(c[3..], true) == 0 by { assert c[3..][1..] == c[4..]; }
    assert Missing(c[2..], true) == (if c[2].1 then 0 else 1) by { assert c[2..][1..] == c[3..]; }
    assert Missing(c[1..], true) == (if c[1].1 then 0 else 1) + Missing(c[2..], true) by { assert c[1..][1..] == c[2..]; }
  }

  // ---------------------------------------------------------- foreclosure

  const RowFields: seq<string> := ["Beginning_Balance", "Legal_Fees", "Taxes", "Insurance", "Total_Carrying_Costs",
                                  "Interest_Accrued", "Ending_Balance", "Property_Value", "LTV"]

  /** One quarter of the foreclosure grid: `Q<q>` and "TBD" in every money column. */
  function QuarterRow(q: nat): (r: Json)
    ensures r.Obj? && |r.fields| == 10 && r.fields[0] == ("Quarter", Str("Q" + Numbers.NatToString(q)))
    ensures forall i :: 1 <= i < 10 ==> r.fields[i] == (RowFields[i - 1], Str("TBD"))
  {
    Obj([("Quarter", Str("Q" + Numbers.NatToString(q)))]
      + seq(9, i requires 0 <= i < 9 => (RowFields[i], Str("TBD"))))
  }

  /** The rows the loop over `range(1, 9)` appends: quarters 1 to 8, in order. */
  function QuarterRows(): (r: seq<Json>)
  {
    seq(8, i requires 0 <= i < 8 => QuarterRow(i + 1))
  }

  function ForeclosureAnalysis(): Json
  {
    Obj([("scenario_default_rate", Obj([("rows", Arr(QuarterRows()))])),
         ("scenario_note_rate", Obj([("rows", Arr(QuarterRows()))]))])
  }

  /** `_build_foreclosure_analysis`: both scenarios get their own copy of the eight rows. */
  method BuildForeclosureAnalysis() returns (r: Json)
    ensures r == ForeclosureAnalysis()
  {
    var defaultRows: seq<Json> := [];
    var noteRows: seq<Json> := [];
    var q := 1;
    while q < 9
      invariant 1 <= q <= 9
      invariant defaultRows == noteRows == QuarterRows()[..q - 1]
    {
      var row := QuarterRow(q);
      defaultRows := defaultRows + [row];
      noteRows := noteRows + [row];
      q := q + 1;
    }
    assert QuarterRows()[..8] == QuarterRows();
    r := Obj([("scenario_default_rate", Obj([("rows", Arr(defaultRows))])),
              ("scenario_note_rate", Obj([("rows", Arr(noteRows))]))]);
  }

  /** The grid has eight quarters, labelled so that row `i` reads back as quarter `i + 1`. */
  lemma ForeclosureQuarters(i: int)
    requires 0 <= i < |QuarterRows()|
    ensures |QuarterRows()| == 8
    ensures var tag := QuarterRows()[i].fields[0].1.s;
      tag[0] == 'Q' && Numbers.AllDigits(tag[1..]) && Numbers.DigitsValue(tag[1..]) == i + 1
  {
    var tag := QuarterRows()[i].fields[0].1.s;
    assert tag[1..] == Numbers.NatToString(i + 1);
    Numbers.NatToStringRoundTrip(i + 1);
  }

  // --------------------------------------------------------------- zoning

  const ZoningSummary: string :=
    "The property's zoning is consistent with its current use. Please refer to the zoning report for detailed entitlement analysis."

  /**
   * `_build_zoning_entitlements`. The appraisal's zoning is passed to
   * `_safe_get` positionally, so it becomes a second key rather than the
   * default: the walk descends into the zoning record's `current_zoning`
   * and then looks the appraisal's value up inside it.
   */
  function ZoningEntitlements(idx: Index): (r: Result<Json>)
    ensures r.Err? ==> r.error == TypeError
    ensures r.Ok? ==> r.value.Obj? && Keys(r.value.fields) == ["summary_narrative", "current_zoning", "proposed_zoning", "entitlement_status"]
  {
    var zoning := GetDoc(idx, "Zoning", 0);
    var appraisal := GetDoc(idx, "Appraisal", 0);
    var fallback :- SafeGet(appraisal, [Str("zoning"), Str("current_zoning")], Str("N/A"));
    var current :- SafeGet(zoning, [Str("current_zoning"), fallback], Null);
    Ok(Obj([("summary_narrative", Str(ZoningSummary)),
            ("current_zoning", Str(StrOf(current))),
            ("proposed_zoning", Str("No change proposed")),
            ("entitlement_status", Str("Entitled for current use"))]))
  }

  /**
   * Unless the zoning record's `current_zoning` is itself a dict, the
   * section shows "None": neither the record's value nor the appraisal's
   * ever reaches the output.
   */
  lemma ZoningShowsNone(idx: Index)
    requires var z := GetDoc(idx, "Zoning", 0);
      !(z.Obj? && HasKey(z.fields, "current_zoning") && Lookup(z.fields, "current_zoning").value.Obj?)
    ensures ZoningEntitlements(idx).Ok?
    ensures ZoningEntitlements(idx).value.fields[1] == ("current_zoning", Str("None"))
  {
    var zoning := GetDoc(idx, "Zoning", 0);
    var appraisal := GetDoc(idx, "Appraisal", 0);
    var fallback := SafeGet(appraisal, [Str("zoning"), Str("current_zoning")], Str("N/A")).value;
    var keys := [Str("current_zoning"), fallback];
    assert keys[1..] == [fallback];
    if zoning.Obj? {
      var next := GetAny(zoning, keys[0], Null).value;
      assert !next.Obj?;
      assert SafeGet(next, keys[1..], Null) == Ok(Null);
    }
    assert SafeGet(zoning, keys, Null) == Ok(Null);
  }

  // ------------------------------------------------------ sources & uses

  /** `key in doc` and then `doc.get(key, [])` iterated: the items a Sources & Uses record lists under `key`. */
  function ListedItems(doc: Json, key: string): (r: Result<seq<Json>>)
    ensures doc.Obj? && !HasKey(doc.fields, key) ==> r == Ok([])
    ensures doc.Obj? && HasKey(doc.fields, key) ==> r == Iterate(Lookup(doc.fields, key).value)
    ensures r.Err? ==> r.error == TypeError || r.error == AttributeError
  {
    var listed :- InStr(key, doc);
    if !listed then Ok([])
    else
      var items :- Get(doc, key, Arr([]));
      Iterate(items)
  }

  /** One row of the sources table; only a dict has the fields it reads. */
  function SourceRow(item: Json): (r: Result<Json>)
    ensures r.Ok? <==> item.Obj?
    ensures r.Ok? ==> r.value.Obj? && Keys(r.value.fields) == ["label", "amount", "percent"]
    ensures r.Err? ==> r.error == AttributeError
  {
    if !item.Obj? then Err(AttributeError)
    else
      var f := item.fields;
      var fallback := match Lookup(f, "label") case Some(v) => v case None => Str("Source");
      var name := match Lookup(f, "description") case Some(v) => v case None => fallback;
      var amount := match Lookup(f, "amount") case Some(v) => v case None => Null;
      var pct := match Lookup(f, "percentage") case Some(v) => v
                 case None => match Lookup(f, "percent") case Some(v) => v case None => Null;
      Ok(Obj([("label", name), ("amount", Str(Helpers.FormatCurrency(amount))), ("percent", Str(Helpers.FormatPercent(pct)))]))
  }

  /** One row of the uses table; release conditions fall back to the notes, then to "". */
  function UseRow(item: Json): (r: Result<Json>)
    ensures r.Ok? <==> item.Obj?
    ensures r.Ok? ==> r.value.Obj? && Keys(r.value.fields) == ["label", "amount", "release_conditions"]
    ensures r.Err? ==> r.error == AttributeError
  {
    if !item.Obj? then Err(AttributeError)
    else
      var f := item.fields;
      var fallback := match Lookup(f, "label") case Some(v) => v case None => Str("Use");
      var name := match Lookup(f, "description") case Some(v) => v case None => fallback;
      var amount := match Lookup(f, "amount") case Some(v) => v case None => Null;
      var conditions := match Lookup(f, "release_conditions") case Some(v) => v
                        case None => match Lookup(f, "notes") case Some(v) => v case None => Str("");
      Ok(Obj([("label", name), ("amount", Str(Helpers.FormatCurrency(amount))), ("release_conditions", conditions)]))
  }

  /** The rows for a list of items in order; the first item without a row stops it. */
  function Rows(items: seq<Json>, row: Json -> Result<Json>): (r: Result<seq<Json>>)
    ensures r.Ok? ==> |r.value| == |items|
    decreases |items|
  {
    if items == [] then Ok([])
    else
      var x :- row(items[0]);
      var xs :- Rows(items[1..], row);
      Ok([x] + xs)
  }

  /** Row `i` is the row of item `i`, and there are rows exactly when every item has one. */
  lemma {:induction false} RowsAt(items: seq<Json>, row: Json -> Result<Json>)
    ensures Rows(items, row).Ok? <==> forall i :: 0 <= i < |items| ==> row(items[i]).Ok?
    ensures Rows(items, row).Ok? ==> forall i :: 0 <= i < |items| ==> row(items[i]) == Ok(Rows(items, row).value[i])
    decreases |items|
  {
    if items != [] {
      RowsAt(items[1..], row);
      assert forall i :: 1 <= i < |items| ==> items[i] == items[1..][i - 1];
    }
  }

  /** Rows of two lists back to back are the rows of the joined list. */
  lemma {:induction false} RowsAppend(a: seq<Json>, b: seq<Json>, row: Json -> Result<Json>)
    requires Rows(a, row).Ok? && Rows(b, row).Ok?
    ensures Rows(a + b, row) == Ok(Rows(a, row).value + Rows(b, row).value)
    decreases |a|
  {
    if a == [] {
      assert a + b == b && [] + Rows(b, row).value == Rows(b, row).value;
    } else {
      var x := row(a[0]).value;
      var ra, rb := Rows(a[1..], row).value, Rows(b, row).value;
      assert Rows(a, row) == Ok([x] + ra);
      assert (a + b)[0] == a[0] && (a + b)[1..] == a[1..] + b;
      RowsAppend(a[1..], b, row);
      assert Rows(a + b, row) == Ok([x] + (ra + rb));
      assert [x] + (ra + rb) == [x] + ra + rb;
    }
  }

  /** The accumulator the item loops append to: rows so far, then the rows of `items`. */
  function Onto(acc: seq<Json>, rows: Result<seq<Json>>): Result<seq<Json>>
  {
    match rows case Ok(xs) => Ok(acc + xs) case Err(e) => Err(e)
  }

  /** `for item in items: acc.append(row(item))` */
  method AppendRows(acc: seq<Json>, items: seq<Json>, row: Json -> Result<Json>) returns (r: Result<seq<Json>>)
    ensures r == Onto(acc, Rows(items, row))
  {
    var out := acc;
    var i := 0;
    while i < |items|
      invariant 0 <= i <= |items|
      invariant Onto(out, Rows(items[i..], row)) == Onto(acc, Rows(items, row))
    {
      assert items[i..][0] == items[i] && items[i..][1..] == items[i + 1..];
      var x :- row(items[i]);
      if Rows(items[i + 1..], row).Ok? {
        assert out + [x] + Rows(items[i + 1..], row).value == out + ([x] + Rows(items[i + 1..], row).value);
      }
      out := out + [x];
      i := i + 1;
    }
    assert items[i..] == [] && out + [] == out;
    return Ok(out);
  }

  /** The source rows and the use rows of one record, sources first. */
  function DocRows(doc: Json): Result<(seq<Json>, seq<Json>)>
  {
    var srcItems :- ListedItems(doc, "sources");
    var sources :- Rows(srcItems, SourceRow);
    var useItems :- ListedItems(doc, "uses");
    var uses :- Rows(useItems, UseRow);
    Ok((sources, uses))
  }

  /** The record loop, from the remaining records and the rows so far. */
  function SourcesUsesFrom(docs: seq<Json>, sources: seq<Json>, uses: seq<Json>): Result<(seq<Json>, seq<Json>)>
    decreases |docs|
  {
    if docs == [] then Ok((sources, uses))
    else
      var rows :- DocRows(docs[0]);
      SourcesUsesFrom(docs[1..], sources + rows.0, uses + rows.1)
  }

  const SourcePlaceholder: Json := Obj([("label", Str("TBD")), ("amount", Str("TBD")), ("percent", Str("TBD"))])
  const UsePlaceholder: Json := Obj([("label", Str("TBD")), ("amount", Str("TBD")), ("release_conditions", Str("TBD"))])

  function SourcesUsesJson(sources: seq<Json>, uses: seq<Json>): Json
  {
    Obj([("fairbridge_sources_uses", Obj([
      ("sources", Arr(if sources != [] then sources else [SourcePlaceholder])),
      ("uses", Arr(if uses != [] then uses else [UsePlaceholder]))]))])
  }

  function SourcesAndUses(idx: Index): Result<Json>
  {
    var rows :- SourcesUsesFrom(GetAllDocs(idx, "Sources & Uses"), [], []);
    Ok(SourcesUsesJson(rows.0, rows.1))
  }

  /** `_build_sources_and_uses` */
  method BuildSourcesAndUses(idx: Index) returns (r: Result<Json>)
    ensures r == SourcesAndUses(idx)
  {
    var docs := GetAllDocs(idx, "Sources & Uses");
    var sources: seq<Json> := [];
    var uses: seq<Json> := [];
    var i := 0;
    while i < |docs|
      invariant 0 <= i <= |docs|
      invariant SourcesUsesFrom(docs[i..], sources, uses) == SourcesUsesFrom(docs, [], [])
    {
      var doc := docs[i];
      assert docs[i..][0] == doc && docs[i..][1..] == docs[i + 1..];
      var srcItems :- ListedItems(doc, "sources");
      sources :- AppendRows(sources, srcItems, SourceRow);
      var useItems :- ListedItems(doc, "uses");
      uses :- AppendRows(uses, useItems, UseRow);
      i := i + 1;
    }
    assert docs[i..] == [];
    return Ok(SourcesUsesJson(sources, uses));
  }

  /** Reference definition: every item the records list under `key`, record by record. */
  function AllListed(docs: seq<Json>, key: string): Result<seq<Json>>
    decreases |docs|
  {
    if docs == [] then Ok([])
    else
      var here :- ListedItems(docs[0], key);
      var rest :- AllListed(docs[1..], key);
      Ok(here + rest)
  }

  /**
   * When the record loop succeeds, the sources table is one row per source
   * item of every record, in order, and the uses table likewise.
   */
  lemma {:induction false} SourcesUsesRows(docs: seq<Json>, sources: seq<Json>, uses: seq<Json>)
    requires SourcesUsesFrom(docs, sources, uses).Ok?
    ensures AllListed(docs, "sources").Ok? && Rows(AllListed(docs, "sources").value, SourceRow).Ok?
    ensures AllListed(docs, "uses").Ok? && Rows(AllListed(docs, "uses").value, UseRow).Ok?
    ensures SourcesUsesFrom(docs, sources, uses).value.0 == sources + Rows(AllListed(docs, "sources").value, SourceRow).value
    ensures SourcesUsesFrom(docs, sources, uses).value.1 == uses + Rows(AllListed(docs, "uses").value, UseRow).value
    decreases |docs|
  {
    if docs == [] {
      assert sources + [] == sources && uses + [] == uses;
    } else {
      var rows := DocRows(docs[0]).value;
      assert SourcesUsesFrom(docs, sources, uses) == SourcesUsesFrom(docs[1..], sources + rows.0, uses + rows.1);
      SourcesUsesRows(docs[1..], sources + rows.0, uses + rows.1);
      DocRowsParts(docs[0]);
      ListedRows(docs, "sources", SourceRow, rows.0);
      Regroup(sources, rows.0, Rows(AllListed(docs[1..], "sources").value, SourceRow).value);
      ListedRows(docs, "uses", UseRow, rows.1);
      Regroup(uses, rows.1, Rows(AllListed(docs[1..], "uses").value, UseRow).value);
    }
  }

  /** A record's rows are the rows of what it lists under "sources" and under "uses". */
  lemma DocRowsParts(doc: Json)
    requires DocRows(doc).Ok?
    ensures ListedItems(doc, "sources").Ok? && Rows(ListedItems(doc, "sources").value, SourceRow) == Ok(DocRows(doc).value.0)
    ensures ListedItems(doc, "uses").Ok? && Rows(ListedItems(doc, "uses").value, UseRow) == Ok(DocRows(doc).value.1)
  {
  }

  lemma Regroup(acc: seq<Json>, here: seq<Json>, rest: seq<Json>)
    ensures acc + here + rest == acc + (here + rest)
  {
  }

  /** One record's rows followed by the rows of the records after it are the rows of everything listed. */
  lemma ListedRows(docs: seq<Json>, key: string, row: Json -> Result<Json>, here: seq<Json>)
    requires docs != [] && ListedItems(docs[0], key).Ok? && Rows(ListedItems(docs[0], key).value, row) == Ok(here)
    requires AllListed(docs[1..], key).Ok? && Rows(AllListed(docs[1..], key).value, row).Ok?
    ensures AllListed(docs, key).Ok? && Rows(AllListed(docs, key).value, row).Ok?
    ensures Rows(AllListed(docs, key).value, row).value == here + Rows(AllListed(docs[1..], key).value, row).value
  {
    RowsAppend(ListedItems(docs[0], key).value, AllListed(docs[1..], key).value, row);
  }

  /** The section's tables: a row for each listed item, or the placeholder row when nothing is listed. */
  lemma SourcesAndUsesTables(idx: Index)
    requires SourcesAndUses(idx).Ok?
    ensures AllListed(GetAllDocs(idx, "Sources & Uses"), "sources").Ok?
    ensures Rows(AllListed(GetAllDocs(idx, "Sources & Uses"), "sources").value, SourceRow).Ok?
    ensures var items := AllListed(GetAllDocs(idx, "Sources & Uses"), "sources").value;
      var tables := SourcesAndUses(idx).value.fields[0].1.fields;
      tables[0].1 == Arr(if items == [] then [SourcePlaceholder] else Rows(items, SourceRow).value)
  {
    SourcesUsesRows(GetAllDocs(idx, "Sources & Uses"), [], []);
  }

  // ---------------------------------------------------- third-party reports

  /** The valuation loop, from the remaining conclusions and the values found so far. */
  function ValuesFrom(mvs: seq<Json>, asIs: Json, stabilized: Json): (r: Result<(Json, Json)>)
    ensures r.Err? ==> r.error == AttributeError || r.error == TypeError
    decreases |mvs|
  {
    if mvs == [] then Ok((asIs, stabilized))
    else
      var mv := mvs[0];
      var premise :- Get(mv, "appraisal_premise", Str(""));
      var isAsIs :- InStr("As Is", premise);
      var asIs' := if isAsIs then Get(mv, "value_conclusion", Null).value else asIs;
      var isStabilized := InStr("Stabilized", premise).value;
      var stabilized' := if isStabilized then Get(mv, "value_conclusion", Null).value else stabilized;
      ValuesFrom(mvs[1..], asIs', stabilized')
  }

  /** `'As Is' in mv.get('appraisal_premise', '')`, when that premise is text. */
  predicate PremiseSays(mv: Json, word: string)
  {
    mv.Obj? && (var p := Get(mv, "appraisal_premise", Str("")).value; p.Str? && Text.Contains(p.s, word))
  }

  /** Reference definition: the value concluded by the last entry whose premise mentions `word`. */
  function LastConcluded(mvs: seq<Json>, word: string, otherwise: Json): Json
    requires forall i :: 0 <= i < |mvs| ==> mvs[i].Obj?
    decreases |mvs|
  {
    if mvs == [] then otherwise
    else LastConcluded(mvs[1..], word, if PremiseSays(mvs[0], word) then Get(mvs[0], "value_conclusion", Null).value else otherwise)
  }

  /** With text premises, the loop keeps the value of the last "As Is" entry and of the last "Stabilized" entry. */
  lemma {:induction false} ValuesFromLast(mvs: seq<Json>, asIs: Json, stabilized: Json)
    requires forall i :: 0 <= i < |mvs| ==> mvs[i].Obj? && Get(mvs[i], "appraisal_premise", Str("")).value.Str?
    ensures ValuesFrom(mvs, asIs, stabilized) == Ok((LastConcluded(mvs, "As Is", asIs), LastConcluded(mvs, "Stabilized", stabilized)))
    decreases |mvs|
  {
    if mvs != [] {
      var mv := mvs[0];
      var a := if PremiseSays(mv, "As Is") then Get(mv, "value_conclusion", Null).value else asIs;
      var s := if PremiseSays(mv, "Stabilized") then Get(mv, "value_conclusion", Null).value else stabilized;
      ValuesFromLast(mvs[1..], a, s);
    }
  }

  /** The valuation loop of `_build_third_party_reports`. */
  method ScanValuations(valuation: Json) returns (r: Result<(Json, Json)>)
    ensures r == (match Iterate(valuation) case Ok(mvs) => ValuesFrom(mvs, Null, Null) case Err(e) => Err(e))
  {
    var mvs :- Iterate(valuation);
    var asIs := Null;
    var stabilized := Null;
    var i := 0;
    while i < |mvs|
      invariant 0 <= i <= |mvs|
      invariant ValuesFrom(mvs[i..], asIs, stabilized) == ValuesFrom(mvs, Null, Null)
    {
      var mv := mvs[i];
      assert mvs[i..][0] == mv && mvs[i..][1..] == mvs[i + 1..];
      var premise :- Get(mv, "appraisal_premise", Str(""));
      var isAsIs :- InStr("As Is", premise);
      if isAsIs {
        asIs := Get(mv, "value_conclusion", Null).value;
      }
      if InStr("Stabilized", premise).value {
        stabilized := Get(mv, "value_conclusion", Null).value;
      }
      i := i + 1;
    }
    assert mvs[i..] == [];
    return Ok((asIs, stabilized));
  }

  /** `appraisers[0].get('name', 'N/A') if appraisers else 'N/A'` */
  function AppraiserName(appraisers: Json): (r: Result<Json>)
    ensures !Truthy(appraisers) ==> r == Ok(Str("N/A"))
    ensures appraisers.Arr? && appraisers.items != [] && appraisers.items[0].Obj? ==>
      r == Get(appraisers.items[0], "name", Str("N/A"))
  {
    if !Truthy(appraisers) then Ok(Str("N/A"))
    else
      var first :- First(appraisers);
      Get(first, "name", Str("N/A"))
  }

  /**
   * `_build_third_party_reports`. The Phase I firm's fallback is passed to
   * `_safe_get` positionally, so it is looked up as a second key instead
   * of serving as the default.
   */
  function ThirdPartySpec(idx: Index, asIs: Json, stabilized: Json, appraiser: Json): (r: Result<Json>)
  {
    var appraisal := GetDoc(idx, "Appraisal", 0);
    var phase1 := GetDoc(idx, "Phase I ESA", 0);
    var docInfo := SafeGet(appraisal, [Str("document_info")], Obj([])).value;
    var info := SafeGet(phase1, [Str("report_info")], Obj([])).value;
    var findings := SafeGet(phase1, [Str("findings")], Obj([])).value;
    var preparer := SafeGet(info, [Str("preparer")], Str("N/A")).value;
    var firm :- SafeGet(info, [Str("firm"), preparer], Null);
    var recs := SafeGet(findings, [Str("recommendations")], Arr([])).value;
    var count :- Len(recs);
    Ok(Obj([
      ("appraisal", Obj([
        ("firm", SafeGet(docInfo, [Str("company_name")], Str("CBRE")).value),
        ("appraiser", appraiser),
        ("effective_date", SafeGet(docInfo, [Str("date_of_report")], Str("N/A")).value),
        ("as_is_value", Str(Helpers.FormatCurrency(asIs))),
        ("stabilized_value", Str(Helpers.FormatCurrency(stabilized))),
        ("cap_rate", Str("See appraisal"))])),
      ("environmental", Obj([
        ("firm", firm),
        ("report_date", SafeGet(info, [Str("date")], Str("N/A")).value),
        ("current_recs", Str(Numbers.NatToString(count))),
        ("phase_ii_required", Str(if Truthy(SafeGet(findings, [Str("phase_ii_required")], Null).value) then "Yes" else "No")),
        ("findings", SafeGet(findings, [Str("summary")], Str("No significant findings.")).value)]))]))
  }

  function ThirdPartyReports(idx: Index): Result<Json>
  {
    var appraisal := GetDoc(idx, "Appraisal", 0);
    var appraisers := SafeGet(appraisal, [Str("parties"), Str("appraisers")], Arr([])).value;
    var valuation := SafeGet(appraisal, [Str("valuation_summary"), Str("market_value_conclusions")], Arr([])).value;
    var appraiser :- AppraiserName(appraisers);
    var mvs :- Iterate(valuation);
    var values :- ValuesFrom(mvs, Null, Null);
    ThirdPartySpec(idx, values.0, values.1, appraiser)
  }

  /** `_build_third_party_reports`, with its valuation loop. */
  method BuildThirdPartyReports(idx: Index) returns (r: Result<Json>)
    ensures r == ThirdPartyReports(idx)
  {
    var appraisal := GetDoc(idx, "Appraisal", 0);
    var appraisers := SafeGet(appraisal, [Str("parties"), Str("appraisers")], Arr([])).value;
    var valuation := SafeGet(appraisal, [Str("valuation_summary"), Str("market_value_conclusions")], Arr([])).value;
    var appraiser :- AppraiserName(appraisers);
    var values :- ScanValuations(valuation);
    r := ThirdPartySpec(idx, values.0, values.1, appraiser);
  }

  /**
   * The environmental firm is `None` unless the Phase I report's `firm` is
   * itself a dict: neither the firm's name nor the preparer ever shows.
   */
  lemma EnvironmentalFirmIsNone(idx: Index, asIs: Json, stabilized: Json, appraiser: Json)
    requires var info := SafeGet(GetDoc(idx, "Phase I ESA", 0), [Str("report_info")], Obj([])).value;
      !(info.Obj? && HasKey(info.fields, "firm") && Lookup(info.fields, "firm").value.Obj?)
    requires var f := SafeGet(GetDoc(idx, "Phase I ESA", 0), [Str("findings")], Obj([])).value;
      Len(SafeGet(f, [Str("recommendations")], Arr([])).value).Ok?
    ensures ThirdPartySpec(idx, asIs, stabilized, appraiser).Ok?
    ensures ThirdPartySpec(idx, asIs, stabilized, appraiser).value.fields[1].1.fields[0] == ("firm", Null)
  {
    var info := SafeGet(GetDoc(idx, "Phase I ESA", 0), [Str("report_info")], Obj([])).value;
    var preparer := SafeGet(info, [Str("preparer")], Str("N/A")).value;
    var keys := [Str("firm"), preparer];
    assert keys[1..] == [preparer];
    if info.Obj? {
      var next := GetAny(info, keys[0], Null).value;
      assert !next.Obj?;
      assert SafeGet(next, keys[1..], Null) == Ok(Null);
    }
    assert SafeGet(info, keys, Null) == Ok(Null);
  }
}
