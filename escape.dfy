/**
 * `escape_jinja_syntax`: before rendering, every string anywhere in the
 * context has its Jinja delimiters broken apart with a space, so narrative
 * text that happens to contain `{{`, `}}`, `{%` or `%}` is shown literally.
 * Dicts and lists are rebuilt with the same keys and order; every other
 * value is returned as it is.
 */
module Escaping {
  import Text
  import opened Values

  /** The four replacements, applied one after the other to the whole string. */
  function EscapeString(s: string): (r: string)
    ensures Text.Without(r, ' ') == Text.Without(s, ' ')
  {
    var a := Text.Replace(s, "{{", "{ {");
    var b := Text.Replace(a, "}}", "} }");
    var c := Text.Replace(b, "{%", "{ %");
    var d := Text.Replace(c, "%}", "% }");
    Text.ReplaceOnlyInsertsSpaces(s, "{{", "{ {");
    Text.ReplaceOnlyInsertsSpaces(a, "}}", "} }");
    Text.ReplaceOnlyInsertsSpaces(b, "{%", "{ %");
    Text.ReplaceOnlyInsertsSpaces(c, "%}", "% }");
    d
  }

  /** A string holding none of the four delimiters. */
  predicate NoDelimiters(s: string)
  {
    !Text.Contains(s, "{{") && !Text.Contains(s, "}}") && !Text.Contains(s, "{%") && !Text.Contains(s, "%}")
  }

  /** Text without delimiters is left exactly as it was. */
  lemma EscapeStringUnchanged(s: string)
    requires NoDelimiters(s)
    ensures EscapeString(s) == s
  {
    Text.ReplaceAbsent(s, "{{", "{ {");
    Text.ReplaceAbsent(s, "}}", "} }");
    Text.ReplaceAbsent(s, "{%", "{ %");
    Text.ReplaceAbsent(s, "%}", "% }");
  }

  /** The last two replacements leave a string without `%` unchanged. */
  lemma NoPercent(s: string)
    requires '%' !in s
    ensures Text.Replace(Text.Replace(s, "{%", "{ %"), "%}", "% }") == s
  {
    Text.AbsentChar(s, "{%", 1);
    Text.ReplaceAbsent(s, "{%", "{ %");
    Text.AbsentChar(s, "%}", 0);
    Text.ReplaceAbsent(s, "%}", "% }");
  }

  lemma OpenPairOfBraces()
    ensures Text.Replace("{{x}}", "{{", "{ {") == "{ {x}}"
  {
    assert Text.StartsWith("{{x}}", "{{") && "{{x}}"[2..] == "x}}";
    Text.AbsentChar("x}}", "{{", 0);
    Text.ReplaceAbsent("x}}", "{{", "{ {");
  }

  lemma ClosePairOfBraces()
    ensures Text.Replace("{ {x}}", "}}", "} }") == "{ {x} }"
  {
    assert Text.Replace("}}", "}}", "} }") == "} }" by {
      assert Text.StartsWith("}}", "}}") && "}}"[2..] == "";
    }
    assert Text.Replace("x}}", "}}", "} }") == "x} }" by {
      assert !Text.StartsWith("x}}", "}}") && "x}}"[1..] == "}}";
    }
    assert Text.Replace("{x}}", "}}", "} }") == "{x} }" by {
      assert !Text.StartsWith("{x}}", "}}") && "{x}}"[1..] == "x}}";
    }
    assert Text.Replace(" {x}}", "}}", "} }") == " {x} }" by {
      assert !Text.StartsWith(" {x}}", "}}") && " {x}}"[1..] == "{x}}";
    }
    assert !Text.StartsWith("{ {x}}", "}}") && "{ {x}}"[1..] == " {x}}";
  }

  /** The replacements are sequential and non-overlapping: `{{x}}` becomes `{ {x} }`. */
  lemma EscapeStringBraces()
    ensures EscapeString("{{x}}") == "{ {x} }"
  {
    OpenPairOfBraces();
    ClosePairOfBraces();
    NoPercent("{ {x} }");
  }

  lemma OpenTripleBrace()
    ensures Text.Replace("{{{", "{{", "{ {") == "{ {{"
  {
    assert Text.StartsWith("{{{", "{{") && "{{{"[2..] == "{";
    assert Text.Replace("{", "{{", "{ {") == "{";
  }

  lemma CloseTripleBrace()
    ensures Text.Replace("{ {{", "}}", "} }") == "{ {{"
  {
    Text.AbsentChar("{ {{", "}}", 0);
    Text.ReplaceAbsent("{ {{", "}}", "} }");
  }

  /** A run of three braces keeps a `{{`: the scan resumes after the first pair. */
  lemma EscapeStringTripleBrace()
    ensures EscapeString("{{{") == "{ {{"
    ensures Text.Contains(EscapeString("{{{"), "{{")
  {
    OpenTripleBrace();
    CloseTripleBrace();
    NoPercent("{ {{");
    assert "{ {{"[1..][1..] == "{{";
  }

  /** `escape_jinja_syntax(v)` */
  function Escape(v: Json): (r: Json)
    ensures v.Str? ==> r == Str(EscapeString(v.s))
    ensures v.Obj? ==> r.Obj? && Keys(r.fields) == Keys(v.fields)
    ensures v.Arr? ==> r.Arr? && |r.items| == |v.items|
    ensures !(v.Str? || v.Obj? || v.Arr?) ==> r == v
    decreases v, 1
  {
    match v
    case Str(s) => Str(EscapeString(s))
    case Obj(f) => Obj(EscapeFields(f, v))
    case Arr(xs) => Arr(EscapeItems(xs, v))
    case _ => v
  }

  function EscapeFields(f: Fields, ghost parent: Json): (r: Fields)
    requires forall i :: 0 <= i < |f| ==> f[i].1 < parent
    ensures Keys(r) == Keys(f)
    ensures forall i :: 0 <= i < |f| ==> r[i].1 == Escape(f[i].1)
    decreases parent, 0, |f|
  {
    if f == [] then [] else [(f[0].0, Escape(f[0].1))] + EscapeFields(f[1..], parent)
  }

  function EscapeItems(xs: seq<Json>, ghost parent: Json): (r: seq<Json>)
    requires forall i :: 0 <= i < |xs| ==> xs[i] < parent
    ensures |r| == |xs|
    ensures forall i :: 0 <= i < |xs| ==> r[i] == Escape(xs[i])
    decreases parent, 0, |xs|
  {
    if xs == [] then [] else [Escape(xs[0])] + EscapeItems(xs[1..], parent)
  }

  /** No string anywhere inside `v` (dict keys aside) holds a delimiter. */
  predicate Clean(v: Json)
  {
    match v
    case Str(s) => NoDelimiters(s)
    case Obj(f) => forall i :: 0 <= i < |f| ==> Clean(f[i].1)
    case Arr(xs) => forall i :: 0 <= i < |xs| ==> Clean(xs[i])
    case _ => true
  }

  /** A value whose strings hold no delimiters comes back equal. */
  lemma {:induction false} EscapeClean(v: Json)
    requires Clean(v)
    ensures Escape(v) == v
    decreases v
  {
    match v
    case Str(s) => EscapeStringUnchanged(s);
    case Obj(f) =>
      var r := EscapeFields(f, v);
      forall i | 0 <= i < |f| ensures r[i] == f[i] {
        EscapeClean(f[i].1);
        assert Keys(r)[i] == Keys(f)[i];
      }
      assert r == f;
    case Arr(xs) =>
      var r := EscapeItems(xs, v);
      forall i | 0 <= i < |xs| ensures r[i] == xs[i] {
        EscapeClean(xs[i]);
      }
      assert r == xs;
    case _ =>
  }
}
