/**
 * Small value helpers shared by the mappers: currency parsing, the
 * currency and percent formatters of both mappers, `_split_list`,
 * `_str_or_empty` and `extract_first_line_or_value`.
 */
module Helpers {
  import opened Wrappers
  import Text
  import Numbers
  import opened Values

  // ------------------------------------------------------ currency parsing

  /** The text `parse_currency_to_number` hands to `float()`. */
  function CleanCurrency(s: string): (r: string)
    ensures '$' !in r && ',' !in r && ' ' !in r
  {
    var a := Text.Without(s, '$');
    var b := Text.Without(a, ',');
    var t := Text.Without(b, ' ');
    Text.WithoutKeepsAbsent(a, ',', '$');
    Text.WithoutKeepsAbsent(b, ' ', '$');
    Text.WithoutKeepsAbsent(b, ' ', ',');
    Text.StripKeepsAbsent(t, '$');
    Text.StripKeepsAbsent(t, ',');
    Text.StripKeepsAbsent(t, ' ');
    Text.Strip(t)
  }

  /**
   * `parse_currency_to_number(v)`: never raises; numbers convert, text is
   * parsed once `$`, `,` and spaces are gone, everything else is 0.
   */
  function ParseCurrency(v: Json): (r: real)
    ensures IsNumber(v) ==> r == NumValue(v)
    ensures v.Str? ==> r == match Numbers.ParseFloat(CleanCurrency(v.s)) case Some(x) => x case None => 0.0
    ensures !IsNumber(v) && !v.Str? ==> r == 0.0
  {
    if IsNumber(v) then NumValue(v)
    else if v.Str? then
      var cleaned := CleanCurrency(v.s);
      if cleaned == [] then 0.0
      else match Numbers.ParseFloat(cleaned) case Some(x) => x case None => 0.0
    else 0.0
  }

  // ----------------------------------------------------------- formatters

  /** `$` followed by the rendering of `x` with `d` decimals and separators. */
  function Dollars(x: real, d: nat): (r: string)
    ensures |r| >= 2 && r[0] == '$'
  {
    "$" + Numbers.FormatFixed(x, d, true)
  }

  /** Cleaning a dollar rendering leaves the plain fixed-point text. */
  lemma CleanDollars(x: real, d: nat)
    ensures CleanCurrency(Dollars(x, d)) == Numbers.FormatFixed(x, d, false)
  {
    var f := Numbers.FormatFixed(x, d, true);
    var p := Numbers.FormatFixed(x, d, false);
    Text.WithoutAppend("$", f, '$');
    Numbers.FormatFixedLacks(x, d, true, '$');
    Text.WithoutAbsent(f, '$');
    assert Text.Without("$", '$') == [];
    assert Text.Without("$" + f, '$') == f;
    Numbers.FormatFixedUngroup(x, d);
    Numbers.FormatFixedLacks(x, d, false, ' ');
    Text.WithoutAbsent(p, ' ');
    Numbers.FormatFixedStripped(x, d, false);
    Text.StripStripped(p);
  }

  /** A dollar rendering read back by `parse_currency_to_number` gives the rounded amount. */
  lemma DollarsParseBack(x: real, d: nat)
    ensures ParseCurrency(Str(Dollars(x, d))) == Numbers.Rounded(x, d)
  {
    CleanDollars(x, d);
    Numbers.FormatFixedRoundTrip(x, d);
  }

  /** `Mapper._format_currency` of the summary mapper. */
  function FormatCurrency(v: Json): (r: string)
    ensures v.Null? ==> r == "N/A"
    ensures !v.Null? && FloatOf(v).Err? ==> r == StrOf(v)
    ensures FloatOf(v).Ok? ==> r != [] && r[0] == '$'
    ensures FloatOf(v).Ok? && FloatOf(v).value >= 1000000.0 ==> r[|r| - 1] == 'M'
  {
    if v.Null? then "N/A"
    else match FloatOf(v)
      case Err(_) => StrOf(v)
      case Ok(x) =>
        if x >= 1000000.0 then Dollars(x / 1000000.0, 2) + "M"
        else if x >= 1000.0 then Dollars(x, 0)
        else Dollars(x, 2)
  }

  /** Below a million the summary mapper's currency text parses back to the amount, rounded to whole dollars from 1,000 up and to cents below. */
  lemma FormatCurrencyParsesBack(v: Json)
    requires FloatOf(v).Ok? && FloatOf(v).value < 1000000.0
    ensures ParseCurrency(Str(FormatCurrency(v))) ==
      var x := FloatOf(v).value; if x >= 1000.0 then Numbers.Rounded(x, 0) else Numbers.Rounded(x, 2)
  {
    var x := FloatOf(v).value;
    var d := if x >= 1000.0 then 0 else 2;
    assert FormatCurrency(v) == Dollars(x, d);
    DollarsParseBack(x, d);
  }

  /** `Mapper._format_percent` of the summary mapper. */
  function FormatPercent(v: Json): (r: string)
    ensures v.Null? ==> r == "N/A"
    ensures !v.Null? && FloatOf(v).Err? ==> r == StrOf(v)
    ensures FloatOf(v).Ok? ==>
      (|r| >= 2 && r[|r| - 1] == '%' && Numbers.ParseFloat(r[..|r| - 1]) == Some(Numbers.Rounded(FloatOf(v).value, 2)))
  {
    if v.Null? then "N/A"
    else match FloatOf(v)
      case Err(_) => StrOf(v)
      case Ok(x) =>
        var body := Numbers.FormatFixed(x, 2, false);
        Numbers.FormatFixedRoundTrip(x, 2);
        assert (body + "%")[..|body|] == body;
        body + "%"
  }

  /** `DealInputMapper._fmt_currency`: like the summary formatter, but `$` text passes through and there is no cents branch. */
  function FmtCurrency(v: Json): (r: string)
    ensures v.Null? ==> r == "N/A"
    ensures v.Str? && Text.StartsWith(v.s, "$") ==> r == v.s
    ensures !v.Null? && !(v.Str? && Text.StartsWith(v.s, "$")) && FloatOf(v).Err? ==> r == StrOf(v)
    ensures FloatOf(v).Ok? ==> r != [] && r[0] == '$'
  {
    if v.Null? then "N/A"
    else if v.Str? && Text.StartsWith(v.s, "$") then
      assert v.s[0] == v.s[..1][0];
      v.s
    else match FloatOf(v)
      case Err(_) => StrOf(v)
      case Ok(x) =>
        if x >= 1000000.0 then Dollars(x / 1000000.0, 2) + "M" else Dollars(x, 0)
  }

  /** Below a million the text parses back to the amount rounded to whole dollars. */
  lemma FmtCurrencyParsesBack(v: Json)
    requires FloatOf(v).Ok? && FloatOf(v).value < 1000000.0
    requires !(v.Str? && Text.StartsWith(v.s, "$"))
    ensures ParseCurrency(Str(FmtCurrency(v))) == Numbers.Rounded(FloatOf(v).value, 0)
  {
    DollarsParseBack(FloatOf(v).value, 0);
  }

  /** What the formatter produces is already final: formatting it again changes nothing. */
  lemma FmtCurrencyIdempotent(v: Json)
    requires v.Str? || IsNumber(v)
    ensures FmtCurrency(Str(FmtCurrency(v))) == FmtCurrency(v)
  {
    var r := FmtCurrency(v);
    if FloatOf(v).Ok? && !(v.Str? && Text.StartsWith(v.s, "$")) {
      assert Text.StartsWith(r, "$");
    }
  }

  /** `DealInputMapper._fmt_pct`: text already holding `%` passes through. */
  function FmtPct(v: Json): (r: string)
    ensures v.Null? ==> r == "N/A"
    ensures v.Str? && '%' in v.s ==> r == v.s
    ensures !v.Null? && !(v.Str? && '%' in v.s) && FloatOf(v).Err? ==> r == StrOf(v)
    ensures !(v.Str? && '%' in v.s) && FloatOf(v).Ok? ==>
      (|r| >= 2 && r[|r| - 1] == '%' && Numbers.ParseFloat(r[..|r| - 1]) == Some(Numbers.Rounded(FloatOf(v).value, 2)))
  {
    if v.Null? then "N/A"
    else if v.Str? && '%' in v.s then v.s
    else FormatPercent(v)
  }

  /** A rendered percentage is final: formatting it again changes nothing. */
  lemma FmtPctIdempotent(v: Json)
    requires v.Str? || IsNumber(v)
    ensures FmtPct(Str(FmtPct(v))) == FmtPct(v)
  {
    var r := FmtPct(v);
    if !(v.Str? && '%' in v.s) && FloatOf(v).Ok? {
      assert r[|r| - 1] in r;
    }
  }

  // --------------------------------------------------------- text helpers

  /** `_str_or_empty(v)` */
  function StrOrEmpty(v: Json): (r: string)
    ensures v.Null? ==> r == []
    ensures !v.Null? ==> r == StrOf(v)
  {
    if v.Null? then [] else StrOf(v)
  }

  /** Only the text "None" itself (or a foreign object printing so) shows as "None". */
  lemma StrOrEmptyNeverNone(v: Json)
    requires !v.Opaque? && v != Str("None")
    ensures StrOrEmpty(v) != "None"
  {
    match v
    case Int(i) =>
      assert Numbers.ParseFloat(StrOf(v)).Some?;
      NoneIsNotANumber();
    case Float(x) =>
      Numbers.FormatFixedChars(x, Numbers.ExactDecimals(x, 1), false);
      assert !Numbers.NumericChars("None") by { assert "None"[0] == 'N'; }
    case Bool(b) => assert StrOf(v)[0] != 'N';
    case Arr(_) => assert StrOf(v)[0] == '[';
    case Tuple(_) => assert StrOf(v)[0] == '(';
    case Obj(_) => assert StrOf(v)[0] == '{';
    case _ =>
  }

  lemma NoneIsNotANumber()
    ensures Numbers.ParseFloat("None") == None
  {
    Text.StripStripped("None");
    var m := Numbers.BeforeExponent("None");
    assert m == "Non" by {
      assert "None"[1..] == "one" && "one"[1..] == "ne" && "ne"[1..] == "e";
    }
    MantissaNeedsDigit(m);
  }

  /** A mantissa that starts with neither a digit nor a point is not a number. */
  lemma MantissaNeedsDigit(m: string)
    requires m != [] && m[0] != '.' && !Numbers.IsDigit(m[0])
    ensures Numbers.ParseMantissa(m) == None
  {
    var ip := Text.BeforeFirst(m, '.');
    assert ip != [] && ip[0] == m[0];
  }

  /** The pieces `_split_list` keeps: stripped, and empty ones dropped. */
  function CleanPieces(ps: seq<string>): (r: seq<string>)
    ensures |r| <= |ps|
    ensures forall k :: 0 <= k < |r| ==> r[k] != [] && Text.Stripped(r[k])
    decreases |ps|
  {
    if ps == [] then []
    else
      var x := Text.Strip(ps[0]);
      (if x != [] then [x] else []) + CleanPieces(ps[1..])
  }

  /** `_split_list(v)`: the comma-separated, stripped, non-empty parts of `str(v)`. */
  function SplitList(v: Json): (r: seq<string>)
    ensures !Truthy(v) ==> r == []
    ensures forall k :: 0 <= k < |r| ==> r[k] != [] && ',' !in r[k]
    ensures forall k :: 0 <= k < |r| ==> Text.Stripped(r[k])
  {
    if !Truthy(v) then []
    else
      var ps := Text.Split(StrOf(v), ",");
      Text.SplitPiecesLackSeparator(StrOf(v), ',');
      CleanPiecesLack(ps, ',');
      CleanPieces(ps)
  }

  lemma {:induction false} CleanPiecesLack(ps: seq<string>, c: char)
    requires forall k :: 0 <= k < |ps| ==> c !in ps[k]
    ensures forall k :: 0 <= k < |CleanPieces(ps)| ==> c !in CleanPieces(ps)[k]
    decreases |ps|
  {
    if ps != [] {
      Text.StripKeepsAbsent(ps[0], c);
      CleanPiecesLack(ps[1..], c);
    }
  }

  /** Clean names joined with commas split back into the same names. */
  lemma SplitListJoin(names: seq<string>)
    requires names != []
    requires forall k :: 0 <= k < |names| ==> names[k] != [] && ',' !in names[k]
    requires forall k :: 0 <= k < |names| ==> Text.Stripped(names[k])
    ensures SplitList(Str(Text.Join(",", names))) == names
  {
    Text.SplitJoin(names, ',');
    assert Text.Join(",", names) != [] by { JoinNonEmpty(names); }
    CleanPiecesKeep(names);
  }

  lemma JoinNonEmpty(names: seq<string>)
    requires names != [] && names[0] != []
    ensures Text.Join(",", names) != []
  {
  }

  lemma {:induction false} CleanPiecesKeep(names: seq<string>)
    requires forall k :: 0 <= k < |names| ==> names[k] != []
    requires forall k :: 0 <= k < |names| ==> Text.Stripped(names[k])
    ensures CleanPieces(names) == names
    decreases |names|
  {
    if names != [] {
      var rest := names[1..];
      Text.StripStripped(names[0]);
      assert CleanPieces(names) == [names[0]] + CleanPieces(rest);
      forall k | 0 <= k < |rest| ensures rest[k] != [] && Text.Stripped(rest[k]) {
        assert rest[k] == names[k + 1];
      }
      CleanPiecesKeep(rest);
      HeadTail(names);
    }
  }

  lemma HeadTail(s: seq<string>)
    requires s != []
    ensures [s[0]] + s[1..] == s
  {
  }

  /** `extract_first_line_or_value(v)`: the first line of the stripped text, itself stripped. */
  function ExtractFirstLine(v: Json): (r: string)
    ensures '\n' !in r
    ensures Text.Stripped(r)
    ensures v.Null? ==> r == []
  {
    if v.Null? then []
    else
      var s := Text.Strip(StrOf(v));
      if s == [] then []
      else
        var first := Text.Split(s, "\n")[0];
        Text.SplitFirstIsBeforeFirst(s, '\n');
        Text.StripKeepsAbsent(first, '\n');
        Text.Strip(first)
  }

  /**
   * For any value but None: the result is empty exactly when the value's
   * text is blank, and it is a piece of the first line of the stripped text.
   */
  lemma FirstLineOfText(v: Json)
    requires !v.Null?
    ensures ExtractFirstLine(v) == [] <==> Text.Strip(StrOf(v)) == []
    ensures exists i :: Text.SliceAt(Text.BeforeFirst(Text.Strip(StrOf(v)), '\n'), ExtractFirstLine(v), i)
  {
    var s := Text.Strip(StrOf(v));
    var first := Text.BeforeFirst(s, '\n');
    Text.SplitFirstIsBeforeFirst(s, '\n');
    if s != [] {
      assert Text.IsSpace('\n');
      assert first[0] == s[0];
      Text.StripNonBlank(first);
    } else {
      assert Text.SliceAt(first, ExtractFirstLine(v), 0);
    }
  }

  /** A single-line value comes back stripped and otherwise whole. */
  lemma ExtractSingleLine(s: string)
    requires '\n' !in s
    ensures ExtractFirstLine(Str(s)) == Text.Strip(s)
  {
    var t := Text.Strip(s);
    assert StrOf(Str(s)) == s;
    if t != [] {
      Text.StripKeepsAbsent(s, '\n');
      Text.SplitWithout(t, '\n');
      assert Text.Split(t, "\n") == [t];
      calc {
        ExtractFirstLine(Str(s));
        Text.Strip(Text.Split(t, "\n")[0]);
        Text.Strip(t);
        { Text.StripTwice(s); }
        t;
      }
    }
  }
}
