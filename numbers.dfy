/**
 * Decimal text of numbers: `str(int)`, `float(str)`, `int(str)` on ASCII
 * digits, and the fixed-point format specifications `.Nf` and `,.Nf`.
 * Python floats are modelled as exact rationals (`real`).
 */
module Numbers {
  import opened Wrappers
  import Text

  predicate IsDigit(c: char) { '0' <= c <= '9' }

  predicate AllDigits(s: string) { forall i :: 0 <= i < |s| ==> IsDigit(s[i]) }

  function DigitChar(d: nat): (c: char)
    requires d < 10
    ensures IsDigit(c) && c as int - '0' as int == d
  {
    ('0' as int + d) as char
  }

  function DigitValue(c: char): (d: nat)
    requires IsDigit(c)
    ensures d < 10 && DigitChar(d) == c
  {
    c as int - '0' as int
  }

  /** The number written by a string of decimal digits, most significant first. */
  function DigitsValue(s: string): nat
    requires AllDigits(s)
  {
    if s == [] then 0 else 10 * DigitsValue(s[..|s| - 1]) + DigitValue(s[|s| - 1])
  }

  /** `str(n)` for a natural number: no leading zeros. */
  function NatToString(n: nat): (r: string)
    ensures r != [] && AllDigits(r)
  {
    if n < 10 then [DigitChar(n)] else NatToString(n / 10) + [DigitChar(n % 10)]
  }

  /** Reading back the digits of `n` gives `n`. */
  lemma {:induction false} NatToStringRoundTrip(n: nat)
    ensures DigitsValue(NatToString(n)) == n
  {
    if n >= 10 {
      NatToStringRoundTrip(n / 10);
      var s := NatToString(n);
      assert s[..|s| - 1] == NatToString(n / 10);
    }
  }

  /** `str(i)` for an integer. */
  function IntToString(i: int): (r: string)
    ensures r != [] && (i < 0 <==> r[0] == '-')
  {
    if i < 0 then "-" + NatToString(-i) else NatToString(i)
  }

  function Pow10(k: nat): (r: nat)
    ensures r >= 1
  {
    if k == 0 then 1 else 10 * Pow10(k - 1)
  }

  /** Zeros on the left up to width `w`. */
  function ZeroPad(s: string, w: nat): (r: string)
    ensures |r| == if |s| < w then w else |s|
    decreases w - |s|
  {
    if |s| >= w then s else ZeroPad("0" + s, w)
  }

  lemma {:induction false} LeadingZero(s: string)
    requires AllDigits(s)
    ensures AllDigits("0" + s) && DigitsValue("0" + s) == DigitsValue(s)
    decreases |s|
  {
    if s != [] {
      var t := "0" + s;
      assert t[..|t| - 1] == "0" + s[..|s| - 1];
      LeadingZero(s[..|s| - 1]);
    }
  }

  lemma {:induction false} ZeroPadValue(s: string, w: nat)
    requires AllDigits(s)
    ensures AllDigits(ZeroPad(s, w)) && DigitsValue(ZeroPad(s, w)) == DigitsValue(s)
    decreases w - |s|
  {
    if |s| < w {
      LeadingZero(s);
      ZeroPadValue("0" + s, w);
    }
  }

  /** Thousands separators between groups of three digits, counted from the right. */
  function Group(d: string): (r: string)
    ensures d != [] ==> r != [] && r[0] == d[0] && r[|r| - 1] == d[|d| - 1]
    decreases |d|
  {
    if |d| <= 3 then d else Group(d[..|d| - 3]) + "," + d[|d| - 3..]
  }

  lemma DigitsLackComma(d: string)
    requires AllDigits(d)
    ensures ',' !in d
  {
  }

  lemma CommaGone()
    ensures Text.Without(",", ',') == []
  {
  }

  lemma WithoutAroundComma(a: string, b: string)
    ensures Text.Without(a + "," + b, ',') == Text.Without(a, ',') + Text.Without(b, ',')
  {
    CommaGone();
    Text.WithoutAppend(a + ",", b, ',');
    Text.WithoutAppend(a, ",", ',');
  }

  /** Dropping the separators gives the digits back. */
  lemma {:induction false} GroupUngroup(d: string)
    requires AllDigits(d)
    ensures Text.Without(Group(d), ',') == d
    decreases |d|
  {
    if |d| <= 3 {
      DigitsLackComma(d);
      Text.WithoutAbsent(d, ',');
    } else {
      var hi, lo := d[..|d| - 3], d[|d| - 3..];
      assert Group(d) == Group(hi) + "," + lo;
      assert AllDigits(hi) && AllDigits(lo);
      GroupUngroup(hi);
      DigitsLackComma(lo);
      Text.WithoutAbsent(lo, ',');
      WithoutAroundComma(Group(hi), lo);
      assert d == hi + lo;
    }
  }

  /** Round to the nearest integer, ties to the even neighbour (Python's rounding). */
  function RoundHalfEven(x: real): (n: int)
    ensures -1.0 / 2.0 <= x - n as real <= 1.0 / 2.0
    ensures (x - n as real == 1.0 / 2.0 || n as real - x == 1.0 / 2.0) ==> n % 2 == 0
  {
    var f := x.Floor;
    var frac := x - f as real;
    if frac < 1.0 / 2.0 then f
    else if frac > 1.0 / 2.0 then f + 1
    else if f % 2 == 0 then f
    else f + 1
  }

  /** `n / 10^d` */
  function Ratio(n: int, d: nat): real
  {
    n as real / Pow10(d) as real
  }

  /** `q + rem / 10^d`: an integral part and `d` decimals. */
  function Decimal(q: nat, rem: nat, d: nat): real
  {
    q as real + rem as real / Pow10(d) as real
  }

  /** `x * 10^d` */
  function Shift(x: real, d: nat): real
  {
    x * Pow10(d) as real
  }

  /** The value a fixed-point rendering with `d` decimals stands for. */
  function Rounded(x: real, d: nat): real
  {
    Ratio(RoundHalfEven(Shift(x, d)), d)
  }

  function Abs(n: int): nat { if n < 0 then -n else n }

  /** `q`, then `d` decimals holding `rem`, with thousands separators when `grouped`. */
  function FixedText(q: nat, rem: nat, d: nat, grouped: bool): (r: string)
    ensures r != [] && IsDigit(r[0]) && IsDigit(r[|r| - 1])
  {
    var ip := NatToString(q);
    var fp := ZeroPad(NatToString(rem), d);
    ZeroPadValue(NatToString(rem), d);
    (if grouped then Group(ip) else ip) + (if d == 0 then "" else "." + fp)
  }

  /** `(m / 10^d, m % 10^d)`, one decimal digit at a time. */
  function DivPow10(m: nat, d: nat): (qr: (nat, nat))
    ensures qr.1 < Pow10(d) && qr.0 * Pow10(d) + qr.1 == m
  {
    if d == 0 then (m, 0)
    else
      var (q, r) := DivPow10(m / 10, d - 1);
      assert q * Pow10(d) == q * Pow10(d - 1) * 10;
      (q, r * 10 + m % 10)
  }

  /** `m / 10^d` written with `d` decimals; without separators it reads back as that value. */
  function Fixed(m: nat, d: nat, grouped: bool): (r: string)
    ensures r != [] && IsDigit(r[0]) && IsDigit(r[|r| - 1])
    ensures !grouped ==> ParseUnsigned(r) == Some(Ratio(m, d))
  {
    var (q, rem) := DivPow10(m, d);
    FixedTextValue(q, rem, d);
    DecimalOfQuotient(m, d, q, rem);
    FixedText(q, rem, d, grouped)
  }

  /** `format(x, ".{d}f")`, or `format(x, ",.{d}f")` when `grouped`. */
  function FormatFixed(x: real, d: nat, grouped: bool): (r: string)
    ensures r != [] && (r[0] == '-' || IsDigit(r[0])) && IsDigit(r[|r| - 1])
  {
    (if x < 0.0 then "-" else "") + Fixed(Abs(RoundHalfEven(Shift(x, d))), d, grouped)
  }

  predicate IsIntegral(x: real) { x.Floor as real == x }

  /** `d` decimals write `x` exactly. */
  predicate ExactAt(x: real, d: nat) { IsIntegral(Shift(x, d)) }

  /** Smallest number of decimals from `k` up to 17 that writes `x` exactly (17 if none does). */
  function ExactDecimals(x: real, k: nat): (r: nat)
    requires k <= 17
    ensures k <= r <= 17
    decreases 17 - k
  {
    if k == 17 || ExactAt(x, k) then k else ExactDecimals(x, k + 1)
  }

  /**
   * `repr(x)` / `str(x)` of a float in positional notation: the fewest
   * decimals (at least one) that write it exactly.
   */
  function FloatRepr(x: real): string
  {
    FormatFixed(x, ExactDecimals(x, 1), false)
  }

  /** `format(x, ",")` of a float: the repr digits with thousands separators. */
  function FloatGrouped(x: real): string
  {
    FormatFixed(x, ExactDecimals(x, 1), true)
  }

  // ---------------------------------------------------------------- parsing

  /** Text before the first exponent marker `e` or `E`. */
  function BeforeExponent(s: string): (r: string)
    ensures Text.StartsWith(s, r) && 'e' !in r && 'E' !in r
    decreases |s|
  {
    if s == [] || s[0] == 'e' || s[0] == 'E' then [] else [s[0]] + BeforeExponent(s[1..])
  }

  /** Digits with at most one decimal point and at least one digit. */
  function ParseMantissa(m: string): Option<real>
  {
    var ip := Text.BeforeFirst(m, '.');
    if |ip| == |m| then
      if m != [] && AllDigits(m) then Some(DigitsValue(m) as real) else None
    else
      var fp := m[|ip| + 1..];
      if AllDigits(ip) && AllDigits(fp) && |ip| + |fp| > 0
      then Some(Decimal(DigitsValue(ip), DigitsValue(fp), |fp|))
      else None
  }

  /** An optionally signed, non-empty run of digits. */
  function ParseExponent(e: string): Option<int>
  {
    if e != [] && (e[0] == '+' || e[0] == '-') then
      var t := e[1..];
      if t != [] && AllDigits(t) then Some(if e[0] == '-' then -(DigitsValue(t) as int) else DigitsValue(t)) else None
    else if e != [] && AllDigits(e) then Some(DigitsValue(e))
    else None
  }

  /** `v * 10^e` for an exponent of either sign. */
  function Scale(v: real, e: int): real
  {
    if e >= 0 then Shift(v, e) else v / Pow10(-e) as real
  }

  function ParseUnsigned(t: string): Option<real>
  {
    var m := BeforeExponent(t);
    if |m| == |t| then ParseMantissa(t)
    else
      match (ParseMantissa(m), ParseExponent(t[|m| + 1..]))
      case (Some(v), Some(e)) => Some(Scale(v, e))
      case _ => None
  }

  /**
   * `float(s)` for a string: surrounding white space, an optional sign, a
   * decimal mantissa and an optional exponent; `None` where Python raises
   * ValueError.
   */
  function ParseFloat(s: string): Option<real>
  {
    var t := Text.Strip(s);
    if t != [] && t[0] == '-' then
      match ParseUnsigned(t[1..])
      case Some(v) => Some(-v)
      case None => None
    else if t != [] && t[0] == '+' then ParseUnsigned(t[1..])
    else ParseUnsigned(t)
  }

  // ------------------------------------------------------- arithmetic facts

  lemma DecimalOfQuotient(m: nat, d: nat, q: nat, rem: nat)
    requires q * Pow10(d) + rem == m
    ensures Decimal(q, rem, d) == Ratio(m, d)
  {
    CastProduct(q, Pow10(d));
    SplitFraction(m as real, q as real, rem as real, Pow10(d) as real);
  }

  lemma CastProduct(a: int, b: int)
    ensures (a * b) as real == a as real * b as real
  {
  }

  lemma SplitFraction(m: real, q: real, rem: real, P: real)
    requires P > 0.0 && m == q * P + rem
    ensures m / P == q + rem / P
  {
  }

  lemma NegatedRatio(n: int, d: nat)
    requires n <= 0
    ensures Some(-Ratio(Abs(n), d)) == Some(Ratio(n, d))
  {
    assert Abs(n) as real == -(n as real);
    NegatedQuotient(n as real, Pow10(d) as real);
  }

  lemma NegatedQuotient(a: real, p: real)
    requires p > 0.0
    ensures -((-a) / p) == a / p
  {
  }

  lemma SignOfShift(x: real, d: nat)
    ensures x < 0.0 ==> Shift(x, d) < 0.0
    ensures x >= 0.0 ==> Shift(x, d) >= 0.0
  {
  }

  lemma ShiftNext(x: real, j: nat)
    ensures Shift(x, j + 1) == Shift(x, j) * 10.0
  {
    assert Pow10(j + 1) as real == Pow10(j) as real * 10.0;
  }

  lemma IntegralTimesTen(y: real)
    requires IsIntegral(y)
    ensures IsIntegral(y * 10.0)
  {
    var i := y.Floor;
    assert y * 10.0 == (i * 10) as real;
  }

  lemma RoundIntegral(y: real)
    requires IsIntegral(y)
    ensures RoundHalfEven(y) as real == y
  {
  }

  lemma RatioOfShift(x: real, d: nat)
    ensures Shift(x, d) / Pow10(d) as real == x
  {
  }

  // ------------------------------------------------------------- round trips

  lemma {:induction false} NoExponent(s: string)
    requires 'e' !in s && 'E' !in s
    ensures BeforeExponent(s) == s
    decreases |s|
  {
    if s != [] {
      NoExponent(s[1..]);
      assert s == [s[0]] + s[1..];
    }
  }

  lemma {:induction false} NoPoint(s: string)
    requires '.' !in s
    ensures Text.BeforeFirst(s, '.') == s
    decreases |s|
  {
    if s != [] {
      NoPoint(s[1..]);
      assert s == [s[0]] + s[1..];
    }
  }

  lemma {:induction false} BeforePoint(a: string, b: string)
    requires '.' !in a
    ensures Text.BeforeFirst(a + "." + b, '.') == a
    decreases |a|
  {
    if a != [] {
      assert (a + "." + b)[1..] == a[1..] + "." + b;
      BeforePoint(a[1..], b);
    }
  }

  lemma DigitsLackMarks(s: string)
    requires AllDigits(s)
    ensures '.' !in s && 'e' !in s && 'E' !in s && '-' !in s && '+' !in s
  {
  }

  lemma MantissaWithPoint(ip: string, fp: string)
    requires AllDigits(ip) && AllDigits(fp) && fp != []
    ensures ParseMantissa(ip + "." + fp) == Some(Decimal(DigitsValue(ip), DigitsValue(fp), |fp|))
  {
    DigitsLackMarks(ip);
    BeforePoint(ip, fp);
    var t := ip + "." + fp;
    assert t[|ip| + 1..] == fp;
  }

  lemma NoMarksAroundPoint(ip: string, fp: string)
    requires AllDigits(ip) && AllDigits(fp)
    ensures 'e' !in ip + "." + fp && 'E' !in ip + "." + fp
  {
    DigitsLackMarks(ip);
    DigitsLackMarks(fp);
    var t := ip + "." + fp;
    forall i | 0 <= i < |t| ensures t[i] != 'e' && t[i] != 'E' {
      if i < |ip| { assert t[i] == ip[i]; } else if i > |ip| { assert t[i] == fp[i - |ip| - 1]; }
    }
  }

  lemma DigitsParse(q: nat)
    ensures ParseUnsigned(NatToString(q)) == Some(q as real)
  {
    NatToStringRoundTrip(q);
    DigitsTextParse(NatToString(q));
  }

  /** A plain run of digits reads as its value. */
  lemma DigitsTextParse(t: string)
    requires t != [] && AllDigits(t)
    ensures ParseUnsigned(t) == Some(DigitsValue(t) as real)
  {
    DigitsLackMarks(t);
    NoExponent(t);
    NoPoint(t);
  }

  lemma PointParse(ip: string, fp: string)
    requires AllDigits(ip) && AllDigits(fp) && fp != []
    ensures ParseUnsigned(ip + "." + fp) == Some(Decimal(DigitsValue(ip), DigitsValue(fp), |fp|))
  {
    NoMarksAroundPoint(ip, fp);
    NoExponent(ip + "." + fp);
    MantissaWithPoint(ip, fp);
  }

  /** An integral part and `d` decimals read back as `q + rem / 10^d`. */
  lemma FixedTextValue(q: nat, rem: nat, d: nat)
    requires rem < Pow10(d)
    ensures ParseUnsigned(FixedText(q, rem, d, false)) == Some(Decimal(q, rem, d))
  {
    var ip := NatToString(q);
    if d == 0 {
      DigitsParse(q);
      assert FixedText(q, rem, d, false) == ip;
      assert rem == 0;
      assert Decimal(q, rem, d) == q as real;
    } else {
      var fp := ZeroPad(NatToString(rem), d);
      NatToStringRoundTrip(q);
      NatToStringRoundTrip(rem);
      ZeroPadValue(NatToString(rem), d);
      NatToStringLength(rem, d);
      assert |fp| == d;
      assert FixedText(q, rem, d, false) == ip + "." + fp;
      PointParse(ip, fp);
    }
  }

  lemma {:induction false} NatToStringLength(n: nat, d: nat)
    requires d >= 1 && n < Pow10(d)
    ensures |NatToString(n)| <= d
  {
    if n >= 10 {
      assert d >= 2 by {
        assert Pow10(1) == 10;
      }
      assert n / 10 < Pow10(d - 1) by {
        assert Pow10(d) == 10 * Pow10(d - 1);
      }
      NatToStringLength(n / 10, d - 1);
    }
  }

  /** A digit string and its negation parse as a value and its negation. */
  lemma SignedParse(body: string, v: real)
    requires body != [] && IsDigit(body[0]) && IsDigit(body[|body| - 1])
    requires ParseUnsigned(body) == Some(v)
    ensures ParseFloat(body) == Some(v)
    ensures ParseFloat("-" + body) == Some(-v)
  {
    assert Text.Stripped(body);
    Text.StripStripped(body);
    var nb := "-" + body;
    assert nb[0] == '-' && nb[|nb| - 1] == body[|body| - 1] && nb[1..] == body;
    NegativeParse(nb, v);
  }

  lemma NegativeParse(t: string, v: real)
    requires |t| >= 2 && t[0] == '-' && IsDigit(t[|t| - 1])
    requires ParseUnsigned(t[1..]) == Some(v)
    ensures ParseFloat(t) == Some(-v)
  {
    assert Text.Stripped(t);
    Text.StripStripped(t);
  }

  /** Parsing a fixed-point rendering gives the rounded value back. */
  lemma FormatFixedRoundTrip(x: real, d: nat)
    ensures ParseFloat(FormatFixed(x, d, false)) == Some(Rounded(x, d))
  {
    var n := RoundHalfEven(Shift(x, d));
    RoundedSign(x, d);
    var body := Fixed(Abs(n), d, false);
    if x < 0.0 {
      NegativeFixedParse(n, d);
      assert FormatFixed(x, d, false) == "-" + body;
    } else {
      SignedParse(body, Ratio(n, d));
      assert FormatFixed(x, d, false) == body;
    }
  }

  lemma NegativeFixedParse(n: int, d: nat)
    requires n <= 0
    ensures ParseFloat("-" + Fixed(Abs(n), d, false)) == Some(Ratio(n, d))
  {
    NegatedRatio(n, d);
    NegatedParse(Fixed(Abs(n), d, false), Ratio(Abs(n), d), Ratio(n, d));
  }

  lemma NegatedParse(body: string, v: real, w: real)
    requires body != [] && IsDigit(body[0]) && IsDigit(body[|body| - 1])
    requires ParseUnsigned(body) == Some(v) && Some(-v) == Some(w)
    ensures ParseFloat("-" + body) == Some(w)
  {
    SignedParse(body, v);
  }

  /** Rounding keeps the sign: a negative value rounds to zero or below. */
  lemma RoundedSign(x: real, d: nat)
    ensures x < 0.0 ==> RoundHalfEven(Shift(x, d)) <= 0
    ensures x >= 0.0 ==> RoundHalfEven(Shift(x, d)) >= 0
  {
    SignOfShift(x, d);
  }

  /** Dropping the thousands separators from a grouped rendering gives the plain one. */
  lemma FixedTextUngroup(q: nat, rem: nat, d: nat)
    ensures Text.Without(FixedText(q, rem, d, true), ',') == FixedText(q, rem, d, false)
  {
    var ip := NatToString(q);
    var fp := ZeroPad(NatToString(rem), d);
    ZeroPadValue(NatToString(rem), d);
    var tail := if d == 0 then "" else "." + fp;
    assert ',' !in tail;
    Text.WithoutAbsent(tail, ',');
    GroupUngroup(ip);
    Text.WithoutAppend(Group(ip), tail, ',');
  }

  lemma FormatFixedUngroup(x: real, d: nat)
    ensures Text.Without(FormatFixed(x, d, true), ',') == FormatFixed(x, d, false)
  {
    var m := Abs(RoundHalfEven(Shift(x, d)));
    var (q, rem) := DivPow10(m, d);
    FixedTextUngroup(q, rem, d);
    var sign := if x < 0.0 then "-" else "";
    Text.WithoutAbsent(sign, ',');
    Text.WithoutAppend(sign, Fixed(m, d, true), ',');
  }

  /** The characters a fixed-point rendering can hold. */
  predicate NumericChars(s: string)
  {
    forall i :: 0 <= i < |s| ==> IsDigit(s[i]) || s[i] == ',' || s[i] == '.' || s[i] == '-'
  }

  lemma {:induction false} GroupChars(d: string)
    requires AllDigits(d)
    ensures NumericChars(Group(d))
    decreases |d|
  {
    if |d| > 3 {
      GroupChars(d[..|d| - 3]);
      assert AllDigits(d[|d| - 3..]);
    }
  }

  lemma FormatFixedChars(x: real, d: nat, grouped: bool)
    ensures NumericChars(FormatFixed(x, d, grouped))
  {
    var m := Abs(RoundHalfEven(Shift(x, d)));
    var (q, rem) := DivPow10(m, d);
    var ip := NatToString(q);
    ZeroPadValue(NatToString(rem), d);
    GroupChars(ip);
  }

  /** A fixed-point rendering starts with a sign or a digit and ends with a digit, so it has no white space at either end. */
  lemma FormatFixedStripped(x: real, d: nat, grouped: bool)
    ensures Text.Stripped(FormatFixed(x, d, grouped))
  {
    var r := FormatFixed(x, d, grouped);
    NotSpace(r[0]);
    NotSpace(r[|r| - 1]);
  }

  lemma NotSpace(c: char)
    requires IsDigit(c) || c == '-'
    ensures !Text.IsSpace(c)
  {
  }

  /** A fixed-point rendering holds no character outside digits, `,`, `.` and `-`. */
  lemma FormatFixedLacks(x: real, d: nat, grouped: bool, c: char)
    requires !IsDigit(c) && c != ',' && c != '.' && c != '-'
    ensures c !in FormatFixed(x, d, grouped)
  {
    FormatFixedChars(x, d, grouped);
  }

  lemma ExactAtNext(x: real, j: nat)
    requires ExactAt(x, j)
    ensures ExactAt(x, j + 1)
  {
    ShiftNext(x, j);
    IntegralTimesTen(Shift(x, j));
  }

  lemma {:induction false} ExactAtLater(x: real, j: nat, k: nat)
    requires j <= k && ExactAt(x, j)
    ensures ExactAt(x, k)
    decreases k - j
  {
    if j < k {
      ExactAtNext(x, j);
      ExactAtLater(x, j + 1, k);
    }
  }

  lemma {:induction false} ExactDecimalsExact(x: real, j: nat, k: nat)
    requires j <= k <= 17 && ExactAt(x, k)
    ensures ExactAt(x, ExactDecimals(x, j))
    decreases k - j
  {
    if j < k && !ExactAt(x, j) {
      ExactDecimalsExact(x, j + 1, k);
    }
  }

  /** A float that some `k <= 17` decimals write exactly is written exactly by `FloatRepr`. */
  lemma FloatReprRoundTrip(x: real, k: nat)
    requires k <= 17 && ExactAt(x, k)
    ensures ParseFloat(FloatRepr(x)) == Some(x)
  {
    var k1 := if k == 0 then 1 else k;
    ExactAtLater(x, k, k1);
    ExactDecimalsExact(x, 1, k1);
    var j := ExactDecimals(x, 1);
    FormatFixedRoundTrip(x, j);
    RoundIntegral(Shift(x, j));
    RatioOfShift(x, j);
  }

  /** `str(i)` of an integer reads back as the same number. */
  lemma IntToStringParses(i: int)
    ensures ParseFloat(IntToString(i)) == Some(i as real)
  {
    var body := NatToString(Abs(i));
    DigitsParse(Abs(i));
    SignedParse(body, Abs(i) as real);
  }
}
