/**
 * Python data as the memo filler sees it: the JSON-like values of a request
 * body and of the dictionaries the mappers build, together with the handful
 * of Python operations the mappers apply to them (`.get`, truthiness, `or`,
 * `in`, iteration, `len`, `+`, `-`, `float()`, `str()`).
 *
 * A dict is an association list in insertion order with unique keys;
 * assigning an existing key keeps its position, a new key goes last.
 */
module Values {
  import opened Wrappers
  import Text
  import Numbers

  datatype Json =
    | Null
    | Bool(b: bool)
    | Int(i: int)
    | Float(r: real)
    | Str(s: string)
    | Arr(items: seq<Json>)
    | Tuple(parts: seq<Json>)
    | Obj(fields: seq<(string, Json)>)
    | Opaque(text: string)   // a foreign object (an inline image); `text` is what `str()` gives

  type Fields = seq<(string, Json)>

  // ------------------------------------------------------------------ dicts

  function Keys(f: Fields): (r: seq<string>)
    ensures |r| == |f|
    ensures forall i :: 0 <= i < |f| ==> r[i] == f[i].0
  {
    seq(|f|, i requires 0 <= i < |f| => f[i].0)
  }

  /** A Python dict never holds the same key twice. */
  predicate UniqueKeys(f: Fields)
  {
    forall i, j :: 0 <= i < j < |f| ==> f[i].0 != f[j].0
  }

  /** No two entries of `ks` are equal. */
  predicate Distinct(ks: seq<string>)
  {
    forall i, j :: 0 <= i < j < |ks| ==> ks[i] != ks[j]
  }

  /** `k in d` */
  predicate HasKey(f: Fields, k: string)
  {
    exists i :: 0 <= i < |f| && f[i].0 == k
  }

  /** `d.get(k)`: the value stored under `k`, if any. */
  function Lookup(f: Fields, k: string): (r: Option<Json>)
    ensures r.Some? <==> HasKey(f, k)
    ensures r.Some? ==> exists i :: 0 <= i < |f| && f[i] == (k, r.value)
    decreases |f|
  {
    if f == [] then None
    else if f[0].0 == k then Some(f[0].1)
    else
      var r := Lookup(f[1..], k);
      assert HasKey(f, k) ==> HasKey(f[1..], k) by {
        if HasKey(f, k) {
          var i :| 0 <= i < |f| && f[i].0 == k;
          assert f[1..][i - 1].0 == k;
        }
      }
      r
  }

  /** With unique keys, the entry at position `i` is what a lookup of its key finds. */
  lemma {:induction false} LookupAt(f: Fields, i: int)
    requires UniqueKeys(f) && 0 <= i < |f|
    ensures Lookup(f, f[i].0) == Some(f[i].1)
    decreases |f|
  {
    if i > 0 {
      LookupAt(f[1..], i - 1);
    }
  }

  /** Membership splits at the first entry. */
  lemma HasKeyCons(f: Fields, k: string)
    requires f != []
    ensures HasKey(f, k) <==> f[0].0 == k || HasKey(f[1..], k)
  {
    if HasKey(f, k) && f[0].0 != k {
      var i :| 0 <= i < |f| && f[i].0 == k;
      assert f[1..][i - 1].0 == k;
    }
    if HasKey(f[1..], k) {
      var i :| 0 <= i < |f[1..]| && f[1..][i].0 == k;
      assert f[i + 1].0 == k;
    }
  }

  /** `d[k] = v`: an existing key keeps its place, a new one is appended. */
  function Set(f: Fields, k: string, v: Json): (r: Fields)
    ensures HasKey(f, k) ==> |r| == |f| && forall i :: 0 <= i < |f| ==> r[i].0 == f[i].0
    ensures !HasKey(f, k) ==> r == f + [(k, v)]
    decreases |f|
  {
    if f == [] then [(k, v)]
    else if f[0].0 == k then [(k, v)] + f[1..]
    else
      HasKeyCons(f, k);
      [f[0]] + Set(f[1..], k, v)
  }

  /** After `d[k] = v`, `k` maps to `v` and every other key keeps its value. */
  lemma {:induction false} LookupSet(f: Fields, k: string, v: Json, k2: string)
    ensures Lookup(Set(f, k, v), k2) == if k2 == k then Some(v) else Lookup(f, k2)
    decreases |f|
  {
    if f != [] && f[0].0 != k {
      LookupSet(f[1..], k, v, k2);
    }
  }

  /** Assignment keeps keys unique. */
  lemma SetUnique(f: Fields, k: string, v: Json)
    requires UniqueKeys(f)
    ensures UniqueKeys(Set(f, k, v))
  {
    var r := Set(f, k, v);
    forall i, j | 0 <= i < j < |r| ensures r[i].0 != r[j].0 {
      if !HasKey(f, k) && j == |f| {
        assert r[i] == f[i];
      }
    }
  }

  /** A dict literal: the keys paired with the values, in order. */
  function Zip(ks: seq<string>, vs: seq<Json>): (r: Fields)
    requires |ks| == |vs|
    ensures Keys(r) == ks
    ensures forall i :: 0 <= i < |r| ==> r[i] == (ks[i], vs[i])
  {
    seq(|ks|, i requires 0 <= i < |ks| => (ks[i], vs[i]))
  }

  /** `{k: v for k, v in pairs}` with first-written order and last-written values. */
  function FromPairs(ps: Fields): (r: Fields)
    decreases |ps|
  {
    if ps == [] then [] else Set(FromPairs(ps[..|ps| - 1]), ps[|ps| - 1].0, ps[|ps| - 1].1)
  }

  /** `{**a, **b}`: `a`'s entries, each overwritten by `b`, then `b`'s new keys. */
  function Merge(a: Fields, b: Fields): (r: Fields)
    decreases |b|
  {
    if b == [] then a else Merge(Set(a, b[0].0, b[0].1), b[1..])
  }

  lemma {:induction false} LookupMerge(a: Fields, b: Fields, k: string)
    requires UniqueKeys(b)
    ensures Lookup(Merge(a, b), k) == if HasKey(b, k) then Lookup(b, k) else Lookup(a, k)
    decreases |b|
  {
    if b != [] {
      LookupMerge(Set(a, b[0].0, b[0].1), b[1..], k);
      LookupSet(a, b[0].0, b[0].1, k);
      HasKeyCons(b, k);
      assert !HasKey(b[1..], b[0].0) by {
        forall i | 0 <= i < |b[1..]| ensures b[1..][i].0 != b[0].0 {
          assert b[1..][i] == b[i + 1];
        }
      }
    }
  }

  /** Membership splits at the last entry. */
  lemma HasKeySnoc(f: Fields, k: string)
    requires f != []
    ensures HasKey(f, k) <==> f[|f| - 1].0 == k || HasKey(f[..|f| - 1], k)
  {
    if HasKey(f, k) && f[|f| - 1].0 != k {
      var i :| 0 <= i < |f| && f[i].0 == k;
      assert f[..|f| - 1][i].0 == k;
    }
    if HasKey(f[..|f| - 1], k) {
      var i :| 0 <= i < |f| - 1 && f[..|f| - 1][i].0 == k;
      assert f[i].0 == k;
    }
  }

  /** `k in d` is membership in `d.keys()`. */
  lemma HasKeyIn(f: Fields, k: string)
    ensures HasKey(f, k) <==> k in Keys(f)
  {
    if k in Keys(f) {
      var i :| 0 <= i < |Keys(f)| && Keys(f)[i] == k;
      assert f[i].0 == k;
    }
  }

  /** The value the last assignment to `k` among `b` writes, if any. */
  function LastAssigned(b: Fields, k: string): (r: Option<Json>)
    ensures r.Some? <==> HasKey(b, k)
    decreases |b|
  {
    if b == [] then None
    else
      HasKeySnoc(b, k);
      if b[|b| - 1].0 == k then Some(b[|b| - 1].1) else LastAssigned(b[..|b| - 1], k)
  }

  /** One more assignment after a run of them. */
  lemma {:induction false} MergeSnoc(a: Fields, b: Fields, x: (string, Json))
    ensures Merge(a, b + [x]) == Set(Merge(a, b), x.0, x.1)
    decreases |b|
  {
    if b == [] {
      assert [x][1..] == [];
    } else {
      assert (b + [x])[0] == b[0];
      assert (b + [x])[1..] == b[1..] + [x];
      MergeSnoc(Set(a, b[0].0, b[0].1), b[1..], x);
    }
  }

  /** After a run of assignments `k` holds what the last one wrote, or its old value when none wrote it. */
  lemma {:induction false} LookupMergeLast(a: Fields, b: Fields, k: string)
    ensures Lookup(Merge(a, b), k) == if HasKey(b, k) then LastAssigned(b, k) else Lookup(a, k)
    decreases |b|
  {
    if b != [] {
      var init := b[..|b| - 1];
      var x := b[|b| - 1];
      assert b == init + [x];
      MergeSnoc(a, init, x);
      LookupSet(Merge(a, init), x.0, x.1, k);
      LookupMergeLast(a, init, k);
      HasKeySnoc(b, k);
    }
  }

  /** The last write to `k` in a longer run is the one in its tail, when the tail writes `k` at all. */
  lemma {:induction false} LastAssignedAppend(b: Fields, c: Fields, k: string)
    ensures LastAssigned(b + c, k) == if HasKey(c, k) then LastAssigned(c, k) else LastAssigned(b, k)
    decreases |c|
  {
    if c == [] {
      assert b + c == b;
    } else {
      var init := c[..|c| - 1];
      assert (b + c)[..|b + c| - 1] == b + init;
      assert (b + c)[|b + c| - 1] == c[|c| - 1];
      HasKeySnoc(c, k);
      LastAssignedAppend(b, init, k);
    }
  }

  /** The write at position `i` is the last one to its key when no later entry has that key. */
  lemma LastAssignedAt(b: Fields, i: int)
    requires 0 <= i < |b| && b[i].0 !in Keys(b[i + 1..])
    ensures LastAssigned(b, b[i].0) == Some(b[i].1)
  {
    var k := b[i].0;
    var head, tail := b[..i + 1], b[i + 1..];
    assert b == head + tail;
    HasKeyIn(tail, k);
    LastAssignedAppend(head, tail, k);
    LastAssignedLast(head);
  }

  lemma LastAssignedLast(b: Fields)
    requires b != []
    ensures LastAssigned(b, b[|b| - 1].0) == Some(b[|b| - 1].1)
  {
  }

  /** Assignment after assignment keeps keys unique. */
  lemma {:induction false} MergeUnique(a: Fields, b: Fields)
    requires UniqueKeys(a)
    ensures UniqueKeys(Merge(a, b))
    decreases |b|
  {
    if b != [] {
      SetUnique(a, b[0].0, b[0].1);
      MergeUnique(Set(a, b[0].0, b[0].1), b[1..]);
    }
  }

  /** With unique keys, the last write to a key is the only one. */
  lemma {:induction false} LastAssignedUnique(f: Fields, k: string)
    requires UniqueKeys(f)
    ensures LastAssigned(f, k) == Lookup(f, k)
    decreases |f|
  {
    if f != [] {
      var init := f[..|f| - 1];
      var x := f[|f| - 1];
      assert f == init + [x];
      LookupSnoc(init, x, k);
      LastAssignedUnique(init, k);
    }
  }

  /** The writes of several runs of assignments, one run after the other. */
  function Concat(runs: seq<Fields>): (r: Fields)
    decreases |runs|
  {
    if runs == [] then [] else Concat(runs[..|runs| - 1]) + runs[|runs| - 1]
  }

  /** The last write to `k` across several runs is in the last run that writes `k` at all. */
  lemma {:induction false} LastInRun(runs: seq<Fields>, i: int, k: string)
    requires 0 <= i < |runs| && HasKey(runs[i], k)
    requires forall j :: i < j < |runs| ==> !HasKey(runs[j], k)
    ensures LastAssigned(Concat(runs), k) == LastAssigned(runs[i], k)
    decreases |runs|
  {
    var init := runs[..|runs| - 1];
    LastAssignedAppend(Concat(init), runs[|runs| - 1], k);
    if i < |runs| - 1 {
      LastInRun(init, i, k);
    }
  }

  /** Appending an entry: an existing key still finds its old value; otherwise only the new key is found. */
  lemma {:induction false} LookupSnoc(f: Fields, x: (string, Json), k: string)
    ensures Lookup(f + [x], k) == if HasKey(f, k) then Lookup(f, k) else if x.0 == k then Some(x.1) else None
    decreases |f|
  {
    if f == [] {
      assert [x][1..] == [];
    } else {
      assert (f + [x])[0] == f[0];
      assert (f + [x])[1..] == f[1..] + [x];
      HasKeyCons(f, k);
      if f[0].0 != k {
        LookupSnoc(f[1..], x, k);
      }
    }
  }

  // ------------------------------------------------------------ truthiness

  /** Python truthiness. */
  predicate Truthy(v: Json)
  {
    match v
    case Null => false
    case Bool(b) => b
    case Int(i) => i != 0
    case Float(r) => r != 0.0
    case Str(s) => s != []
    case Arr(xs) => xs != []
    case Tuple(xs) => xs != []
    case Obj(f) => f != []
    case Opaque(_) => true
  }

  /** `a or b` */
  function Or(a: Json, b: Json): (r: Json)
    ensures r == a || r == b
    ensures Truthy(r) <==> Truthy(a) || Truthy(b)
  {
    if Truthy(a) then a else b
  }

  predicate IsNumber(v: Json) { v.Bool? || v.Int? || v.Float? }

  // ------------------------------------------------------- attribute access

  /** `o.get(k, default)`; anything but a dict has no `.get`. */
  function Get(o: Json, k: string, default: Json): (r: Result<Json>)
    ensures r.Ok? <==> o.Obj?
    ensures o.Obj? ==> r.value == match Lookup(o.fields, k) case Some(v) => v case None => default
  {
    if o.Obj? then
      Ok(match Lookup(o.fields, k) case Some(v) => v case None => default)
    else Err(AttributeError)
  }

  /** `o.get(k)` */
  function Get1(o: Json, k: string): (r: Result<Json>)
    ensures r == Get(o, k, Null)
  {
    Get(o, k, Null)
  }

  /** Whether a value can be a dict key. */
  predicate Hashable(v: Json)
  {
    match v
    case Arr(_) => false
    case Obj(_) => false
    case Tuple(xs) => forall i :: 0 <= i < |xs| ==> Hashable(xs[i])
    case _ => true
  }

  /**
   * `o.get(key, default)` with an arbitrary key value: the dicts here only
   * hold string keys, so any other hashable key is absent; an unhashable
   * one raises TypeError.
   */
  function GetAny(o: Json, key: Json, default: Json): (r: Result<Json>)
    ensures !o.Obj? ==> r == Err(AttributeError)
    ensures o.Obj? && key.Str? ==> r == Get(o, key.s, default)
    ensures o.Obj? && !Hashable(key) ==> r == Err(TypeError)
  {
    if !o.Obj? then Err(AttributeError)
    else if key.Str? then Get(o, key.s, default)
    else if !Hashable(key) then Err(TypeError)
    else Ok(default)
  }

  /** `needle in hay` for a string needle. */
  function InStr(needle: string, hay: Json): (r: Result<bool>)
    ensures hay.Str? ==> r == Ok(Text.Contains(hay.s, needle))
    ensures hay.Obj? ==> r == Ok(HasKey(hay.fields, needle))
    ensures r.Err? <==> !(hay.Str? || hay.Obj? || hay.Arr? || hay.Tuple?)
  {
    match hay
    case Str(s) => Ok(Text.Contains(s, needle))
    case Obj(f) => Ok(HasKey(f, needle))
    case Arr(xs) => Ok(Str(needle) in xs)
    case Tuple(xs) => Ok(Str(needle) in xs)
    case _ => Err(TypeError)
  }

  /** `for x in v`: a list's items, a dict's keys, a string's characters. */
  function Iterate(v: Json): (r: Result<seq<Json>>)
    ensures v.Obj? ==> r.Ok? && |r.value| == |v.fields|
    ensures v.Arr? ==> r == Ok(v.items)
    ensures v.Tuple? ==> r == Ok(v.parts)
    ensures v.Str? ==> r.Ok? && |r.value| == |v.s|
    ensures r.Err? <==> !(v.Str? || v.Obj? || v.Arr? || v.Tuple?)
    ensures r.Err? ==> r.error == TypeError
  {
    match v
    case Arr(xs) => Ok(xs)
    case Tuple(xs) => Ok(xs)
    case Obj(f) => Ok(seq(|f|, i requires 0 <= i < |f| => Str(f[i].0)))
    case Str(s) => Ok(seq(|s|, i requires 0 <= i < |s| => Str([s[i]])))
    case _ => Err(TypeError)
  }

  /** `v[0]`: the first item of a list or tuple, the first character of a string; a dict with string keys has no key 0. */
  function First(v: Json): (r: Result<Json>)
    ensures (v.Arr? && v.items != []) ==> r == Ok(v.items[0])
    ensures r.Ok? <==> (v.Arr? && v.items != []) || (v.Tuple? && v.parts != []) || (v.Str? && v.s != [])
    ensures r.Err? ==> r.error == (if v.Obj? then KeyError else if v.Arr? || v.Tuple? || v.Str? then IndexError else TypeError)
  {
    match v
    case Arr(xs) => if xs != [] then Ok(xs[0]) else Err(IndexError)
    case Tuple(xs) => if xs != [] then Ok(xs[0]) else Err(IndexError)
    case Str(s) => if s != [] then Ok(Str([s[0]])) else Err(IndexError)
    case Obj(_) => Err(KeyError)
    case _ => Err(TypeError)
  }

  /** `len(v)` */
  function Len(v: Json): (r: Result<nat>)
    ensures r.Ok? <==> (v.Str? || v.Obj? || v.Arr? || v.Tuple?)
    ensures r.Ok? ==> Iterate(v).Ok? && r.value == |Iterate(v).value|
    ensures r.Err? ==> r.error == TypeError
  {
    match v
    case Arr(xs) => Ok(|xs|)
    case Tuple(xs) => Ok(|xs|)
    case Obj(f) => Ok(|f|)
    case Str(s) => Ok(|s|)
    case _ => Err(TypeError)
  }

  // ------------------------------------------------------------ arithmetic

  /** The numeric value of a number (`True` is 1). */
  function NumValue(v: Json): real
    requires IsNumber(v)
  {
    match v
    case Bool(b) => if b then 1.0 else 0.0
    case Int(i) => i as real
    case Float(r) => r
  }

  /** `a + b` */
  function Add(a: Json, b: Json): (r: Result<Json>)
    ensures IsNumber(a) && IsNumber(b) ==> r.Ok? && IsNumber(r.value) && NumValue(r.value) == NumValue(a) + NumValue(b)
    ensures a.Str? && b.Str? ==> r == Ok(Str(a.s + b.s))
    ensures r.Err? <==> !((IsNumber(a) && IsNumber(b)) || (a.Str? && b.Str?) || (a.Arr? && b.Arr?) || (a.Tuple? && b.Tuple?))
  {
    if IsNumber(a) && IsNumber(b) then
      if a.Float? || b.Float? then Ok(Float(NumValue(a) + NumValue(b)))
      else Ok(Int(IntOf(a) + IntOf(b)))
    else if a.Str? && b.Str? then Ok(Str(a.s + b.s))
    else if a.Arr? && b.Arr? then Ok(Arr(a.items + b.items))
    else if a.Tuple? && b.Tuple? then Ok(Tuple(a.parts + b.parts))
    else Err(TypeError)
  }

  /** `a - b` */
  function Sub(a: Json, b: Json): (r: Result<Json>)
    ensures IsNumber(a) && IsNumber(b) ==> r.Ok? && IsNumber(r.value) && NumValue(r.value) == NumValue(a) - NumValue(b)
    ensures r.Err? <==> !(IsNumber(a) && IsNumber(b))
  {
    if IsNumber(a) && IsNumber(b) then
      if a.Float? || b.Float? then Ok(Float(NumValue(a) - NumValue(b)))
      else Ok(Int(IntOf(a) - IntOf(b)))
    else Err(TypeError)
  }

  function IntOf(v: Json): (r: int)
    requires v.Bool? || v.Int?
    ensures r as real == NumValue(v)
  {
    if v.Int? then v.i else if v.b then 1 else 0
  }

  /** `float(v)`: numbers convert, text is parsed, anything else raises. */
  function FloatOf(v: Json): (r: Result<real>)
    ensures IsNumber(v) ==> r == Ok(NumValue(v))
    ensures v.Str? ==> (r.Ok? <==> Numbers.ParseFloat(v.s).Some?)
    ensures !IsNumber(v) && !v.Str? ==> r == Err(TypeError)
    ensures r.Err? ==> r.error == TypeError || r.error == ValueError
  {
    if IsNumber(v) then Ok(NumValue(v))
    else if v.Str? then
      match Numbers.ParseFloat(v.s)
      case Some(x) => Ok(x)
      case None => Err(ValueError)
    else Err(TypeError)
  }

  // ----------------------------------------------------------- str / repr

  /** `str(v)` (also what an f-string placeholder without a format spec shows). */
  function StrOf(v: Json): (r: string)
    ensures v.Str? ==> r == v.s
    ensures v.Int? ==> Numbers.ParseFloat(r) == Some(v.i as real)
  {
    match v
    case Str(s) => s
    case Opaque(t) => t
    case Int(i) => Numbers.IntToStringParses(i); Numbers.IntToString(i)
    case _ => Repr(v)
  }

  /** `repr(v)` */
  function Repr(v: Json): (r: string)
    ensures r != []
    ensures v.Str? ==> r[0] == r[|r| - 1] && r[0] in {'\'', '"'}
  {
    match v
    case Null => "None"
    case Bool(b) => if b then "True" else "False"
    case Int(i) => Numbers.IntToString(i)
    case Float(x) => Numbers.FloatRepr(x)
    case Str(s) => StrRepr(s)
    case Arr(xs) => "[" + ReprItems(xs) + "]"
    case Tuple(xs) => if |xs| == 1 then "(" + Repr(xs[0]) + ",)" else "(" + ReprItems(xs) + ")"
    case Obj(f) => "{" + ReprFields(f) + "}"
    case Opaque(t) => if t == [] then "<object>" else t
  }

  function ReprItems(xs: seq<Json>): string
    decreases xs
  {
    if xs == [] then []
    else if |xs| == 1 then Repr(xs[0])
    else Repr(xs[0]) + ", " + ReprItems(xs[1..])
  }

  function ReprFields(f: Fields): string
    decreases f
  {
    if f == [] then []
    else
      assert f[0].1 < Obj(f);
      var entry := StrRepr(f[0].0) + ": " + Repr(f[0].1);
      if |f| == 1 then entry else entry + ", " + ReprFields(f[1..])
  }

  /** The quote `repr` puts around a string: `'` unless the text has `'` and no `"`. */
  function QuoteFor(s: string): (q: char)
    ensures q == '"' <==> '\'' in s && '"' !in s
  {
    if '\'' in s && '"' !in s then '"' else '\''
  }

  /** `repr(s)`: quoted, with backslash escapes for the quote, backslash and control characters. */
  function StrRepr(s: string): (r: string)
    ensures |r| >= 2 && r[0] == r[|r| - 1] == QuoteFor(s)
  {
    var q := QuoteFor(s);
    [q] + EscapeChars(s, q) + [q]
  }

  function EscapeChars(s: string, q: char): string
    decreases |s|
  {
    if s == [] then [] else EscapeChar(s[0], q) + EscapeChars(s[1..], q)
  }

  function EscapeChar(c: char, q: char): (r: string)
    ensures r != []
  {
    if c == q || c == '\\' then ['\\', c]
    else if c == '\n' then "\\n"
    else if c == '\r' then "\\r"
    else if c == '\t' then "\\t"
    else if c < ' ' || c == '\U{7F}' then "\\x" + [HexDigit(c as int / 16), HexDigit(c as int % 16)]
    else [c]
  }

  function HexDigit(d: int): char
    requires 0 <= d < 16
  {
    "0123456789abcdef"[d]
  }
}
