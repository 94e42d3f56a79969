/**
 * Python string primitives the memo filler relies on: `str.replace`,
 * substring search, `str.strip`, `str.lower`, `str.split` and `str.join`.
 * Each is defined by the scan Python performs, left to right.
 */
module Text {

  /** `s.startswith(p)` */
  predicate StartsWith(s: string, p: string)
  {
    |p| <= |s| && s[..|p|] == p
  }

  /** `p in s` for strings: some position of `s` starts an occurrence of `p`. */
  predicate Contains(s: string, p: string)
    decreases |s|
  {
    StartsWith(s, p) || (s != [] && Contains(s[1..], p))
  }

  /**
   * `s.replace(pat, rep)`: the leftmost occurrence is replaced, then the scan
   * resumes after it, so occurrences never overlap.
   */
  function Replace(s: string, pat: string, rep: string): string
    requires pat != []
    decreases |s|
  {
    if StartsWith(s, pat) then rep + Replace(s[|pat|..], pat, rep)
    else if s == [] then []
    else [s[0]] + Replace(s[1..], pat, rep)
  }

  lemma {:induction false} ReplaceAbsent(s: string, pat: string, rep: string)
    requires pat != [] && !Contains(s, pat)
    ensures Replace(s, pat, rep) == s
    decreases |s|
  {
    if s != [] {
      ReplaceAbsent(s[1..], pat, rep);
      assert s == [s[0]] + s[1..];
    }
  }

  /** A stretch without the pattern's first character is copied as it is. */
  lemma {:induction false} ReplaceSkip(s: string, pat: string, rep: string, n: int)
    requires pat != [] && 0 <= n <= |s| && pat[0] !in s[..n]
    ensures Replace(s, pat, rep) == s[..n] + Replace(s[n..], pat, rep)
    decreases n
  {
    if n > 0 {
      assert s[0] == s[..n][0];
      assert !StartsWith(s, pat) by {
        if |pat| <= |s| {
          assert s[..|pat|][0] == s[0];
        }
      }
      var t := s[1..][..n - 1];
      assert pat[0] !in t by {
        forall i | 0 <= i < |t| ensures t[i] != pat[0] {
          assert t[i] == s[..n][i + 1];
        }
      }
      assert Replace(s, pat, rep) == [s[0]] + Replace(s[1..], pat, rep);
      ReplaceSkip(s[1..], pat, rep, n - 1);
      assert s[1..][n - 1..] == s[n..];
      assert s[..n] == [s[0]] + t;
    }
  }

  /** Replacing adds only the characters of the replacement. */
  lemma {:induction false} ReplaceKeepsAbsent(s: string, pat: string, rep: string, c: char)
    requires pat != [] && c !in s && c !in rep
    ensures c !in Replace(s, pat, rep)
    decreases |s|
  {
    if StartsWith(s, pat) {
      ReplaceKeepsAbsent(s[|pat|..], pat, rep, c);
    } else if s != [] {
      ReplaceKeepsAbsent(s[1..], pat, rep, c);
    }
  }

  /** A pattern with a character that `s` lacks does not occur in `s`. */
  lemma {:induction false} AbsentChar(s: string, p: string, j: int)
    requires 0 <= j < |p| && p[j] !in s
    ensures !Contains(s, p)
    decreases |s|
  {
    if |p| <= |s| {
      assert s[..|p|][j] == s[j] && s[j] in s;
    }
    if s != [] {
      AbsentChar(s[1..], p, j);
    }
  }

  /** `s.replace(c, '')`: `s` with every `c` dropped. */
  function Without(s: string, c: char): (r: string)
    ensures c !in r
    decreases |s|
  {
    if s == [] then [] else (if s[0] == c then [] else [s[0]]) + Without(s[1..], c)
  }

  /** Dropping characters adds none. */
  lemma {:induction false} WithoutKeepsAbsent(s: string, c: char, d: char)
    requires d !in s
    ensures d !in Without(s, c)
    decreases |s|
  {
    if s != [] {
      WithoutKeepsAbsent(s[1..], c, d);
    }
  }

  lemma {:induction false} WithoutAppend(a: string, b: string, c: char)
    ensures Without(a + b, c) == Without(a, c) + Without(b, c)
    decreases |a|
  {
    if a != [] {
      assert (a + b)[1..] == a[1..] + b;
      WithoutAppend(a[1..], b, c);
    } else {
      assert a + b == b;
    }
  }

  lemma {:induction false} WithoutAbsent(s: string, c: char)
    requires c !in s
    ensures Without(s, c) == s
    decreases |s|
  {
    if s != [] {
      WithoutAbsent(s[1..], c);
      assert s == [s[0]] + s[1..];
    }
  }

  /**
   * A replacement that only inserts spaces (`rep` and `pat` agree once spaces
   * are dropped) keeps every other character of the input, in order.
   */
  lemma {:induction false} ReplaceOnlyInsertsSpaces(s: string, pat: string, rep: string)
    requires pat != [] && Without(rep, ' ') == Without(pat, ' ')
    ensures Without(Replace(s, pat, rep), ' ') == Without(s, ' ')
    decreases |s|
  {
    if StartsWith(s, pat) {
      ReplaceOnlyInsertsSpaces(s[|pat|..], pat, rep);
      WithoutAppend(rep, Replace(s[|pat|..], pat, rep), ' ');
      assert s == pat + s[|pat|..];
      WithoutAppend(pat, s[|pat|..], ' ');
    } else if s != [] {
      ReplaceOnlyInsertsSpaces(s[1..], pat, rep);
      WithoutAppend([s[0]], Replace(s[1..], pat, rep), ' ');
      assert s == [s[0]] + s[1..];
      WithoutAppend([s[0]], s[1..], ' ');
    }
  }

  /** The characters `str.strip()` removes (`str.isspace()`). */
  predicate IsSpace(c: char)
  {
    ('\t' <= c <= '\r') || ('\U{001C}' <= c <= ' ') || c == '\U{0085}' || c == '\U{00A0}' || c == '\U{1680}'
    || ('\U{2000}' <= c <= '\U{200A}') || c == '\U{2028}' || c == '\U{2029}' || c == '\U{202F}' || c == '\U{205F}'
    || c == '\U{3000}'
  }

  function StripLeft(s: string): string
    decreases |s|
  {
    if s != [] && IsSpace(s[0]) then StripLeft(s[1..]) else s
  }

  function StripRight(s: string): string
    decreases |s|
  {
    if s != [] && IsSpace(s[|s| - 1]) then StripRight(s[..|s| - 1]) else s
  }

  /** What `lstrip` leaves is a suffix that starts with no white space. */
  lemma {:induction false} StripLeftShape(s: string)
    ensures var r := StripLeft(s); |r| <= |s| && r == s[|s| - |r|..] && (r != [] ==> !IsSpace(r[0]))
    decreases |s|
  {
    if s != [] && IsSpace(s[0]) {
      StripLeftShape(s[1..]);
    }
  }

  /** What `rstrip` leaves is a prefix that ends with no white space. */
  lemma {:induction false} StripRightShape(s: string)
    ensures var r := StripRight(s); |r| <= |s| && r == s[..|r|] && (r != [] ==> !IsSpace(r[|r| - 1]))
    decreases |s|
  {
    if s != [] && IsSpace(s[|s| - 1]) {
      StripRightShape(s[..|s| - 1]);
    }
  }

  /** `rstrip` keeps a text that starts with a non-blank character non-empty. */
  lemma {:induction false} StripRightKeepsHead(s: string)
    requires s != [] && !IsSpace(s[0])
    ensures StripRight(s) != []
    decreases |s|
  {
    if IsSpace(s[|s| - 1]) {
      StripRightKeepsHead(s[..|s| - 1]);
    }
  }

  /** `strip` keeps a text that starts with a non-blank character non-empty. */
  lemma StripNonBlank(s: string)
    requires s != [] && !IsSpace(s[0])
    ensures Strip(s) != []
  {
    StripRightKeepsHead(s);
  }

  /** `r` occurs in `s` starting at position `i`. */
  predicate SliceAt(s: string, r: string, i: int)
  {
    0 <= i <= |s| - |r| && s[i..i + |r|] == r
  }

  /** A trailing blank is what `lstrip` leaves after the text, unless it removes everything. */
  lemma {:induction false} StripLeftSpaceEnd(s: string)
    ensures StripLeft(s + " ") == if StripLeft(s) == [] then [] else StripLeft(s) + " "
    decreases |s|
  {
    if s == [] {
      assert StripLeft(" ") == StripLeft(" "[1..]);
    } else if IsSpace(s[0]) {
      assert (s + " ")[1..] == s[1..] + " ";
      StripLeftSpaceEnd(s[1..]);
    }
  }

  /** `rstrip` removes a trailing blank. */
  lemma StripRightSpaceEnd(s: string)
    ensures StripRight(s + " ") == StripRight(s)
  {
    assert (s + " ")[..|s|] == s;
  }

  /** `strip` ignores one trailing blank. */
  lemma StripSpaceEnd(s: string)
    ensures Strip(s + " ") == Strip(s)
  {
    StripLeftSpaceEnd(s);
    if StripLeft(s) != [] {
      StripRightSpaceEnd(StripLeft(s));
    }
  }

  /** `s.strip()`: a contiguous piece of `s` with no white space at either end. */
  function Strip(s: string): (r: string)
    ensures exists i :: SliceAt(s, r, i)
    ensures Stripped(r)
  {
    var l := StripLeft(s);
    var r := StripRight(l);
    StripLeftShape(s);
    StripRightShape(l);
    assert r == s[|s| - |l|..][..|r|] == s[|s| - |l|..|s| - |l| + |r|];
    assert SliceAt(s, r, |s| - |l|);
    r
  }

  /** No white space at either end. */
  predicate Stripped(s: string)
  {
    s != [] ==> !IsSpace(s[0]) && !IsSpace(s[|s| - 1])
  }

  /** A text with no white space at either end is its own strip. */
  lemma StripStripped(s: string)
    requires Stripped(s)
    ensures Strip(s) == s
  {
  }

  /** Stripping adds no character. */
  lemma StripKeepsAbsent(s: string, c: char)
    requires c !in s
    ensures c !in Strip(s)
  {
    var r := Strip(s);
    var i :| SliceAt(s, r, i);
    if c in r {
      SliceChars(s, r, i, c);
    }
  }

  /** Stripping twice is stripping once. */
  lemma StripTwice(s: string)
    ensures Strip(Strip(s)) == Strip(s)
  {
    StripStripped(Strip(s));
  }

  /** Every character of a piece of `s` is a character of `s`. */
  lemma SliceChars(s: string, r: string, i: int, c: char)
    requires SliceAt(s, r, i) && c in r
    ensures c in s
  {
    var k :| 0 <= k < |r| && r[k] == c;
    assert s[i + k] == r[k];
  }

  /** `s.strip(chars)` with an explicit character set. */
  function StripChars(s: string, chars: set<char>): (r: string)
    ensures |r| <= |s|
    ensures r != [] ==> r[0] !in chars && r[|r| - 1] !in chars
    decreases |s|
  {
    if s != [] && s[0] in chars then StripChars(s[1..], chars)
    else if s != [] && s[|s| - 1] in chars then StripChars(s[..|s| - 1], chars)
    else s
  }

  /** A text made only of stripped characters strips down to nothing. */
  lemma {:induction false} StripCharsAll(s: string, chars: set<char>)
    requires forall i :: 0 <= i < |s| ==> s[i] in chars
    ensures StripChars(s, chars) == []
    decreases |s|
  {
    if s != [] {
      StripCharsAll(s[1..], chars);
    }
  }

  /** `s.lower()` on ASCII letters; other characters are kept. */
  function Lower(s: string): (r: string)
    ensures |r| == |s|
  {
    seq(|s|, i requires 0 <= i < |s| =>
      if 'A' <= s[i] <= 'Z' then (s[i] as int - 'A' as int + 'a' as int) as char else s[i])
  }

  /** Lower-casing works character by character, so it distributes over `+`. */
  lemma LowerAppend(a: string, b: string)
    ensures Lower(a + b) == Lower(a) + Lower(b)
  {
    var l, r := Lower(a + b), Lower(a) + Lower(b);
    forall i | 0 <= i < |l| ensures l[i] == r[i] {
      if i < |a| {
        assert (a + b)[i] == a[i];
      } else {
        assert (a + b)[i] == b[i - |a|];
      }
    }
  }

  /** `s.split(sep)` for a non-empty separator: the pieces between occurrences. */
  function Split(s: string, sep: string): (r: seq<string>)
    requires sep != []
    ensures |r| >= 1
    decreases |s|
  {
    if StartsWith(s, sep) then [[]] + Split(s[|sep|..], sep)
    else if s == [] then [[]]
    else
      var rest := Split(s[1..], sep);
      [[s[0]] + rest[0]] + rest[1..]
  }

  /** `sep.join(parts)` */
  function Join(sep: string, parts: seq<string>): string
    decreases |parts|
  {
    if parts == [] then []
    else if |parts| == 1 then parts[0]
    else parts[0] + sep + Join(sep, parts[1..])
  }

  /** Splitting and joining on the same separator gives the string back. */
  lemma {:induction false} JoinSplit(s: string, sep: string)
    requires sep != []
    ensures Join(sep, Split(s, sep)) == s
    decreases |s|
  {
    if StartsWith(s, sep) {
      var rest := Split(s[|sep|..], sep);
      JoinSplit(s[|sep|..], sep);
      assert s == sep + s[|sep|..];
      assert Join(sep, [[]] + rest) == [] + sep + Join(sep, rest) by {
        assert ([[]] + rest)[1..] == rest;
      }
    } else if s != [] {
      JoinSplit(s[1..], sep);
      JoinConsHead(s[0], sep, Split(s[1..], sep));
      assert s == [s[0]] + s[1..];
    }
  }

  /** Prefixing the first part with `c` prefixes the joined text with `c`. */
  lemma JoinConsHead(c: char, sep: string, parts: seq<string>)
    requires parts != []
    ensures Join(sep, [[c] + parts[0]] + parts[1..]) == [c] + Join(sep, parts)
  {
    var r := [[c] + parts[0]] + parts[1..];
    assert r[1..] == parts[1..];
  }

  /** Splitting a text that lacks the separator character gives the text alone. */
  lemma {:induction false} SplitWithout(s: string, c: char)
    requires c !in s
    ensures Split(s, [c]) == [s]
    decreases |s|
  {
    if s != [] {
      SplitWithout(s[1..], c);
      assert s == [s[0]] + s[1..];
    }
  }

  /** A separator-free head followed by the separator splits off as the first piece. */
  lemma {:induction false} SplitAfterHead(x: string, c: char, t: string)
    requires c !in x
    ensures Split(x + [c] + t, [c]) == [x] + Split(t, [c])
    decreases |x|
  {
    if x == [] {
      assert ([c] + t)[1..] == t;
    } else {
      var s := x + [c] + t;
      SplitAfterHead(x[1..], c, t);
      assert s[1..] == x[1..] + [c] + t;
      assert s[0] == x[0] && x[0] != c;
      assert !StartsWith(s, [c]);
      var rest := Split(s[1..], [c]);
      assert rest[0] == x[1..] && rest[1..] == Split(t, [c]);
      assert x == [x[0]] + x[1..];
    }
  }

  /** Joining pieces that lack the separator and splitting again gives the pieces back. */
  lemma {:induction false} SplitJoin(parts: seq<string>, c: char)
    requires parts != []
    requires forall k :: 0 <= k < |parts| ==> c !in parts[k]
    ensures Split(Join([c], parts), [c]) == parts
    decreases |parts|
  {
    if |parts| == 1 {
      SplitWithout(parts[0], c);
    } else {
      SplitJoin(parts[1..], c);
      SplitAfterHead(parts[0], c, Join([c], parts[1..]));
      assert parts == [parts[0]] + parts[1..];
    }
  }

  /** No piece of a split on a one-character separator contains that character. */
  lemma {:induction false} SplitPiecesLackSeparator(s: string, c: char)
    ensures forall k :: 0 <= k < |Split(s, [c])| ==> c !in Split(s, [c])[k]
    decreases |s|
  {
    if StartsWith(s, [c]) {
      SplitPiecesLackSeparator(s[1..], c);
      assert Split(s, [c]) == [[]] + Split(s[1..], [c]);
    } else if s != [] {
      SplitPiecesLackSeparator(s[1..], c);
      assert s[0] != c;
    }
  }

  /** The text before the first occurrence of `c` (all of `s` when there is none). */
  function BeforeFirst(s: string, c: char): (r: string)
    ensures StartsWith(s, r) && c !in r
    decreases |s|
  {
    if s == [] || s[0] == c then [] else [s[0]] + BeforeFirst(s[1..], c)
  }

  /** `s.split(c)[0]` */
  lemma {:induction false} SplitFirstIsBeforeFirst(s: string, c: char)
    ensures Split(s, [c])[0] == BeforeFirst(s, c)
    decreases |s|
  {
    if s != [] && s[0] != c {
      SplitFirstIsBeforeFirst(s[1..], c);
    }
  }
}
