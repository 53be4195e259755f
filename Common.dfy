/** Shared vocabulary: optional values and results, the JavaScript string
    operations the front-end relies on (trim, toLowerCase, startsWith,
    includes, split on whitespace, parseInt, padStart) and order-preserving
    filtering of lists. */
module Common {

  datatype Option<+T> = None | Some(value: T)

  datatype Result<+T, +E> = Ok(value: T) | Err(error: E)

  // ---------------------------------------------------------------------------
  // Whitespace, trim

  /** The characters that ECMAScript's `trim()` strips and `\s` matches
      (WhiteSpace and LineTerminator code points). */
  predicate IsSpace(c: char)
  {
    || c == ' ' || c == '\t' || c == '\n' || c == '\r'
    || c == '\U{000B}' || c == '\U{000C}' || c == '\U{00A0}' || c == '\U{1680}'
    || ('\U{2000}' <= c <= '\U{200A}')
    || c == '\U{2028}' || c == '\U{2029}' || c == '\U{202F}' || c == '\U{205F}'
    || c == '\U{3000}' || c == '\U{FEFF}'
  }

  /** Every character of `s` is whitespace (vacuously true of ""). */
  predicate IsBlank(s: string)
  {
    forall i :: 0 <= i < |s| ==> IsSpace(s[i])
  }

  /** `s.trimStart()`: the suffix left after dropping leading whitespace. */
  function TrimStart(s: string): (r: string)
    ensures |r| <= |s| && r == s[|s| - |r|..]
    ensures r != [] ==> !IsSpace(r[0])
    ensures IsBlank(s[..|s| - |r|])
  {
    if s != [] && IsSpace(s[0]) then
      var r := TrimStart(s[1..]);
      assert IsBlank(s[..|s| - |r|]) by {
        var p := s[..|s| - |r|];
        forall i | 0 <= i < |p| ensures IsSpace(p[i]) {
          if i > 0 {
            assert p[i] == s[1..][..|s| - 1 - |r|][i - 1];
          }
        }
      }
      r
    else s
  }

  /** `s.trimEnd()`: the prefix left after dropping trailing whitespace. */
  function TrimEnd(s: string): (r: string)
    ensures |r| <= |s| && r == s[..|r|]
    ensures r != [] ==> !IsSpace(r[|r| - 1])
    ensures IsBlank(s[|r|..])
  {
    if s != [] && IsSpace(s[|s| - 1]) then
      var r := TrimEnd(s[..|s| - 1]);
      assert IsBlank(s[|r|..]) by {
        var p := s[|r|..];
        forall i | 0 <= i < |p| ensures IsSpace(p[i]) {
          if i < |p| - 1 {
            assert p[i] == s[..|s| - 1][|r|..][i];
          }
        }
      }
      r
    else s
  }

  /** `s.trim()`. */
  function Trim(s: string): string
  {
    TrimEnd(TrimStart(s))
  }

  /** `!s.trim()` holds exactly for blank strings: trimming yields "" iff
      every character is whitespace. */
  lemma TrimEmptyIffBlank(s: string)
    ensures Trim(s) == "" <==> IsBlank(s)
  {
    var t := TrimStart(s);
    var k := |s| - |t|;
    assert |t| > 0 ==> t[0] == s[k];
    assert forall j :: 0 <= j < k ==> IsSpace(s[j]) by {
      forall j | 0 <= j < k ensures IsSpace(s[j]) {
        assert s[..k][j] == s[j];
      }
    }
    if !IsBlank(s) {
      var i :| 0 <= i < |s| && !IsSpace(s[i]);
      assert t[i - k] == s[i];
      var r := TrimEnd(t);
      assert IsBlank(t[|r|..]);
      assert !IsBlank(t) by {
        assert !IsSpace(t[0]);
      }
      assert t[0..] == t;
    }
  }

  // ---------------------------------------------------------------------------
  // Case folding, prefixes, substrings

  /** Lower-casing of one character, restricted to ASCII letters. */
  function LowerChar(c: char): (r: char)
    ensures !('A' <= r <= 'Z')
    ensures 'A' <= c <= 'Z' || r == c
  {
    if 'A' <= c <= 'Z' then (c as int - 'A' as int + 'a' as int) as char else c
  }

  /** `s.toLowerCase()` on ASCII letters. */
  function ToLower(s: string): (r: string)
    ensures |r| == |s|
    ensures forall i :: 0 <= i < |r| ==> r[i] == LowerChar(s[i])
  {
    if s == [] then [] else [LowerChar(s[0])] + ToLower(s[1..])
  }

  /** Lower-casing twice is lower-casing once. */
  lemma ToLowerIdempotent(s: string)
    ensures ToLower(ToLower(s)) == ToLower(s)
  {
    var l := ToLower(s);
    assert forall i :: 0 <= i < |l| ==> LowerChar(l[i]) == l[i];
  }

  /** `s.startsWith(p)`. */
  predicate StartsWith(s: string, p: string)
  {
    |p| <= |s| && s[..|p|] == p
  }

  /** `hay.includes(needle)`: searched position by position from the left. */
  predicate Includes(hay: string, needle: string)
    decreases |hay|
  {
    StartsWith(hay, needle) || (hay != [] && Includes(hay[1..], needle))
  }

  /** `needle` occurs in `hay` at position `i`. */
  predicate OccursAt(hay: string, needle: string, i: int)
  {
    0 <= i <= |hay| - |needle| && hay[i..i + |needle|] == needle
  }

  /** `includes` holds iff the needle occurs at some position of the haystack. */
  lemma {:induction false} IncludesIffOccurs(hay: string, needle: string)
    ensures Includes(hay, needle) <==> exists i :: OccursAt(hay, needle, i)
    decreases |hay|
  {
    if StartsWith(hay, needle) {
      assert OccursAt(hay, needle, 0);
    } else if hay != [] {
      IncludesIffOccurs(hay[1..], needle);
      if exists i :: OccursAt(hay, needle, i) {
        var i :| OccursAt(hay, needle, i);
        assert i != 0;
        assert hay[1..][i - 1..i - 1 + |needle|] == hay[i..i + |needle|];
        assert OccursAt(hay[1..], needle, i - 1);
      }
      if Includes(hay[1..], needle) {
        var j :| OccursAt(hay[1..], needle, j);
        assert hay[1..][j..j + |needle|] == hay[j + 1..j + 1 + |needle|];
        assert OccursAt(hay, needle, j + 1);
      }
    }
  }

  // ---------------------------------------------------------------------------
  // Splitting

  /** `s.split(sep).pop()`: the text after the last separator, or the whole
      string when it holds none. */
  function LastSegment(s: string, sep: char): (r: string)
    ensures |r| <= |s| && r == s[|s| - |r|..]
    ensures sep !in r
    ensures |r| == |s| || s[|s| - |r| - 1] == sep
  {
    if s == [] then []
    else if s[|s| - 1] == sep then []
    else
      var r := LastSegment(s[..|s| - 1], sep);
      assert s[..|s| - 1][|s| - 1 - |r|..] + [s[|s| - 1]] == s[|s| - 1 - |r|..];
      r + [s[|s| - 1]]
  }

  /** `s.split(sep)[0]`: the text before the first separator, or the whole
      string when it holds none. */
  function FirstSegment(s: string, sep: char): (r: string)
    ensures |r| <= |s| && r == s[..|r|]
    ensures sep !in r
    ensures |r| == |s| || s[|r|] == sep
  {
    if s == [] || s[0] == sep then []
    else [s[0]] + FirstSegment(s[1..], sep)
  }

  /** A segment free of the separator is read back whole from the front of
      a joined string. */
  lemma {:induction false} FirstSegmentOfJoin(a: string, sep: char, rest: string)
    requires sep !in a
    ensures FirstSegment(a + [sep] + rest, sep) == a
  {
    if a != [] {
      assert (a + [sep] + rest)[1..] == a[1..] + [sep] + rest;
      FirstSegmentOfJoin(a[1..], sep, rest);
    }
  }

  /** `s.split(/\s+/).filter(Boolean).length`: the number of maximal runs of
      non-whitespace characters, counted from the right. */
  function WordCount(s: string): nat
  {
    if s == [] then 0
    else WordCount(s[..|s| - 1]) + (if WordStartsAt(s, |s| - 1) then 1 else 0)
  }

  /** A word begins at position `i`: a non-space preceded by a space or by
      nothing. */
  predicate WordStartsAt(s: string, i: int)
    requires 0 <= i < |s|
  {
    !IsSpace(s[i]) && (i == 0 || IsSpace(s[i - 1]))
  }

  /** The positions where words begin, an independent reading of the count. */
  function WordStarts(s: string): set<int>
  {
    set i | 0 <= i < |s| && WordStartsAt(s, i)
  }

  /** Dropping the last character drops only its own possible word start. */
  lemma WordStartsOfPrefix(s: string)
    requires s != []
    ensures WordStarts(s[..|s| - 1]) == WordStarts(s) - {|s| - 1}
  {
    var p := s[..|s| - 1];
    forall i | 0 <= i < |p| ensures WordStartsAt(p, i) == WordStartsAt(s, i) {
      assert p[i] == s[i];
      if i > 0 {
        assert p[i - 1] == s[i - 1];
      }
    }
  }

  /** The word count is the number of word beginnings. */
  lemma {:induction false} WordCountIsStarts(s: string)
    ensures WordCount(s) == |WordStarts(s)|
  {
    if s != [] {
      var n := |s| - 1;
      WordCountIsStarts(s[..n]);
      WordStartsOfPrefix(s);
      var q := WordStarts(s) - {n};
      if WordStartsAt(s, n) {
        assert WordStarts(s) == q + {n};
      } else {
        assert WordStarts(s) == q;
      }
    }
  }

  /** A blank text has no words. */
  lemma {:induction false} BlankHasNoWords(s: string)
    requires IsBlank(s)
    ensures WordCount(s) == 0
  {
    if s != [] {
      BlankHasNoWords(s[..|s| - 1]);
    }
  }

  // ---------------------------------------------------------------------------
  // Decimal numbers

  predicate IsDigit(c: char)
  {
    '0' <= c <= '9'
  }

  predicate AllDigits(s: string)
  {
    forall i :: 0 <= i < |s| ==> IsDigit(s[i])
  }

  function DigitChar(d: nat): (c: char)
    requires d < 10
    ensures IsDigit(c)
  {
    ('0' as int + d) as char
  }

  function DigitValue(c: char): nat
    requires IsDigit(c)
  {
    c as int - '0' as int
  }

  /** `n.toString()` for a natural number. */
  function DecimalString(n: nat): (r: string)
    ensures |r| >= 1 && AllDigits(r)
    ensures n < 10 <==> |r| == 1
  {
    if n < 10 then [DigitChar(n)] else DecimalString(n / 10) + [DigitChar(n % 10)]
  }

  /** The value of a string of decimal digits (leading zeros allowed). */
  function DigitsValue(s: string): nat
    requires AllDigits(s)
  {
    if s == [] then 0 else DigitsValue(s[..|s| - 1]) * 10 + DigitValue(s[|s| - 1])
  }

  /** Printing a number and reading it back gives the number. */
  lemma {:induction false} DecimalRoundTrip(n: nat)
    ensures DigitsValue(DecimalString(n)) == n
  {
    if n >= 10 {
      DecimalRoundTrip(n / 10);
      var r := DecimalString(n);
      assert r[..|r| - 1] == DecimalString(n / 10);
    }
  }

  /** A leading zero does not change the value. */
  lemma LeadingZero(s: string)
    requires AllDigits(s)
    ensures AllDigits("0" + s) && DigitsValue("0" + s) == DigitsValue(s)
    decreases |s|
  {
    if s != [] {
      LeadingZero(s[..|s| - 1]);
      assert ("0" + s)[..|s|] == "0" + s[..|s| - 1];
    }
  }

  /** `s.padStart(2, '0')`. */
  function Pad2(s: string): (r: string)
    ensures |r| == if |s| >= 2 then |s| else 2
    ensures r[|r| - |s|..] == s
    ensures forall i :: 0 <= i < |r| - |s| ==> r[i] == '0'
  {
    if |s| >= 2 then s else if |s| == 1 then "0" + s else "00"
  }

  /** Zero-padding keeps the digits and their value. */
  lemma Pad2Digits(d: string)
    requires |d| >= 1 && AllDigits(d)
    ensures AllDigits(Pad2(d)) && DigitsValue(Pad2(d)) == DigitsValue(d)
  {
    if |d| == 1 {
      LeadingZero(d);
    }
  }

  /** The longest prefix of decimal digits. */
  function LeadingDigits(s: string): (r: string)
    ensures AllDigits(r) && |r| <= |s| && r == s[..|r|]
    ensures |r| < |s| ==> !IsDigit(s[|r|])
  {
    if s != [] && IsDigit(s[0]) then
      var r := LeadingDigits(s[1..]);
      [s[0]] + r
    else []
  }

  /** `parseInt(s)` with radix 10: leading whitespace is skipped, then an
      optional sign, then the longest run of digits; `None` stands for NaN. */
  function ParseInt(s: string): Option<int>
  {
    var t := TrimStart(s);
    var neg := t != [] && t[0] == '-';
    var body := if t != [] && (t[0] == '-' || t[0] == '+') then t[1..] else t;
    var digits := LeadingDigits(body);
    if digits == [] then None
    else if neg then Some(-(DigitsValue(digits) as int))
    else Some(DigitsValue(digits))
  }

  /** `parseInt` reads back every digit string as its value. */
  lemma ParseIntDigits(s: string)
    requires s != [] && AllDigits(s)
    ensures ParseInt(s) == Some(DigitsValue(s) as int)
  {
    assert IsDigit(s[0]);
    assert !IsSpace(s[0]);
    assert TrimStart(s) == s;
    assert !(s[0] == '-' || s[0] == '+');
    assert LeadingDigits(s) == s;
  }

  /** `parseInt(String(n)) == n`. */
  lemma ParseIntRoundTrip(n: nat)
    ensures ParseInt(DecimalString(n)) == Some(n as int)
  {
    ParseIntDigits(DecimalString(n));
    DecimalRoundTrip(n);
  }

  // ---------------------------------------------------------------------------
  // Lists

  /** 1 for a truthy entry, 0 otherwise: `[...].filter(Boolean).length` sums these. */
  function Bit(b: bool): nat
  {
    if b then 1 else 0
  }

  /** `xs.filter(p)`. */
  function Filter<T>(xs: seq<T>, p: T -> bool): (r: seq<T>)
    ensures |r| <= |xs|
  {
    if xs == [] then [] else (if p(xs[0]) then [xs[0]] else []) + Filter(xs[1..], p)
  }

  /** The elements that survive a filter are exactly those of the list that
      satisfy the predicate. */
  lemma {:induction false} FilterMembers<T>(xs: seq<T>, p: T -> bool)
    ensures forall i :: 0 <= i < |Filter(xs, p)| ==> Filter(xs, p)[i] in xs && p(Filter(xs, p)[i])
    ensures forall i :: 0 <= i < |xs| && p(xs[i]) ==> xs[i] in Filter(xs, p)
  {
    if xs != [] {
      FilterMembers(xs[1..], p);
      var r := Filter(xs, p);
      var t := Filter(xs[1..], p);
      assert r == (if p(xs[0]) then [xs[0]] else []) + t;
      forall i | 0 <= i < |xs| && p(xs[i]) ensures xs[i] in r {
        if i > 0 { assert xs[1..][i - 1] == xs[i]; }
      }
    }
  }

  /** `a` is obtained from `b` by deleting elements, keeping the order. */
  predicate IsSubsequence<T(==)>(a: seq<T>, b: seq<T>)
    decreases |b|
  {
    if b == [] then a == []
    else (a != [] && a[0] == b[0] && IsSubsequence(a[1..], b[1..])) || IsSubsequence(a, b[1..])
  }

  /** Filtering keeps the surviving elements in their original order. */
  lemma {:induction false} FilterIsSubsequence<T>(xs: seq<T>, p: T -> bool)
    ensures IsSubsequence(Filter(xs, p), xs)
  {
    if xs != [] {
      FilterIsSubsequence(xs[1..], p);
      var r := Filter(xs, p);
      if p(xs[0]) {
        assert r[0] == xs[0] && r[1..] == Filter(xs[1..], p);
      } else {
        assert r == Filter(xs[1..], p);
      }
    }
  }

  /** A filter whose predicate holds of every element returns the list. */
  lemma {:induction false} FilterAll<T>(xs: seq<T>, p: T -> bool)
    requires forall x :: x in xs ==> p(x)
    ensures Filter(xs, p) == xs
  {
    if xs != [] {
      FilterAll(xs[1..], p);
    }
  }

  /** Two predicates that agree on every element filter alike. */
  lemma {:induction false} FilterSame<T>(xs: seq<T>, p: T -> bool, q: T -> bool)
    requires forall x :: x in xs ==> p(x) == q(x)
    ensures Filter(xs, p) == Filter(xs, q)
  {
    if xs != [] {
      FilterSame(xs[1..], p, q);
    }
  }

  /** Filtering a filtered list is one filter by both predicates. */
  lemma {:induction false} FilterFilter<T>(xs: seq<T>, p: T -> bool, q: T -> bool, pq: T -> bool)
    requires forall x :: x in xs ==> pq(x) == (p(x) && q(x))
    ensures Filter(Filter(xs, p), q) == Filter(xs, pq)
  {
    if xs != [] {
      FilterFilter(xs[1..], p, q, pq);
      var t := Filter(xs[1..], p);
      if p(xs[0]) {
        assert Filter(xs, p) == [xs[0]] + t;
        assert ([xs[0]] + t)[1..] == t;
      } else {
        assert Filter(xs, p) == t;
      }
    }
  }

  /** Membership in a filtered list, element-wise. */
  lemma FilterIn<T>(xs: seq<T>, p: T -> bool, x: T)
    ensures x in Filter(xs, p) <==> x in xs && p(x)
  {
    FilterMembers(xs, p);
    if x in Filter(xs, p) {
      var i :| 0 <= i < |Filter(xs, p)| && Filter(xs, p)[i] == x;
    }
    if x in xs && p(x) {
      var i :| 0 <= i < |xs| && xs[i] == x;
    }
  }

  /** Filtering distributes over concatenation. */
  lemma {:induction false} FilterAppend<T>(xs: seq<T>, ys: seq<T>, p: T -> bool)
    ensures Filter(xs + ys, p) == Filter(xs, p) + Filter(ys, p)
  {
    if xs == [] {
      assert xs + ys == ys;
    } else {
      var zs := xs + ys;
      var h: seq<T> := if p(xs[0]) then [xs[0]] else [];
      var a := Filter(xs[1..], p);
      var b := Filter(ys, p);
      assert zs[0] == xs[0];
      assert zs[1..] == xs[1..] + ys;
      FilterAppend(xs[1..], ys, p);
      assert Filter(zs[1..], p) == a + b;
      assert Filter(zs, p) == h + (a + b);
      assert Filter(xs, p) == h + a;
      assert h + (a + b) == (h + a) + b;
    }
  }

  /** Two predicates that no element satisfies together split the count
      of their disjunction. */
  lemma {:induction false} FilterDisjointCount<T>(xs: seq<T>, p: T -> bool, q: T -> bool, pq: T -> bool)
    requires forall x :: x in xs ==> !(p(x) && q(x)) && (pq(x) == (p(x) || q(x)))
    ensures |Filter(xs, pq)| == |Filter(xs, p)| + |Filter(xs, q)|
  {
    if xs != [] {
      FilterDisjointCount(xs[1..], p, q, pq);
    }
  }

  /** `xs.slice(0, n)`: at most the first `n` elements. */
  function Take<T>(xs: seq<T>, n: nat): (r: seq<T>)
    ensures |r| == if |xs| < n then |xs| else n
    ensures r == xs[..|r|]
  {
    if |xs| < n then xs else xs[..n]
  }

  // ---------------------------------------------------------------------------
  // Toggling membership

  /** Remove a present value everywhere it occurs, or append an absent one. */
  function Toggle<T(==)>(xs: seq<T>, v: T): seq<T>
  {
    if v in xs then Without(xs, v) else xs + [v]
  }

  /** `xs.filter(x => x !== v)`. */
  function Without<T(==)>(xs: seq<T>, v: T): seq<T>
  {
    Filter(xs, x => x != v)
  }

  /** Toggling flips the membership of the toggled value and of no other
      value, and keeps the remaining elements in their order. */
  lemma ToggleMembership<T>(xs: seq<T>, v: T)
    ensures v in Toggle(xs, v) <==> v !in xs
    ensures forall w :: w != v ==> (w in Toggle(xs, v) <==> w in xs)
    ensures v in xs ==> IsSubsequence(Toggle(xs, v), xs)
    ensures v !in xs ==> Toggle(xs, v) == xs + [v]
  {
    var p := x => x != v;
    FilterMembers(xs, p);
    if v in xs {
      FilterIsSubsequence(xs, p);
      var r := Filter(xs, p);
      forall w | w != v && w in xs ensures w in r {
        var i :| 0 <= i < |xs| && xs[i] == w;
        assert p(xs[i]);
      }
      forall w | w in r ensures w != v && w in xs {
        var i :| 0 <= i < |r| && r[i] == w;
      }
    }
  }

  /** Toggling an absent value twice restores the list. */
  lemma ToggleTwice<T>(xs: seq<T>, v: T)
    requires v !in xs
    ensures Toggle(Toggle(xs, v), v) == xs
  {
    var p := x => x != v;
    assert v in xs + [v];
    FilterAppend(xs, [v], p);
    FilterAll(xs, p);
    assert Filter([v], p) == [];
  }
}
