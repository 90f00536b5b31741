/** String operations of the JavaScript runtime that the application relies on,
    restricted to what its code uses: ASCII case mapping, the `\s` character
    class, `split` on one character, `replace` of a first occurrence,
    UTF-16 code units and the default string order of `Array.prototype.sort`. */
module Text {
  import opened Json

  // ---------------------------------------------------------------------------
  // Case mapping (ASCII letters only)
  // ---------------------------------------------------------------------------

  predicate IsUpperAscii(c: char) { 'A' <= c <= 'Z' }

  predicate IsLowerAscii(c: char) { 'a' <= c <= 'z' }

  predicate IsDigit(c: char) { '0' <= c <= '9' }

  function LowerChar(c: char): (r: char)
    ensures !IsUpperAscii(r)
    ensures !IsUpperAscii(c) ==> r == c
  {
    if IsUpperAscii(c) then (c as int + 32) as char else c
  }

  function UpperChar(c: char): (r: char)
    ensures !IsLowerAscii(r)
    ensures !IsLowerAscii(c) ==> r == c
  {
    if IsLowerAscii(c) then (c as int - 32) as char else c
  }

  /** `s.toLowerCase()` on ASCII letters. */
  function ToLower(s: string): (r: string)
    ensures |r| == |s|
    ensures forall i :: 0 <= i < |s| ==> r[i] == LowerChar(s[i])
  {
    seq(|s|, i requires 0 <= i < |s| => LowerChar(s[i]))
  }

  /** `s.toUpperCase()` on ASCII letters. */
  function ToUpper(s: string): (r: string)
    ensures |r| == |s|
    ensures forall i :: 0 <= i < |s| ==> r[i] == UpperChar(s[i])
  {
    seq(|s|, i requires 0 <= i < |s| => UpperChar(s[i]))
  }

  // ---------------------------------------------------------------------------
  // The regular-expression class \s and `replace(/\s+/g, rep)`
  // ---------------------------------------------------------------------------

  /** The characters JavaScript's `\s` matches (white space and line terminators). */
  predicate IsSpace(c: char) {
    ('\U{0009}' <= c <= '\U{000D}') || c == ' ' || c == '\U{00A0}' || c == '\U{1680}'
    || ('\U{2000}' <= c <= '\U{200A}') || c == '\U{2028}' || c == '\U{2029}'
    || c == '\U{202F}' || c == '\U{205F}' || c == '\U{3000}' || c == '\U{FEFF}'
  }

  predicate NoSpace(s: string) {
    forall i :: 0 <= i < |s| ==> !IsSpace(s[i])
  }

  /** `s` without its leading run of white space. */
  function DropSpaces(s: string): (r: string)
    ensures |r| <= |s| && r == s[|s| - |r|..]
    ensures s != [] && IsSpace(s[0]) ==> |r| < |s|
    ensures r == [] || !IsSpace(r[0])
    ensures forall i :: 0 <= i < |s| - |r| ==> IsSpace(s[i])
  {
    if s != [] && IsSpace(s[0]) then DropSpaces(s[1..]) else s
  }

  /** `s` without its trailing run of white space. */
  function DropTrailingSpaces(s: string): (r: string)
    ensures |r| <= |s| && r == s[..|r|]
    ensures r == [] || !IsSpace(r[|r| - 1])
    ensures forall i :: |r| <= i < |s| ==> IsSpace(s[i])
  {
    if s != [] && IsSpace(s[|s| - 1]) then DropTrailingSpaces(s[..|s| - 1]) else s
  }

  /** `s.trim()`: both runs of white space removed. */
  function Trim(s: string): (r: string)
    ensures r == [] || (!IsSpace(r[0]) && !IsSpace(r[|r| - 1]))
    ensures NoSpace(s) ==> r == s
  {
    DropTrailingSpaces(DropSpaces(s))
  }

  /** `s.replace(/\s+/g, rep)`: every maximal run of white space becomes `rep`. */
  function ReplaceSpaceRuns(s: string, rep: string): string
    decreases |s|
  {
    if s == [] then []
    else if IsSpace(s[0]) then rep + ReplaceSpaceRuns(DropSpaces(s), rep)
    else [s[0]] + ReplaceSpaceRuns(s[1..], rep)
  }

  /** With a replacement free of white space, the result has none. */
  lemma {:induction false} ReplaceSpaceRunsNoSpace(s: string, rep: string)
    requires NoSpace(rep)
    ensures NoSpace(ReplaceSpaceRuns(s, rep))
    decreases |s|
  {
    if s == [] {
    } else if IsSpace(s[0]) {
      ReplaceSpaceRunsNoSpace(DropSpaces(s), rep);
    } else {
      ReplaceSpaceRunsNoSpace(s[1..], rep);
    }
  }

  /** A string without white space is left unchanged. */
  lemma {:induction false} ReplaceSpaceRunsIdentity(s: string, rep: string)
    requires NoSpace(s)
    ensures ReplaceSpaceRuns(s, rep) == s
    decreases |s|
  {
    if s != [] {
      assert !IsSpace(s[0]);
      ReplaceSpaceRunsIdentity(s[1..], rep);
    }
  }

  /** The replacement distributes over a prefix free of white space. */
  lemma {:induction false} ReplaceSpaceRunsPrefix(p: string, s: string, rep: string)
    requires NoSpace(p)
    ensures ReplaceSpaceRuns(p + s, rep) == p + ReplaceSpaceRuns(s, rep)
    decreases |p|
  {
    if p != [] {
      assert !IsSpace(p[0]) && NoSpace(p[1..]);
      assert (p + s)[0] == p[0] && (p + s)[1..] == p[1..] + s;
      ReplaceSpaceRunsPrefix(p[1..], s, rep);
      assert ReplaceSpaceRuns(p + s, rep) == [p[0]] + ReplaceSpaceRuns(p[1..] + s, rep);
      assert [p[0]] + (p[1..] + ReplaceSpaceRuns(s, rep)) == p + ReplaceSpaceRuns(s, rep);
    } else {
      assert p + s == s;
    }
  }

  // ---------------------------------------------------------------------------
  // `split` on a one-character separator, and its inverse `join`
  // ---------------------------------------------------------------------------

  /** `s.split(d)`; the empty string splits into one empty segment. */
  function Split(s: string, d: char): (r: seq<string>)
    ensures |r| >= 1
  {
    if s == [] then [[]]
    else
      var rest := Split(s[1..], d);
      if s[0] == d then [[]] + rest else [[s[0]] + rest[0]] + rest[1..]
  }

  function Join(parts: seq<string>, d: char): string
    requires |parts| >= 1
  {
    if |parts| == 1 then parts[0] else parts[0] + [d] + Join(parts[1..], d)
  }

  /** Splitting loses nothing: joining the segments gives back the string. */
  lemma {:induction false} JoinSplit(s: string, d: char)
    ensures Join(Split(s, d), d) == s
  {
    if s != [] {
      JoinSplit(s[1..], d);
      var rest := Split(s[1..], d);
      if s[0] == d {
        assert Split(s, d) == [[]] + rest;
        assert Split(s, d)[1..] == rest;
      } else {
        var r := Split(s, d);
        assert r == [[s[0]] + rest[0]] + rest[1..];
        if |rest| == 1 {
          assert r == [[s[0]] + rest[0]];
        } else {
          assert r[1..] == rest[1..];
          assert Join(rest, d) == rest[0] + [d] + Join(rest[1..], d);
        }
      }
    }
  }

  /** No segment contains the separator. */
  lemma {:induction false} SplitSegmentsFree(s: string, d: char)
    ensures forall k :: 0 <= k < |Split(s, d)| ==> d !in Split(s, d)[k]
  {
    if s != [] {
      SplitSegmentsFree(s[1..], d);
      var rest := Split(s[1..], d);
      if s[0] != d {
        var r := Split(s, d);
        forall k | 0 <= k < |r| ensures d !in r[k] {
          if k == 0 {
            assert r[0] == [s[0]] + rest[0];
          } else {
            assert r[k] == rest[k];
          }
        }
      }
    }
  }

  /** The first segment: the text before the first separator, or all of it. */
  lemma {:induction false} SplitFirstSegment(s: string, d: char)
    ensures d !in s ==> Split(s, d) == [s]
    ensures forall i :: 0 <= i < |s| && s[i] == d && d !in s[..i] ==> Split(s, d)[0] == s[..i]
  {
    if s != [] {
      SplitFirstSegment(s[1..], d);
      if d !in s {
        assert d !in s[1..];
        assert s == [s[0]] + s[1..];
      }
      forall i | 0 <= i < |s| && s[i] == d && d !in s[..i] ensures Split(s, d)[0] == s[..i] {
        if i > 0 {
          assert s[0] in s[..i];
          assert s[1..][i - 1] == d;
          assert s[1..][..i - 1] == s[1..i];
          assert d !in s[1..i];
          assert s[..i] == [s[0]] + s[1..i];
        }
      }
    }
  }

  // ---------------------------------------------------------------------------
  // First occurrence of a pattern, and `replace(pattern, rep)`
  // ---------------------------------------------------------------------------

  predicate OccursAt(s: string, pat: string, j: int) {
    0 <= j && j + |pat| <= |s| && s[j..j + |pat|] == pat
  }

  function IndexFrom(s: string, pat: string, from: nat): (r: Option<nat>)
    requires from <= |s| + 1
    ensures r.Some? ==> from <= r.value && OccursAt(s, pat, r.value)
    ensures r.Some? ==> forall j :: from <= j < r.value ==> !OccursAt(s, pat, j)
    ensures r.None? ==> forall j :: from <= j ==> !OccursAt(s, pat, j)
    decreases |s| + 1 - from
  {
    if from + |pat| > |s| then None
    else if s[from..from + |pat|] == pat then Some(from)
    else IndexFrom(s, pat, from + 1)
  }

  /** `s.indexOf(pat)`: the first position where `pat` occurs. */
  function IndexOf(s: string, pat: string): (r: Option<nat>)
    ensures r.Some? ==> OccursAt(s, pat, r.value)
    ensures r.Some? ==> forall j :: 0 <= j < r.value ==> !OccursAt(s, pat, j)
    ensures r.None? ==> forall j :: 0 <= j ==> !OccursAt(s, pat, j)
  {
    IndexFrom(s, pat, 0)
  }

  /** `s.replace(pat, rep)` with a string pattern: only the first occurrence is
      replaced (`$` patterns in `rep` are not modelled). */
  function ReplaceFirst(s: string, pat: string, rep: string): string {
    match IndexOf(s, pat)
    case None => s
    case Some(i) => s[..i] + rep + s[i + |pat|..]
  }

  lemma ReplaceFirstAbsent(s: string, pat: string, rep: string)
    requires forall j :: 0 <= j ==> !OccursAt(s, pat, j)
    ensures ReplaceFirst(s, pat, rep) == s
  {
  }

  /** JavaScript `s.substring(start, end)` for `start <= end`. */
  function Substring(s: string, start: nat, end: nat): (r: string)
    requires start <= end
    ensures |r| <= end - start
  {
    var e := if end <= |s| then end else |s|;
    var b := if start <= e then start else e;
    s[b..e]
  }

  // ---------------------------------------------------------------------------
  // UTF-16 code units (what `charCodeAt` and `split('')` see)
  // ---------------------------------------------------------------------------

  function CharUnits(c: char): (r: seq<int>)
    ensures 1 <= |r| <= 2
    ensures forall k :: 0 <= k < |r| ==> 0 <= r[k] < 0x1_0000
  {
    var n := c as int;
    if n < 0x1_0000 then [n]
    else [0xD800 + (n - 0x1_0000) / 0x400, 0xDC00 + (n - 0x1_0000) % 0x400]
  }

  /** The UTF-16 code units of `s`, in order. */
  function Utf16(s: string): (r: seq<int>)
    ensures |r| >= |s|
    ensures forall k :: 0 <= k < |r| ==> 0 <= r[k] < 0x1_0000
  {
    if s == [] then [] else Utf16(s[..|s| - 1]) + CharUnits(s[|s| - 1])
  }

  /** Code units of a concatenation are the concatenated code units. */
  lemma {:induction false} Utf16Append(a: string, b: string)
    ensures Utf16(a + b) == Utf16(a) + Utf16(b)
    decreases |b|
  {
    if b != [] {
      var b' := b[..|b| - 1];
      assert (a + b)[..|a + b| - 1] == a + b';
      assert (a + b)[|a + b| - 1] == b[|b| - 1];
      Utf16Append(a, b');
    } else {
      assert a + b == a;
    }
  }

  /** Characters of the Basic Multilingual Plane are one code unit each. */
  lemma {:induction false} Utf16Bmp(s: string)
    requires forall i :: 0 <= i < |s| ==> (s[i] as int) < 0x1_0000
    ensures Utf16(s) == seq(|s|, i requires 0 <= i < |s| => s[i] as int)
  {
    if s != [] {
      Utf16Bmp(s[..|s| - 1]);
    }
  }

  // ---------------------------------------------------------------------------
  // The default order of `Array.prototype.sort`: UTF-16 code units, lexicographically
  // ---------------------------------------------------------------------------

  predicate LexLess(a: seq<int>, b: seq<int>) {
    if a == [] then b != []
    else b != [] && (a[0] < b[0] || (a[0] == b[0] && LexLess(a[1..], b[1..])))
  }

  lemma {:induction false} LexLessIrreflexive(a: seq<int>)
    ensures !LexLess(a, a)
  {
    if a != [] {
      LexLessIrreflexive(a[1..]);
    }
  }

  lemma {:induction false} LexLessTotal(a: seq<int>, b: seq<int>)
    ensures a == b || LexLess(a, b) || LexLess(b, a)
  {
    if a != [] && b != [] && a[0] == b[0] {
      LexLessTotal(a[1..], b[1..]);
      if a[1..] == b[1..] {
        assert a == [a[0]] + a[1..] && b == [b[0]] + b[1..];
      }
    }
  }

  lemma {:induction false} LexLessAsymmetric(a: seq<int>, b: seq<int>)
    ensures !(LexLess(a, b) && LexLess(b, a))
  {
    if a != [] && b != [] && a[0] == b[0] {
      LexLessAsymmetric(a[1..], b[1..]);
    }
  }

  /** Code-unit order between strings. */
  predicate StrLess(a: string, b: string) {
    LexLess(Utf16(a), Utf16(b))
  }

  lemma {:induction false} LexLessTransitive(a: seq<int>, b: seq<int>, c: seq<int>)
    requires LexLess(a, b) && LexLess(b, c)
    ensures LexLess(a, c)
  {
    if a != [] && a[0] == b[0] && b[0] == c[0] {
      LexLessTransitive(a[1..], b[1..], c[1..]);
    }
  }

  /** A character's code units tell it apart, and so does the last unit
      whether it took one unit or two. */
  lemma CharUnitsInjective(c: char, d: char)
    requires CharUnits(c)[|CharUnits(c)| - 1] == CharUnits(d)[|CharUnits(d)| - 1]
    ensures |CharUnits(c)| == |CharUnits(d)|
    ensures CharUnits(c) == CharUnits(d) ==> c == d
  {
    var n, m := c as int, d as int;
    if n >= 0x1_0000 && CharUnits(c) == CharUnits(d) {
      assert m >= 0x1_0000;
      var q, r := (n - 0x1_0000) / 0x400, (n - 0x1_0000) % 0x400;
      var q', r' := (m - 0x1_0000) / 0x400, (m - 0x1_0000) % 0x400;
      assert q == q' && r == r';
      assert n - 0x1_0000 == q * 0x400 + r;
      assert m - 0x1_0000 == q' * 0x400 + r';
    }
  }

  /** Different strings have different code units. */
  lemma {:induction false} Utf16Injective(a: string, b: string)
    requires Utf16(a) == Utf16(b)
    ensures a == b
    decreases |a|
  {
    if a != [] && b != [] {
      var a', b' := a[..|a| - 1], b[..|b| - 1];
      var ca, cb := a[|a| - 1], b[|b| - 1];
      assert Utf16(a) == Utf16(a') + CharUnits(ca);
      assert Utf16(b) == Utf16(b') + CharUnits(cb);
      SplitLastChar(Utf16(a'), CharUnits(ca), Utf16(b'), CharUnits(cb));
      CharUnitsInjective(ca, cb);
      Utf16Injective(a', b');
      assert a == a' + [ca] && b == b' + [cb];
    }
  }

  lemma SplitLastChar(x: seq<int>, u: seq<int>, y: seq<int>, v: seq<int>)
    requires x + u == y + v && u != [] && v != []
    ensures u[|u| - 1] == v[|v| - 1]
    ensures |u| == |v| ==> x == y && u == v
  {
    var w := x + u;
    assert w[|w| - 1] == u[|u| - 1];
    assert w[|w| - 1] == (y + v)[|w| - 1] == v[|v| - 1];
    if |u| == |v| {
      assert x == w[..|x|] && y == w[..|y|];
      assert u == w[|x|..] && v == w[|y|..];
    }
  }

  lemma StrLessIrreflexive(a: string)
    ensures !StrLess(a, a)
  {
    LexLessIrreflexive(Utf16(a));
  }

  lemma StrLessTransitive(a: string, b: string, c: string)
    requires StrLess(a, b) && StrLess(b, c)
    ensures StrLess(a, c)
  {
    LexLessTransitive(Utf16(a), Utf16(b), Utf16(c));
  }

  /** Two different strings are ordered one way or the other, never both. */
  lemma StrLessTotal(a: string, b: string)
    ensures a == b || StrLess(a, b) || StrLess(b, a)
    ensures !(StrLess(a, b) && StrLess(b, a))
  {
    LexLessTotal(Utf16(a), Utf16(b));
    LexLessAsymmetric(Utf16(a), Utf16(b));
    if Utf16(a) == Utf16(b) {
      Utf16Injective(a, b);
    }
  }

  // ---------------------------------------------------------------------------
  // `Array.prototype.sort()` with no comparator, on strings
  // ---------------------------------------------------------------------------

  /** No element is followed by a smaller one. */
  predicate Sorted(s: seq<string>) {
    forall i, j :: 0 <= i < j < |s| ==> !StrLess(s[j], s[i])
  }

  /** `x` placed before the first element greater than it. */
  function Insert(x: string, s: seq<string>): seq<string> {
    if s == [] then [x]
    else if StrLess(x, s[0]) then [x] + s
    else [s[0]] + Insert(x, s[1..])
  }

  /** An insertion sort in code-unit order. Any sort gives the same result,
      by `SortedUnique`. */
  function SortStrings(xs: seq<string>): seq<string> {
    if xs == [] then [] else Insert(xs[|xs| - 1], SortStrings(xs[..|xs| - 1]))
  }

  lemma SortedTail(s: seq<string>)
    requires s != [] && Sorted(s)
    ensures Sorted(s[1..])
  {
    var t := s[1..];
    forall i, j | 0 <= i < j < |t| ensures !StrLess(t[j], t[i]) {
      assert t[i] == s[i + 1] && t[j] == s[j + 1];
    }
  }

  /** A sorted sequence stays sorted behind an element no greater than any
      of its own. */
  lemma SortedCons(x: string, s: seq<string>)
    requires Sorted(s) && forall k :: 0 <= k < |s| ==> !StrLess(s[k], x)
    ensures Sorted([x] + s)
  {
    var r := [x] + s;
    forall i, j | 0 <= i < j < |r| ensures !StrLess(r[j], r[i]) {
      assert r[j] == s[j - 1];
      if i > 0 {
        assert r[i] == s[i - 1];
      }
    }
  }

  lemma BelowFirst(x: string, s: seq<string>)
    requires s != [] && Sorted(s) && StrLess(x, s[0])
    ensures forall k :: 0 <= k < |s| ==> !StrLess(s[k], x)
  {
    forall k | 0 <= k < |s| ensures !StrLess(s[k], x) {
      StrLessTotal(s[0], s[k]);
      if s[0] != s[k] {
        StrLessTransitive(x, s[0], s[k]);
      }
      StrLessTotal(x, s[k]);
    }
  }

  lemma {:induction false} InsertSorted(x: string, s: seq<string>)
    requires Sorted(s)
    ensures Sorted(Insert(x, s)) && multiset(Insert(x, s)) == multiset(s) + multiset{x}
    decreases |s|
  {
    if s != [] {
      assert s == [s[0]] + s[1..];
      if StrLess(x, s[0]) {
        BelowFirst(x, s);
        SortedCons(x, s);
      } else {
        var tail := s[1..];
        SortedTail(s);
        InsertSorted(x, tail);
        var t := Insert(x, tail);
        forall k | 0 <= k < |t| ensures !StrLess(t[k], s[0]) {
          var y := t[k];
          assert y in multiset(t);
          if y != x {
            assert y in multiset(tail);
            var m :| 0 <= m < |tail| && tail[m] == y;
            assert s[m + 1] == y;
          }
        }
        SortedCons(s[0], t);
      }
    }
  }

  /** The sort puts its input in order and keeps every element, with its
      multiplicity. */
  lemma {:induction false} SortStringsSpec(xs: seq<string>)
    ensures Sorted(SortStrings(xs)) && multiset(SortStrings(xs)) == multiset(xs)
  {
    if xs != [] {
      var init := xs[..|xs| - 1];
      SortStringsSpec(init);
      InsertSorted(xs[|xs| - 1], SortStrings(init));
      assert xs == init + [xs[|xs| - 1]];
    }
  }

  /** The first element of a sorted sequence is no greater than any other. */
  lemma SortedFirst(s: seq<string>, y: string)
    requires Sorted(s) && y in multiset(s)
    ensures !StrLess(y, s[0])
  {
    var k :| 0 <= k < |s| && s[k] == y;
    if k == 0 {
      StrLessIrreflexive(y);
    }
  }

  lemma MultisetTail(s: seq<string>)
    requires s != []
    ensures multiset(s[1..]) == multiset(s) - multiset{s[0]}
  {
    assert s == [s[0]] + s[1..];
  }

  lemma SameFirst(a: seq<string>, b: seq<string>)
    requires a != [] && b != [] && Sorted(a) && Sorted(b) && multiset(a) == multiset(b)
    ensures a[0] == b[0]
  {
    assert a[0] in multiset(a) && b[0] in multiset(b);
    SortedFirst(b, a[0]);
    SortedFirst(a, b[0]);
    StrLessTotal(a[0], b[0]);
  }

  /** Two sorted arrangements of the same strings are the same sequence: the
      order is total, so the sorted result does not depend on the algorithm. */
  lemma {:induction false} SortedUnique(a: seq<string>, b: seq<string>)
    requires Sorted(a) && Sorted(b) && multiset(a) == multiset(b)
    ensures a == b
    decreases |a|
  {
    if a == [] {
      assert |multiset(b)| == 0;
    } else {
      assert |multiset(b)| == |multiset(a)| > 0;
      SameFirst(a, b);
      var a', b' := a[1..], b[1..];
      MultisetTail(a);
      MultisetTail(b);
      SortedTail(a);
      SortedTail(b);
      SortedUnique(a', b');
    }
  }

  // ---------------------------------------------------------------------------
  // Decimal text of a natural number (`String(n)` / template literals)
  // ---------------------------------------------------------------------------

  function DigitChar(d: nat): (c: char)
    requires d < 10
    ensures IsDigit(c)
  {
    "0123456789"[d]
  }

  function NatToString(n: nat): (r: string)
    ensures |r| >= 1
    ensures forall i :: 0 <= i < |r| ==> IsDigit(r[i])
  {
    if n < 10 then [DigitChar(n)] else NatToString(n / 10) + [DigitChar(n % 10)]
  }
}
