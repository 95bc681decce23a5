/** The JavaScript string built-ins the modelled code relies on: `trim`,
    `toLowerCase` (ASCII letters only), substring search, `Array.join`,
    `slice` and the decimal rendering of a non-negative integer. */
module Strings {

  /** The characters that both `String.prototype.trim` and the regular
      expression class `\s` treat as white space (WhiteSpace and
      LineTerminator of ECMAScript). */
  predicate IsSpace(c: char) {
    c in SpaceChars
  }

  const SpaceChars: set<char> := {
    ' ', '\t', '\n', '\r', '\U{0B}', '\U{0C}', '\U{A0}', '\U{1680}',
    '\U{2000}', '\U{2001}', '\U{2002}', '\U{2003}', '\U{2004}', '\U{2005}',
    '\U{2006}', '\U{2007}', '\U{2008}', '\U{2009}', '\U{200A}',
    '\U{2028}', '\U{2029}', '\U{202F}', '\U{205F}', '\U{3000}', '\U{FEFF}'
  }

  predicate AllSpace(s: string) {
    forall k :: 0 <= k < |s| ==> IsSpace(s[k])
  }

  /** Neither the first nor the last character is white space. */
  predicate NoEdgeSpace(s: string) {
    s == [] || (!IsSpace(s[0]) && !IsSpace(s[|s| - 1]))
  }

  /** The first index at or after `i` whose character is not white space
      (`|s|` when there is none). */
  function SkipSpace(s: string, i: nat): (r: nat)
    requires i <= |s|
    ensures i <= r <= |s|
    ensures forall k :: i <= k < r ==> IsSpace(s[k])
    ensures r == |s| || !IsSpace(s[r])
    decreases |s| - i
  {
    if i < |s| && IsSpace(s[i]) then SkipSpace(s, i + 1) else i
  }

  /** Scanning back from `j` but not below `lo`: the index just after the
      last character that is not white space (`lo` when there is none). */
  function BackSpace(s: string, lo: nat, j: nat): (r: nat)
    requires lo <= j <= |s|
    ensures lo <= r <= j
    ensures forall k :: r <= k < j ==> IsSpace(s[k])
    ensures r == lo || !IsSpace(s[r - 1])
    decreases j
  {
    if j > lo && IsSpace(s[j - 1]) then BackSpace(s, lo, j - 1) else j
  }

  /** Number of leading white-space characters that `Trim` removes. */
  function TrimOffset(s: string): (n: nat)
    ensures n <= |s|
  {
    SkipSpace(s, 0)
  }

  /** `s.trim()`: the result is the slice of the input left after removing
      the white space at both ends; nothing but white space is removed. */
  function Trim(s: string): (r: string)
    ensures TrimOffset(s) + |r| <= |s|
    ensures r == s[TrimOffset(s)..TrimOffset(s) + |r|]
    ensures AllSpace(s[..TrimOffset(s)]) && AllSpace(s[TrimOffset(s) + |r|..])
    ensures NoEdgeSpace(r)
  {
    var from := SkipSpace(s, 0);
    s[from..BackSpace(s, from, |s|)]
  }

  /** `SkipSpace` stops at the one index that has only white space before
      it (from `i`) and no white space on it. */
  lemma SkipSpaceAt(s: string, i: nat, j: nat)
    requires i <= j <= |s|
    requires forall k :: i <= k < j ==> IsSpace(s[k])
    requires j == |s| || !IsSpace(s[j])
    ensures SkipSpace(s, i) == j
  {
    var r := SkipSpace(s, i);
    assert !(r < j) && !(r > j);
  }

  /** `BackSpace` stops at the one index with only white space after it (up
      to `j`) and no white space just before it. */
  lemma BackSpaceAt(s: string, lo: nat, j: nat, e: nat)
    requires lo <= e <= j <= |s|
    requires forall k :: e <= k < j ==> IsSpace(s[k])
    requires e == lo || !IsSpace(s[e - 1])
    ensures BackSpace(s, lo, j) == e
  {
    var r := BackSpace(s, lo, j);
    assert !(r < e) && !(r > e);
  }

  lemma AllSpaceAppend(a: string, b: string)
    requires AllSpace(a) && AllSpace(b)
    ensures AllSpace(a + b)
  {
    assert forall k :: |a| <= k < |a + b| ==> (a + b)[k] == b[k - |a|];
  }

  /** A text that is all white space trims to the empty text. */
  lemma TrimAllSpace(s: string)
    requires AllSpace(s)
    ensures Trim(s) == []
  {
    assert forall k :: 0 <= k < |s| ==> IsSpace(s[k]);
    SkipSpaceAt(s, 0, |s|);
  }

  /** The text between white space on both sides, with white space at
      neither of its ends, is what trimming keeps. */
  lemma TrimAround(p: string, m: string, q: string)
    requires AllSpace(p) && AllSpace(q) && NoEdgeSpace(m) && m != []
    ensures Trim(p + m + q) == m
  {
    var x := p + m + q;
    assert forall k :: 0 <= k < |p| ==> x[k] == p[k];
    assert x[|p|] == m[0];
    SkipSpaceAt(x, 0, |p|);
    assert forall k :: |p| + |m| <= k < |x| ==> x[k] == q[k - |p| - |m|];
    assert x[|p| + |m| - 1] == m[|m| - 1];
    BackSpaceAt(x, |p|, |x|, |p| + |m|);
    assert x[|p|..|p| + |m|] == m;
  }

  /** Trimming leaves a string without edge white space unchanged, so trimming
      twice is the same as trimming once. */
  lemma TrimIdentity(s: string)
    ensures Trim(s) == s <==> NoEdgeSpace(s)
    ensures Trim(Trim(s)) == Trim(s)
  {
    if NoEdgeSpace(s) && s != [] {
      TrimAround([], s, []);
      assert [] + s + [] == s;
    }
    var t := Trim(s);
    if t != [] {
      TrimAround([], t, []);
      assert [] + t + [] == t;
    }
  }

  lemma SliceSplit<T>(s: seq<T>, i: nat, j: nat)
    requires i <= j <= |s|
    ensures s == s[..i] + s[i..j] + s[j..]
  {
  }

  lemma Regroup<T>(a: seq<T>, s: seq<T>, b: seq<T>, before: seq<T>, m: seq<T>, after: seq<T>)
    requires s == before + m + after
    ensures a + s + b == (a + before) + m + (after + b)
    ensures m == [] ==> a + s + b == (a + before) + (after + b)
  {
  }

  /** White space added around a string does not survive trimming. */
  lemma TrimPadded(a: string, s: string, b: string)
    requires AllSpace(a) && AllSpace(b)
    ensures Trim(a + s + b) == Trim(s)
  {
    var off := TrimOffset(s);
    var m := Trim(s);
    var before, after := s[..off], s[off + |m|..];
    SliceSplit(s, off, off + |m|);
    Regroup(a, s, b, before, m, after);
    AllSpaceAppend(a, before);
    AllSpaceAppend(after, b);
    if m == [] {
      AllSpaceAppend(a + before, after + b);
      TrimAllSpace(a + s + b);
    } else {
      TrimAround(a + before, m, after + b);
    }
  }

  function LowerChar(c: char): char {
    if 'A' <= c <= 'Z' then (c as int + 32) as char else c
  }

  /** `s.toLowerCase()`, for ASCII letters. */
  function Lower(s: string): (r: string)
    ensures |r| == |s|
    ensures forall k :: 0 <= k < |s| ==> r[k] == LowerChar(s[k])
  {
    seq(|s|, k requires 0 <= k < |s| => LowerChar(s[k]))
  }

  /** `a.toLowerCase() === b.toLowerCase()` */
  predicate EqualsIgnoreCase(a: string, b: string) {
    Lower(a) == Lower(b)
  }

  predicate OccursAt(s: string, sub: string, i: nat) {
    i + |sub| <= |s| && s[i..i + |sub|] == sub
  }

  /** `s.includes(sub)`, by a left-to-right scan. */
  function Contains(s: string, sub: string): (r: bool)
    ensures r <==> exists i: nat :: OccursAt(s, sub, i)
  {
    if |sub| > |s| then false
    else if s[..|sub|] == sub then assert OccursAt(s, sub, 0); true
    else
      var rest := Contains(s[1..], sub);
      assert forall i: nat :: OccursAt(s[1..], sub, i) <==> OccursAt(s, sub, i + 1) by {
        forall i: nat ensures OccursAt(s[1..], sub, i) <==> OccursAt(s, sub, i + 1) {
          if i + 1 + |sub| <= |s| { assert s[1..][i..i + |sub|] == s[i + 1..i + 1 + |sub|]; }
        }
      }
      assert OccursAt(s, sub, 0) == false;
      assert (exists i: nat :: OccursAt(s, sub, i)) ==> exists i: nat :: OccursAt(s[1..], sub, i) by {
        if i: nat :| OccursAt(s, sub, i) {
          assert i != 0;
          assert OccursAt(s[1..], sub, i - 1);
        }
      }
      rest
  }

  /** A string always contains what was concatenated into it. */
  lemma ContainsInfix(p: string, t: string, s: string)
    ensures Contains(p + t + s, t)
  {
    assert (p + t + s)[|p|..|p| + |t|] == t;
    assert OccursAt(p + t + s, t, |p|);
  }

  /** `s.indexOf(c)`: the first index holding `c`, or -1 when there is none. */
  function IndexOf(s: string, c: char): (r: int)
    ensures -1 <= r < |s|
    ensures r == -1 <==> c !in s
    ensures r >= 0 ==> s[r] == c && c !in s[..r]
  {
    if s == [] then -1
    else if s[0] == c then 0
    else
      var k := IndexOf(s[1..], c);
      if k == -1 then -1
      else
        assert s[..k + 1] == [s[0]] + s[1..][..k];
        k + 1
  }

  /** `parts.join(sep)` */
  function Join(parts: seq<string>, sep: string): string
  {
    if |parts| == 0 then ""
    else if |parts| == 1 then parts[0]
    else parts[0] + sep + Join(parts[1..], sep)
  }

  /** A join begins with its first part followed by the separator. */
  lemma JoinHead(parts: seq<string>, sep: string)
    requires |parts| >= 2
    ensures Join(parts, sep) == parts[0] + sep + Join(parts[1..], sep)
  {
  }

  /** A join of three or more parts opens with its first two parts, each
      followed by the separator. */
  lemma JoinOpening(parts: seq<string>, sep: string)
    requires |parts| >= 3
    ensures var opening := parts[0] + sep + parts[1] + sep;
      |opening| <= |Join(parts, sep)| && Join(parts, sep)[..|opening|] == opening
  {
    JoinHead(parts, sep);
    JoinHead(parts[1..], sep);
    assert parts[1..][1..] == parts[2..];
    var opening := parts[0] + sep + parts[1] + sep;
    assert Join(parts, sep) == opening + Join(parts[2..], sep);
  }

  /** A join of two or more parts closes with the separator and the last
      part. */
  lemma {:induction false} JoinClosing(parts: seq<string>, sep: string)
    requires |parts| >= 2
    ensures var closing := sep + parts[|parts| - 1];
      |closing| <= |Join(parts, sep)| && Join(parts, sep)[|Join(parts, sep)| - |closing|..] == closing
  {
    var closing := sep + parts[|parts| - 1];
    JoinHead(parts, sep);
    if |parts| > 2 {
      JoinClosing(parts[1..], sep);
      assert parts[1..][|parts| - 2] == parts[|parts| - 1];
      var rest := Join(parts[1..], sep);
      assert Join(parts, sep) == parts[0] + sep + rest;
      assert rest[|rest| - |closing|..] == closing;
      assert (parts[0] + sep + rest)[|parts[0] + sep + rest| - |closing|..] == rest[|rest| - |closing|..];
    } else {
      assert parts[1..] == [parts[1]];
    }
  }

  /** `a` is `b` with some entries left out, the rest in their order. */
  predicate Subsequence<T(==)>(a: seq<T>, b: seq<T>)
    decreases |b|
  {
    if a == [] then true
    else if b == [] then false
    else if a[0] == b[0] then Subsequence(a[1..], b[1..])
    else Subsequence(a, b[1..])
  }

  /** `s.slice(0, n)`, on strings and arrays alike. */
  function Take<T>(s: seq<T>, n: nat): (r: seq<T>)
    ensures |r| == (if |s| <= n then |s| else n)
    ensures r == s[..|r|]
  {
    if |s| <= n then s else s[..n]
  }

  function DigitChar(d: nat): char
    requires d < 10
  {
    "0123456789"[d]
  }

  function DigitValue(c: char): nat
  {
    if '0' <= c <= '9' then c as int - '0' as int else 0
  }

  predicate IsDigit(c: char) {
    '0' <= c <= '9'
  }

  /** Decimal value of a digit string. */
  function DecimalValue(s: string): nat
  {
    if s == [] then 0 else DecimalValue(s[..|s| - 1]) * 10 + DigitValue(s[|s| - 1])
  }

  /** `String(n)` for a non-negative integer: its decimal digits, without
      leading zeros. */
  function NatToString(n: nat): (r: string)
    ensures r != [] && (forall k :: 0 <= k < |r| ==> IsDigit(r[k]))
    ensures |r| > 1 ==> r[0] != '0'
  {
    if n < 10 then [DigitChar(n)] else NatToString(n / 10) + [DigitChar(n % 10)]
  }

  /** Reading the digits back gives the number. */
  lemma {:induction false} NatToStringRoundTrip(n: nat)
    ensures DecimalValue(NatToString(n)) == n
  {
    var s := NatToString(n);
    if n >= 10 {
      NatToStringRoundTrip(n / 10);
      assert s[..|s| - 1] == NatToString(n / 10);
    }
  }
}
