/** Options and the few string operations the frontend relies on. */
module Strings {

  datatype Option<+T> = None | Some(value: T)

  // std::string is a string of bytes; here every byte is one character.
  type Bytes = string

  predicate OccursAt(s: string, pattern: string, i: int) {
    0 <= i <= |s| - |pattern| && s[i..i + |pattern|] == pattern
  }

  /** std::string::find: the first occurrence at or after `from`. */
  function Find(s: string, pattern: string, from: nat := 0): (r: Option<nat>)
    ensures r.Some? ==> from <= r.value && OccursAt(s, pattern, r.value)
    ensures r.Some? ==> forall j :: from <= j < r.value ==> !OccursAt(s, pattern, j)
    ensures r.None? ==> forall j :: from <= j ==> !OccursAt(s, pattern, j)
    decreases |s| - from
  {
    if |s| - |pattern| < from then None
    else if OccursAt(s, pattern, from) then Some(from)
    else Find(s, pattern, from + 1)
  }

  predicate Contains(s: string, pattern: string) {
    Find(s, pattern).Some?
  }

  lemma ContainsPart(before: string, part: string, after: string)
    ensures Contains(before + part + after, part)
  {
    assert (before + part + after)[|before|..|before| + |part|] == part;
    assert OccursAt(before + part + after, part, |before|);
  }

  lemma FindsBeginning(s: string, pattern: string, rest: string)
    requires Find(s, pattern + rest).Some?
    ensures Find(s, pattern).Some?
  {
    var i := Find(s, pattern + rest).value;
    assert s[i..i + |pattern + rest|][..|pattern|] == s[i..i + |pattern|];
    assert (pattern + rest)[..|pattern|] == pattern;
    assert OccursAt(s, pattern, i);
  }

  /** The first occurrence in a string is also the first one in every extension of it. */
  lemma FindIsStable(s: string, t: string, pattern: string)
    requires Find(s, pattern).Some?
    ensures Find(s + t, pattern) == Find(s, pattern)
  {
    var i := Find(s, pattern).value;
    assert (s + t)[i..i + |pattern|] == s[i..i + |pattern|];
    var k := Find(s + t, pattern);
    assert OccursAt(s + t, pattern, i);
    if k.value < i {
      assert s[k.value..k.value + |pattern|] == (s + t)[k.value..k.value + |pattern|];
      assert OccursAt(s, pattern, k.value);
    }
  }

  /** Cutting a string off anywhere after the first occurrence leaves it the first one. */
  lemma FindWithin(s: string, t: string, pattern: string)
    requires Find(s + t, pattern).Some? && Find(s + t, pattern).value + |pattern| <= |s|
    ensures Find(s, pattern) == Find(s + t, pattern)
  {
    var i := Find(s + t, pattern).value;
    assert s[i..i + |pattern|] == (s + t)[i..i + |pattern|];
    assert OccursAt(s, pattern, i);
    FindIsStable(s, t, pattern);
  }

  predicate IsSpace(c: char) {
    c == ' ' || '\t' <= c <= '\r'
  }

  function TrimLeft(s: string): string {
    if s != "" && IsSpace(s[0]) then TrimLeft(s[1..]) else s
  }

  function TrimRight(s: string): string {
    if s != "" && IsSpace(s[|s| - 1]) then TrimRight(s[..|s| - 1]) else s
  }

  /** boost::algorithm::trim_copy */
  function Trim(s: string): string {
    TrimRight(TrimLeft(s))
  }

  function LowerChar(c: char): char {
    if 'A' <= c <= 'Z' then c + ' ' else c
  }

  /** boost::algorithm::to_lower_copy, in the classic locale */
  function ToLower(s: string): (r: string)
    ensures |r| == |s|
  {
    if s == "" then "" else [LowerChar(s[0])] + ToLower(s[1..])
  }

  lemma {:induction false} ToLowerMeaning(s: string, i: nat)
    requires i < |s|
    ensures ToLower(s)[i] == if 'A' <= s[i] <= 'Z' then (s[i] as int + 32) as char else s[i]
  {
    if i > 0 {
      ToLowerMeaning(s[1..], i - 1);
    }
  }

  predicate White(c: char) {
    c == ' ' || c == '\t' || c == '\n' || c == '\U{0B}' || c == '\U{0C}' || c == '\r'
  }

  lemma {:induction false} TrimLeftMeaning(s: string)
    ensures
      var t, k := TrimLeft(s), |s| - |TrimLeft(s)|;
      k >= 0 && t == s[k..] && (forall i :: 0 <= i < k ==> White(s[i])) && (t != "" ==> !White(t[0]))
  {
    if s != "" && IsSpace(s[0]) {
      TrimLeftMeaning(s[1..]);
    }
  }

  lemma {:induction false} TrimRightMeaning(s: string)
    ensures
      var t := TrimRight(s);
      |t| <= |s| && t == s[..|t|] && (forall i :: |t| <= i < |s| ==> White(s[i])) && (t != "" ==> !White(t[|t| - 1]))
  {
    if s != "" && IsSpace(s[|s| - 1]) {
      TrimRightMeaning(s[..|s| - 1]);
    }
  }

  /** `t` is what is left of `s` when the white characters before `from`, and those after `t`, are taken off. */
  ghost predicate TrimmedFrom(s: string, t: string, from: nat) {
    && from + |t| <= |s| && t == s[from..from + |t|]
    && (forall i :: 0 <= i < from || from + |t| <= i < |s| ==> White(s[i]))
    && (t != "" ==> !White(t[0]) && !White(t[|t| - 1]))
  }

  /** Trimming takes white characters off both ends, and all of them. */
  lemma TrimMeaning(s: string)
    ensures exists from: nat :: TrimmedFrom(s, Trim(s), from)
  {
    TrimLeftMeaning(s);
    TrimRightMeaning(TrimLeft(s));
    assert TrimmedFrom(s, Trim(s), |s| - |TrimLeft(s)|);
  }

  const DIGITS := "0123456789"

  /** std::to_string of a size */
  function Decimal(n: nat): string {
    (if n < 10 then "" else Decimal(n / 10)) + [DIGITS[n % 10]]
  }

  /** std::string operator<: lexicographic by byte. */
  predicate StringLess(a: string, b: string) {
    b != "" && (a == "" || a[0] < b[0] || (a[0] == b[0] && StringLess(a[1..], b[1..])))
  }

  /** `a` ends, or has the lesser character, where it first differs from `b`. */
  predicate LessAt(a: string, b: string, k: nat) {
    k <= |a| && k < |b| && a[..k] == b[..k] && (k == |a| || a[k] < b[k])
  }

  /** The lesser of two strings is a proper beginning of the other, or has the lesser character at the first difference. */
  lemma {:induction false} StringLessMeaning(a: string, b: string)
    ensures StringLess(a, b) <==> exists k: nat :: LessAt(a, b, k)
  {
    if a != "" && b != "" && a[0] == b[0] {
      StringLessMeaning(a[1..], b[1..]);
      if StringLess(a[1..], b[1..]) {
        var k: nat :| LessAt(a[1..], b[1..], k);
        assert a[..k + 1] == [a[0]] + a[1..][..k] && b[..k + 1] == [b[0]] + b[1..][..k];
        assert LessAt(a, b, k + 1);
      }
      if k: nat :| LessAt(a, b, k) {
        assert a[1..][..k - 1] == a[..k][1..] && b[1..][..k - 1] == b[..k][1..];
        assert LessAt(a[1..], b[1..], k - 1);
      }
    } else {
      assert StringLess(a, b) ==> LessAt(a, b, 0);
      if k: nat :| LessAt(a, b, k) {
        assert k > 0 ==> a[..k][0] == b[..k][0];
      }
    }
  }

  lemma {:induction false} StringLessAsymmetric(a: string, b: string)
    requires StringLess(a, b)
    ensures !StringLess(b, a) && a != b
  {
    if a != "" && a[0] == b[0] {
      StringLessAsymmetric(a[1..], b[1..]);
    }
  }

  lemma {:induction false} StringLessTotal(a: string, b: string)
    ensures a == b || StringLess(a, b) || StringLess(b, a)
  {
    if a != "" && b != "" && a[0] == b[0] {
      StringLessTotal(a[1..], b[1..]);
      assert a == [a[0]] + a[1..] && b == [b[0]] + b[1..];
    }
  }

  lemma {:induction false} StringLessTransitive(a: string, b: string, c: string)
    requires StringLess(a, b) && StringLess(b, c)
    ensures StringLess(a, c)
  {
    if a != "" && a[0] == b[0] == c[0] {
      StringLessTransitive(a[1..], b[1..], c[1..]);
    }
  }

  /** Distinct strings are always ordered, one way. */
  lemma StringOrder(a: string, b: string, c: string)
    ensures StringLess(a, b) ==> !StringLess(b, a) && a != b
    ensures a == b || StringLess(a, b) || StringLess(b, a)
    ensures StringLess(a, c) ==> StringLess(a, b) || StringLess(b, c)
  {
    if StringLess(a, b) {
      StringLessAsymmetric(a, b);
    }
    StringLessTotal(a, b);
    if StringLess(a, c) && !StringLess(a, b) && a != b {
      StringLessTransitive(b, a, c);
    }
  }
}
