/**
 * std::set_intersection as the two-pointer loop of the standard library, and what it computes on
 * sorted lists, both with the comparator the lists were sorted by and with its opposite.
 */
module SetIntersection {

  type Less<!T> = (T, T) -> bool

  /** A strict weak order: asymmetric, and every element separates a smaller one from a larger one. */
  ghost predicate StrictWeakOrder<T(!new)>(less: Less<T>) {
    && (forall x, y :: less(x, y) ==> !less(y, x))
    && (forall x, y, z :: less(x, z) ==> less(x, y) || less(y, z))
  }

  function Flip<T>(less: Less<T>): Less<T> {
    (x, y) => less(y, x)
  }

  /** Neither comes before the other: the same key. */
  predicate Equiv<T>(less: Less<T>, x: T, y: T) {
    !less(x, y) && !less(y, x)
  }

  /** Sorted in the sense of std::sort with this comparator. */
  ghost predicate Sorted<T>(less: Less<T>, s: seq<T>) {
    forall i, j :: 0 <= i < j < |s| ==> !less(s[j], s[i])
  }

  function Intersection<T>(less: Less<T>, a: seq<T>, b: seq<T>): seq<T>
    decreases |a| + |b|
  {
    if a == [] || b == [] then []
    else if less(a[0], b[0]) then Intersection(less, a[1..], b)
    else if less(b[0], a[0]) then Intersection(less, a, b[1..])
    else [a[0]] + Intersection(less, a[1..], b[1..])
  }

  method SetIntersect<T>(less: Less<T>, a: seq<T>, b: seq<T>) returns (r: seq<T>)
    ensures r == Intersection(less, a, b)
  {
    var i, j := 0, 0;
    r := [];
    while i < |a| && j < |b|
      invariant 0 <= i <= |a| && 0 <= j <= |b|
      invariant Intersection(less, a, b) == r + Intersection(less, a[i..], b[j..])
    {
      assert a[i..][1..] == a[i + 1..] && b[j..][1..] == b[j + 1..];
      if less(a[i], b[j]) {
        i := i + 1;
      } else {
        if !less(b[j], a[i]) {
          r := r + [a[i]];
          i := i + 1;
        }
        j := j + 1;
      }
    }
  }

  lemma SortedTail<T>(less: Less<T>, s: seq<T>)
    requires Sorted(less, s) && s != []
    ensures Sorted(less, s[1..])
  {
  }

  // ---------------------------------------------------------------- the wrong comparator: common prefix

  /** How far two lists agree, key by key, from their beginning. */
  function CommonPrefix<T>(less: Less<T>, a: seq<T>, b: seq<T>): (k: nat)
    ensures k <= |a| && k <= |b|
    ensures forall i :: 0 <= i < k ==> Equiv(less, a[i], b[i])
    ensures k < |a| && k < |b| ==> !Equiv(less, a[k], b[k])
  {
    if a == [] || b == [] || !Equiv(less, a[0], b[0]) then 0 else 1 + CommonPrefix(less, a[1..], b[1..])
  }

  /** Once the heads differ, one pointer runs to the end of its descending list. */
  lemma {:induction false} HeadsDifferNothingLeft<T(!new)>(less: Less<T>, a: seq<T>, b: seq<T>)
    requires StrictWeakOrder(less) && Sorted(Flip(less), a) && Sorted(Flip(less), b)
    requires a != [] && b != [] && !Equiv(less, a[0], b[0])
    ensures Intersection(less, a, b) == []
    decreases |a| + |b|
  {
    if less(a[0], b[0]) {
      if |a| > 1 {
        assert !Flip(less)(a[1], a[0]);
        assert less(a[1], b[0]);
        HeadsDifferNothingLeft(less, a[1..], b);
      }
    } else if |b| > 1 {
      assert !Flip(less)(b[1], b[0]);
      assert less(b[1], a[0]);
      HeadsDifferNothingLeft(less, a, b[1..]);
    }
  }

  /** On lists sorted the other way round, the intersection loop computes the longest common prefix. */
  lemma {:induction false} OppositeOrderGivesPrefix<T(!new)>(less: Less<T>, a: seq<T>, b: seq<T>)
    requires StrictWeakOrder(less) && Sorted(Flip(less), a) && Sorted(Flip(less), b)
    ensures Intersection(less, a, b) == a[..CommonPrefix(less, a, b)]
    decreases |a|
  {
    if a != [] && b != [] {
      if Equiv(less, a[0], b[0]) {
        SortedTail(Flip(less), a);
        SortedTail(Flip(less), b);
        OppositeOrderGivesPrefix(less, a[1..], b[1..]);
        var k := CommonPrefix(less, a[1..], b[1..]);
        assert a[..1 + k] == [a[0]] + a[1..][..k];
      } else {
        HeadsDifferNothingLeft(less, a, b);
      }
    }
  }

  // ---------------------------------------------------------------- the right comparator: intersection

  function Count<T>(less: Less<T>, s: seq<T>, x: T): nat {
    if s == [] then 0 else (if Equiv(less, s[0], x) then 1 else 0) + Count(less, s[1..], x)
  }

  function Min(m: nat, n: nat): nat {
    if m <= n then m else n
  }

  lemma {:induction false} CountConcat<T>(less: Less<T>, s: seq<T>, t: seq<T>, x: T)
    ensures Count(less, s + t, x) == Count(less, s, x) + Count(less, t, x)
  {
    if s == [] {
      assert s + t == t;
    } else {
      assert (s + t)[1..] == s[1..] + t;
      CountConcat(less, s[1..], t, x);
    }
  }

  lemma {:induction false} CountPositive<T>(less: Less<T>, s: seq<T>, x: T)
    ensures Count(less, s, x) > 0 <==> exists i :: 0 <= i < |s| && Equiv(less, s[i], x)
  {
    if s != [] {
      CountPositive(less, s[1..], x);
      if i :| 0 <= i < |s| && Equiv(less, s[i], x) {
        assert i == 0 || s[1..][i - 1] == s[i];
      }
      if i :| 0 <= i < |s[1..]| && Equiv(less, s[1..][i], x) {
        assert s[i + 1] == s[1..][i];
      }
    }
  }

  /** An element below the whole of a sorted list has no equal in it, and neither has any of its equals. */
  lemma {:induction false} SmallerHasNoEqual<T(!new)>(less: Less<T>, y: T, s: seq<T>, x: T)
    requires StrictWeakOrder(less) && Sorted(less, s) && s != [] && less(y, s[0]) && Equiv(less, y, x)
    ensures Count(less, s, x) == 0
  {
    assert less(x, s[0]);
    if |s| > 1 {
      assert less(y, s[1]);
      SmallerHasNoEqual(less, y, s[1..], x);
    }
  }

  /** Each key occurs as often as in the list where it is rarer. */
  lemma {:induction false} IntersectionCounts<T(!new)>(less: Less<T>, a: seq<T>, b: seq<T>, x: T)
    requires StrictWeakOrder(less) && Sorted(less, a) && Sorted(less, b)
    ensures Count(less, Intersection(less, a, b), x) == Min(Count(less, a, x), Count(less, b, x))
    decreases |a| + |b|
  {
    if a != [] && b != [] {
      SortedTail(less, a);
      SortedTail(less, b);
      if less(a[0], b[0]) {
        IntersectionCounts(less, a[1..], b, x);
        if Equiv(less, a[0], x) {
          SmallerHasNoEqual(less, a[0], b, x);
        }
      } else if less(b[0], a[0]) {
        IntersectionCounts(less, a, b[1..], x);
        if Equiv(less, b[0], x) {
          SmallerHasNoEqual(less, b[0], a, x);
        }
      } else {
        IntersectionCounts(less, a[1..], b[1..], x);
        var rest := Intersection(less, a[1..], b[1..]);
        assert ([a[0]] + rest)[1..] == rest;
        assert Equiv(less, a[0], x) <==> Equiv(less, b[0], x);
      }
    }
  }

  /** `r` is `s` with some elements left out. */
  ghost predicate SubSequence<T>(r: seq<T>, s: seq<T>)
    decreases |s|
  {
    r == [] || (s != [] && (SubSequence(r, s[1..]) || (r[0] == s[0] && SubSequence(r[1..], s[1..]))))
  }

  /** Whatever the comparator and the lists, the loop copies from its first list, in order. */
  lemma {:induction false} IntersectionIsSubSequence<T>(less: Less<T>, a: seq<T>, b: seq<T>)
    ensures SubSequence(Intersection(less, a, b), a)
    decreases |a| + |b|
  {
    if a != [] && b != [] {
      if less(a[0], b[0]) {
        IntersectionIsSubSequence(less, a[1..], b);
      } else if less(b[0], a[0]) {
        IntersectionIsSubSequence(less, a, b[1..]);
      } else {
        IntersectionIsSubSequence(less, a[1..], b[1..]);
        var rest := Intersection(less, a[1..], b[1..]);
        assert ([a[0]] + rest)[1..] == rest;
      }
    }
  }

  lemma {:induction false} SubSequenceMembers<T>(r: seq<T>, s: seq<T>, x: T)
    requires SubSequence(r, s) && x in r
    ensures x in s
    decreases |s|
  {
    if r[0] == s[0] && SubSequence(r[1..], s[1..]) {
      if x != r[0] {
        SubSequenceMembers(r[1..], s[1..], x);
      }
    } else {
      SubSequenceMembers(r, s[1..], x);
    }
  }

  lemma {:induction false} SubSequenceSorted<T>(less: Less<T>, r: seq<T>, s: seq<T>)
    requires SubSequence(r, s) && Sorted(less, s)
    ensures Sorted(less, r)
    decreases |s|
  {
    if r != [] {
      SortedTail(less, s);
      if r[0] == s[0] && SubSequence(r[1..], s[1..]) {
        SubSequenceSorted(less, r[1..], s[1..]);
        forall i, j | 0 <= i < j < |r|
          ensures !less(r[j], r[i])
        {
          assert r[j] == r[1..][j - 1];
          if i == 0 {
            SubSequenceMembers(r[1..], s[1..], r[j]);
          } else {
            assert r[i] == r[1..][i - 1];
          }
        }
      } else {
        SubSequenceSorted(less, r, s[1..]);
      }
    }
  }

  /** A common prefix survives, whichever comparator is used. */
  lemma {:induction false} CommonPrefixSurvives<T>(less: Less<T>, a: seq<T>, b: seq<T>, k: nat)
    requires k <= |a| && k <= |b| && forall i :: 0 <= i < k ==> Equiv(less, a[i], b[i])
    ensures Intersection(less, a, b) == a[..k] + Intersection(less, a[k..], b[k..])
  {
    if k > 0 {
      CommonPrefixSurvives(less, a[1..], b[1..], k - 1);
      assert a[1..][k - 1..] == a[k..] && b[1..][k - 1..] == b[k..];
      assert a[..k] == [a[0]] + a[1..][..k - 1];
    } else {
      assert a[0..] == a && b[0..] == b;
    }
  }
}
