/** BackendInfoResponse.cpp: folding the intersection over the record lists of any number of backends. */
module Merge {
  import opened SetIntersection

  /** The merge of one producer: the first list, intersected with each further one. */
  function MergeAll<T>(less: Less<T>, lists: seq<seq<T>>): seq<T>
    requires lists != []
    decreases |lists|
  {
    if |lists| == 1 then lists[0]
    else Intersection(less, MergeAll(less, lists[..|lists| - 1]), lists[|lists| - 1])
  }

  ghost predicate AllSorted<T>(less: Less<T>, lists: seq<seq<T>>) {
    forall l :: l in lists ==> Sorted(less, l)
  }

  /** Every list has at least `k` elements, and they agree with those of the first list, key by key. */
  ghost predicate AgreeUpTo<T>(less: Less<T>, lists: seq<seq<T>>, k: nat)
    requires lists != []
  {
    forall l :: l in lists ==> k <= |l| && k <= |lists[0]| && forall i :: 0 <= i < k ==> Equiv(less, lists[0][i], l[i])
  }

  // ---------------------------------------------------------------- as written

  function PrefixLength<T>(less: Less<T>, lists: seq<seq<T>>): (k: nat)
    requires lists != []
    ensures k <= |lists[0]|
    decreases |lists|
  {
    if |lists| == 1 then |lists[0]|
    else Min(PrefixLength(less, lists[..|lists| - 1]), CommonPrefix(less, lists[0], lists[|lists| - 1]))
  }

  lemma CommonPrefixOfTake<T>(less: Less<T>, a: seq<T>, b: seq<T>, k: nat)
    requires k <= |a|
    ensures CommonPrefix(less, a[..k], b) == Min(k, CommonPrefix(less, a, b))
  {
  }

  /** PrefixLength is the greatest length on which all lists agree. */
  lemma {:induction false} PrefixLengthIsGreatest<T(!new)>(less: Less<T>, lists: seq<seq<T>>, k: nat)
    requires StrictWeakOrder(less) && lists != []
    ensures AgreeUpTo(less, lists, k) <==> k <= PrefixLength(less, lists)
    decreases |lists|
  {
    var first, last := lists[0], lists[|lists| - 1];
    if |lists| > 1 {
      var init := lists[..|lists| - 1];
      PrefixLengthIsGreatest(less, init, k);
      assert forall l :: l in lists <==> l in init || l == last;
      if AgreeUpTo(less, lists, k) {
        assert last in lists;
      }
    }
  }

  lemma {:induction false} AsWrittenIsCommonPrefix<T(!new)>(less: Less<T>, lists: seq<seq<T>>)
    requires StrictWeakOrder(less) && lists != [] && AllSorted(Flip(less), lists)
    ensures MergeAll(less, lists) == lists[0][..PrefixLength(less, lists)]
    decreases |lists|
  {
    if |lists| > 1 {
      var init, last := lists[..|lists| - 1], lists[|lists| - 1];
      AsWrittenIsCommonPrefix(less, init);
      var k := PrefixLength(less, init);
      assert lists[0] in lists && Sorted(Flip(less), lists[0][..k]);
      OppositeOrderGivesPrefix(less, lists[0][..k], last);
      CommonPrefixOfTake(less, lists[0], last, k);
    }
  }

  /**
   * Descending lists, ascending comparator: the merge is exactly the longest prefix on which all
   * lists agree up to key equivalence, and its records are those of the first response.
   */
  lemma {:induction false} AsWrittenMerge<T(!new)>(less: Less<T>, lists: seq<seq<T>>)
    requires StrictWeakOrder(less) && lists != [] && AllSorted(Flip(less), lists)
    ensures
      var merged := MergeAll(less, lists);
      && merged <= lists[0]
      && AgreeUpTo(less, lists, |merged|)
      && forall k: nat :: AgreeUpTo(less, lists, k) ==> k <= |merged|
  {
    AsWrittenIsCommonPrefix(less, lists);
    forall k: nat
      ensures AgreeUpTo(less, lists, k) <==> k <= PrefixLength(less, lists)
    {
      PrefixLengthIsGreatest(less, lists, k);
    }
  }

  lemma AgreementIsSymmetric<T(!new)>(less: Less<T>, lists: seq<seq<T>>, others: seq<seq<T>>, k: nat)
    requires StrictWeakOrder(less) && lists != [] && others != []
    requires forall l :: l in lists <==> l in others
    requires AgreeUpTo(less, lists, k)
    ensures AgreeUpTo(less, others, k)
  {
  }

  /** The keys of the merge do not depend on the order in which the responses arrive. */
  lemma {:induction false} MergeIsOrderIndependent<T(!new)>(less: Less<T>, lists: seq<seq<T>>, others: seq<seq<T>>)
    requires StrictWeakOrder(less) && lists != [] && others != []
    requires AllSorted(Flip(less), lists) && forall l :: l in lists <==> l in others
    ensures
      var m, n := MergeAll(less, lists), MergeAll(less, others);
      |m| == |n| && forall i :: 0 <= i < |m| ==> Equiv(less, m[i], n[i])
  {
    AsWrittenMerge(less, lists);
    AsWrittenMerge(less, others);
    AgreementIsSymmetric(less, lists, others, |MergeAll(less, lists)|);
    AgreementIsSymmetric(less, others, lists, |MergeAll(less, others)|);
    assert others[0] in lists;
  }

  // ---------------------------------------------------------------- as documented

  function MinCount<T>(less: Less<T>, lists: seq<seq<T>>, x: T): nat
    requires lists != []
    decreases |lists|
  {
    if |lists| == 1 then Count(less, lists[0], x)
    else Min(MinCount(less, lists[..|lists| - 1], x), Count(less, lists[|lists| - 1], x))
  }

  lemma {:induction false} MinCountIsLeast<T>(less: Less<T>, lists: seq<seq<T>>, x: T)
    requires lists != []
    ensures forall l :: l in lists ==> MinCount(less, lists, x) <= Count(less, l, x)
    ensures exists l :: l in lists && MinCount(less, lists, x) == Count(less, l, x)
    decreases |lists|
  {
    if |lists| > 1 {
      var init, last := lists[..|lists| - 1], lists[|lists| - 1];
      MinCountIsLeast(less, init, x);
      assert forall l :: l in lists <==> l in init || l == last;
      var l :| l in init && MinCount(less, init, x) == Count(less, l, x);
      assert l in lists && last in lists;
    } else {
      assert lists[0] in lists;
    }
  }

  lemma {:induction false} SubSequenceTransitive<T>(r: seq<T>, s: seq<T>, t: seq<T>)
    requires SubSequence(r, s) && SubSequence(s, t)
    ensures SubSequence(r, t)
    decreases |t|, |s|
  {
    if r != [] && s != [] && t != [] {
      if SubSequence(s, t[1..]) {
        SubSequenceTransitive(r, s, t[1..]);
      } else if SubSequence(r, s[1..]) {
        SubSequenceTransitive(r, s[1..], t[1..]);
      } else {
        SubSequenceTransitive(r[1..], s[1..], t[1..]);
      }
    }
  }

  lemma {:induction false} SubSequenceReflexive<T>(s: seq<T>)
    ensures SubSequence(s, s)
  {
    if s != [] {
      SubSequenceReflexive(s[1..]);
    }
  }

  lemma {:induction false} MergeIsSubSequence<T>(less: Less<T>, lists: seq<seq<T>>)
    requires lists != []
    ensures SubSequence(MergeAll(less, lists), lists[0])
    decreases |lists|
  {
    if |lists| > 1 {
      var init, last := lists[..|lists| - 1], lists[|lists| - 1];
      MergeIsSubSequence(less, init);
      IntersectionIsSubSequence(less, MergeAll(less, init), last);
      SubSequenceTransitive(MergeAll(less, lists), MergeAll(less, init), lists[0]);
    } else {
      SubSequenceReflexive(lists[0]);
    }
  }

  /**
   * With the comparator the lists are sorted by, the merge keeps every key as often as the response
   * in which it is rarest, sorted, with the records of the first response.
   */
  lemma {:induction false} DocumentedMerge<T(!new)>(less: Less<T>, lists: seq<seq<T>>, x: T)
    requires StrictWeakOrder(less) && lists != [] && AllSorted(less, lists)
    ensures Count(less, MergeAll(less, lists), x) == MinCount(less, lists, x)
    ensures Sorted(less, MergeAll(less, lists)) && SubSequence(MergeAll(less, lists), lists[0])
    decreases |lists|
  {
    MergeIsSubSequence(less, lists);
    assert lists[0] in lists;
    SubSequenceSorted(less, MergeAll(less, lists), lists[0]);
    if |lists| > 1 {
      var init, last := lists[..|lists| - 1], lists[|lists| - 1];
      DocumentedMerge(less, init, x);
      assert last in lists;
      IntersectionCounts(less, MergeAll(less, init), last, x);
    }
  }

  // ---------------------------------------------------------------- the difference

  lemma FlipIsStrictWeakOrder<T(!new)>(less: Less<T>)
    requires StrictWeakOrder(less)
    ensures StrictWeakOrder(Flip(less))
  {
  }

  function Tails<T>(lists: seq<seq<T>>, k: nat): (r: seq<seq<T>>)
    requires forall l :: l in lists ==> k <= |l|
    ensures |r| == |lists| && forall i :: 0 <= i < |r| ==> r[i] == lists[i][k..]
  {
    seq(|lists|, i requires 0 <= i < |lists| => assert lists[i] in lists; lists[i][k..])
  }

  lemma AgreedHeadIsKept<T>(less: Less<T>, head: seq<T>, rest: seq<T>, last: seq<T>)
    requires |head| <= |last| && forall i :: 0 <= i < |head| ==> Equiv(less, head[i], last[i])
    ensures Intersection(less, head + rest, last) == head + Intersection(less, rest, last[|head|..])
  {
    CommonPrefixSurvives(less, head + rest, last, |head|);
    assert (head + rest)[..|head|] == head && (head + rest)[|head|..] == rest;
  }

  lemma AgreeWithoutLast<T>(less: Less<T>, lists: seq<seq<T>>, k: nat)
    requires |lists| > 1 && AgreeUpTo(less, lists, k)
    ensures AgreeUpTo(less, lists[..|lists| - 1], k)
    ensures forall l :: l in lists[..|lists| - 1] ==> k <= |l|
    ensures var last := lists[|lists| - 1];
            k <= |last| && k <= |lists[0]| && forall i :: 0 <= i < k ==> Equiv(less, lists[0][i], last[i])
  {
  }

  lemma TailsWithoutLast<T>(lists: seq<seq<T>>, k: nat)
    requires |lists| > 1 && (forall l :: l in lists ==> k <= |l|)
    ensures (forall l :: l in lists[..|lists| - 1] ==> k <= |l|) && k <= |lists[|lists| - 1]|
    ensures var tails := Tails(lists, k);
            tails[..|lists| - 1] == Tails(lists[..|lists| - 1], k) && tails[|lists| - 1] == lists[|lists| - 1][k..]
  {
  }

  /** What all lists have in common at their head is kept; the rest is merged on its own. */
  lemma {:induction false} AgreedPrefixIsKept<T>(less: Less<T>, lists: seq<seq<T>>, k: nat)
    requires lists != [] && AgreeUpTo(less, lists, k)
    requires forall l :: l in lists ==> k <= |l|
    ensures MergeAll(less, lists) == lists[0][..k] + MergeAll(less, Tails(lists, k))
    decreases |lists|
  {
    var tails := Tails(lists, k);
    if |lists| == 1 {
      assert lists[0] == lists[0][..k] + lists[0][k..];
    } else {
      var n := |lists| - 1;
      AgreeWithoutLast(less, lists, k);
      AgreedPrefixIsKept(less, lists[..n], k);
      TailsWithoutLast(lists, k);
      AgreedHeadIsKept(less, lists[0][..k], MergeAll(less, tails[..n]), lists[n]);
      assert MergeAll(less, tails) == Intersection(less, MergeAll(less, tails[..n]), tails[n]);
    }
  }

  ghost predicate MissesFrom<T>(less: Less<T>, l: seq<T>, k: nat, x: T) {
    forall i :: k <= i < |l| ==> !Equiv(less, l[i], x)
  }

  ghost predicate SomeListMisses<T>(less: Less<T>, lists: seq<seq<T>>, k: nat, x: T) {
    exists l :: l in lists && MissesFrom(less, l, k, x)
  }

  /** No key occurs in every list at position `k` or later. */
  ghost predicate NothingCommonFrom<T(!new)>(less: Less<T>, lists: seq<seq<T>>, k: nat) {
    forall x :: SomeListMisses(less, lists, k, x)
  }

  lemma TailCount<T>(less: Less<T>, l: seq<T>, k: nat, x: T)
    requires k <= |l|
    ensures Count(less, l[k..], x) == 0 <==> MissesFrom(less, l, k, x)
  {
    CountPositive(less, l[k..], x);
    assert forall i :: k <= i < |l| ==> l[i] == l[k..][i - k];
  }

  /** The rarest occurrence among the tails is none at all exactly when some list misses the key there. */
  lemma TailsMinCount<T>(less: Less<T>, lists: seq<seq<T>>, k: nat, x: T)
    requires lists != [] && forall l :: l in lists ==> k <= |l|
    ensures MinCount(less, Tails(lists, k), x) == 0 <==> SomeListMisses(less, lists, k, x)
  {
    var tails := Tails(lists, k);
    MinCountIsLeast(less, tails, x);
    forall j | 0 <= j < |lists|
      ensures tails[j] in tails && lists[j] in lists
      ensures Count(less, tails[j], x) == 0 <==> MissesFrom(less, lists[j], k, x)
    {
      TailCount(less, lists[j], k, x);
    }
    var t :| t in tails && MinCount(less, tails, x) == Count(less, t, x);
    var j :| 0 <= j < |tails| && tails[j] == t;
    if SomeListMisses(less, lists, k, x) {
      var l :| l in lists && MissesFrom(less, l, k, x);
      var m :| 0 <= m < |lists| && lists[m] == l;
      assert Count(less, tails[m], x) == 0;
    }
  }

  lemma TailsSorted<T>(less: Less<T>, lists: seq<seq<T>>, k: nat)
    requires AllSorted(less, lists) && forall l :: l in lists ==> k <= |l|
    ensures AllSorted(less, Tails(lists, k))
  {
  }

  lemma NothingCommonMeansEmpty<T(!new)>(less: Less<T>, lists: seq<seq<T>>, k: nat)
    requires StrictWeakOrder(less) && lists != [] && AllSorted(less, lists)
    requires forall l :: l in lists ==> k <= |l|
    ensures MergeAll(less, Tails(lists, k)) == [] <==> NothingCommonFrom(less, lists, k)
  {
    var rest := MergeAll(less, Tails(lists, k));
    TailsSorted(less, lists, k);
    forall x
      ensures Count(less, rest, x) == 0 <==> SomeListMisses(less, lists, k, x)
    {
      DocumentedMerge(less, Tails(lists, k), x);
      TailsMinCount(less, lists, k, x);
    }
    if rest != [] {
      assert Equiv(less, rest[0], rest[0]);
      assert Count(less, rest, rest[0]) > 0;
    }
  }

  lemma MissingIsSymmetric<T(!new)>(less: Less<T>, lists: seq<seq<T>>, k: nat)
    ensures NothingCommonFrom(Flip(less), lists, k) <==> NothingCommonFrom(less, lists, k)
  {
    forall l: seq<T>, x: T
      ensures MissesFrom(Flip(less), l, k, x) <==> MissesFrom(less, l, k, x)
    {
    }
    forall x
      ensures SomeListMisses(Flip(less), lists, k, x) <==> SomeListMisses(less, lists, k, x)
    {
    }
  }

  /**
   * The merge as written is always the beginning of the documented one, and is all of it exactly
   * when no key occurs in every response after the point where the responses stop agreeing.
   */
  lemma {:induction false} AsWrittenVersusDocumented<T(!new)>(less: Less<T>, lists: seq<seq<T>>)
    requires StrictWeakOrder(less) && lists != [] && AllSorted(Flip(less), lists)
    ensures MergeAll(less, lists) <= MergeAll(Flip(less), lists)
    ensures MergeAll(less, lists) == MergeAll(Flip(less), lists) <==>
            NothingCommonFrom(less, lists, PrefixLength(less, lists))
  {
    var k := PrefixLength(less, lists);
    AsWrittenIsCommonPrefix(less, lists);
    PrefixLengthIsGreatest(less, lists, k);
    FlipIsStrictWeakOrder(less);
    assert AgreeUpTo(Flip(less), lists, k);
    AgreedPrefixIsKept(Flip(less), lists, k);
    NothingCommonMeansEmpty(Flip(less), lists, k);
    MissingIsSymmetric(less, lists, k);
  }

  /** No key occurs twice. */
  ghost predicate Strictly<T>(less: Less<T>, s: seq<T>) {
    forall i, j :: 0 <= i < j < |s| ==> !Equiv(less, s[i], s[j])
  }

  ghost predicate Occurs<T>(less: Less<T>, s: seq<T>, x: T) {
    exists i :: 0 <= i < |s| && Equiv(less, s[i], x)
  }

  ghost predicate InAll<T>(less: Less<T>, lists: seq<seq<T>>, x: T) {
    forall l :: l in lists ==> Occurs(less, l, x)
  }

  /** The documented merge has exactly the keys that occur in every response. */
  lemma {:induction false} DocumentedKeys<T(!new)>(less: Less<T>, lists: seq<seq<T>>, x: T)
    requires StrictWeakOrder(less) && lists != [] && AllSorted(less, lists)
    ensures Occurs(less, MergeAll(less, lists), x) <==> InAll(less, lists, x)
  {
    DocumentedMerge(less, lists, x);
    MinCountIsLeast(less, lists, x);
    CountPositive(less, MergeAll(less, lists), x);
    forall l | l in lists
      ensures Count(less, l, x) > 0 <==> Occurs(less, l, x)
    {
      CountPositive(less, l, x);
    }
  }

  /** A key found early in a list of distinct keys is not found again. */
  lemma DistinctKeysMissLater<T(!new)>(less: Less<T>, s: seq<T>, k: nat, x: T)
    requires StrictWeakOrder(less) && Strictly(less, s) && k <= |s| && Occurs(less, s[..k], x)
    ensures MissesFrom(less, s, k, x)
  {
  }

  lemma OccursIsSymmetric<T(!new)>(less: Less<T>, lists: seq<seq<T>>)
    ensures forall s: seq<T>, x: T :: Occurs(Flip(less), s, x) <==> Occurs(less, s, x)
    ensures forall x :: InAll(Flip(less), lists, x) <==> InAll(less, lists, x)
  {
  }

  /** With distinct keys: the merge is the documented one exactly when the common beginning holds every common key. */
  lemma {:induction false} DistinctKeysCompareByPrefix<T(!new)>(less: Less<T>, lists: seq<seq<T>>)
    requires StrictWeakOrder(less) && lists != [] && AllSorted(Flip(less), lists) && Strictly(less, lists[0])
    ensures MergeAll(less, lists) == MergeAll(Flip(less), lists) <==>
            forall x :: InAll(less, lists, x) ==> Occurs(less, lists[0][..PrefixLength(less, lists)], x)
  {
    var w, k := MergeAll(less, lists), PrefixLength(less, lists);
    AsWrittenVersusDocumented(less, lists);
    AsWrittenIsCommonPrefix(less, lists);
    FlipIsStrictWeakOrder(less);
    OccursIsSymmetric(less, lists);
    forall x
      ensures Occurs(less, MergeAll(Flip(less), lists), x) <==> InAll(less, lists, x)
    {
      DocumentedKeys(Flip(less), lists, x);
    }
    if forall x :: InAll(less, lists, x) ==> Occurs(less, w, x) {
      forall x
        ensures SomeListMisses(less, lists, k, x)
      {
        if InAll(less, lists, x) {
          DistinctKeysMissLater(less, lists[0], k, x);
          assert lists[0] in lists;
        } else {
          var l :| l in lists && !Occurs(less, l, x);
          assert MissesFrom(less, l, k, x);
        }
      }
    }
  }

  lemma MergeOfTwo<T>(less: Less<T>, a: seq<T>, b: seq<T>)
    ensures MergeAll(less, [a, b]) == Intersection(less, a, b)
  {
    assert [a, b][..1] == [a];
  }

  lemma IntersectionOfOne<T>(less: Less<T>, x: T, y: T)
    ensures Intersection(less, [x], [y]) == if Equiv(less, x, y) then [x] else []
  {
  }

  /** The two do differ: whenever the newest records of two lists differ, the older one they share is lost. */
  lemma NewestRecordsDiffer<T(!new)>(less: Less<T>, x: T, y: T, shared: T)
    requires StrictWeakOrder(less) && less(shared, x) && less(shared, y) && !Equiv(less, x, y)
    ensures AllSorted(Flip(less), [[x, shared], [y, shared]])
    ensures MergeAll(less, [[x, shared], [y, shared]]) == []
    ensures MergeAll(Flip(less), [[x, shared], [y, shared]]) == [shared]
  {
    var a, b := [x, shared], [y, shared];
    MergeOfTwo(less, a, b);
    MergeOfTwo(Flip(less), a, b);
    OppositeOrderGivesPrefix(less, a, b);
    assert a[1..] == [shared] && b[1..] == [shared];
    IntersectionOfOne(Flip(less), shared, shared);
    IntersectionOfOne(Flip(less), shared, y);
    assert Flip(less)(x, y) ==> Intersection(Flip(less), a, b) == Intersection(Flip(less), [shared], b);
    assert Flip(less)(y, x) ==> Intersection(Flip(less), a, b) == Intersection(Flip(less), a, [shared]);
  }
}
