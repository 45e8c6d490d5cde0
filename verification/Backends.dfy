/** Backends, and Plugin.cpp: removing duplicates from the list of those that announced an info request. */
module Backends {
  import opened Strings
  import opened SetIntersection
  import opened BackendInfo

  datatype Backend = Backend(name: string, port: int)

  /** One announcement; several may name the same host and port. */
  datatype Announcement = Announcement(origin: string, host: string, port: int)

  predicate Earlier(a: Announcement, b: Announcement) {
    if a.host != b.host then StringLess(a.host, b.host) else a.port < b.port
  }

  function Key(a: Announcement): Backend {
    Backend(a.host, a.port)
  }

  predicate SameKey(a: Announcement, b: Announcement) {
    Key(a) == Key(b)
  }

  lemma EarlierOrder(a: Announcement, b: Announcement, c: Announcement)
    ensures Earlier(a, b) ==> !Earlier(b, a)
    ensures Earlier(a, c) ==> Earlier(a, b) || Earlier(b, c)
    ensures Equiv(Earlier, a, b) <==> SameKey(a, b)
  {
    StringOrder(a.host, b.host, c.host);
    StringOrder(b.host, c.host, a.host);
  }

  lemma EarlierIsStrictWeak()
    ensures StrictWeakOrder(Earlier)
  {
    forall a, b | Earlier(a, b)
      ensures !Earlier(b, a)
    {
      EarlierOrder(a, b, a);
    }
    forall a, b, c | Earlier(a, c)
      ensures Earlier(a, b) || Earlier(b, c)
    {
      EarlierOrder(a, b, c);
    }
  }

  /** The first of each run of equal keys. */
  function Unique(s: seq<Announcement>): seq<Announcement> {
    if |s| <= 1 then s
    else
      var init := Unique(s[..|s| - 1]);
      if SameKey(s[|s| - 2], s[|s| - 1]) then init else init + [s[|s| - 1]]
  }

  lemma {:induction false} UniqueKeepsEnds(s: seq<Announcement>)
    requires s != []
    ensures Unique(s) != [] && |Unique(s)| <= |s|
    ensures SameKey(Unique(s)[|Unique(s)| - 1], s[|s| - 1])
    ensures forall u :: u in Unique(s) ==> u in s
  {
    if |s| > 1 {
      UniqueKeepsEnds(s[..|s| - 1]);
      assert s[|s| - 1] in s;
    }
  }

  lemma UniqueOfOneMore(s: seq<Announcement>, i: nat)
    requires 0 < i < |s|
    ensures Unique(s[..i + 1]) == if SameKey(s[i - 1], s[i]) then Unique(s[..i]) else Unique(s[..i]) + [s[i]]
  {
    assert s[..i + 1][..i] == s[..i];
  }

  /** std::unique: shift the first element of each run to the front, in place. */
  method UniqueInPlace(a: array<Announcement>) returns (n: nat)
    modifies a
    ensures n <= a.Length && a[..n] == Unique(old(a[..]))
  {
    if a.Length == 0 {
      return 0;
    }
    ghost var s := a[..];
    var last := 0;
    assert s[..1] == a[..1];
    for i := 1 to a.Length
      invariant 0 <= last < i
      invariant a[..last + 1] == Unique(s[..i])
      invariant forall k :: i <= k < a.Length ==> a[k] == s[k]
    {
      UniqueOfOneMore(s, i);
      UniqueKeepsEnds(s[..i]);
      assert a[last] == a[..last + 1][last] && SameKey(a[last], s[i - 1]);
      if !SameKey(a[last], a[i]) {
        last := last + 1;
        a[last] := a[i];
        assert a[..last] == Unique(s[..i]);
      }
    }
    assert s[..a.Length] == s;
    return last + 1;
  }

  /** Strictly increasing: in particular no key twice. */
  ghost predicate StrictlyOrdered(s: seq<Announcement>) {
    forall i, j :: 0 <= i < j < |s| ==> Earlier(s[i], s[j])
  }

  /** In a sorted list whose last key is new, whatever is not after the last but one is before the last. */
  lemma BeforeLast(s: seq<Announcement>, x: Announcement, y: Announcement)
    requires Sorted(Earlier, s) && |s| > 1
    requires !SameKey(s[|s| - 2], s[|s| - 1]) && SameKey(y, s[|s| - 2])
    ensures Earlier(y, s[|s| - 1])
    ensures Earlier(x, y) ==> Earlier(x, s[|s| - 1])
  {
    var last := s[|s| - 1];
    EarlierOrder(s[|s| - 2], last, y);
    EarlierOrder(y, last, s[|s| - 2]);
    EarlierOrder(last, y, x);
    EarlierOrder(x, last, y);
  }

  /** No key is lost. */
  lemma {:induction false} UniqueCovers(s: seq<Announcement>, x: Announcement)
    requires x in s
    ensures exists u :: u in Unique(s) && SameKey(u, x)
  {
    UniqueKeepsEnds(s);
    var init, last := s[..|s| - 1], s[|s| - 1];
    if x in init {
      UniqueCovers(init, x);
      var u :| u in Unique(init) && SameKey(u, x);
      assert u in Unique(s);
    } else {
      assert x == last && Unique(s)[|Unique(s)| - 1] in Unique(s);
    }
  }

  /** On a sorted list, what remains is strictly ordered. */
  lemma {:induction false} UniqueIsStrict(s: seq<Announcement>)
    requires Sorted(Earlier, s)
    ensures StrictlyOrdered(Unique(s))
  {
    if |s| > 1 {
      var u := Unique(s[..|s| - 1]);
      UniqueIsStrict(s[..|s| - 1]);
      UniqueKeepsEnds(s[..|s| - 1]);
      if !SameKey(s[|s| - 2], s[|s| - 1]) {
        forall i | 0 <= i < |u|
          ensures Earlier(u[i], s[|s| - 1])
        {
          BeforeLast(s, u[i], u[|u| - 1]);
          assert i == |u| - 1 || Earlier(u[i], u[|u| - 1]);
        }
      }
    }
  }

  /**
   * Each host and port of the input occurs exactly once in the output, which is strictly ordered
   * and made of announcements of the input.
   */
  method Deduplicate(backendList: seq<Announcement>) returns (backends: seq<Announcement>)
    ensures forall i, j :: 0 <= i < j < |backends| ==>
              StringLess(backends[i].host, backends[j].host)
              || (backends[i].host == backends[j].host && backends[i].port < backends[j].port)
    ensures forall b :: b in backends ==> b in backendList
    ensures forall x :: x in backendList ==> exists b :: b in backends && b.host == x.host && b.port == x.port
    ensures forall i, j :: 0 <= i < j < |backends| ==>
              backends[i].host != backends[j].host || backends[i].port != backends[j].port
  {
    EarlierIsStrictWeak();
    var sorted := Sort(Earlier, backendList);
    SameElements(sorted, backendList);
    var a := new Announcement[|sorted|](i requires 0 <= i < |sorted| => sorted[i]);
    assert a[..] == sorted;
    var n := UniqueInPlace(a);
    backends := a[..n];
    UniqueIsStrict(sorted);
    if sorted != [] {
      UniqueKeepsEnds(sorted);
    }
    forall x | x in backendList
      ensures exists b :: b in backends && b.host == x.host && b.port == x.port
    {
      UniqueCovers(sorted, x);
      var b :| b in Unique(sorted) && SameKey(b, x);
    }
    forall i, j | 0 <= i < j < |backends|
      ensures Earlier(backends[i], backends[j]) && !SameKey(backends[i], backends[j])
    {
      EarlierOrder(backends[i], backends[j], backends[i]);
    }
  }
}
