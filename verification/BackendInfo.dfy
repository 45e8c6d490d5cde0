/** BackendInfoResponse.cpp: records of one or several backends, grouped by producer and sorted. */
module BackendInfo {
  import opened Strings
  import opened SetIntersection
  import opened Merge

  /** What the response needs to know of its records: operator<, get_producer and get_title. */
  datatype RecordKind<!T> = RecordKind(less: Less<T>, producer: T -> string, title: string)

  type Records<T> = map<string, seq<T>>

  /** Per producer a non-empty list of its own records, newest first. */
  ghost predicate WellFormed<T>(kind: RecordKind<T>, records: Records<T>) {
    forall p :: p in records ==>
      && records[p] != []
      && Sorted(Flip(kind.less), records[p])
      && forall r :: r in records[p] ==> kind.producer(r) == p
  }

  // ---------------------------------------------------------------- parsing

  /** The records of one producer that the factory built and the filter accepted, in input order. */
  function Accepted<T>(kind: RecordKind<T>, filter: T -> bool, items: seq<Option<T>>, p: string): seq<T> {
    if items == [] then []
    else
      var init, last := items[..|items| - 1], items[|items| - 1];
      Accepted(kind, filter, init, p) +
      (if last.Some? && filter(last.value) && kind.producer(last.value) == p then [last.value] else [])
  }

  lemma {:induction false} AcceptedAreOfProducer<T>(kind: RecordKind<T>, filter: T -> bool, items: seq<Option<T>>, p: string)
    ensures forall r :: r in Accepted(kind, filter, items, p) ==>
              kind.producer(r) == p && filter(r) && Some(r) in items
  {
    if items != [] {
      AcceptedAreOfProducer(kind, filter, items[..|items| - 1], p);
      assert items[|items| - 1] in items;
    }
  }

  /** Of one producer, what passes the filter is kept as often as it occurs, and nothing else is. */
  lemma {:induction false} AcceptedCounts<T(!new)>(kind: RecordKind<T>, filter: T -> bool, items: seq<Option<T>>, p: string, r: T)
    ensures multiset(Accepted(kind, filter, items, p))[r] ==
            if filter(r) && kind.producer(r) == p then multiset(items)[Some(r)] else 0
  {
    if items != [] {
      var init, last := items[..|items| - 1], items[|items| - 1];
      AcceptedCounts(kind, filter, init, p, r);
      assert items == init + [last];
    }
  }

  lemma InsertKeepsSorted<T(!new)>(less: Less<T>, r: seq<T>, j: nat, x: T)
    requires StrictWeakOrder(less) && Sorted(less, r) && j <= |r|
    requires forall k :: j <= k < |r| ==> less(x, r[k])
    requires j > 0 ==> !less(x, r[j - 1])
    ensures Sorted(less, r[..j] + [x] + r[j..])
  {
  }

  /** Put one element into its place, after its equals. */
  method Insert<T(!new)>(less: Less<T>, r: seq<T>, x: T) returns (s: seq<T>)
    requires StrictWeakOrder(less) && Sorted(less, r)
    ensures Sorted(less, s) && multiset(s) == multiset(r) + multiset{x}
  {
    var j := |r|;
    while j > 0 && less(x, r[j - 1])
      invariant 0 <= j <= |r|
      invariant forall k :: j <= k < |r| ==> less(x, r[k])
    {
      j := j - 1;
    }
    InsertKeepsSorted(less, r, j, x);
    assert r == r[..j] + r[j..];
    s := r[..j] + [x] + r[j..];
  }

  /** std::sort: some sorted permutation. */
  method Sort<T(!new)>(less: Less<T>, s: seq<T>) returns (r: seq<T>)
    requires StrictWeakOrder(less)
    ensures multiset(r) == multiset(s) && Sorted(less, r)
  {
    r := [];
    for i := 0 to |s|
      invariant multiset(r) == multiset(s[..i]) && Sorted(less, r)
    {
      assert s[..i + 1] == s[..i] + [s[i]];
      r := Insert(less, r, s[i]);
    }
    assert s[..|s|] == s;
  }

  /** Push every accepted record to the list of its producer. */
  method Group<T>(kind: RecordKind<T>, items: seq<Option<T>>, filter: T -> bool) returns (records: Records<T>)
    ensures forall p :: p in records <==> Accepted(kind, filter, items, p) != []
    ensures forall p :: p in records ==> records[p] == Accepted(kind, filter, items, p)
  {
    records := map[];
    for i := 0 to |items|
      invariant forall p :: p in records <==> Accepted(kind, filter, items[..i], p) != []
      invariant forall p :: p in records ==> records[p] == Accepted(kind, filter, items[..i], p)
    {
      assert items[..i + 1][..i] == items[..i];
      var record := items[i];
      if record.Some? && filter(record.value) {
        var p := kind.producer(record.value);
        records := records[p := (if p in records then records[p] else []) + [record.value]];
      }
    }
    assert items[..|items|] == items;
  }

  /** Sort every producer's list. */
  method SortAll<T(!new)>(less: Less<T>, records: Records<T>) returns (sorted: Records<T>)
    requires StrictWeakOrder(less)
    ensures sorted.Keys == records.Keys
    ensures forall p :: p in sorted ==> Sorted(less, sorted[p]) && multiset(sorted[p]) == multiset(records[p])
  {
    sorted := records;
    var todo := records.Keys;
    while todo != {}
      invariant todo <= records.Keys == sorted.Keys
      invariant forall p :: p in sorted ==> multiset(sorted[p]) == multiset(records[p])
      invariant forall p :: p in sorted && p !in todo ==> Sorted(less, sorted[p])
      decreases todo
    {
      var p :| p in todo;
      var list := Sort(less, sorted[p]);
      sorted := sorted[p := list];
      todo := todo - {p};
    }
  }

  lemma SameElements<T(!new)>(a: seq<T>, b: seq<T>)
    requires multiset(a) == multiset(b)
    ensures a == [] <==> b == []
    ensures forall x :: x in a <==> x in b
  {
    forall x
      ensures x in a <==> x in b
    {
      assert x in a <==> x in multiset(a);
      assert x in b <==> x in multiset(b);
    }
    assert |multiset(a)| == |a| && |multiset(b)| == |b|;
  }

  /** Grouping and sorting gives a well-formed response. */
  lemma SortedGroupsAreWellFormed<T(!new)>(kind: RecordKind<T>, filter: T -> bool, items: seq<Option<T>>,
                                           groups: Records<T>, sorted: Records<T>)
    requires forall p :: p in groups <==> Accepted(kind, filter, items, p) != []
    requires forall p :: p in groups ==> groups[p] == Accepted(kind, filter, items, p)
    requires sorted.Keys == groups.Keys
    requires forall p :: p in sorted ==> Sorted(Flip(kind.less), sorted[p]) && multiset(sorted[p]) == multiset(groups[p])
    ensures WellFormed(kind, sorted)
  {
    forall p | p in sorted
      ensures sorted[p] != [] && forall r :: r in sorted[p] ==> kind.producer(r) == p
    {
      AcceptedAreOfProducer(kind, filter, items, p);
      SameElements(sorted[p], groups[p]);
    }
  }

  // ---------------------------------------------------------------- merging

  function CommonProducers<T(!new)>(rs: seq<Records<T>>): (ps: set<string>)
    requires rs != []
    ensures forall p :: p in ps <==> forall r :: r in rs ==> p in r
  {
    if |rs| == 1 then rs[0].Keys
    else
      assert forall r :: r in rs <==> r == rs[|rs| - 1] || r in rs[..|rs| - 1];
      CommonProducers(rs[..|rs| - 1]) * rs[|rs| - 1].Keys
  }

  /** The lists of one producer, in the order of the responses. */
  function ListsOf<T>(rs: seq<Records<T>>, p: string): (lists: seq<seq<T>>)
    requires forall r :: r in rs ==> p in r
    ensures |lists| == |rs| && forall i :: 0 <= i < |rs| ==> p in rs[i] && lists[i] == rs[i][p]
  {
    seq(|rs|, i requires 0 <= i < |rs| => assert rs[i] in rs; rs[i][p])
  }

  /** The merged response: no producer with an empty list is kept. */
  function MergedRecords<T(!new)>(less: Less<T>, rs: seq<Records<T>>): Records<T>
    requires rs != []
  {
    map p | p in CommonProducers(rs) && MergeAll(less, ListsOf(rs, p)) != [] :: MergeAll(less, ListsOf(rs, p))
  }

  lemma ListsAreSorted<T(!new)>(kind: RecordKind<T>, rs: seq<Records<T>>, p: string)
    requires rs != [] && (forall r :: r in rs ==> WellFormed(kind, r)) && p in CommonProducers(rs)
    ensures AllSorted(Flip(kind.less), ListsOf(rs, p))
  {
    forall l | l in ListsOf(rs, p)
      ensures Sorted(Flip(kind.less), l)
    {
      var i :| 0 <= i < |rs| && ListsOf(rs, p)[i] == l;
      assert rs[i] in rs && WellFormed(kind, rs[i]);
    }
  }

  /** Merging well-formed responses gives a well-formed one, with records of the first response only. */
  lemma MergeIsWellFormed<T(!new)>(kind: RecordKind<T>, rs: seq<Records<T>>)
    requires StrictWeakOrder(kind.less) && rs != [] && forall r :: r in rs ==> WellFormed(kind, r)
    ensures WellFormed(kind, MergedRecords(kind.less, rs))
    ensures forall p :: p in MergedRecords(kind.less, rs) ==> p in rs[0] && MergedRecords(kind.less, rs)[p] <= rs[0][p]
  {
    var merged := MergedRecords(kind.less, rs);
    forall p | p in merged
      ensures p in rs[0] && merged[p] <= rs[0][p] && merged[p] != [] && Sorted(Flip(kind.less), merged[p])
      ensures forall r :: r in merged[p] ==> kind.producer(r) == p
    {
      ListsAreSorted(kind, rs, p);
      AsWrittenMerge(kind.less, ListsOf(rs, p));
      assert rs[0] in rs && WellFormed(kind, rs[0]);
      assert forall r :: r in merged[p] ==> r in rs[0][p];
    }
  }

  /** What the merge keeps of `p` begins the first response's list, and goes on exactly as long as all lists agree. */
  ghost predicate LongestAgreement<T(!new)>(less: Less<T>, rs: seq<Records<T>>, p: string)
    requires rs != [] && p in CommonProducers(rs)
  {
    var merged := MergedRecords(less, rs);
    var kept := if p in merged then merged[p] else [];
    && p in rs[0] && kept <= rs[0][p]
    && forall k: nat :: AgreeUpTo(less, ListsOf(rs, p), k) <==> k <= |kept|
  }

  /** Per common producer, the merge is the longest beginning of the first response's list on which all agree. */
  lemma MergeIsCommonPrefix<T(!new)>(kind: RecordKind<T>, rs: seq<Records<T>>, p: string)
    requires StrictWeakOrder(kind.less) && rs != [] && forall r :: r in rs ==> WellFormed(kind, r)
    requires p in CommonProducers(rs)
    ensures LongestAgreement(kind.less, rs, p)
  {
    ListsAreSorted(kind, rs, p);
    AsWrittenIsCommonPrefix(kind.less, ListsOf(rs, p));
    forall k: nat
      ensures AgreeUpTo(kind.less, ListsOf(rs, p), k) <==> k <= PrefixLength(kind.less, ListsOf(rs, p))
    {
      PrefixLengthIsGreatest(kind.less, ListsOf(rs, p), k);
    }
    assert rs[0] in rs;
  }

  /** No record of `p` is in every response after the point where their lists stop agreeing. */
  ghost predicate NothingMissed<T(!new)>(less: Less<T>, rs: seq<Records<T>>, p: string)
    requires rs != [] && p in CommonProducers(rs)
  {
    NothingCommonFrom(less, ListsOf(rs, p), PrefixLength(less, ListsOf(rs, p)))
  }

  /** The merge as written is the documented one exactly if no common producer has a common record beyond that point. */
  lemma MergeMatchesDocumentation<T(!new)>(kind: RecordKind<T>, rs: seq<Records<T>>)
    requires StrictWeakOrder(kind.less) && rs != [] && forall r :: r in rs ==> WellFormed(kind, r)
    ensures MergedRecords(kind.less, rs) == MergedRecords(Flip(kind.less), rs) <==>
            forall p :: p in CommonProducers(rs) ==> NothingMissed(kind.less, rs, p)
  {
    var written, documented := MergedRecords(kind.less, rs), MergedRecords(Flip(kind.less), rs);
    forall p | p in CommonProducers(rs)
      ensures MergeAll(kind.less, ListsOf(rs, p)) == MergeAll(Flip(kind.less), ListsOf(rs, p)) <==>
              NothingMissed(kind.less, rs, p)
    {
      ListsAreSorted(kind, rs, p);
      AsWrittenVersusDocumented(kind.less, ListsOf(rs, p));
    }
    if written == documented {
      forall p | p in CommonProducers(rs)
        ensures MergeAll(kind.less, ListsOf(rs, p)) == MergeAll(Flip(kind.less), ListsOf(rs, p))
      {
        assert p in written <==> p in documented;
      }
    }
  }

  /** Two responses of one producer whose newest records differ lose the older record they share. */
  lemma SharedRecordIsLost<T(!new)>(kind: RecordKind<T>, p: string, x: T, y: T, shared: T)
    requires StrictWeakOrder(kind.less)
    requires kind.less(shared, x) && kind.less(shared, y) && !Equiv(kind.less, x, y)
    requires kind.producer(x) == p && kind.producer(y) == p && kind.producer(shared) == p
    ensures
      var rs: seq<Records<T>> := [map[p := [x, shared]], map[p := [y, shared]]];
      && (forall r :: r in rs ==> WellFormed(kind, r))
      && MergedRecords(kind.less, rs) == map[]
      && MergedRecords(Flip(kind.less), rs) == map[p := [shared]]
  {
    var rs: seq<Records<T>> := [map[p := [x, shared]], map[p := [y, shared]]];
    NewestRecordsDiffer(kind.less, x, y, shared);
    forall q
      ensures q in CommonProducers(rs) <==> q == p
    {
      assert rs[0] in rs && rs[1] in rs;
    }
    assert ListsOf(rs, p) == [[x, shared], [y, shared]];
    assert [x, shared] in ListsOf(rs, p) && [y, shared] in ListsOf(rs, p);
  }

  /** Which producers survive, and with which keys, does not depend on the order of the responses. */
  lemma MergedKeysAreOrderIndependent<T(!new)>(kind: RecordKind<T>, rs: seq<Records<T>>, qs: seq<Records<T>>, p: string)
    requires StrictWeakOrder(kind.less) && rs != [] && qs != []
    requires (forall r :: r in rs ==> WellFormed(kind, r)) && forall r :: r in rs <==> r in qs
    ensures
      var m, n := MergedRecords(kind.less, rs), MergedRecords(kind.less, qs);
      && (p in m <==> p in n)
      && (p in m ==> |m[p]| == |n[p]| && forall i :: 0 <= i < |m[p]| ==> Equiv(kind.less, m[p][i], n[p][i]))
  {
    if p in CommonProducers(rs) {
      ListsAreSorted(kind, rs, p);
      var a, b := ListsOf(rs, p), ListsOf(qs, p);
      SameLists(rs, qs, p);
      SameLists(qs, rs, p);
      MergeIsOrderIndependent(kind.less, a, b);
    }
  }

  lemma SameLists<T>(rs: seq<Records<T>>, qs: seq<Records<T>>, p: string)
    requires (forall r :: r in rs ==> p in r) && forall r :: r in rs <==> r in qs
    ensures forall l :: l in ListsOf(rs, p) ==> l in ListsOf(qs, p)
  {
    forall l | l in ListsOf(rs, p)
      ensures l in ListsOf(qs, p)
    {
      var i :| 0 <= i < |rs| && ListsOf(rs, p)[i] == l;
      assert rs[i] in qs;
      var j :| 0 <= j < |qs| && qs[j] == rs[i];
      assert ListsOf(qs, p)[j] == l;
    }
  }

  /** The lists of one producer, intersected one after the other. */
  method MergeProducer<T(!new)>(less: Less<T>, rs: seq<Records<T>>, p: string) returns (merged: seq<T>)
    requires rs != [] && forall r :: r in rs ==> p in r
    ensures merged == MergeAll(less, ListsOf(rs, p))
  {
    ghost var lists := ListsOf(rs, p);
    merged := rs[0][p];
    for i := 1 to |rs|
      invariant merged == MergeAll(less, lists[..i])
    {
      assert lists[..i + 1][..i] == lists[..i];
      merged := SetIntersect(less, merged, rs[i][p]);
    }
    assert lists[..|lists|] == lists;
  }

  method FindCommonProducers<T(!new)>(rs: seq<Records<T>>) returns (common: set<string>)
    requires rs != []
    ensures common == CommonProducers(rs)
  {
    common := rs[0].Keys;
    for i := 1 to |rs|
      invariant common == CommonProducers(rs[..i])
    {
      assert rs[..i + 1][..i] == rs[..i];
      common := common * rs[i].Keys;
    }
    assert rs[..|rs|] == rs;
  }

  /** For each common producer, keep what is common to all responses; every lookup succeeds. */
  method MergeRecords<T(!new)>(less: Less<T>, rs: seq<Records<T>>) returns (records: Records<T>)
    requires rs != []
    ensures records == MergedRecords(less, rs)
  {
    var common := FindCommonProducers(rs);
    records := map[];
    var todo := common;
    while todo != {}
      invariant todo <= common
      invariant forall p :: p in records <==> p in common - todo && MergeAll(less, ListsOf(rs, p)) != []
      invariant forall p :: p in records ==> records[p] == MergeAll(less, ListsOf(rs, p))
      decreases todo
    {
      var p :| p in todo;
      var merged := MergeProducer(less, rs, p);
      if merged != [] {
        records := records[p := merged];
      }
      todo := todo - {p};
    }
  }

  method MergeViews<T(!new)>(kind: RecordKind<T>, rs: seq<Records<T>>) returns (records: Records<T>)
    requires StrictWeakOrder(kind.less) && forall r :: r in rs ==> WellFormed(kind, r)
    ensures records == if rs == [] then map[] else MergedRecords(kind.less, rs)
    ensures WellFormed(kind, records)
  {
    if rs == [] {
      return map[];
    }
    records := MergeRecords(kind.less, rs);
    MergeIsWellFormed(kind, rs);
  }

  // ---------------------------------------------------------------- filtering

  function Filter<T(!new)>(filter: T -> bool, s: seq<T>): (r: seq<T>)
    ensures SubSequence(r, s)
    ensures forall x :: x in r <==> x in s && filter(x)
  {
    if s == [] then []
    else if filter(s[0]) then
      var rest := Filter(filter, s[1..]);
      assert ([s[0]] + rest)[1..] == rest;
      [s[0]] + rest
    else Filter(filter, s[1..])
  }

  /** Every record that passes is kept as often as it occurs. */
  lemma {:induction false} FilterKeepsAll<T(!new)>(filter: T -> bool, s: seq<T>, x: T)
    ensures multiset(Filter(filter, s))[x] == if filter(x) then multiset(s)[x] else 0
    ensures SubSequence(Filter(filter, s), s)
  {
    if s != [] {
      FilterKeepsAll(filter, s[1..], x);
      assert s == [s[0]] + s[1..];
    }
  }

  lemma {:induction false} FilterConcat<T(!new)>(filter: T -> bool, s: seq<T>, t: seq<T>)
    ensures Filter(filter, s + t) == Filter(filter, s) + Filter(filter, t)
  {
    if s == [] {
      assert s + t == t;
    } else {
      assert (s + t)[1..] == s[1..] + t;
      FilterConcat(filter, s[1..], t);
    }
  }

  function FilteredRecords<T(!new)>(filter: T -> bool, records: Records<T>): Records<T> {
    map p | p in records && Filter(filter, records[p]) != [] :: Filter(filter, records[p])
  }

  /** Every record that passes is kept, under its producer and as often as it was there, and no other. */
  lemma FilterCounts<T(!new)>(filter: T -> bool, records: Records<T>)
    ensures forall p: string, r: T :: Occurrences(FilteredRecords(filter, records), p, r) ==
              if filter(r) then Occurrences(records, p, r) else 0
  {
    forall p: string, r: T
      ensures Occurrences(FilteredRecords(filter, records), p, r) == if filter(r) then Occurrences(records, p, r) else 0
    {
      if p in records {
        FilterKeepsAll(filter, records[p], r);
      }
    }
  }

  lemma FilterIsWellFormed<T(!new)>(kind: RecordKind<T>, filter: T -> bool, records: Records<T>)
    requires WellFormed(kind, records)
    ensures WellFormed(kind, FilteredRecords(filter, records))
  {
    forall p | p in FilteredRecords(filter, records)
      ensures Sorted(Flip(kind.less), Filter(filter, records[p]))
    {
      SubSequenceSorted(Flip(kind.less), Filter(filter, records[p]), records[p]);
    }
  }

  method FilterList<T(!new)>(filter: T -> bool, source: seq<T>) returns (r: seq<T>)
    ensures r == Filter(filter, source)
  {
    r := [];
    for i := 0 to |source|
      invariant r == Filter(filter, source[..i])
    {
      assert source[..i + 1] == source[..i] + [source[i]];
      FilterConcat(filter, source[..i], [source[i]]);
      if filter(source[i]) {
        r := r + [source[i]];
      }
    }
    assert source[..|source|] == source;
  }

  method FilterRecords<T(!new)>(filter: T -> bool, source: Records<T>) returns (records: Records<T>)
    ensures records == FilteredRecords(filter, source)
  {
    records := map[];
    var todo := source.Keys;
    while todo != {}
      invariant todo <= source.Keys
      invariant forall p :: p in records <==> p in source.Keys - todo && Filter(filter, source[p]) != []
      invariant forall p :: p in records ==> records[p] == Filter(filter, source[p])
      decreases todo
    {
      var p :| p in todo;
      var kept := FilterList(filter, source[p]);
      if kept != [] {
        records := records[p := kept];
      }
      todo := todo - {p};
    }
  }

  // ---------------------------------------------------------------- the class

  class BackendInfoResponse<T(!new)> {
    const kind: RecordKind<T>
    var records: Records<T>
    var summarySize: nat
    var title: string

    ghost predicate Valid()
      reads this
    {
      StrictWeakOrder(kind.less) && WellFormed(kind, records)
    }

    /** From the parsed items of one backend: group the accepted ones by producer, then sort each group. */
    constructor Parse(kind: RecordKind<T>, items: seq<Option<T>>, filter: T -> bool)
      requires StrictWeakOrder(kind.less)
      ensures Valid() && this.kind == kind && summarySize == 1
      ensures forall p :: p in records <==> Accepted(kind, filter, items, p) != []
      ensures forall p :: p in records ==> multiset(records[p]) == multiset(Accepted(kind, filter, items, p))
      ensures title == if records == map[] then "" else kind.title
    {
      var groups := Group(kind, items, filter);
      FlipIsStrictWeakOrder(kind.less);
      var sorted := SortAll(Flip(kind.less), groups);
      SortedGroupsAreWellFormed(kind, filter, items, groups, sorted);
      this.kind, records, summarySize := kind, sorted, 1;
      title := if sorted == map[] then "" else kind.title;
    }

    /**
     * The merge of any number of responses. The first one must be there, and if another is missing,
     * the rest must have no producer in common: only then is a missing response never looked into.
     */
    constructor Merge(kind: RecordKind<T>, responses: seq<BackendInfoResponse?<T>>)
      requires StrictWeakOrder(kind.less)
      requires forall r :: r in responses && r != null ==> r.Valid() && r.kind == kind
      requires responses != [] ==> responses[0] != null
      requires null in responses ==> CommonProducers(ViewOf(Present(responses))) == {}
      ensures Valid() && this.kind == kind && summarySize == |Present(responses)|
      ensures title == if responses == [] then "" else responses[0].title
      ensures records == if responses == [] then map[] else MergedRecords(kind.less, old(ViewOf(Present(responses))))
    {
      var present := Present(responses);
      ViewsAreWellFormed(kind, present);
      var merged := MergeViews(kind, ViewOf(present));
      this.kind, records, summarySize := kind, merged, |present|;
      title := if responses == [] then "" else responses[0].title;
    }

    /** The records of another response that pass a filter. */
    constructor Filtered(other: BackendInfoResponse<T>, filter: T -> bool)
      requires other.Valid()
      ensures Valid() && kind == other.kind && summarySize == 0 && title == ""
      ensures records == FilteredRecords(filter, other.records)
      ensures forall p: string, r: T :: Occurrences(records, p, r) == if filter(r) then Occurrences(other.records, p, r) else 0
    {
      var kept := FilterRecords(filter, other.records);
      FilterIsWellFormed(other.kind, filter, other.records);
      FilterCounts(filter, other.records);
      kind, records, summarySize, title := other.kind, kept, 0, "";
    }

    /** Every producer of which there is a record, if the response is valid. */
    function GetProducers(): (producers: set<string>)
      reads this
      ensures Valid() ==> forall p :: p in producers <==> GetRecords(p) != []
    {
      records.Keys
    }

    function GetRecords(producer: string): (list: seq<T>)
      reads this
      ensures Valid() ==> Sorted(Flip(kind.less), list) && forall r :: r in list ==> kind.producer(r) == producer
    {
      if producer in records then records[producer] else []
    }
  }

  /** What the record factory makes of an item: a record, none, or an exception. */
  datatype Made<T> = Made(record: T) | Nothing | Thrown

  /** A JSON value, by what the factory makes of its items. */
  datatype Json<T> = NotAnArray | Items(items: seq<Made<T>>)

  function RecordsOf<T>(items: seq<Made<T>>): (records: seq<Option<T>>)
    ensures |records| == |items|
  {
    seq(|items|, i requires 0 <= i < |items| => if items[i].Made? then Some(items[i].record) else None)
  }

  lemma {:induction false} RecordsOfCounts<T(!new)>(items: seq<Made<T>>, r: T)
    ensures multiset(RecordsOf(items))[Some(r)] == multiset(items)[Made(r)]
  {
    if items != [] {
      var init, last := items[..|items| - 1], items[|items| - 1];
      RecordsOfCounts(init, r);
      assert items == init + [last];
      assert RecordsOf(items) == RecordsOf(init) + [if last.Made? then Some(last.record) else None];
    }
  }

  /** How often the record stands in the list of this producer. */
  ghost function Occurrences<T(!new)>(records: Records<T>, p: string, r: T): nat {
    if p in records then multiset(records[p])[r] else 0
  }

  /** Every record made from the items that passes the filter is there, as often as it was made, under its own producer; nothing else is. */
  ghost predicate HoldsWhatPasses<T(!new)>(kind: RecordKind<T>, filter: T -> bool, items: seq<Made<T>>, records: Records<T>) {
    && (forall p :: p in records ==> records[p] != [])
    && (forall p: string, r: T :: Occurrences(records, p, r) ==
          if filter(r) && kind.producer(r) == p then multiset(items)[Made(r)] else 0)
  }

  lemma AcceptedIsWhatPasses<T(!new)>(kind: RecordKind<T>, filter: T -> bool, items: seq<Made<T>>, records: Records<T>)
    requires forall p :: p in records <==> Accepted(kind, filter, RecordsOf(items), p) != []
    requires forall p :: p in records ==> multiset(records[p]) == multiset(Accepted(kind, filter, RecordsOf(items), p))
    ensures HoldsWhatPasses(kind, filter, items, records)
  {
    forall p: string, r: T
      ensures Occurrences(records, p, r) == if filter(r) && kind.producer(r) == p then multiset(items)[Made(r)] else 0
    {
      AcceptedCounts(kind, filter, RecordsOf(items), p, r);
      RecordsOfCounts(items, r);
    }
    forall p | p in records
      ensures records[p] != []
    {
      SameElements(records[p], Accepted(kind, filter, RecordsOf(items), p));
    }
  }

  /** The first constructor with its failures: null is an exception. */
  method ParseResponse<T(!new)>(kind: RecordKind<T>, json: Json<T>, filter: T -> bool) returns (response: BackendInfoResponse?<T>)
    requires StrictWeakOrder(kind.less)
    ensures response == null <==> json.NotAnArray? || Thrown in json.items
    ensures response != null ==>
              && response.Valid() && response.kind == kind && response.summarySize == 1
              && HoldsWhatPasses(kind, filter, json.items, response.records)
              && response.title == if response.records == map[] then "" else kind.title
  {
    if json.NotAnArray? {
      return null;
    }
    var items: seq<Option<T>> := [];
    for i := 0 to |json.items|
      invariant Thrown !in json.items[..i]
      invariant items == RecordsOf(json.items[..i])
    {
      if json.items[i].Thrown? {
        return null;
      }
      items := items + [if json.items[i].Made? then Some(json.items[i].record) else None];
    }
    assert json.items[..|json.items|] == json.items;
    response := new BackendInfoResponse<T>.Parse(kind, items, filter);
    AcceptedIsWhatPasses(kind, filter, json.items, response.records);
  }

  /** The responses that are there. */
  function Present<T(!new)>(responses: seq<BackendInfoResponse?<T>>): (present: seq<BackendInfoResponse<T>>)
    ensures forall r :: r in present ==> r in responses
    ensures forall i :: 0 <= i < |responses| && responses[i] != null ==> responses[i] in present
    ensures null !in responses ==> present == responses
    ensures responses != [] && responses[0] != null ==> present != [] && present[0] == responses[0]
  {
    if responses == [] then []
    else (if responses[0] == null then [] else [responses[0]]) + Present(responses[1..])
  }

  function ViewOf<T(!new)>(responses: seq<BackendInfoResponse<T>>): (rs: seq<Records<T>>)
    reads responses
    ensures |rs| == |responses| && forall i :: 0 <= i < |rs| ==> rs[i] == responses[i].records
  {
    if responses == [] then [] else [responses[0].records] + ViewOf(responses[1..])
  }

  lemma ViewsAreWellFormed<T(!new)>(kind: RecordKind<T>, responses: seq<BackendInfoResponse<T>>)
    requires forall r :: r in responses ==> r.Valid() && r.kind == kind
    ensures forall r :: r in ViewOf(responses) ==> WellFormed(kind, r)
  {
    forall r | r in ViewOf(responses)
      ensures WellFormed(kind, r)
    {
      var i :| 0 <= i < |responses| && ViewOf(responses)[i] == r;
      assert responses[i] in responses;
    }
  }
}
