/**
 * The two-level response cache as values: (ETag, encoding) -> metadata, and buffer hash -> buffer.
 * Both levels evict on their own, and every insert and every lookup takes two separate steps.
 */
module CacheModel {
  import opened Strings

  datatype MetaData = MetaData(
    bufferHash: nat,
    mimeType: string,
    etag: string,
    cacheControl: string,
    expires: string,
    vary: string,
    allowOrigin: string,
    contentEncoding: string)

  /** One call of insertCachedBuffer. */
  datatype Entry = Entry(meta: MetaData, buffer: Bytes)

  /** `history` records every insert ever begun; the two maps are what is left of them. */
  datatype CacheState = CacheState(metaData: map<string, MetaData>, buffers: map<nat, Bytes>, history: set<Entry>)

  type HashFunction = Bytes -> nat

  const UNIT_SEPARATOR: char := '\U{1F}'
  const EMPTY_CACHE := CacheState(map[], map[], {})

  function MakeKey(etag: string, encoding: string): string {
    etag + [UNIT_SEPARATOR] + encoding
  }

  function EntryKey(e: Entry): string {
    MakeKey(e.meta.etag, e.meta.contentEncoding)
  }

  /** Equal keys mean equal ETags and encodings, as long as no ETag contains the separator. */
  lemma KeyIsInjective(etag0: string, encoding0: string, etag1: string, encoding1: string)
    requires UNIT_SEPARATOR !in etag0 && UNIT_SEPARATOR !in etag1
    requires MakeKey(etag0, encoding0) == MakeKey(etag1, encoding1)
    ensures etag0 == etag1 && encoding0 == encoding1
  {
    var key := MakeKey(etag0, encoding0);
    assert key[|etag0|] == UNIT_SEPARATOR && key[|etag1|] == UNIT_SEPARATOR;
    assert forall i :: 0 <= i < |etag0| ==> key[i] == etag0[i];
    assert forall i :: 0 <= i < |etag1| ==> key[i] == etag1[i];
    assert etag0 == key[..|etag0|] && etag1 == key[..|etag1|];
    assert encoding0 == key[|etag0| + 1..] && encoding1 == key[|etag1| + 1..];
  }

  // entity-tag, section 2.3 of RFC 7232
  predicate EtagChar(c: char) {
    c == '!' || '#' <= c <= '~' || '\U{80}' <= c <= '\U{FF}'
  }

  predicate OpaqueTag(s: string) {
    2 <= |s| && s[0] == '"' && s[|s| - 1] == '"' && forall i :: 0 < i < |s| - 1 ==> EtagChar(s[i])
  }

  predicate EntityTag(s: string) {
    OpaqueTag(s) || ("W/" <= s && OpaqueTag(s[2..]))
  }

  /** The grammar keeps the separator out of every entity tag. */
  lemma EntityTagHasNoSeparator(s: string)
    requires EntityTag(s)
    ensures UNIT_SEPARATOR !in s
  {
  }

  // ---------------------------------------------------------------- steps

  ghost predicate SubMap<K, V>(m': map<K, V>, m: map<K, V>) {
    forall k :: k in m' ==> k in m && m'[k] == m[k]
  }

  /** `m'` is `m` after inserting (k, v): an old value may win over v, and anything may be evicted. */
  ghost predicate InsertedInto<K, V>(m': map<K, V>, m: map<K, V>, k: K, v: V) {
    forall x :: x in m' ==> (x in m && m'[x] == m[x]) || (x == k && m'[x] == v)
  }

  datatype CacheOp = InsertMeta(entry: Entry) | InsertBuffer(entry: Entry) | Evict

  ghost predicate CacheStep(hash: HashFunction, c: CacheState, op: CacheOp, c': CacheState) {
    match op
    case InsertMeta(e) =>
      && e.meta.bufferHash == hash(e.buffer)
      && c'.history == c.history + {e}
      && InsertedInto(c'.metaData, c.metaData, EntryKey(e), e.meta)
      && c'.buffers == c.buffers
    case InsertBuffer(e) =>
      && e in c.history && c'.history == c.history
      && c'.metaData == c.metaData
      && InsertedInto(c'.buffers, c.buffers, e.meta.bufferHash, e.buffer)
    case Evict =>
      && c'.history == c.history
      && SubMap(c'.metaData, c.metaData)
      && SubMap(c'.buffers, c.buffers)
  }

  /** Whatever the cache holds was inserted, and is filed under the right key. */
  ghost predicate Consistent(hash: HashFunction, c: CacheState) {
    && (forall e :: e in c.history ==> e.meta.bufferHash == hash(e.buffer))
    && (forall k :: k in c.metaData ==> exists e :: e in c.history && EntryKey(e) == k && e.meta == c.metaData[k])
    && (forall h :: h in c.buffers ==> exists e :: e in c.history && hash(e.buffer) == h && e.buffer == c.buffers[h])
  }

  lemma StepKeepsConsistent(hash: HashFunction, c: CacheState, op: CacheOp, c': CacheState)
    requires Consistent(hash, c) && CacheStep(hash, c, op, c')
    ensures Consistent(hash, c') && c.history <= c'.history
  {
  }

  // ---------------------------------------------------------------- runs

  ghost predicate CacheMoves(hash: HashFunction, c: CacheState, c': CacheState) {
    exists op :: CacheStep(hash, c, op, c')
  }

  ghost predicate CachePath(hash: HashFunction, path: seq<CacheState>) {
    |path| > 0 && forall i :: 0 <= i < |path| - 1 ==> CacheMoves(hash, path[i], path[i + 1])
  }

  ghost predicate CacheRun(hash: HashFunction, run: seq<CacheState>) {
    CachePath(hash, run) && run[0] == EMPTY_CACHE
  }

  /** Any number of steps lead from `c` to `d`. */
  ghost predicate Reaches(hash: HashFunction, c: CacheState, d: CacheState) {
    exists path :: CachePath(hash, path) && path[0] == c && path[|path| - 1] == d
  }

  lemma ReachesItself(hash: HashFunction, c: CacheState)
    ensures Reaches(hash, c, c)
  {
    assert CachePath(hash, [c]);
  }

  lemma ReachesFurther(hash: HashFunction, c: CacheState, d: CacheState, op: CacheOp, e: CacheState)
    requires Reaches(hash, c, d) && CacheStep(hash, d, op, e)
    ensures Reaches(hash, c, e)
  {
    var path :| CachePath(hash, path) && path[0] == c && path[|path| - 1] == d;
    var longer := path + [e];
    forall i | 0 <= i < |longer| - 1
      ensures CacheMoves(hash, longer[i], longer[i + 1])
    {
      assert i < |path| - 1 ==> CacheMoves(hash, path[i], path[i + 1]);
    }
    assert CachePath(hash, longer);
  }

  lemma {:induction false} RunKeepsConsistent(hash: HashFunction, run: seq<CacheState>, i: nat, j: nat)
    requires CacheRun(hash, run) && i <= j < |run|
    ensures Consistent(hash, run[j]) && run[i].history <= run[j].history
    decreases j
  {
    if j > 0 {
      RunKeepsConsistent(hash, run, if i < j then i else j - 1, j - 1);
      assert CacheMoves(hash, run[j - 1], run[j - 1 + 1]);
      var op :| CacheStep(hash, run[j - 1], op, run[j]);
      StepKeepsConsistent(hash, run[j - 1], op, run[j]);
    }
  }

  /** find: nothing, or the value under this key. */
  function Lookup<K, V>(m: map<K, V>, k: K): Option<V> {
    if k in m then Some(m[k]) else None
  }

  /** A lookup that read the metadata in `c` and, at the same time or later, the buffer in `d`. */
  predicate Answers(c: CacheState, d: CacheState, key: string, meta: MetaData, buffer: Bytes) {
    && key in c.metaData && c.metaData[key] == meta
    && meta.bufferHash in d.buffers && d.buffers[meta.bufferHash] == buffer
  }

  /** What the history vouches for when a lookup answers (meta, buffer). */
  ghost predicate Vouched(hash: HashFunction, history: set<Entry>, key: string, meta: MetaData, buffer: Bytes) {
    && (exists e :: e in history && EntryKey(e) == key && e.meta == meta)
    && (exists e :: e in history && e.buffer == buffer)
    && hash(buffer) == meta.bufferHash
  }

  lemma AnswerIsVouched(hash: HashFunction, c: CacheState, d: CacheState, key: string, meta: MetaData, buffer: Bytes)
    requires Consistent(hash, c) && Consistent(hash, d) && c.history <= d.history
    requires Answers(c, d, key, meta, buffer)
    ensures Vouched(hash, d.history, key, meta, buffer)
  {
  }

  ghost predicate CollisionFree(hash: HashFunction, history: set<Entry>) {
    forall d, e :: d in history && e in history && hash(d.buffer) == hash(e.buffer) ==> d.buffer == e.buffer
  }

  /** Without collisions among the inserted buffers, the answer is literally one earlier insert. */
  lemma VouchedIsOneEntry(hash: HashFunction, history: set<Entry>, key: string, meta: MetaData, buffer: Bytes)
    requires forall e :: e in history ==> e.meta.bufferHash == hash(e.buffer)
    requires CollisionFree(hash, history) && Vouched(hash, history, key, meta, buffer)
    ensures Entry(meta, buffer) in history && EntryKey(Entry(meta, buffer)) == key
  {
  }

  /** The cache agrees with a plain history map: every answer, split or not, is one earlier insert. */
  ghost predicate AgreesWithHistory(hash: HashFunction) {
    forall run: seq<CacheState>, i: nat, j: nat, key: string, meta: MetaData, buffer: Bytes ::
      CacheRun(hash, run) && i <= j < |run| && Answers(run[i], run[j], key, meta, buffer)
      ==> Entry(meta, buffer) in run[j].history && EntryKey(Entry(meta, buffer)) == key
  }

  ghost predicate Injective(hash: HashFunction) {
    forall x: Bytes, y: Bytes :: hash(x) == hash(y) ==> x == y
  }

  lemma InjectiveAgrees(hash: HashFunction)
    requires Injective(hash)
    ensures AgreesWithHistory(hash)
  {
    forall run: seq<CacheState>, i: nat, j: nat, key: string, meta: MetaData, buffer: Bytes |
      CacheRun(hash, run) && i <= j < |run| && Answers(run[i], run[j], key, meta, buffer)
      ensures Entry(meta, buffer) in run[j].history && EntryKey(Entry(meta, buffer)) == key
    {
      RunKeepsConsistent(hash, run, i, j);
      RunKeepsConsistent(hash, run, i, i);
      AnswerIsVouched(hash, run[i], run[j], key, meta, buffer);
      VouchedIsOneEntry(hash, run[j].history, key, meta, buffer);
    }
  }

  function EntryOf(hash: HashFunction, etag: string, buffer: Bytes): Entry {
    Entry(MetaData(hash(buffer), "", etag, "", "", "", "", ""), buffer)
  }

  /** Two inserts, one after the other, nothing evicted and the newest value kept. */
  function CollidingRun(hash: HashFunction, d: Entry, e: Entry): seq<CacheState> {
    var c1 := CacheState(map[EntryKey(d) := d.meta], map[], {d});
    var c2 := c1.(buffers := map[d.meta.bufferHash := d.buffer]);
    var c3 := CacheState(c2.metaData[EntryKey(e) := e.meta], c2.buffers, {d, e});
    [EMPTY_CACHE, c1, c2, c3, c3.(buffers := c3.buffers[e.meta.bufferHash := e.buffer])]
  }

  lemma CollidingRunIsRun(hash: HashFunction, d: Entry, e: Entry)
    requires d.meta.bufferHash == hash(d.buffer) && e.meta.bufferHash == hash(e.buffer)
    ensures CacheRun(hash, CollidingRun(hash, d, e))
  {
    var run := CollidingRun(hash, d, e);
    assert CacheStep(hash, run[0], InsertMeta(d), run[1]);
    assert CacheStep(hash, run[1], InsertBuffer(d), run[2]);
    assert CacheStep(hash, run[2], InsertMeta(e), run[3]);
    assert CacheStep(hash, run[3], InsertBuffer(e), run[4]);
  }

  /** The cache is faithful to its inserts exactly when the buffer hash has no collision at all. */
  lemma FaithfulIffInjective(hash: HashFunction)
    ensures AgreesWithHistory(hash) <==> Injective(hash)
  {
    if Injective(hash) {
      InjectiveAgrees(hash);
    }
    if AgreesWithHistory(hash) {
      forall x: Bytes, y: Bytes | hash(x) == hash(y)
        ensures x == y
      {
        var d, e := EntryOf(hash, "x", x), EntryOf(hash, "y", y);
        CollidingRunIsRun(hash, d, e);
        var run := CollidingRun(hash, d, e);
        assert EntryKey(d)[0] != EntryKey(e)[0];
        assert Answers(run[4], run[4], EntryKey(d), d.meta, y);
        assert Entry(d.meta, y) in run[4].history;
        assert run[4].history == {d, e};
      }
    }
  }
}
