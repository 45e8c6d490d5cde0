/** ResponseCache.cpp: one object shared by all streamers. */
module ResponseCache {
  import opened Strings
  import opened CacheModel

  class ResponseCache {
    const hash: HashFunction
    var metaData: map<string, MetaData>
    var buffers: map<nat, Bytes>
    var history: set<Entry>

    function View(): CacheState
      reads this
    {
      CacheState(metaData, buffers, history)
    }

    ghost predicate Valid()
      reads this
    {
      Consistent(hash, View())
    }

    constructor (hash: HashFunction)
      ensures Valid() && this.hash == hash && View() == EMPTY_CACHE
    {
      this.hash, metaData, buffers, history := hash, map[], map[], {};
    }

    /** Either level may drop entries at any time. */
    method Evict()
      requires Valid()
      modifies this
      ensures Valid() && CacheStep(hash, old(View()), CacheOp.Evict, View())
    {
      var keys: set<string>, hashes: set<nat> := *, *;
      metaData, buffers := metaData - keys, buffers - hashes;
      StepKeepsConsistent(hash, old(View()), CacheOp.Evict, View());
    }

    method StoreMetaData(e: Entry)
      requires Valid() && e.meta.bufferHash == hash(e.buffer)
      modifies this
      ensures Valid() && CacheStep(hash, old(View()), InsertMeta(e), View())
      ensures EntryKey(e) in metaData && forall k :: k in old(metaData) ==> k in metaData
    {
      var keep: bool := *;
      if EntryKey(e) !in metaData || !keep {
        metaData := metaData[EntryKey(e) := e.meta];
      }
      history := history + {e};
      StepKeepsConsistent(hash, old(View()), InsertMeta(e), View());
    }

    method StoreBuffer(e: Entry)
      requires Valid() && e in history
      modifies this
      ensures Valid() && CacheStep(hash, old(View()), InsertBuffer(e), View())
      ensures e.meta.bufferHash in buffers && forall h :: h in old(buffers) ==> h in buffers
    {
      var keep: bool := *;
      if e.meta.bufferHash !in buffers || !keep {
        buffers := buffers[e.meta.bufferHash := e.buffer];
      }
      StepKeepsConsistent(hash, old(View()), InsertBuffer(e), View());
    }

    /** Any number of steps of other threads: evictions and halves of their inserts. */
    method OtherThreads()
      requires Valid()
      modifies this
      ensures Valid() && old(history) <= history && Reaches(hash, old(View()), View())
    {
      var steps: nat := *;
      ReachesItself(hash, View());
      while steps > 0
        invariant Valid() && old(history) <= history && Reaches(hash, old(View()), View())
      {
        OneStep();
        steps := steps - 1;
      }
    }

    method OneStep()
      requires Valid()
      modifies this
      ensures Valid() && old(history) <= history
      ensures forall c :: Reaches(hash, c, old(View())) ==> Reaches(hash, c, View())
    {
      var kind: nat, meta: MetaData, buffer: Bytes := *, *, *;
      ghost var before, op := View(), CacheOp.Evict;
      if kind == 0 || history == {} {
        Evict();
      } else if kind == 1 {
        var e := Entry(meta.(bufferHash := hash(buffer)), buffer);
        op := InsertMeta(e);
        StoreMetaData(e);
      } else {
        var e :| e in history;
        op := InsertBuffer(e);
        StoreBuffer(e);
      }
      forall c | Reaches(hash, c, before)
        ensures Reaches(hash, c, View())
      {
        ReachesFurther(hash, c, before, op, View());
      }
    }

    /**
     * The metadata found at once, and the buffer found after any steps of other threads. If there is one,
     * it has the hash that the metadata names, and both were inserted, the metadata under exactly this key.
     */
    method GetCachedBuffer(etag: string, encoding: string) returns (buffer: Option<Bytes>, meta: Option<MetaData>)
      requires Valid()
      modifies this
      ensures Valid() && old(history) <= history && Reaches(hash, old(View()), View())
      ensures meta == Lookup(old(metaData), MakeKey(etag, encoding))
      ensures meta.None? ==> View() == old(View())
      ensures buffer == if meta.Some? then Lookup(buffers, meta.value.bufferHash) else None
      ensures buffer.Some? ==> Vouched(hash, history, MakeKey(etag, encoding), meta.value, buffer.value)
    {
      buffer, meta := None, None;
      var key := MakeKey(etag, encoding);
      ReachesItself(hash, View());
      if key in metaData {
        meta := Some(metaData[key]);
        ghost var found := View();
        OtherThreads();
        var h := meta.value.bufferHash;
        if h in buffers {
          buffer := Some(buffers[h]);
          AnswerIsVouched(hash, found, View(), key, meta.value, buffer.value);
        }
      }
    }

    /** Both halves of the insert happen, with any steps of other threads from `half` to `later` in between. */
    method InsertCachedBuffer(etag: string, mimeType: string, cacheControl: string, expires: string, vary: string,
                              allowOrigin: string, contentEncoding: string, buffer: Bytes)
      returns (ghost half: CacheState, ghost later: CacheState)
      requires Valid()
      modifies this
      ensures Valid() && old(history) <= history
      ensures var entry := Entry(MetaData(hash(buffer), mimeType, etag, cacheControl, expires, vary, allowOrigin,
                                          contentEncoding), buffer);
              && entry in history
              && CacheStep(hash, old(View()), InsertMeta(entry), half)
              && Reaches(hash, half, later)
              && CacheStep(hash, later, InsertBuffer(entry), View())
              && etag + [UNIT_SEPARATOR] + contentEncoding in half.metaData && hash(buffer) in buffers
    {
      var data := MetaData(hash(buffer), mimeType, etag, cacheControl, expires, vary, allowOrigin, contentEncoding);
      StoreMetaData(Entry(data, buffer));
      half := View();
      OtherThreads();
      later := View();
      StoreBuffer(Entry(data, buffer));
    }
  }
}
