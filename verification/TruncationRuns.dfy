/**
 * Runs in which a body cut short is cached, and served. They are built action by action: whatever the
 * messages and however they are divided into reads, the consumer takes each chunk as it comes.
 */
module TruncationRuns {
  import opened Strings
  import opened Http
  import opened CacheModel
  import opened StreamerMachine
  import opened StreamerInvariant
  import opened StreamerRuns
  import opened GatewaySystem
  import opened GatewayTheorems
  import opened Truncation
  import opened Backends

  // ---------------------------------------------------------------- reachable systems

  ghost predicate Reachable(gw: Gateway, c: System) {
    exists run, acts :: SystemRun(gw, run, acts) && run[|acts|] == c
  }

  lemma EmptyIsReachable(gw: Gateway)
    ensures Reachable(gw, EMPTY_SYSTEM)
  {
    assert SystemRun(gw, [EMPTY_SYSTEM], []);
  }

  lemma StepIsReachable(gw: Gateway, c: System, act: Action, d: System)
    requires Reachable(gw, c) && SystemStep(gw, c, act, d)
    ensures Reachable(gw, d)
  {
    var run: seq<System>, acts: seq<Action> :| SystemRun(gw, run, acts) && run[|acts|] == c;
    var longer, more := run + [d], acts + [act];
    forall i | 0 <= i < |more|
      ensures StepAt(gw, longer, more, i)
    {
      if i < |acts| {
        assert StepAt(gw, run, acts, i);
        assert longer[i] == run[i] && longer[i + 1] == run[i + 1] && more[i] == acts[i];
      } else {
        assert longer[i] == c && longer[i + 1] == d && more[i] == act;
      }
    }
    assert SystemRun(gw, longer, more) && longer[|more|] == d;
  }

  ghost predicate ReachableAs(gw: Gateway, others: map<nat, Agent>, id: nat, a: Agent, cache: CacheState,
                              active: multiset<Backend>, reset: bool)
  {
    Reachable(gw, System(others[id := a], cache, active, reset))
  }

  /** Some reachable system has this cache, agent `a` as `id`, and otherwise the agents `others`. */
  ghost predicate Has(gw: Gateway, others: map<nat, Agent>, cache: CacheState, id: nat, a: Agent) {
    exists active, reset :: ReachableAs(gw, others, id, a, cache, active, reset)
  }

  lemma ArriveHas(gw: Gateway, c: System, id: nat, backend: Backend, request: Request)
    requires Reachable(gw, c) && id !in c.agents
    ensures Has(gw, c.agents, c.cache, id, Agent(backend, SendAndListen(Created(request), Sent), Unlocked))
  {
    var a := Agent(backend, SendAndListen(Created(request), Sent), Unlocked);
    var d := System(c.agents[id := a], c.cache, c.active + multiset{backend}, c.reset);
    assert SystemStep(gw, c, Arrive(id, backend, request, Sent), d);
    StepIsReachable(gw, c, Arrive(id, backend, request, Sent), d);
    assert ReachableAs(gw, c.agents, id, a, c.cache, d.active, d.reset);
  }

  lemma LocalHas(gw: Gateway, others: map<nat, Agent>, cache: CacheState, id: nat, a: Agent, e: Event)
    requires Has(gw, others, cache, id, a) && a.lock == Unlocked && Enabled(a.s, e) && !NeedsCache(gw, a.s, e)
    ensures Has(gw, others, cache, id, Agent(a.backend, Next(gw, a.s, e), Unlocked))
  {
    var active, reset :| ReachableAs(gw, others, id, a, cache, active, reset);
    var next := Agent(a.backend, Next(gw, a.s, e), Unlocked);
    MovesOn(gw, others, cache, id, a, next, active, reset, Local(id, e), e);
  }

  lemma MovesOn(gw: Gateway, others: map<nat, Agent>, cache: CacheState, id: nat, a: Agent, next: Agent,
                active: multiset<Backend>, reset: bool, act: Action, e: Event)
    requires ReachableAs(gw, others, id, a, cache, active, reset) && Enabled(a.s, e)
    requires next == Agent(a.backend, Next(gw, a.s, e), Unlocked)
    requires (act == Local(id, e) && a.lock == Unlocked && !NeedsCache(gw, a.s, e))
             || (act == Finish(id) && (a.lock.Answered? || a.lock.Stored?) && Resolved(a.lock) == e)
    ensures Has(gw, others, cache, id, next)
  {
    var c := System(others[id := a], cache, active, reset);
    var d := System(others[id := next], cache, Uncount(active, a.backend, a.s, next.s), reset);
    assert c.agents[id := next] == others[id := next];
    assert StreamerMoves(gw, c, id, e, d);
    StepIsReachable(gw, c, act, d);
    assert ReachableAs(gw, others, id, next, cache, d.active, reset);
  }

  lemma FinishHas(gw: Gateway, others: map<nat, Agent>, cache: CacheState, id: nat, a: Agent)
    requires Has(gw, others, cache, id, a) && (a.lock.Answered? || a.lock.Stored?) && Enabled(a.s, Resolved(a.lock))
    ensures Has(gw, others, cache, id, Agent(a.backend, Next(gw, a.s, Resolved(a.lock)), Unlocked))
  {
    var active, reset :| ReachableAs(gw, others, id, a, cache, active, reset);
    var e := Resolved(a.lock);
    MovesOn(gw, others, cache, id, a, Agent(a.backend, Next(gw, a.s, e), Unlocked), active, reset, Finish(id), e);
  }

  /** A step that changes only the lock, and perhaps the cache. */
  lemma LockMoves(gw: Gateway, others: map<nat, Agent>, c: CacheState, id: nat, a: Agent, next: Agent, d: CacheState,
                  active: multiset<Backend>, reset: bool, act: Action)
    requires ReachableAs(gw, others, id, a, c, active, reset)
    requires SystemStep(gw, System(others[id := a], c, active, reset), act, System(others[id := next], d, active, reset))
    ensures Has(gw, others, d, id, next)
  {
    StepIsReachable(gw, System(others[id := a], c, active, reset), act, System(others[id := next], d, active, reset));
    assert ReachableAs(gw, others, id, next, d, active, reset);
  }

  lemma BeginHas(gw: Gateway, others: map<nat, Agent>, cache: CacheState, id: nat, a: Agent, e: Event)
    requires Has(gw, others, cache, id, a) && a.lock == Unlocked && Enabled(a.s, e) && NeedsCache(gw, a.s, e)
    ensures Has(gw, others, cache, id, a.(lock := FirstLock(a.s, e)))
  {
    var active, reset :| ReachableAs(gw, others, id, a, cache, active, reset);
    var next := a.(lock := FirstLock(a.s, e));
    assert others[id := a][id := next] == others[id := next];
    LockMoves(gw, others, cache, id, a, next, cache, active, reset, Begin(id, e));
  }

  lemma LookUpMetaHas(gw: Gateway, others: map<nat, Agent>, cache: CacheState, id: nat, a: Agent)
    requires Has(gw, others, cache, id, a)
    requires a.lock.AskMeta? && a.lock.e.ReadDone? && ProbeAnswered(gw, a.s, a.lock.e.completion)
    ensures Has(gw, others, cache, id, a.(lock := AfterMeta(gw, a.s, a.lock, cache)))
  {
    var active, reset :| ReachableAs(gw, others, id, a, cache, active, reset);
    var next := a.(lock := AfterMeta(gw, a.s, a.lock, cache));
    assert others[id := a][id := next] == others[id := next];
    LockMoves(gw, others, cache, id, a, next, cache, active, reset, LookUpMeta(id));
  }

  lemma LookUpBufferHas(gw: Gateway, others: map<nat, Agent>, cache: CacheState, id: nat, a: Agent)
    requires Has(gw, others, cache, id, a) && a.lock.AskBuffer?
    ensures Has(gw, others, cache, id, a.(lock := AfterBuffer(a.lock, cache)))
  {
    var active, reset :| ReachableAs(gw, others, id, a, cache, active, reset);
    var next := a.(lock := AfterBuffer(a.lock, cache));
    assert others[id := a][id := next] == others[id := next];
    LockMoves(gw, others, cache, id, a, next, cache, active, reset, LookUpBuffer(id));
  }

  /** The cache after an insert that nothing else interferes with. */
  function WithMeta(cache: CacheState, entry: Entry): CacheState {
    CacheState(cache.metaData[EntryKey(entry) := entry.meta], cache.buffers, cache.history + {entry})
  }

  function WithEntry(cache: CacheState, entry: Entry): CacheState {
    WithMeta(cache, entry).(buffers := cache.buffers[entry.meta.bufferHash := entry.buffer])
  }

  lemma StoreMetaHas(gw: Gateway, others: map<nat, Agent>, cache: CacheState, id: nat, a: Agent)
    requires Has(gw, others, cache, id, a) && a.lock.StoringMeta?
    ensures Has(gw, others, WithMeta(cache, InsertedEntry(gw, a.s)), id, a.(lock := StoringBuffer(a.lock.e)))
  {
    var active, reset :| ReachableAs(gw, others, id, a, cache, active, reset);
    var next := a.(lock := StoringBuffer(a.lock.e));
    assert others[id := a][id := next] == others[id := next];
    LockMoves(gw, others, cache, id, a, next, WithMeta(cache, InsertedEntry(gw, a.s)), active, reset, StoreMeta(id));
  }

  lemma StoreBufferHas(gw: Gateway, others: map<nat, Agent>, cache: CacheState, id: nat, a: Agent)
    requires Has(gw, others, WithMeta(cache, InsertedEntry(gw, a.s)), id, a) && a.lock.StoringBuffer?
    ensures Has(gw, others, WithEntry(cache, InsertedEntry(gw, a.s)), id, a.(lock := Stored(a.lock.e)))
  {
    var entry := InsertedEntry(gw, a.s);
    var active, reset :| ReachableAs(gw, others, id, a, WithMeta(cache, entry), active, reset);
    var next := a.(lock := Stored(a.lock.e));
    assert others[id := a][id := next] == others[id := next];
    LockMoves(gw, others, WithMeta(cache, entry), id, a, next, WithEntry(cache, entry), active, reset, StoreBuffer(id));
  }

  lemma HasFollows(gw: Gateway, others: map<nat, Agent>, cache: CacheState, id: nat, a: Agent)
    requires Has(gw, others, cache, id, a)
    ensures Follows(gw, a.s)
  {
    var active, reset :| ReachableAs(gw, others, id, a, cache, active, reset);
    var run: seq<System>, acts: seq<Action> :| SystemRun(gw, run, acts) && run[|acts|] == System(others[id := a], cache, active, reset);
    StreamersFollowTheirMachine(gw, run, acts, |acts|);
    assert id in run[|acts|].agents && run[|acts|].agents[id] == a;
  }

  // ---------------------------------------------------------------- reading a header block

  function Concat(chunks: seq<Bytes>): Bytes {
    if chunks == [] then "" else Concat(chunks[..|chunks| - 1]) + chunks[|chunks| - 1]
  }

  predicate InReads(chunks: seq<Bytes>) {
    forall chunk :: chunk in chunks ==> |chunk| <= SOCKET_BUFFER_SIZE
  }

  /** The last of these reads is the one that completes the header block. */
  predicate HeaderReads(parse: Parser, chunks: seq<Bytes>) {
    && chunks != [] && InReads(chunks) && parse(Concat(chunks)).ParseComplete?
    && forall k :: 0 < k < |chunks| ==> parse(Concat(chunks[..k])).ParseIncomplete?
  }

  function Read(s: Streamer, chunk: Bytes): Event {
    ReadDone(HandlerOf(s.phase), Data(chunk), None, Sent)
  }

  /** A streamer that waits for the first bytes of a header block. */
  predicate Expecting(s: Streamer) {
    && (s.phase.Probe? || s.phase.ContentHeaders?) && s.status == ONGOING && s.consumer == Ready
    && s.pending == multiset{HandlerOf(s.phase)} && s.headerBuffer == "" && s.received == ""
    && s.cacheable && !s.timedOut && !s.bufferFull
  }

  /** The same streamer with these bytes read. */
  function With(s: Streamer, bytes: Bytes): Streamer {
    s.(headerBuffer := bytes, received := bytes)
  }

  lemma HeadersGoOn(gw: Gateway, s: Streamer, bytes: Bytes, chunk: Bytes)
    requires Expecting(s) && |chunk| <= SOCKET_BUFFER_SIZE && gw.parse(bytes + chunk).ParseIncomplete?
    ensures
      var e := Read(s, chunk);
      Enabled(With(s, bytes), e) && !NeedsCache(gw, With(s, bytes), e) && Next(gw, With(s, bytes), e) == With(s, bytes + chunk)
  {
    var t := AppendHeaders(Taken(With(s, bytes), HandlerOf(s.phase)), chunk);
    assert multiset{HandlerOf(s.phase)} - multiset{HandlerOf(s.phase)} + multiset{HandlerOf(s.phase)} == multiset{HandlerOf(s.phase)};
    assert Listen(t, HandlerOf(s.phase)) == With(s, bytes + chunk);
  }

  lemma {:induction false} HeadersAreRead(gw: Gateway, others: map<nat, Agent>, cache: CacheState, id: nat, a: Agent,
                                          chunks: seq<Bytes>, k: nat)
    requires Has(gw, others, cache, id, a) && a.lock == Unlocked && Expecting(a.s)
    requires HeaderReads(gw.parse, chunks) && k < |chunks|
    ensures Has(gw, others, cache, id, a.(s := With(a.s, Concat(chunks[..k]))))
  {
    if k == 0 {
      assert a == a.(s := With(a.s, Concat(chunks[..0])));
    } else {
      HeadersAreRead(gw, others, cache, id, a, chunks, k - 1);
      var bytes, chunk := Concat(chunks[..k - 1]), chunks[k - 1];
      assert chunks[..k][..k - 1] == chunks[..k - 1] && Concat(chunks[..k]) == bytes + chunk;
      HeadersGoOn(gw, a.s, bytes, chunk);
      LocalHas(gw, others, cache, id, a.(s := With(a.s, bytes)), Read(a.s, chunk));
    }
  }

  // ---------------------------------------------------------------- answering the probe

  /** The streamer right before the read that completes its probe, and that read. */
  function AlmostRead(s: Streamer, chunks: seq<Bytes>): Streamer
    requires chunks != []
  {
    With(s, Concat(chunks[..|chunks| - 1]))
  }

  function LastRead(s: Streamer, chunks: seq<Bytes>, found: Option<Found> := None): Event
    requires chunks != []
  {
    ReadDone(HandlerOf(s.phase), Data(chunks[|chunks| - 1]), found, Sent)
  }

  lemma ProbeIsAnswered(gw: Gateway, others: map<nat, Agent>, cache: CacheState, id: nat, a: Agent, probe: seq<Bytes>)
    requires Has(gw, others, cache, id, a) && a.lock == Unlocked && Expecting(a.s) && a.s.phase.Probe?
    requires HeaderReads(gw.parse, probe) && gw.parse(Concat(probe)).response.etag.Some?
    ensures
      var s, e := AlmostRead(a.s, probe), LastRead(a.s, probe);
      && Enabled(s, e) && e.handler == CacheHandler && ProbeAnswered(gw, s, e.completion)
      && s.headerBuffer + e.completion.chunk == Concat(probe)
      && Has(gw, others, cache, id, Agent(a.backend, s, AskMeta(e, ClientAcceptsContentEncoding(a.s.request))))
  {
    var s, e := AlmostRead(a.s, probe), LastRead(a.s, probe);
    HeadersAreRead(gw, others, cache, id, a, probe, |probe| - 1);
    BeginHas(gw, others, cache, id, a.(s := s), e);
  }

  /** Nothing in the cache: the content is requested. */
  lemma ProbeMisses(gw: Gateway, others: map<nat, Agent>, cache: CacheState, id: nat, a: Agent, probe: seq<Bytes>)
    requires Has(gw, others, cache, id, a) && a.lock == Unlocked && Expecting(a.s) && a.s.phase.Probe?
    requires HeaderReads(gw.parse, probe) && gw.parse(Concat(probe)).response.etag.Some? && cache.metaData == map[]
    ensures Has(gw, others, cache, id, Agent(a.backend, Next(gw, AlmostRead(a.s, probe), LastRead(a.s, probe)), Unlocked))
  {
    ProbeIsAnswered(gw, others, cache, id, a, probe);
    var s, e := AlmostRead(a.s, probe), LastRead(a.s, probe);
    var accepted := ClientAcceptsContentEncoding(a.s.request);
    LookUpMetaHas(gw, others, cache, id, Agent(a.backend, s, AskMeta(e, accepted)));
    if accepted != "" {
      LookUpMetaHas(gw, others, cache, id, Agent(a.backend, s, AskMeta(e, "")));
    }
    FinishHas(gw, others, cache, id, Agent(a.backend, s, Answered(e, None)));
  }

  /** One entry in the cache, in an encoding looked for: it is found. */
  lemma ProbeHits(gw: Gateway, others: map<nat, Agent>, cache: CacheState, id: nat, a: Agent, probe: seq<Bytes>, entry: Entry)
    requires Has(gw, others, cache, id, a) && a.lock == Unlocked && Expecting(a.s) && a.s.phase.Probe?
    requires HeaderReads(gw.parse, probe) && gw.parse(Concat(probe)).response.etag == Some(entry.meta.etag)
    requires Negotiated(a.s, entry.meta.contentEncoding)
    requires cache.metaData == map[EntryKey(entry) := entry.meta]
    requires Lookup(cache.buffers, entry.meta.bufferHash) == Some(entry.buffer)
    ensures
      var e := LastRead(a.s, probe, Some(Found(entry.buffer, entry.meta)));
      Has(gw, others, cache, id, Agent(a.backend, Next(gw, AlmostRead(a.s, probe), e), Unlocked))
  {
    ProbeIsAnswered(gw, others, cache, id, a, probe);
    var s, e := AlmostRead(a.s, probe), LastRead(a.s, probe);
    var accepted, encoding := ClientAcceptsContentEncoding(a.s.request), entry.meta.contentEncoding;
    LookUpMetaHas(gw, others, cache, id, Agent(a.backend, s, AskMeta(e, accepted)));
    if encoding != accepted {
      assert |MakeKey(entry.meta.etag, accepted)| != |EntryKey(entry)|;
      LookUpMetaHas(gw, others, cache, id, Agent(a.backend, s, AskMeta(e, "")));
    }
    LookUpBufferHas(gw, others, cache, id, Agent(a.backend, s, AskBuffer(e, encoding, entry.meta)));
    var found := Some(Found(entry.buffer, entry.meta));
    assert Resolved(Answered(e, found)) == LastRead(a.s, probe, found);
    FinishHas(gw, others, cache, id, Agent(a.backend, s, Answered(e, found)));
  }

  // ---------------------------------------------------------------- reading a body

  /** A streamer that passes on `stream`, and mirrors its body for the cache. */
  predicate Mirroring(gw: Gateway, s: Streamer, stream: Bytes) {
    var parsed := gw.parse(stream);
    && s.phase == Streaming && s.status == ONGOING && s.consumer == Ready
    && s.pending == multiset{DataHandler} && !s.bufferFull && s.cacheable && !s.timedOut
    && s.received == stream && parsed.ParseComplete? && Storable(parsed.response) && parsed.end <= |stream|
    && s.metadata == BuildMetadata(parsed.response) && s.cachedContent == stream[parsed.end..]
  }

  lemma MissLeadsToContent(gw: Gateway, s: Streamer, probe: seq<Bytes>)
    requires Expecting(s) && s.phase.Probe? && HeaderReads(gw.parse, probe) && gw.parse(Concat(probe)).response.etag.Some?
    ensures
      var next := Next(gw, AlmostRead(s, probe), LastRead(s, probe));
      Expecting(next) && next.phase == ContentHeaders
  {
    var t := AppendHeaders(Taken(AlmostRead(s, probe), CacheHandler), probe[|probe| - 1]);
    assert t.headerBuffer == Concat(probe);
    assert Next(gw, AlmostRead(s, probe), LastRead(s, probe)) == SendContentRequest(t, Sent);
    assert multiset{CacheHandler} - multiset{CacheHandler} + multiset{HeaderHandler} == multiset{HeaderHandler};
  }

  lemma ContentIsMirrored(gw: Gateway, s: Streamer, headers: seq<Bytes>)
    requires StableParser(gw.parse) && Expecting(s) && s.phase == ContentHeaders
    requires HeaderReads(gw.parse, headers) && Storable(gw.parse(Concat(headers)).response)
    ensures
      var e := LastRead(s, headers);
      && Enabled(AlmostRead(s, headers), e) && !NeedsCache(gw, AlmostRead(s, headers), e)
      && Mirroring(gw, Next(gw, AlmostRead(s, headers), e), Concat(headers))
  {
    var t := AppendHeaders(Taken(AlmostRead(s, headers), HeaderHandler), headers[|headers| - 1]);
    var parsed := gw.parse(Concat(headers));
    assert t.headerBuffer == Concat(headers);
    var next := StartStreaming(StartMirror(t, parsed.response, parsed.end));
    assert next == Next(gw, AlmostRead(s, headers), LastRead(s, headers));
    assert multiset{HeaderHandler} - multiset{HeaderHandler} + multiset{DataHandler} == multiset{DataHandler};
  }

  /** The consumer takes what is there. */
  lemma MirroringIsDrained(gw: Gateway, s: Streamer, stream: Bytes)
    requires Mirroring(gw, s, stream) && s.clientBuffer != ""
    ensures
      var next := Next(gw, s, ChunkCalled);
      Enabled(s, ChunkCalled) && Mirroring(gw, next, stream) && next.clientBuffer == ""
  {
  }

  lemma BodyGoesOn(gw: Gateway, s: Streamer, stream: Bytes, chunk: Bytes)
    requires StableParser(gw.parse) && Mirroring(gw, s, stream) && s.clientBuffer == "" && |chunk| <= SOCKET_BUFFER_SIZE
    requires |stream + chunk| - gw.parse(stream).end <= PROXY_MAX_CACHED_BUFFER_SIZE
    ensures
      var e := Read(s, chunk);
      var next := Next(gw, s, e);
      Enabled(s, e) && !NeedsCache(gw, s, e) && Mirroring(gw, next, stream + chunk)
  {
    var end := gw.parse(stream).end;
    assert gw.parse(stream + chunk) == gw.parse(stream);
    assert (stream + chunk)[end..] == stream[end..] + chunk;
    var t := AppendData(Taken(s, DataHandler), chunk);
    assert t.clientBuffer == "" + chunk == chunk;
    assert Next(gw, s, Read(s, chunk)) == Listen(MirrorBody(t, chunk), DataHandler);
    assert multiset{DataHandler} - multiset{DataHandler} + multiset{DataHandler} == multiset{DataHandler};
  }

  /** Some streamer that is drained and has received and mirrored just this is agent `id`. */
  ghost predicate HasMirrored(gw: Gateway, others: map<nat, Agent>, cache: CacheState, id: nat, backend: Backend, stream: Bytes) {
    exists s :: Mirroring(gw, s, stream) && s.clientBuffer == "" && Has(gw, others, cache, id, Agent(backend, s, Unlocked))
  }

  lemma Drained(gw: Gateway, others: map<nat, Agent>, cache: CacheState, id: nat, backend: Backend, s: Streamer, stream: Bytes)
    requires Mirroring(gw, s, stream) && Has(gw, others, cache, id, Agent(backend, s, Unlocked))
    ensures HasMirrored(gw, others, cache, id, backend, stream)
  {
    if s.clientBuffer != "" {
      MirroringIsDrained(gw, s, stream);
      LocalHas(gw, others, cache, id, Agent(backend, s, Unlocked), ChunkCalled);
    }
  }

  lemma OneMoreRead(gw: Gateway, others: map<nat, Agent>, cache: CacheState, id: nat, backend: Backend, stream: Bytes, chunk: Bytes)
    requires StableParser(gw.parse) && HasMirrored(gw, others, cache, id, backend, stream) && |chunk| <= SOCKET_BUFFER_SIZE
    requires gw.parse(stream).ParseComplete? && |stream + chunk| - gw.parse(stream).end <= PROXY_MAX_CACHED_BUFFER_SIZE
    ensures HasMirrored(gw, others, cache, id, backend, stream + chunk)
  {
    var s :| Mirroring(gw, s, stream) && s.clientBuffer == "" && Has(gw, others, cache, id, Agent(backend, s, Unlocked));
    BodyGoesOn(gw, s, stream, chunk);
    LocalHas(gw, others, cache, id, Agent(backend, s, Unlocked), Read(s, chunk));
    Drained(gw, others, cache, id, backend, Next(gw, s, Read(s, chunk)), stream + chunk);
  }

  lemma {:induction false} BodyIsRead(gw: Gateway, others: map<nat, Agent>, cache: CacheState, id: nat, backend: Backend,
                                      start: Bytes, chunks: seq<Bytes>)
    requires StableParser(gw.parse) && HasMirrored(gw, others, cache, id, backend, start) && InReads(chunks)
    requires gw.parse(start).ParseComplete? && |start + Concat(chunks)| - gw.parse(start).end <= PROXY_MAX_CACHED_BUFFER_SIZE
    ensures HasMirrored(gw, others, cache, id, backend, start + Concat(chunks))
  {
    if chunks == [] {
      assert start + "" == start;
    } else {
      var init, chunk := chunks[..|chunks| - 1], chunks[|chunks| - 1];
      var stream := start + Concat(init);
      assert stream + chunk == start + Concat(chunks) && gw.parse(stream) == gw.parse(start);
      BodyIsRead(gw, others, cache, id, backend, start, init);
      OneMoreRead(gw, others, cache, id, backend, stream, chunk);
    }
  }

  // ---------------------------------------------------------------- the runs

  /**
   * What one backend sends: the answer to a probe, and then a cacheable response, read as `headers` up
   * to the completion of its header block and as `body` from there on, until the connection ends.
   */
  ghost predicate Sends(gw: Gateway, probe: seq<Bytes>, headers: seq<Bytes>, body: seq<Bytes>, stream: Bytes) {
    && HeaderReads(gw.parse, probe) && gw.parse(Concat(probe)).response.etag.Some?
    && HeaderReads(gw.parse, headers) && InReads(body) && stream == Concat(headers) + Concat(body)
    && var parsed := gw.parse(Concat(headers));
       Storable(parsed.response) && 0 < |stream| - parsed.end <= PROXY_MAX_CACHED_BUFFER_SIZE
  }

  const EOF_READ := ReadDone(DataHandler, Eof, None, Sent)

  lemma StreamIsMirrored(gw: Gateway, backend: Backend, request: Request, probe: seq<Bytes>, headers: seq<Bytes>,
                         body: seq<Bytes>, stream: Bytes)
    requires StableParser(gw.parse) && Sends(gw, probe, headers, body, stream)
    ensures HasMirrored(gw, map[], EMPTY_CACHE, 0, backend, stream)
  {
    EmptyIsReachable(gw);
    var start := SendAndListen(Created(request), Sent);
    ArriveHas(gw, EMPTY_SYSTEM, 0, backend, request);
    assert multiset{} + multiset{CacheHandler} == multiset{CacheHandler};
    ProbeMisses(gw, map[], EMPTY_CACHE, 0, Agent(backend, start, Unlocked), probe);
    MissLeadsToContent(gw, start, probe);
    var asking := Next(gw, AlmostRead(start, probe), LastRead(start, probe));
    HeadersAreRead(gw, map[], EMPTY_CACHE, 0, Agent(backend, asking, Unlocked), headers, |headers| - 1);
    ContentIsMirrored(gw, asking, headers);
    var almost, last := AlmostRead(asking, headers), LastRead(asking, headers);
    LocalHas(gw, map[], EMPTY_CACHE, 0, Agent(backend, almost, Unlocked), last);
    Drained(gw, map[], EMPTY_CACHE, 0, backend, Next(gw, almost, last), Concat(headers));
    BodyIsRead(gw, map[], EMPTY_CACHE, 0, backend, Concat(headers), body);
  }

  /** What the cache holds of `stream`, once a mirroring streamer has stored it. */
  function EntryFrom(gw: Gateway, stream: Bytes): Entry
    requires gw.parse(stream).ParseComplete? && gw.parse(stream).end <= |stream| && Storable(gw.parse(stream).response)
  {
    var parsed := gw.parse(stream);
    var buffer := stream[parsed.end..];
    Entry(BuildMetadata(parsed.response).(bufferHash := gw.hash(buffer)), buffer)
  }

  lemma StreamHolds(gw: Gateway, probe: seq<Bytes>, headers: seq<Bytes>, body: seq<Bytes>, stream: Bytes)
    requires StableParser(gw.parse) && Sends(gw, probe, headers, body, stream)
    ensures gw.parse(stream) == gw.parse(Concat(headers)) && gw.parse(stream).end < |stream|
  {
  }

  /** Some run leads to a streamer that has received just this, and stores it when the connection ends now. */
  ghost predicate MayBeCached(gw: Gateway, stream: Bytes, buffer: Bytes) {
    exists s :: Follows(gw, s) && Enabled(s, EOF_READ) && Inserts(s, Eof)
                && s.received == stream && InsertedEntry(gw, s).buffer == buffer
  }

  lemma MirroredMayBeCached(gw: Gateway, backend: Backend, stream: Bytes)
    requires HasMirrored(gw, map[], EMPTY_CACHE, 0, backend, stream) && gw.parse(stream).ParseComplete?
    requires gw.parse(stream).end < |stream|
    ensures MayBeCached(gw, stream, stream[gw.parse(stream).end..])
  {
    var s :| Mirroring(gw, s, stream) && s.clientBuffer == "" && Has(gw, map[], EMPTY_CACHE, 0, Agent(backend, s, Unlocked));
    HasFollows(gw, map[], EMPTY_CACHE, 0, Agent(backend, s, Unlocked));
  }

  /**
   * Wherever in its body the connection ends, and however it came in, a cacheable response is cached as
   * far as it came; whatever it announced, that is less than the backend meant to send.
   */
  lemma TruncatedBodyIsCached(gw: Gateway, request: Request, probe: seq<Bytes>, headers: seq<Bytes>, body: seq<Bytes>,
                              stream: Bytes, message: Bytes)
    requires StableParser(gw.parse) && Sends(gw, probe, headers, body, stream)
    requires Announced(gw.parse, message) && stream < message
    ensures gw.parse(stream) == gw.parse(message) && gw.parse(stream).end <= |stream|
    ensures
      var end := gw.parse(message).end;
      MayBeCached(gw, stream, stream[end..]) && stream[end..] < message[end..]
  {
    StreamHolds(gw, probe, headers, body, stream);
    StreamIsMirrored(gw, Backend("", 0), request, probe, headers, body, stream);
    MirroredMayBeCached(gw, Backend("", 0), stream);
    LengthDecides(gw.parse, stream, message);
  }

  lemma StreamIsStored(gw: Gateway, backend: Backend, request: Request, probe: seq<Bytes>, headers: seq<Bytes>,
                       body: seq<Bytes>, stream: Bytes)
    requires StableParser(gw.parse) && Sends(gw, probe, headers, body, stream)
    ensures gw.parse(stream).ParseComplete? && gw.parse(stream).end <= |stream| && Storable(gw.parse(stream).response)
    ensures exists a: Agent :: Has(gw, map[], WithEntry(EMPTY_CACHE, EntryFrom(gw, stream)), 0, a)
  {
    StreamHolds(gw, probe, headers, body, stream);
    StreamIsMirrored(gw, backend, request, probe, headers, body, stream);
    var s :| Mirroring(gw, s, stream) && s.clientBuffer == "" && Has(gw, map[], EMPTY_CACHE, 0, Agent(backend, s, Unlocked));
    var a := Agent(backend, s, Unlocked);
    assert InsertedEntry(gw, s) == EntryFrom(gw, stream);
    BeginHas(gw, map[], EMPTY_CACHE, 0, a, EOF_READ);
    StoreMetaHas(gw, map[], EMPTY_CACHE, 0, a.(lock := StoringMeta(EOF_READ)));
    StoreBufferHas(gw, map[], EMPTY_CACHE, 0, a.(lock := StoringBuffer(EOF_READ)));
    FinishHas(gw, map[], WithEntry(EMPTY_CACHE, EntryFrom(gw, stream)), 0, a.(lock := Stored(EOF_READ)));
  }

  /** A client that will be sent whatever body the cache holds of `origin`. */
  predicate WantsBody(gw: Gateway, request: Request, origin: Response)
    requires Storable(origin)
  {
    var encoding := BuildMetadata(origin).contentEncoding;
    && gw.evaluate(request, origin.etag.value).0 && !AsksOnlyForChanges(request)
    && (encoding == "" || encoding == ClientAcceptsContentEncoding(request))
  }

  /** An answer with a body that is not that of `message`, and says it is complete. */
  predicate CutShort(gw: Gateway, answer: ClientResponse, stream: Bytes, message: Bytes)
    requires gw.parse(stream).ParseComplete? && gw.parse(stream).end <= |stream|
    requires gw.parse(message).ParseComplete? && gw.parse(message).end <= |message|
  {
    var sent, whole := stream[gw.parse(stream).end..], message[gw.parse(message).end..];
    && answer.status == OK && answer.content == Some(sent) && sent != whole
    && Carries(answer, "Content-Length", Some(Decimal(|sent|)))
  }

  lemma HitIsServed(gw: Gateway, start: Streamer, again: seq<Bytes>, hit: Found)
    requires Expecting(start) && start.phase.Probe?
    requires HeaderReads(gw.parse, again) && gw.parse(Concat(again)).response.etag.Some?
    ensures
      var next := Next(gw, AlmostRead(start, again), LastRead(start, again, Some(hit)));
      && next.request == start.request
      && next.phase == Served(AnswerFromCache(gw, start.request, gw.parse(Concat(again)).response, hit))
  {
    var e := LastRead(start, again, Some(hit));
    assert AlmostRead(start, again).headerBuffer + e.completion.chunk == Concat(again);
    ProbeServes(gw, AlmostRead(start, again), e);
  }

  lemma AnswerIsCutShort(gw: Gateway, request: Request, probed: Response, stream: Bytes, message: Bytes)
    requires StableParser(gw.parse) && Announced(gw.parse, message) && stream < message && gw.parse(stream).ParseComplete?
    requires Storable(gw.parse(message).response) && WantsBody(gw, request, gw.parse(message).response)
    ensures gw.parse(stream) == gw.parse(message) && gw.parse(stream).end <= |stream|
    ensures
      var entry := EntryFrom(gw, stream);
      CutShort(gw, AnswerFromCache(gw, request, probed, Found(entry.buffer, entry.meta)), stream, message)
  {
    LengthDecides(gw.parse, stream, message);
    var entry := EntryFrom(gw, stream);
    FullAnswerIsFaithful(gw, request, probed, Found(entry.buffer, entry.meta));
  }

  /** Some reachable system has served this request with such an answer. */
  ghost predicate ServesCutShort(gw: Gateway, request: Request, stream: Bytes, message: Bytes)
    requires gw.parse(stream).ParseComplete? && gw.parse(stream).end <= |stream|
    requires gw.parse(message).ParseComplete? && gw.parse(message).end <= |message|
  {
    exists c: System, id: nat ::
      Reachable(gw, c) && id in c.agents && c.agents[id].s.request == request
      && c.agents[id].s.phase.Served? && CutShort(gw, c.agents[id].s.phase.response, stream, message)
  }

  /** Once the entry is in the cache, the next client is served. */
  lemma NextClientIsServed(gw: Gateway, a: Agent, second: Request, again: seq<Bytes>, entry: Entry)
    requires Has(gw, map[], WithEntry(EMPTY_CACHE, entry), 0, a)
    requires HeaderReads(gw.parse, again) && gw.parse(Concat(again)).response.etag == Some(entry.meta.etag)
    requires var start := SendAndListen(Created(second), Sent); Negotiated(start, entry.meta.contentEncoding)
    ensures
      exists c: System ::
        Reachable(gw, c) && 1 in c.agents && c.agents[1].s.request == second.(asksForEtag := false)
        && c.agents[1].s.phase == Served(AnswerFromCache(gw, second.(asksForEtag := false), gw.parse(Concat(again)).response,
                                                         Found(entry.buffer, entry.meta)))
  {
    var backend, cache := Backend("", 0), WithEntry(EMPTY_CACHE, entry);
    var others: map<nat, Agent> := map[][0 := a];
    var active, reset :| ReachableAs(gw, map[], 0, a, cache, active, reset);
    ArriveHas(gw, System(others, cache, active, reset), 1, backend, second);
    var start := SendAndListen(Created(second), Sent);
    assert multiset{} + multiset{CacheHandler} == multiset{CacheHandler};
    ProbeHits(gw, others, cache, 1, Agent(backend, start, Unlocked), again, entry);
    HitIsServed(gw, start, again, Found(entry.buffer, entry.meta));
    var e := LastRead(start, again, Some(Found(entry.buffer, entry.meta)));
    var next := Agent(backend, Next(gw, AlmostRead(start, again), e), Unlocked);
    var active', reset' :| ReachableAs(gw, others, 1, next, cache, active', reset');
    assert System(others[1 := next], cache, active', reset').agents[1] == next;
  }

  /**
   * After one client's response was cut short, a second client that asks for the same is sent, from the
   * cache, a body that is not the one its backend has just confirmed, with a length that says it is all.
   */
  lemma TruncatedBodyIsServed(gw: Gateway, first: Request, second: Request, probe: seq<Bytes>, headers: seq<Bytes>,
                              body: seq<Bytes>, again: seq<Bytes>, stream: Bytes, message: Bytes)
    requires StableParser(gw.parse) && Sends(gw, probe, headers, body, stream)
    requires Announced(gw.parse, message) && stream < message
    requires HeaderReads(gw.parse, again) && gw.parse(Concat(again)).response.etag == gw.parse(message).response.etag
    requires Storable(gw.parse(message).response)
    requires WantsBody(gw, second.(asksForEtag := false), gw.parse(message).response)
    ensures gw.parse(stream) == gw.parse(message) && gw.parse(stream).end <= |stream|
    ensures ServesCutShort(gw, second.(asksForEtag := false), stream, message)
  {
    StreamHolds(gw, probe, headers, body, stream);
    StreamIsStored(gw, Backend("", 0), first, probe, headers, body, stream);
    AnswerIsCutShort(gw, second.(asksForEtag := false), gw.parse(Concat(again)).response, stream, message);
    var a: Agent :| Has(gw, map[], WithEntry(EMPTY_CACHE, EntryFrom(gw, stream)), 0, a);
    NextClientIsServed(gw, a, second, again, EntryFrom(gw, stream));
  }

  // ---------------------------------------------------------------- an example

  lemma ConcatOfOne(chunk: Bytes)
    ensures Concat([chunk]) == chunk
  {
    assert [chunk][..0] == [] && "" + chunk == chunk;
  }

  /** Everything in one read each: a header block for the probes, and the block with part of the body for the content. */
  lemma PartIsServed(gw: Gateway, block: Bytes, part: Bytes, rest: Bytes, origin: Response, first: Request, second: Request)
    requires StableParser(gw.parse) && |block + part| <= SOCKET_BUFFER_SIZE && part != "" && rest != ""
    requires gw.parse(block) == gw.parse(block + part) == gw.parse(block + part + rest) == ParseComplete(origin, |block|)
    requires Storable(origin) && origin.contentLength == Some(|part + rest|)
    requires WantsBody(gw, second.(asksForEtag := false), origin)
    ensures ServesCutShort(gw, second.(asksForEtag := false), block + part, block + part + rest)
  {
    ConcatOfOne(block);
    ConcatOfOne(block + part);
    assert (block + part) + Concat([]) == block + part;
    TruncatedBodyIsServed(gw, first, second, [block], [block + part], [], [block], block + part, block + part + rest);
  }

  const ORIGIN := Response(OK, Some("\"v1\""), Some("text/plain"), Some(2), None, None, None, None, None, None, None)
  const PLAIN_REQUEST := Request(false, None, None, None, None, "GET /")

  function ExampleHeaders(block: Bytes): Option<Response> {
    if |block| < 13 then None else Some(ORIGIN)
  }

  /** A parser to the first blank line for which every header block is that of the same response; nothing is preconditioned. */
  function ExampleGateway(hash: HashFunction, render: ClientResponse -> Bytes): Gateway {
    Gateway(BlankLineParser(ExampleHeaders), hash, (request: Request, etag: string) => (true, OK), render, "", "", "", "1.0")
  }

  /** A header block: long enough for a status line, and ending with its first blank line. */
  predicate IsBlock(block: Bytes) {
    13 <= |block| < SOCKET_BUFFER_SIZE && Find(block, BLANK_LINE) == Some(|block| - |BLANK_LINE|)
  }

  lemma SomeBlock()
    ensures IsBlock("HTTP/1.1 200 OK" + BLANK_LINE)
  {
    var block := "HTTP/1.1 200 OK" + BLANK_LINE;
    assert block[15..19] == BLANK_LINE && OccursAt(block, BLANK_LINE, 15);
    var i := Find(block, BLANK_LINE).value;
    assert block[i] == block[i..i + 4][0] == '\r';
    assert forall j :: 0 <= j < 15 ==> block[j] != '\r';
  }

  lemma BlockIsParsed(block: Bytes, rest: Bytes)
    requires IsBlock(block)
    ensures BlankLineParser(ExampleHeaders)(block + rest) == ParseComplete(ORIGIN, |block|)
  {
    FindIsStable(block, rest, BLANK_LINE);
    assert (block + rest)[..|block|] == block;
  }

  lemma ExampleIsWanted(hash: HashFunction, render: ClientResponse -> Bytes)
    ensures WantsBody(ExampleGateway(hash, render), PLAIN_REQUEST, ORIGIN)
  {
  }

  lemma ExampleIsParsed(hash: HashFunction, render: ClientResponse -> Bytes, block: Bytes, part: Bytes, rest: Bytes)
    requires IsBlock(block)
    ensures
      var parse := ExampleGateway(hash, render).parse;
      parse(block) == parse(block + part) == parse(block + part + rest) == ParseComplete(ORIGIN, |block|)
  {
    BlockIsParsed(block, "");
    BlockIsParsed(block, part);
    BlockIsParsed(block, part + rest);
    assert block + "" == block && block + (part + rest) == block + part + rest;
  }

  lemma ExampleIsStable(hash: HashFunction, render: ClientResponse -> Bytes)
    ensures StableParser(ExampleGateway(hash, render).parse)
  {
    BlankLineParserIsStable(ExampleHeaders);
  }

  /** A response of two bytes of which one comes; the next client is sent that one, and told that it is all. */
  lemma HalfABodyIsServed(hash: HashFunction, render: ClientResponse -> Bytes, block: Bytes, part: Bytes, rest: Bytes)
    requires IsBlock(block) && |part| == |rest| == 1
    ensures
      var parse := ExampleGateway(hash, render).parse;
      parse(block) == parse(block + part) == parse(block + part + rest) == ParseComplete(ORIGIN, |block|)
    ensures ServesCutShort(ExampleGateway(hash, render), PLAIN_REQUEST, block + part, block + part + rest)
  {
    ExampleIsParsed(hash, render, block, part, rest);
    ExampleIsWanted(hash, render);
    ExampleIsStable(hash, render);
    PartIsServed(ExampleGateway(hash, render), block, part, rest, ORIGIN, PLAIN_REQUEST, PLAIN_REQUEST);
  }
}
