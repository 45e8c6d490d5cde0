/**
 * Any number of streamers around one response cache. A handler that uses the cache holds its
 * streamer's mutex for several steps, one per cache access; all other steps interleave with these.
 */
module GatewaySystem {
  import opened Strings
  import opened Http
  import opened CacheModel
  import opened StreamerMachine
  import opened StreamerInvariant
  import opened StreamerRuns
  import opened Backends

  /** How far the handler of read completion `e` has got, while it holds the mutex. */
  datatype Lock =
    | Unlocked
    | AskMeta(e: Event, encoding: string)
    | AskBuffer(e: Event, encoding: string, meta: MetaData)
    | Answered(e: Event, found: Option<Found>)
    | StoringMeta(e: Event)
    | StoringBuffer(e: Event)
    | Stored(e: Event)

  datatype Agent = Agent(backend: Backend, s: Streamer, lock: Lock)

  /** `active` counts the requests per backend as the reactor does; `reset` records removeBackendRequests. */
  datatype System = System(agents: map<nat, Agent>, cache: CacheState, active: multiset<Backend>, reset: bool)

  datatype Action =
    | Arrive(id: nat, backend: Backend, request: Request, net: Connection)
    | Leave(id: nat)
    | Local(id: nat, e: Event)
    | Begin(id: nat, e: Event)
    | LookUpMeta(id: nat)
    | LookUpBuffer(id: nat)
    | StoreMeta(id: nat)
    | StoreBuffer(id: nat)
    | Finish(id: nat)
    | EvictSome
    | ResetRequests(backend: Backend)

  const EMPTY_SYSTEM := System(map[], EMPTY_CACHE, multiset{}, false)

  /** Read completions whose handlers access the cache. */
  predicate NeedsCache(gw: Gateway, s: Streamer, e: Event) {
    e.ReadDone? && ((e.handler == CacheHandler && ProbeAnswered(gw, s, e.completion)) || Inserts(s, e.completion))
  }

  function Missed(e: Event, encoding: string): Lock {
    if encoding != "" then AskMeta(e, "") else Answered(e, None)
  }

  function AfterMeta(gw: Gateway, s: Streamer, lock: Lock, cache: CacheState): Lock
    requires lock.AskMeta? && lock.e.ReadDone? && ProbeAnswered(gw, s, lock.e.completion)
  {
    var key := MakeKey(ProbeEtag(gw, s, lock.e.completion), lock.encoding);
    if key in cache.metaData then AskBuffer(lock.e, lock.encoding, cache.metaData[key])
    else Missed(lock.e, lock.encoding)
  }

  function AfterBuffer(lock: Lock, cache: CacheState): Lock
    requires lock.AskBuffer?
  {
    var h := lock.meta.bufferHash;
    if h in cache.buffers then Answered(lock.e, Some(Found(cache.buffers[h], lock.meta)))
    else Missed(lock.e, lock.encoding)
  }

  /** Where a handler that uses the cache begins. */
  function FirstLock(s: Streamer, e: Event): Lock
    requires e.ReadDone?
  {
    if Inserts(s, e.completion) then StoringMeta(e) else AskMeta(e, ClientAcceptsContentEncoding(s.request))
  }

  /** The event a finished handler amounts to: its read completion with what the cache answered. */
  function Resolved(lock: Lock): Event
    requires lock.Answered? || lock.Stored?
  {
    if lock.Answered? && lock.e.ReadDone? then lock.e.(found := lock.found) else lock.e
  }

  function Uncount(active: multiset<Backend>, backend: Backend, before: Streamer, after: Streamer): multiset<Backend> {
    if after.stops > before.stops then active - multiset{backend} else active
  }

  /** Agent `id` becomes `a` and nothing else changes. */
  predicate Becomes(c: System, id: nat, a: Agent, d: System) {
    id in c.agents && d == c.(agents := c.agents[id := a])
  }

  predicate StreamerMoves(gw: Gateway, c: System, id: nat, e: Event, d: System) {
    id in c.agents && Enabled(c.agents[id].s, e) &&
    var a := c.agents[id];
    var next := Next(gw, a.s, e);
    d == c.(agents := c.agents[id := Agent(a.backend, next, Unlocked)], active := Uncount(c.active, a.backend, a.s, next))
  }

  ghost predicate CacheMovesTo(gw: Gateway, c: System, id: nat, op: CacheOp, lock: Lock, d: System) {
    id in c.agents && CacheStep(gw.hash, c.cache, op, d.cache) &&
    d == c.(cache := d.cache, agents := c.agents[id := c.agents[id].(lock := lock)])
  }

  ghost predicate SystemStep(gw: Gateway, c: System, act: Action, d: System) {
    match act
    case Arrive(id, backend, request, net) =>
      id !in c.agents &&
      d == c.(agents := c.agents[id := Agent(backend, SendAndListen(Created(request), net), Unlocked)],
              active := c.active + multiset{backend})
    case Leave(id) =>
      id in c.agents &&
      var a := c.agents[id];
      // handlers of outstanding reads keep their streamer alive
      a.lock == Unlocked && a.s.pending == multiset{} && a.s.consumer == Ready &&
      d == c.(agents := c.agents - {id}, active := Uncount(c.active, a.backend, a.s, Destroyed(a.s)))
    case Local(id, e) =>
      id in c.agents && c.agents[id].lock == Unlocked && Enabled(c.agents[id].s, e)
      && !NeedsCache(gw, c.agents[id].s, e) && StreamerMoves(gw, c, id, e, d)
    case Begin(id, e) =>
      id in c.agents && c.agents[id].lock == Unlocked && Enabled(c.agents[id].s, e) &&
      var a := c.agents[id];
      NeedsCache(gw, a.s, e) &&
      Becomes(c, id, a.(lock := FirstLock(a.s, e)), d)
    case LookUpMeta(id) =>
      id in c.agents &&
      var a := c.agents[id];
      a.lock.AskMeta? && a.lock.e.ReadDone? && ProbeAnswered(gw, a.s, a.lock.e.completion) &&
      Becomes(c, id, a.(lock := AfterMeta(gw, a.s, a.lock, c.cache)), d)
    case LookUpBuffer(id) =>
      id in c.agents && c.agents[id].lock.AskBuffer? &&
      Becomes(c, id, c.agents[id].(lock := AfterBuffer(c.agents[id].lock, c.cache)), d)
    case StoreMeta(id) =>
      id in c.agents && c.agents[id].lock.StoringMeta? &&
      CacheMovesTo(gw, c, id, InsertMeta(InsertedEntry(gw, c.agents[id].s)), StoringBuffer(c.agents[id].lock.e), d)
    case StoreBuffer(id) =>
      id in c.agents && c.agents[id].lock.StoringBuffer? &&
      CacheMovesTo(gw, c, id, InsertBuffer(InsertedEntry(gw, c.agents[id].s)), Stored(c.agents[id].lock.e), d)
    case Finish(id) =>
      id in c.agents && (c.agents[id].lock.Answered? || c.agents[id].lock.Stored?) &&
      StreamerMoves(gw, c, id, Resolved(c.agents[id].lock), d)
    case EvictSome =>
      CacheStep(gw.hash, c.cache, CacheOp.Evict, d.cache) && d == c.(cache := d.cache)
    case ResetRequests(backend) =>
      d == c.(active := c.active[backend := 0], reset := true)
  }

  // ---------------------------------------------------------------- invariant

  predicate Negotiated(s: Streamer, encoding: string) {
    encoding == ClientAcceptsContentEncoding(s.request) || encoding == ""
  }

  /** A lookup for the probed ETag, in an encoding looked for on the client's behalf, may have given `hit`. */
  ghost predicate Legitimate(gw: Gateway, history: set<Entry>, s: Streamer, etag: string, hit: Found) {
    exists encoding :: Negotiated(s, encoding) && Vouched(gw.hash, history, MakeKey(etag, encoding), hit.meta, hit.buffer)
  }

  ghost predicate HoldsMeta(history: set<Entry>, key: string, meta: MetaData) {
    exists e :: e in history && EntryKey(e) == key && e.meta == meta
  }

  predicate Probing(gw: Gateway, s: Streamer, e: Event) {
    Enabled(s, e) && e.ReadDone? && e.handler == CacheHandler && ProbeAnswered(gw, s, e.completion)
  }

  predicate Inserting(s: Streamer, e: Event) {
    Enabled(s, e) && e.ReadDone? && Inserts(s, e.completion)
  }

  ghost predicate LockOk(gw: Gateway, history: set<Entry>, a: Agent) {
    match a.lock
    case Unlocked => true
    case AskMeta(e, encoding) => Probing(gw, a.s, e) && Negotiated(a.s, encoding)
    case AskBuffer(e, encoding, meta) =>
      Probing(gw, a.s, e) && Negotiated(a.s, encoding)
      && HoldsMeta(history, MakeKey(ProbeEtag(gw, a.s, e.completion), encoding), meta)
    case Answered(e, found) =>
      Probing(gw, a.s, e)
      && (found.Some? ==> Legitimate(gw, history, a.s, ProbeEtag(gw, a.s, e.completion), found.value))
    case StoringMeta(e) => Inserting(a.s, e)
    case StoringBuffer(e) => Inserting(a.s, e) && InsertedEntry(gw, a.s) in history
    case Stored(e) => Inserting(a.s, e)
  }

  /** A served answer was built from a legitimate hit for the ETag the probe brought. */
  ghost predicate ServedOk(gw: Gateway, history: set<Entry>, s: Streamer) {
    s.phase.Served? ==>
      var parsed := gw.parse(s.headerBuffer);
      && parsed.ParseComplete? && parsed.response.etag.Some?
      && exists hit :: Legitimate(gw, history, s, parsed.response.etag.value, hit)
                       && s.phase.response == AnswerFromCache(gw, s.request, parsed.response, hit)
  }

  ghost predicate AgentOk(gw: Gateway, history: set<Entry>, a: Agent) {
    Inv(gw, a.s) && LockOk(gw, history, a) && ServedOk(gw, history, a.s)
  }

  ghost predicate SystemInv(gw: Gateway, c: System) {
    && Consistent(gw.hash, c.cache)
    && forall id :: id in c.agents ==> AgentOk(gw, c.cache.history, c.agents[id])
  }

  lemma LockStaysOk(gw: Gateway, older: set<Entry>, newer: set<Entry>, a: Agent)
    requires older <= newer && LockOk(gw, older, a)
    ensures LockOk(gw, newer, a)
  {
  }

  lemma ServedStaysOk(gw: Gateway, older: set<Entry>, newer: set<Entry>, s: Streamer)
    requires older <= newer && ServedOk(gw, older, s)
    ensures ServedOk(gw, newer, s)
  {
  }

  lemma HistoryMayGrow(gw: Gateway, older: set<Entry>, newer: set<Entry>, a: Agent)
    requires older <= newer && AgentOk(gw, older, a)
    ensures AgentOk(gw, newer, a)
  {
    LockStaysOk(gw, older, newer, a);
    ServedStaysOk(gw, older, newer, a.s);
  }

  lemma OneAgentChanges(gw: Gateway, c: System, id: nat, a: Agent, d: System)
    requires SystemInv(gw, c) && Consistent(gw.hash, d.cache) && c.cache.history <= d.cache.history
    requires d.agents == c.agents[id := a] && AgentOk(gw, d.cache.history, a)
    ensures SystemInv(gw, d)
  {
    forall k | k in d.agents
      ensures AgentOk(gw, d.cache.history, d.agents[k])
    {
      if k != id {
        HistoryMayGrow(gw, c.cache.history, d.cache.history, c.agents[k]);
      }
    }
  }

  /** A read completion of the probe that was answered from the cache. */
  predicate ServesNow(gw: Gateway, s: Streamer, e: Event) {
    Probing(gw, s, e) && e.found.Some?
  }

  lemma ProbeServes(gw: Gateway, s: Streamer, e: Event)
    requires ServesNow(gw, s, e)
    ensures
      var next := Next(gw, s, e);
      var parsed := gw.parse(next.headerBuffer);
      && next.request == s.request && next.headerBuffer == s.headerBuffer + e.completion.chunk
      && parsed.ParseComplete? && parsed.response.etag == Some(ProbeEtag(gw, s, e.completion))
      && next.phase == Served(AnswerFromCache(gw, s.request, parsed.response, e.found.value))
  {
    var t := AppendHeaders(Taken(s, e.handler), e.completion.chunk);
    assert Next(gw, s, e) ==
           ServeHit(gw, t, AnswerFromCache(gw, s.request, gw.parse(t.headerBuffer).response, e.found.value));
  }

  lemma ReadServesOnlyFromProbe(gw: Gateway, s: Streamer, e: Event)
    requires Inv(gw, s) && Enabled(s, e) && e.ReadDone? && !ServesNow(gw, s, e)
    ensures !Next(gw, s, e).phase.Served?
  {
  }

  /** A streamer is served in no other way, and what was served stays. */
  lemma OnlyProbeServes(gw: Gateway, s: Streamer, e: Event)
    requires Inv(gw, s) && Enabled(s, e) && Next(gw, s, e).phase.Served? && !ServesNow(gw, s, e)
    ensures s.phase.Served? && Next(gw, s, e).phase == s.phase
    ensures Next(gw, s, e).headerBuffer == s.headerBuffer && Next(gw, s, e).request == s.request
  {
    if e.ReadDone? {
      ReadServesOnlyFromProbe(gw, s, e);
    }
  }

  lemma MoveKeepsAgentOk(gw: Gateway, history: set<Entry>, a: Agent, e: Event)
    requires StableParser(gw.parse) && AgentOk(gw, history, a) && Enabled(a.s, e)
    requires ServesNow(gw, a.s, e) ==> Legitimate(gw, history, a.s, ProbeEtag(gw, a.s, e.completion), e.found.value)
    ensures AgentOk(gw, history, Agent(a.backend, Next(gw, a.s, e), Unlocked))
  {
    StepKeepsInv(gw, a.s, e);
    var next := Next(gw, a.s, e);
    if ServesNow(gw, a.s, e) {
      ProbeServes(gw, a.s, e);
      var etag := ProbeEtag(gw, a.s, e.completion);
      SameRequestSameHits(gw, history, a.s, next, etag, e.found.value);
    } else if next.phase.Served? {
      OnlyProbeServes(gw, a.s, e);
      var etag := gw.parse(a.s.headerBuffer).response.etag.value;
      var hit :| Legitimate(gw, history, a.s, etag, hit)
                 && a.s.phase.response == AnswerFromCache(gw, a.s.request, gw.parse(a.s.headerBuffer).response, hit);
      SameRequestSameHits(gw, history, a.s, next, etag, hit);
    }
  }

  lemma SameRequestSameHits(gw: Gateway, history: set<Entry>, s: Streamer, t: Streamer, etag: string, hit: Found)
    requires t.request == s.request && Legitimate(gw, history, s, etag, hit)
    ensures Legitimate(gw, history, t, etag, hit)
  {
  }

  lemma LookUpKeepsLockOk(gw: Gateway, cache: CacheState, a: Agent)
    requires Consistent(gw.hash, cache) && LockOk(gw, cache.history, a)
    ensures a.lock.AskMeta? ==> LockOk(gw, cache.history, a.(lock := AfterMeta(gw, a.s, a.lock, cache)))
    ensures a.lock.AskBuffer? ==> LockOk(gw, cache.history, a.(lock := AfterBuffer(a.lock, cache)))
  {
    if a.lock.AskBuffer? && a.lock.meta.bufferHash in cache.buffers {
      var key := MakeKey(ProbeEtag(gw, a.s, a.lock.e.completion), a.lock.encoding);
      var buffer := cache.buffers[a.lock.meta.bufferHash];
      var entry :| entry in cache.history && EntryKey(entry) == key && entry.meta == a.lock.meta;
      var stored :| stored in cache.history && gw.hash(stored.buffer) == a.lock.meta.bufferHash && stored.buffer == buffer;
      assert Vouched(gw.hash, cache.history, key, a.lock.meta, buffer);
    }
  }

  /** What the lock knows of the lookup is all that serving needs. */
  lemma ResolvedIsJustified(gw: Gateway, history: set<Entry>, a: Agent)
    requires LockOk(gw, history, a) && (a.lock.Answered? || a.lock.Stored?)
    ensures var e := Resolved(a.lock);
            Enabled(a.s, e) &&
            (ServesNow(gw, a.s, e) ==> Legitimate(gw, history, a.s, ProbeEtag(gw, a.s, e.completion), e.found.value))
  {
  }

  lemma MoveKeepsInv(gw: Gateway, c: System, id: nat, e: Event, d: System)
    requires StableParser(gw.parse) && SystemInv(gw, c) && StreamerMoves(gw, c, id, e, d)
    requires var s := c.agents[id].s;
             ServesNow(gw, s, e) ==> Legitimate(gw, c.cache.history, s, ProbeEtag(gw, s, e.completion), e.found.value)
    ensures SystemInv(gw, d)
  {
    var a := c.agents[id];
    MoveKeepsAgentOk(gw, c.cache.history, a, e);
    OneAgentChanges(gw, c, id, Agent(a.backend, Next(gw, a.s, e), Unlocked), d);
  }

  lemma FinishKeepsInv(gw: Gateway, c: System, id: nat, d: System)
    requires StableParser(gw.parse) && SystemInv(gw, c) && SystemStep(gw, c, Finish(id), d)
    ensures SystemInv(gw, d)
  {
    ResolvedIsJustified(gw, c.cache.history, c.agents[id]);
    MoveKeepsInv(gw, c, id, Resolved(c.agents[id].lock), d);
  }

  lemma LocalKeepsInv(gw: Gateway, c: System, id: nat, e: Event, d: System)
    requires StableParser(gw.parse) && SystemInv(gw, c) && SystemStep(gw, c, Local(id, e), d)
    ensures SystemInv(gw, d)
  {
    MoveKeepsInv(gw, c, id, e, d);
  }

  lemma BeginKeepsInv(gw: Gateway, c: System, id: nat, e: Event, d: System)
    requires SystemInv(gw, c) && SystemStep(gw, c, Begin(id, e), d)
    ensures SystemInv(gw, d)
  {
    OneAgentChanges(gw, c, id, d.agents[id], d);
  }

  lemma LookUpKeepsInv(gw: Gateway, c: System, act: Action, d: System)
    requires SystemInv(gw, c) && SystemStep(gw, c, act, d) && (act.LookUpMeta? || act.LookUpBuffer?)
    ensures SystemInv(gw, d)
  {
    LookUpKeepsLockOk(gw, c.cache, c.agents[act.id]);
    OneAgentChanges(gw, c, act.id, d.agents[act.id], d);
  }

  lemma StoreKeepsInv(gw: Gateway, c: System, id: nat, op: CacheOp, lock: Lock, d: System)
    requires SystemInv(gw, c) && CacheMovesTo(gw, c, id, op, lock, d)
    requires LockOk(gw, d.cache.history, c.agents[id].(lock := lock))
    ensures SystemInv(gw, d)
  {
    StepKeepsConsistent(gw.hash, c.cache, op, d.cache);
    HistoryMayGrow(gw, c.cache.history, d.cache.history, c.agents[id]);
    OneAgentChanges(gw, c, id, d.agents[id], d);
  }

  lemma ArriveKeepsInv(gw: Gateway, c: System, act: Action, d: System)
    requires SystemInv(gw, c) && SystemStep(gw, c, act, d) && act.Arrive?
    ensures SystemInv(gw, d)
  {
    StartHasInv(gw, act.request, act.net);
    OneAgentChanges(gw, c, act.id, d.agents[act.id], d);
  }

  lemma InsertKeepsInv(gw: Gateway, c: System, act: Action, d: System)
    requires SystemInv(gw, c) && SystemStep(gw, c, act, d) && (act.StoreMeta? || act.StoreBuffer?)
    ensures SystemInv(gw, d)
  {
    var a := c.agents[act.id];
    var entry := InsertedEntry(gw, a.s);
    if act.StoreMeta? {
      StoreKeepsInv(gw, c, act.id, InsertMeta(entry), StoringBuffer(a.lock.e), d);
    } else {
      StoreKeepsInv(gw, c, act.id, InsertBuffer(entry), Stored(a.lock.e), d);
    }
  }

  lemma SystemStepKeepsInv(gw: Gateway, c: System, act: Action, d: System)
    requires StableParser(gw.parse) && SystemInv(gw, c) && SystemStep(gw, c, act, d)
    ensures SystemInv(gw, d)
  {
    match act
    case Arrive(_, _, _, _) => ArriveKeepsInv(gw, c, act, d);
    case Leave(_) =>
    case Local(id, e) => LocalKeepsInv(gw, c, id, e, d);
    case Begin(id, e) => BeginKeepsInv(gw, c, id, e, d);
    case LookUpMeta(_) => LookUpKeepsInv(gw, c, act, d);
    case LookUpBuffer(_) => LookUpKeepsInv(gw, c, act, d);
    case StoreMeta(_) => InsertKeepsInv(gw, c, act, d);
    case StoreBuffer(_) => InsertKeepsInv(gw, c, act, d);
    case Finish(id) => FinishKeepsInv(gw, c, id, d);
    case EvictSome => StepKeepsConsistent(gw.hash, c.cache, CacheOp.Evict, d.cache);
    case ResetRequests(_) =>
  }
}
