/** What holds in every interleaving of any number of streamers, lookups, inserts and evictions. */
module GatewayTheorems {
  import opened Strings
  import opened Http
  import opened CacheModel
  import opened StreamerMachine
  import opened StreamerInvariant
  import opened StreamerRuns
  import opened GatewaySystem
  import opened Backends

  ghost predicate SystemRun(gw: Gateway, run: seq<System>, acts: seq<Action>) {
    && |run| == |acts| + 1 && run[0] == EMPTY_SYSTEM
    && forall i :: 0 <= i < |acts| ==> StepAt(gw, run, acts, i)
  }

  ghost predicate StepAt(gw: Gateway, run: seq<System>, acts: seq<Action>, i: nat)
    requires i < |acts| < |run|
  {
    SystemStep(gw, run[i], acts[i], run[i + 1])
  }

  lemma {:induction false} SystemKeepsInv(gw: Gateway, run: seq<System>, acts: seq<Action>, i: nat)
    requires StableParser(gw.parse) && SystemRun(gw, run, acts) && i < |run|
    ensures SystemInv(gw, run[i])
  {
    if i > 0 {
      SystemKeepsInv(gw, run, acts, i - 1);
      assert StepAt(gw, run, acts, i - 1);
      SystemStepKeepsInv(gw, run[i - 1], acts[i - 1], run[i]);
    }
  }

  // ---------------------------------------------------------------- each streamer follows its own machine

  ghost predicate Follows(gw: Gateway, s: Streamer) {
    exists run, events :: IsRun(gw, run, events) && run[|events|] == s
  }

  lemma StartFollows(gw: Gateway, request: Request, net: Connection)
    ensures Follows(gw, SendAndListen(Created(request), net))
  {
    assert IsRun(gw, [SendAndListen(Created(request), net)], []);
  }

  lemma RunExtends(gw: Gateway, run: seq<Streamer>, events: seq<Event>, e: Event)
    requires IsRun(gw, run, events) && Enabled(run[|events|], e)
    ensures IsRun(gw, run + [Next(gw, run[|events|], e)], events + [e])
  {
    var next := Next(gw, run[|events|], e);
    var longer, more := run + [next], events + [e];
    assert longer[0] == run[0];
    forall i | 0 <= i < |more|
      ensures MovesAt(gw, longer, more, i)
    {
      if i < |events| {
        assert MovesAt(gw, run, events, i);
        assert longer[i] == run[i] && longer[i + 1] == run[i + 1] && more[i] == events[i];
      } else {
        assert longer[i] == run[|events|] && longer[i + 1] == next && more[i] == e;
      }
    }
  }

  lemma RunEndsIn(gw: Gateway, run: seq<Streamer>, events: seq<Event>, s: Streamer)
    requires IsRun(gw, run, events) && run[|events|] == s
    ensures Follows(gw, s)
  {
  }

  lemma NextFollows(gw: Gateway, s: Streamer, e: Event)
    requires Follows(gw, s) && Enabled(s, e)
    ensures Follows(gw, Next(gw, s, e))
  {
    var run, events :| IsRun(gw, run, events) && run[|events|] == s;
    RunExtends(gw, run, events, e);
    RunEndsIn(gw, run + [Next(gw, s, e)], events + [e], Next(gw, s, e));
  }

  ghost predicate AllFollow(gw: Gateway, c: System) {
    forall id :: id in c.agents ==> Follows(gw, c.agents[id].s)
  }

  /** Only three kinds of step touch a streamer. */
  lemma OthersLeaveStreamers(gw: Gateway, c: System, act: Action, d: System)
    requires SystemStep(gw, c, act, d) && !act.Arrive? && !act.Local? && !act.Finish?
    ensures forall id :: id in d.agents ==> id in c.agents && d.agents[id].s == c.agents[id].s
  {
  }

  lemma MoveFollows(gw: Gateway, c: System, id: nat, e: Event, d: System)
    requires AllFollow(gw, c) && StreamerMoves(gw, c, id, e, d)
    ensures AllFollow(gw, d)
  {
    NextFollows(gw, c.agents[id].s, e);
    assert d.agents[id].s == Next(gw, c.agents[id].s, e);
  }

  lemma ArriveFollows(gw: Gateway, c: System, act: Action, d: System)
    requires AllFollow(gw, c) && act.Arrive? && SystemStep(gw, c, act, d)
    ensures AllFollow(gw, d)
  {
    StartFollows(gw, act.request, act.net);
  }

  lemma StepFollows(gw: Gateway, c: System, act: Action, d: System)
    requires AllFollow(gw, c) && SystemStep(gw, c, act, d)
    ensures AllFollow(gw, d)
  {
    if act.Arrive? {
      ArriveFollows(gw, c, act, d);
    } else if act.Local? {
      MoveFollows(gw, c, act.id, act.e, d);
    } else if act.Finish? {
      MoveFollows(gw, c, act.id, Resolved(c.agents[act.id].lock), d);
    } else {
      OthersLeaveStreamers(gw, c, act, d);
    }
  }

  /** Whatever the interleaving, each streamer is at the end of a run of its own: all of StreamerRuns applies to it. */
  lemma {:induction false} StreamersFollowTheirMachine(gw: Gateway, run: seq<System>, acts: seq<Action>, i: nat)
    requires SystemRun(gw, run, acts) && i < |run|
    ensures AllFollow(gw, run[i])
  {
    if i > 0 {
      StreamersFollowTheirMachine(gw, run, acts, i - 1);
      assert StepAt(gw, run, acts, i - 1);
      StepFollows(gw, run[i - 1], acts[i - 1], run[i]);
    }
  }

  // ---------------------------------------------------------------- cache transparency

  /** In step `j` of the run, `source` stores its response, having seen its stream end cleanly. */
  ghost predicate StoresAt(run: seq<System>, acts: seq<Action>, j: nat, source: Streamer)
    requires j < |acts| < |run|
  {
    && acts[j].StoreMeta? && acts[j].id in run[j].agents
    && source == run[j].agents[acts[j].id].s
    && run[j].agents[acts[j].id].lock.StoringMeta?
    && Inserting(source, run[j].agents[acts[j].id].lock.e)
  }

  ghost predicate ComesFrom(gw: Gateway, run: seq<System>, acts: seq<Action>, i: nat, entry: Entry)
    requires i <= |acts| < |run|
  {
    exists j, source :: 0 <= j < i && StoresAt(run, acts, j, source) && entry == InsertedEntry(gw, source)
                        && FromStream(gw, source.received, entry)
  }

  lemma StoringIsSound(gw: Gateway, history: set<Entry>, a: Agent)
    requires StableParser(gw.parse) && AgentOk(gw, history, a) && a.lock.StoringMeta?
    ensures Inserting(a.s, a.lock.e) && FromStream(gw, a.s.received, InsertedEntry(gw, a.s))
  {
    InsertIsSound(gw, a.s, a.lock.e);
  }

  lemma StoreStepIsStoring(gw: Gateway, run: seq<System>, acts: seq<Action>, j: nat)
    requires j < |acts| < |run| && StepAt(gw, run, acts, j) && acts[j].StoreMeta?
    ensures acts[j].id in run[j].agents && run[j].agents[acts[j].id].lock.StoringMeta?
  {
  }

  lemma StoreIsFromStream(gw: Gateway, run: seq<System>, acts: seq<Action>, j: nat)
    requires StableParser(gw.parse) && SystemRun(gw, run, acts) && j < |acts|
    requires acts[j].StoreMeta? && acts[j].id in run[j].agents
    ensures ComesFrom(gw, run, acts, j + 1, InsertedEntry(gw, run[j].agents[acts[j].id].s))
  {
    var a := run[j].agents[acts[j].id];
    assert AgentOk(gw, run[j].cache.history, a) by {
      SystemKeepsInv(gw, run, acts, j);
    }
    assert a.lock.StoringMeta? by {
      assert StepAt(gw, run, acts, j);
      StoreStepIsStoring(gw, run, acts, j);
    }
    StoringIsSound(gw, run[j].cache.history, a);
    assert StoresAt(run, acts, j, a.s);
  }

  lemma OnlyStoresAddHistory(gw: Gateway, c: System, act: Action, d: System)
    requires SystemStep(gw, c, act, d) && d.cache.history != c.cache.history
    ensures act.StoreMeta? && act.id in c.agents
    ensures d.cache.history == c.cache.history + {InsertedEntry(gw, c.agents[act.id].s)}
  {
  }

  lemma {:induction false} HistoryComesFromStreams(gw: Gateway, run: seq<System>, acts: seq<Action>, i: nat, entry: Entry)
    requires StableParser(gw.parse) && SystemRun(gw, run, acts) && i < |run| && entry in run[i].cache.history
    ensures ComesFrom(gw, run, acts, i, entry)
  {
    assert i > 0;
    assert StepAt(gw, run, acts, i - 1);
    if entry in run[i - 1].cache.history {
      HistoryComesFromStreams(gw, run, acts, i - 1, entry);
      var j, source :| 0 <= j < i - 1 && StoresAt(run, acts, j, source) && entry == InsertedEntry(gw, source)
                       && FromStream(gw, source.received, entry);
    } else {
      OnlyStoresAddHistory(gw, run[i - 1], acts[i - 1], run[i]);
      StoreIsFromStream(gw, run, acts, i - 1);
    }
  }

  ghost predicate CleanEtags(parse: Parser) {
    forall x: Bytes :: parse(x).ParseComplete? && parse(x).response.etag.Some? ==>
      UNIT_SEPARATOR !in parse(x).response.etag.value
  }

  /** `answer` gives streamer `s` the body of the response that `source` received, byte for byte. */
  ghost predicate Reproduces(gw: Gateway, s: Streamer, answer: ClientResponse, source: Streamer) {
    var probe := gw.parse(s.headerBuffer);
    var origin := gw.parse(source.received);
    && probe.ParseComplete? && origin.ParseComplete? && origin.end <= |source.received|
    && Storable(origin.response) && probe.response.etag == origin.response.etag
    && answer.content == Some(source.received[origin.end..])
    && SameRepresentation(s, answer, origin.response)
  }

  /**
   * Status 200, type, encoding and directives are those of the original, and the encoding is the one
   * looked for on the client's behalf, or none.
   */
  predicate SameRepresentation(s: Streamer, answer: ClientResponse, origin: Response) {
    var encoding := Trim(ToLower(OrEmpty(origin.contentEncoding)));
    && answer.status == 200 && Negotiated(s, encoding)
    && Carries(answer, "Content-Type", origin.contentType)
    && Carries(answer, "Content-Encoding", if encoding == "" then None else Some(encoding))
    && Carries(answer, "Cache-Control", OrDefault(origin.cacheControl, "must-revalidate"))
    && Carries(answer, "Vary", OrDefault(origin.vary, "Accept-Encoding"))
    && Carries(answer, "Access-Control-Allow-Origin", if OrEmpty(origin.allowOrigin) == "" then None else origin.allowOrigin)
  }

  /** A header that is empty counts as missing. */
  function OrDefault(header: Option<string>, default: string): Option<string> {
    if header.None? || header.value == "" then Some(default) else header
  }

  lemma HitReproduces(gw: Gateway, s: Streamer, encoding: string, hit: Found, source: Streamer)
    requires CleanEtags(gw.parse) && FromStream(gw, source.received, Entry(hit.meta, hit.buffer))
    requires gw.parse(s.headerBuffer).ParseComplete? && gw.parse(s.headerBuffer).response.etag.Some?
    requires Negotiated(s, encoding)
    requires EntryKey(Entry(hit.meta, hit.buffer)) == MakeKey(gw.parse(s.headerBuffer).response.etag.value, encoding)
    requires AnswerFromCache(gw, s.request, gw.parse(s.headerBuffer).response, hit).content.Some?
    ensures Reproduces(gw, s, AnswerFromCache(gw, s.request, gw.parse(s.headerBuffer).response, hit), source)
  {
    var probe := gw.parse(s.headerBuffer).response;
    KeyIsInjective(hit.meta.etag, hit.meta.contentEncoding, probe.etag.value, encoding);
    FullAnswerIsFaithful(gw, s.request, probe, hit);
  }

  /**
   * End-to-end transparency. If a streamer answers with a full body from the cache, then at an
   * earlier step some streamer had received a 200 response with the very ETag the backend has just
   * confirmed, up to a clean end of stream, and the body is exactly the bytes after its header block.
   */
  lemma {:induction false} CacheTransparency(gw: Gateway, run: seq<System>, acts: seq<Action>, i: nat, id: nat)
    requires StableParser(gw.parse) && CleanEtags(gw.parse) && SystemRun(gw, run, acts) && i < |run|
    requires CollisionFree(gw.hash, run[i].cache.history)
    requires id in run[i].agents && run[i].agents[id].s.phase.Served?
    requires run[i].agents[id].s.phase.response.content.Some?
    ensures exists j, source ::
              0 <= j < i && StoresAt(run, acts, j, source)
              && Reproduces(gw, run[i].agents[id].s, run[i].agents[id].s.phase.response, source)
  {
    SystemKeepsInv(gw, run, acts, i);
    var s, history := run[i].agents[id].s, run[i].cache.history;
    assert AgentOk(gw, history, run[i].agents[id]);
    var probe := gw.parse(s.headerBuffer).response;
    var hit :| Legitimate(gw, history, s, probe.etag.value, hit) && s.phase.response == AnswerFromCache(gw, s.request, probe, hit);
    var encoding :| Negotiated(s, encoding) && Vouched(gw.hash, history, MakeKey(probe.etag.value, encoding), hit.meta, hit.buffer);
    VouchedIsOneEntry(gw.hash, history, MakeKey(probe.etag.value, encoding), hit.meta, hit.buffer);
    HistoryComesFromStreams(gw, run, acts, i, Entry(hit.meta, hit.buffer));
    var j, source :| 0 <= j < i && StoresAt(run, acts, j, source) && FromStream(gw, source.received, Entry(hit.meta, hit.buffer));
    HitReproduces(gw, s, encoding, hit, source);
  }

  // ---------------------------------------------------------------- active requests

  /** Live streamers of a backend whose request still counts. */
  function Busy(agents: map<nat, Agent>, backend: Backend): set<nat> {
    set id | id in agents && agents[id].backend == backend && !agents[id].s.finishing
  }

  /** A count is exact until some count is reset, and from then on never too high. */
  ghost predicate Fits(count: nat, busy: set<nat>, exact: bool) {
    count <= |busy| && (exact ==> count == |busy|)
  }

  ghost predicate Counted(c: System) {
    forall backend: Backend :: Fits(c.active[backend], Busy(c.agents, backend), !c.reset)
  }

  lemma OneLess(active: multiset<Backend>, backend: Backend, busy: set<nat>, exact: bool, id: nat)
    requires Fits(active[backend], busy, exact) && id in busy
    ensures Fits((active - multiset{backend})[backend], busy - {id}, exact)
  {
  }

  lemma BusyAfterRemoval(agents: map<nat, Agent>, id: nat, backend: Backend)
    requires id in agents
    ensures Busy(agents - {id}, backend) == Busy(agents, backend) - {id}
  {
  }

  lemma BusyAfterUpdate(agents: map<nat, Agent>, id: nat, a: Agent, backend: Backend)
    ensures Busy(agents[id := a], backend) ==
            if a.backend == backend && !a.s.finishing then Busy(agents, backend) + {id} else Busy(agents, backend) - {id}
  {
  }

  lemma StopMeansFinishing(gw: Gateway, s: Streamer, e: Event)
    requires StableParser(gw.parse) && Inv(gw, s) && Enabled(s, e)
    ensures Next(gw, s, e).stops > s.stops <==> Next(gw, s, e).finishing && !s.finishing
    ensures s.finishing ==> Next(gw, s, e).finishing
  {
    StepKeepsInv(gw, s, e);
    StepEvolves(gw, s, e);
  }

  /** A streamer that becomes `next` is uncounted exactly if it is finishing from now on. */
  lemma FinishingIsUncounted(c: System, id: nat, next: Streamer, backend: Backend)
    requires Counted(c) && id in c.agents
    requires var s := c.agents[id].s;
             (next.stops > s.stops <==> next.finishing && !s.finishing) && (s.finishing ==> next.finishing)
    ensures
      var a := c.agents[id];
      Fits(Uncount(c.active, a.backend, a.s, next)[backend], Busy(c.agents[id := Agent(a.backend, next, Unlocked)], backend), !c.reset)
  {
    var a := c.agents[id];
    BusyAfterUpdate(c.agents, id, Agent(a.backend, next, Unlocked), backend);
    var busy := Busy(c.agents, backend);
    assert Fits(c.active[backend], busy, !c.reset);
    assert id in busy <==> a.backend == backend && !a.s.finishing;
    if id in busy && next.finishing {
      OneLess(c.active, backend, busy, !c.reset, id);
    } else {
      assert Busy(c.agents[id := Agent(a.backend, next, Unlocked)], backend) == busy;
    }
  }

  lemma MoveKeepsCounted(gw: Gateway, c: System, id: nat, e: Event, d: System)
    requires StableParser(gw.parse) && SystemInv(gw, c) && Counted(c) && StreamerMoves(gw, c, id, e, d)
    ensures Counted(d)
  {
    assert AgentOk(gw, c.cache.history, c.agents[id]);
    StopMeansFinishing(gw, c.agents[id].s, e);
    forall backend: Backend
      ensures Fits(d.active[backend], Busy(d.agents, backend), !d.reset)
    {
      FinishingIsUncounted(c, id, Next(gw, c.agents[id].s, e), backend);
    }
  }

  lemma LockKeepsCounted(gw: Gateway, c: System, id: nat, d: System)
    requires Counted(c) && id in c.agents && id in d.agents && d.active == c.active && d.reset == c.reset
    requires d.agents == c.agents[id := c.agents[id].(lock := d.agents[id].lock)]
    ensures Counted(d)
  {
    forall backend: Backend
      ensures Fits(d.active[backend], Busy(d.agents, backend), !d.reset)
    {
      assert Fits(c.active[backend], Busy(c.agents, backend), !c.reset);
      assert Busy(d.agents, backend) == Busy(c.agents, backend);
    }
  }

  lemma StepKeepsCounted(gw: Gateway, c: System, act: Action, d: System)
    requires StableParser(gw.parse) && SystemInv(gw, c) && Counted(c) && SystemStep(gw, c, act, d)
    ensures Counted(d)
  {
    match act
    case Arrive(id, backend, request, net) => ArriveKeepsCounted(gw, c, act, d);
    case Leave(id) => LeaveKeepsCounted(gw, c, id, d);
    case Local(id, e) => MoveKeepsCounted(gw, c, id, e, d);
    case Finish(id) => MoveKeepsCounted(gw, c, id, Resolved(c.agents[id].lock), d);
    case EvictSome =>
    case ResetRequests(_) =>
    case _ => LockKeepsCounted(gw, c, act.id, d);
  }

  lemma ArriveKeepsCounted(gw: Gateway, c: System, act: Action, d: System)
    requires Counted(c) && act.Arrive? && SystemStep(gw, c, act, d)
    ensures Counted(d)
  {
    forall backend: Backend
      ensures Fits(d.active[backend], Busy(d.agents, backend), !d.reset)
    {
      BusyAfterUpdate(c.agents, act.id, d.agents[act.id], backend);
      var busy := Busy(c.agents, backend);
      assert Fits(c.active[backend], busy, !c.reset) && act.id !in busy;
    }
  }

  lemma DestroyedIsUncounted(c: System, id: nat, backend: Backend)
    requires Counted(c) && id in c.agents
    ensures
      var a := c.agents[id];
      Fits(Uncount(c.active, a.backend, a.s, Destroyed(a.s))[backend], Busy(c.agents - {id}, backend), !c.reset)
  {
    var a := c.agents[id];
    BusyAfterRemoval(c.agents, id, backend);
    var busy := Busy(c.agents, backend);
    assert Fits(c.active[backend], busy, !c.reset);
    assert id in busy <==> a.backend == backend && !a.s.finishing;
    if id in busy {
      OneLess(c.active, backend, busy, !c.reset, id);
    } else {
      assert busy - {id} == busy;
    }
  }

  lemma LeaveKeepsCounted(gw: Gateway, c: System, id: nat, d: System)
    requires Counted(c) && SystemStep(gw, c, Leave(id), d)
    ensures Counted(d)
  {
    forall backend: Backend
      ensures Fits(d.active[backend], Busy(d.agents, backend), !d.reset)
    {
      DestroyedIsUncounted(c, id, backend);
    }
  }

  /**
   * The request count of every backend is the number of its live streamers not yet finishing, as long
   * as no count was reset; and by its destruction each streamer has called stop exactly once.
   */
  lemma {:induction false} ActiveRequestsAreCounted(gw: Gateway, run: seq<System>, acts: seq<Action>, i: nat)
    requires StableParser(gw.parse) && SystemRun(gw, run, acts) && i < |run|
    ensures Counted(run[i])
    ensures forall id :: id in run[i].agents ==> run[i].agents[id].s.stops <= 1 && Destroyed(run[i].agents[id].s).stops == 1
  {
    SystemKeepsInv(gw, run, acts, i);
    forall id | id in run[i].agents
      ensures run[i].agents[id].s.stops <= 1 && Destroyed(run[i].agents[id].s).stops == 1
    {
      assert AgentOk(gw, run[i].cache.history, run[i].agents[id]);
    }
    if i > 0 {
      ActiveRequestsAreCounted(gw, run, acts, i - 1);
      SystemKeepsInv(gw, run, acts, i - 1);
      assert StepAt(gw, run, acts, i - 1);
      StepKeepsCounted(gw, run[i - 1], acts[i - 1], run[i]);
    }
  }
}
