/**
 * One handler among all the others: what a handler does to the cache while it holds its mutex, access by
 * access, and why that is what the system lets it do. StreamerObject proves that its handlers are such
 * sequences of accesses.
 */
module HandlerSteps {
  import opened Strings
  import opened Http
  import opened CacheModel
  import opened StreamerMachine
  import opened GatewaySystem
  import opened Backends

  /** One access: how far the handler was, the cache right before and right after, and how far it is then. */
  datatype Access = Access(lock: Lock, before: CacheState, after: CacheState, next: Lock)

  ghost predicate OwnStep(gw: Gateway, s: Streamer, a: Access) {
    match a.lock
    case AskMeta(e, _) =>
      e.ReadDone? && ProbeAnswered(gw, s, e.completion)
      && a.after == a.before && a.next == AfterMeta(gw, s, a.lock, a.before)
    case AskBuffer(_, _, _) => a.after == a.before && a.next == AfterBuffer(a.lock, a.before)
    case StoringMeta(e) =>
      CacheStep(gw.hash, a.before, InsertMeta(InsertedEntry(gw, s)), a.after) && a.next == StoringBuffer(e)
    case StoringBuffer(e) =>
      CacheStep(gw.hash, a.before, InsertBuffer(InsertedEntry(gw, s)), a.after) && a.next == Stored(e)
    case _ => false
  }

  /** The accesses of a handler from `first` to `last`, with any steps of others between one and the next. */
  ghost predicate Chain(gw: Gateway, s: Streamer, first: Lock, trace: seq<Access>, last: Lock) {
    if trace == [] then first == last
    else
      var n := |trace| - 1;
      && Chain(gw, s, first, trace[..n], trace[n].lock)
      && OwnStep(gw, s, trace[n]) && trace[n].next == last
      && (n > 0 ==> Reaches(gw.hash, trace[n - 1].after, trace[n].before))
  }

  lemma ChainExtends(gw: Gateway, s: Streamer, first: Lock, t: seq<Access>, a: Access)
    requires Chain(gw, s, first, t, a.lock) && OwnStep(gw, s, a)
    requires t != [] ==> Reaches(gw.hash, t[|t| - 1].after, a.before)
    ensures Chain(gw, s, first, t + [a], a.next)
  {
    assert (t + [a])[..|t|] == t;
  }

  lemma ChainOfTwo(gw: Gateway, s: Streamer, a: Access, b: Access)
    requires OwnStep(gw, s, a) && OwnStep(gw, s, b) && a.next == b.lock && Reaches(gw.hash, a.after, b.before)
    ensures Chain(gw, s, a.lock, [a, b], b.next)
  {
    ChainExtends(gw, s, a.lock, [], a);
    ChainExtends(gw, s, a.lock, [] + [a], b);
    assert ([] + [a]) + [b] == [a, b];
  }

  /** What a lookup finds that sees the cache as it is in `c`, and then in `d`. */
  function FoundIn(gw: Gateway, s: Streamer, e: Event, encoding: string, c: CacheState, d: CacheState): Option<Found>
    requires e.ReadDone? && ProbeAnswered(gw, s, e.completion)
  {
    var meta := Lookup(c.metaData, MakeKey(ProbeEtag(gw, s, e.completion), encoding));
    if meta.None? then None
    else
      var buffer := Lookup(d.buffers, meta.value.bufferHash);
      if buffer.None? then None else Some(Found(buffer.value, meta.value))
  }

  /** The accesses of that lookup: the second one only if the first one found something. */
  function Finding(gw: Gateway, s: Streamer, e: Event, encoding: string, c: CacheState, d: CacheState): (trace: seq<Access>)
    requires e.ReadDone? && ProbeAnswered(gw, s, e.completion)
    ensures trace != []
    ensures c == d ==> trace[|trace| - 1].after == d
    ensures Lookup(c.metaData, MakeKey(ProbeEtag(gw, s, e.completion), encoding)).Some? ==> trace[|trace| - 1].after == d
  {
    var ask := Access(AskMeta(e, encoding), c, c, AfterMeta(gw, s, AskMeta(e, encoding), c));
    if ask.next.AskBuffer? then [ask, Access(ask.next, d, d, AfterBuffer(ask.next, d))] else [ask]
  }

  lemma BothStepsExtend(gw: Gateway, s: Streamer, first: Lock, t: seq<Access>, a: Access, b: Access)
    requires Chain(gw, s, first, t, a.lock) && OwnStep(gw, s, a) && OwnStep(gw, s, b) && a.next == b.lock
    requires t != [] ==> Reaches(gw.hash, t[|t| - 1].after, a.before)
    requires Reaches(gw.hash, a.after, b.before)
    ensures Chain(gw, s, first, t + [a, b], b.next)
  {
    ChainExtends(gw, s, first, t, a);
    ChainExtends(gw, s, first, t + [a], b);
    assert (t + [a]) + [b] == t + [a, b];
  }

  lemma FindingIsOwn(gw: Gateway, s: Streamer, e: Event, encoding: string, c: CacheState, d: CacheState)
    requires e.ReadDone? && ProbeAnswered(gw, s, e.completion)
    ensures
      var trace, found := Finding(gw, s, e, encoding, c, d), FoundIn(gw, s, e, encoding, c, d);
      var last := trace[|trace| - 1];
      && 1 <= |trace| <= 2 && trace[0].lock == AskMeta(e, encoding) && trace[0].before == trace[0].after == c
      && OwnStep(gw, s, trace[0]) && OwnStep(gw, s, last)
      && (|trace| == 2 ==> trace[0].next == last.lock && last.before == d)
      && last.next == if found.Some? then Answered(e, found) else Missed(e, encoding)
  {
  }

  lemma LookUpExtends(gw: Gateway, s: Streamer, first: Lock, t: seq<Access>, e: Event, encoding: string, c: CacheState, d: CacheState)
    requires e.ReadDone? && ProbeAnswered(gw, s, e.completion)
    requires Chain(gw, s, first, t, AskMeta(e, encoding)) && Reaches(gw.hash, c, d)
    requires t != [] ==> Reaches(gw.hash, t[|t| - 1].after, c)
    ensures
      var found := FoundIn(gw, s, e, encoding, c, d);
      Chain(gw, s, first, t + Finding(gw, s, e, encoding, c, d),
            if found.Some? then Answered(e, found) else Missed(e, encoding))
  {
    var trace := Finding(gw, s, e, encoding, c, d);
    FindingIsOwn(gw, s, e, encoding, c, d);
    if |trace| == 1 {
      ChainExtends(gw, s, first, t, trace[0]);
      assert trace == [trace[0]];
    } else {
      BothStepsExtend(gw, s, first, t, trace[0], trace[1]);
      assert trace == [trace[0], trace[1]];
    }
  }

  /** The handler of `e` does this to the cache, and finds `found` there. */
  ghost predicate HandledAs(gw: Gateway, s: Streamer, e: Event, trace: seq<Access>, found: Option<Found>) {
    e.ReadDone? &&
    if NeedsCache(gw, s, e) then
      Chain(gw, s, FirstLock(s, e), trace, if Inserts(s, e.completion) then Stored(e) else Answered(e, found))
      && (Inserts(s, e.completion) ==> found == None)
    else trace == [] && found == None
  }

  // ---------------------------------------------------------------- what an undisturbed lookup finds

  /** The body filed under this ETag and encoding, if both levels of the cache still have it. */
  function Held(c: CacheState, etag: string, encoding: string): Option<Found> {
    var key := etag + [UNIT_SEPARATOR] + encoding;
    if key in c.metaData && c.metaData[key].bufferHash in c.buffers
    then Some(Found(c.buffers[c.metaData[key].bufferHash], c.metaData[key])) else None
  }

  /** What a lookup that stands at `lock` ends with if the cache stays as it is. */
  function EndsWith(gw: Gateway, s: Streamer, e: Event, lock: Lock, c: CacheState): Option<Found>
    requires e.ReadDone? && ProbeAnswered(gw, s, e.completion)
  {
    match lock
    case AskMeta(_, encoding) =>
      if encoding != "" && Held(c, ProbeEtag(gw, s, e.completion), encoding).Some?
      then Held(c, ProbeEtag(gw, s, e.completion), encoding)
      else Held(c, ProbeEtag(gw, s, e.completion), "")
    case AskBuffer(_, encoding, meta) =>
      if meta.bufferHash in c.buffers then Some(Found(c.buffers[meta.bufferHash], meta))
      else if encoding != "" then Held(c, ProbeEtag(gw, s, e.completion), "")
      else None
    case Answered(_, found) => found
    case _ => None
  }

  lemma OwnStepEndsAlike(gw: Gateway, s: Streamer, e: Event, a: Access)
    requires e.ReadDone? && ProbeAnswered(gw, s, e.completion) && OwnStep(gw, s, a)
    requires (a.lock.AskMeta? || a.lock.AskBuffer?) && a.lock.e == e
    ensures EndsWith(gw, s, e, a.lock, a.before) == EndsWith(gw, s, e, a.next, a.before)
    ensures a.after == a.before && (a.next.AskMeta? || a.next.AskBuffer? || a.next.Answered?) && a.next.e == e
  {
  }

  lemma {:induction false} LookUpEndsAlike(gw: Gateway, s: Streamer, e: Event, encoding: string, trace: seq<Access>, last: Lock, c: CacheState)
    requires e.ReadDone? && ProbeAnswered(gw, s, e.completion)
    requires Chain(gw, s, AskMeta(e, encoding), trace, last) && forall a :: a in trace ==> a.before == c
    ensures EndsWith(gw, s, e, last, c) == EndsWith(gw, s, e, AskMeta(e, encoding), c)
    ensures (last.AskMeta? || last.AskBuffer? || last.Answered?) && last.e == e
    decreases |trace|
  {
    if trace != [] {
      var n := |trace| - 1;
      assert forall a :: a in trace[..n] ==> a in trace;
      LookUpEndsAlike(gw, s, e, encoding, trace[..n], trace[n].lock, c);
      OwnStepEndsAlike(gw, s, e, trace[n]);
    }
  }

  /**
   * While nobody else touches the cache, a handler that looks for a body finds the one in the client's
   * preferred encoding, failing that the one in the identity encoding, and nothing only if there is neither.
   */
  lemma PreferredThenIdentity(gw: Gateway, s: Streamer, e: Event, trace: seq<Access>, found: Option<Found>, c: CacheState)
    requires HandledAs(gw, s, e, trace, found) && NeedsCache(gw, s, e) && !Inserts(s, e.completion)
    requires forall a :: a in trace ==> a.before == c
    ensures
      var etag, preferred := ProbeEtag(gw, s, e.completion), ClientAcceptsContentEncoding(s.request);
      found == if Held(c, etag, preferred).Some? then Held(c, etag, preferred) else Held(c, etag, "")
  {
    LookUpEndsAlike(gw, s, e, ClientAcceptsContentEncoding(s.request), trace, Answered(e, found), c);
  }

  // ---------------------------------------------------------------- the handler in the system

  /** Where the handler stands before its `k`-th step: not begun, before an access, or after the last one. */
  function Stage(s: Streamer, e: Event, trace: seq<Access>, found: Option<Found>, k: nat): Lock
    requires e.ReadDone? && k <= |trace| + 1
  {
    if k == 0 then Unlocked
    else if k <= |trace| then trace[k - 1].lock
    else if Inserts(s, e.completion) then Stored(e)
    else Answered(e, found)
  }

  function ActionFor(id: nat, e: Event, lock: Lock): Action {
    match lock
    case Unlocked => Begin(id, e)
    case AskMeta(_, _) => LookUpMeta(id)
    case AskBuffer(_, _, _) => LookUpBuffer(id)
    case StoringMeta(_) => StoreMeta(id)
    case StoringBuffer(_) => StoreBuffer(id)
    case Answered(_, _) => Finish(id)
    case Stored(_) => Finish(id)
  }

  lemma {:induction false} ChainBegins(gw: Gateway, s: Streamer, first: Lock, trace: seq<Access>, last: Lock)
    requires Chain(gw, s, first, trace, last) && trace != []
    ensures trace[0].lock == first
    decreases |trace|
  {
    var n := |trace| - 1;
    if n > 0 {
      ChainBegins(gw, s, first, trace[..n], trace[n].lock);
    }
  }

  lemma {:induction false} ChainParts(gw: Gateway, s: Streamer, first: Lock, trace: seq<Access>, last: Lock, k: nat)
    requires Chain(gw, s, first, trace, last) && k < |trace|
    ensures OwnStep(gw, s, trace[k])
    ensures trace[k].next == if k + 1 < |trace| then trace[k + 1].lock else last
    ensures k + 1 < |trace| ==> Reaches(gw.hash, trace[k].after, trace[k + 1].before)
    decreases |trace|
  {
    var n := |trace| - 1;
    if k < n {
      ChainParts(gw, s, first, trace[..n], trace[n].lock, k);
    }
  }

  /** The system after the handler's `k`-th step from `c`: the handler is further, and the cache changed if that was an access. */
  function AfterStage(gw: Gateway, c: System, id: nat, e: Event, trace: seq<Access>, found: Option<Found>, k: nat): System
    requires id in c.agents && e.ReadDone? && k <= |trace| + 1
  {
    var a := c.agents[id];
    if k <= |trace| then
      c.(cache := if k == 0 then c.cache else trace[k - 1].after,
         agents := c.agents[id := a.(lock := Stage(a.s, e, trace, found, k + 1))])
    else
      var next := Next(gw, a.s, e.(found := found));
      c.(agents := c.agents[id := Agent(a.backend, next, Unlocked)], active := Uncount(c.active, a.backend, a.s, next))
  }

  lemma AccessIsSystemStep(gw: Gateway, c: System, id: nat, e: Event, a: Access, d: System)
    requires id in c.agents && OwnStep(gw, c.agents[id].s, a) && c.agents[id].lock == a.lock && c.cache == a.before
    requires d == c.(cache := a.after, agents := c.agents[id := c.agents[id].(lock := a.next)])
    ensures SystemStep(gw, c, ActionFor(id, e, a.lock), d)
  {
    if a.after == a.before {
      assert d.cache == c.cache;
    }
  }

  lemma FinishIsSystemStep(gw: Gateway, c: System, id: nat, e: Event, trace: seq<Access>, found: Option<Found>)
    requires e.ReadDone? && e.found.None? && id in c.agents && Enabled(c.agents[id].s, e)
    requires Inserts(c.agents[id].s, e.completion) ==> found.None?
    requires c.agents[id].lock == Stage(c.agents[id].s, e, trace, found, |trace| + 1)
    ensures SystemStep(gw, c, Finish(id), AfterStage(gw, c, id, e, trace, found, |trace| + 1))
  {
    assert Resolved(c.agents[id].lock) == e.(found := found);
    assert Enabled(c.agents[id].s, e.(found := found));
  }

  lemma BeginIsSystemStep(gw: Gateway, c: System, id: nat, e: Event, trace: seq<Access>, found: Option<Found>)
    requires id in c.agents && HandledAs(gw, c.agents[id].s, e, trace, found) && NeedsCache(gw, c.agents[id].s, e)
    requires Enabled(c.agents[id].s, e) && c.agents[id].lock == Unlocked
    ensures SystemStep(gw, c, Begin(id, e), AfterStage(gw, c, id, e, trace, found, 0))
  {
    var s := c.agents[id].s;
    ChainBegins(gw, s, FirstLock(s, e), trace, Stage(s, e, trace, found, |trace| + 1));
  }

  lemma StageIsSystemStep(gw: Gateway, c: System, id: nat, e: Event, trace: seq<Access>, found: Option<Found>, k: nat)
    requires id in c.agents && HandledAs(gw, c.agents[id].s, e, trace, found) && NeedsCache(gw, c.agents[id].s, e)
    requires 0 < k <= |trace| && c.agents[id].lock == trace[k - 1].lock && c.cache == trace[k - 1].before
    ensures SystemStep(gw, c, ActionFor(id, e, c.agents[id].lock), AfterStage(gw, c, id, e, trace, found, k))
    ensures k < |trace| ==> Reaches(gw.hash, trace[k - 1].after, trace[k].before)
  {
    var s := c.agents[id].s;
    ChainParts(gw, s, FirstLock(s, e), trace, Stage(s, e, trace, found, |trace| + 1), k - 1);
    AccessIsSystemStep(gw, c, id, e, trace[k - 1], AfterStage(gw, c, id, e, trace, found, k));
  }

  /**
   * A handler that uses the cache is Begin, its accesses, and Finish: in whatever system it finds itself
   * at its `k`-th step, with its streamer untouched and, at an access, the cache it saw there, that step is
   * the system's. Between two accesses the cache goes from where the first left it to where the second
   * finds it by steps of others.
   */
  lemma HandlerIsSystemSteps(gw: Gateway, s: Streamer, e: Event, trace: seq<Access>, found: Option<Found>,
                             c: System, id: nat, k: nat)
    requires HandledAs(gw, s, e, trace, found) && NeedsCache(gw, s, e) && e.found.None? && Enabled(s, e)
    requires k <= |trace| + 1 && id in c.agents && c.agents[id].s == s
    requires c.agents[id].lock == Stage(s, e, trace, found, k) && (0 < k <= |trace| ==> c.cache == trace[k - 1].before)
    ensures SystemStep(gw, c, ActionFor(id, e, c.agents[id].lock), AfterStage(gw, c, id, e, trace, found, k))
    ensures 0 < k < |trace| ==> Reaches(gw.hash, trace[k - 1].after, trace[k].before)
  {
    if k == 0 {
      BeginIsSystemStep(gw, c, id, e, trace, found);
    } else if k <= |trace| {
      StageIsSystemStep(gw, c, id, e, trace, found, k);
    } else {
      FinishIsSystemStep(gw, c, id, e, trace, found);
    }
  }

  // ---------------------------------------------------------------- the whole handler

  /** Others may change the cache, and do nothing else that this handler could notice. */
  ghost predicate OthersMove(gw: Gateway, c: System, d: System) {
    Reaches(gw.hash, c.cache, d.cache) && d == c.(cache := d.cache)
  }

  /** The system when the handler is about to take its `k`-th step, others having done what they did. */
  function BeforeStage(gw: Gateway, c: System, id: nat, e: Event, trace: seq<Access>, found: Option<Found>, k: nat): System
    requires id in c.agents && e.ReadDone? && k <= |trace| + 1
  {
    c.(cache := if k == 0 then c.cache else if k <= |trace| then trace[k - 1].before
                else if trace == [] then c.cache else trace[|trace| - 1].after,
       agents := if k == 0 then c.agents
                 else c.agents[id := c.agents[id].(lock := Stage(c.agents[id].s, e, trace, found, k))])
  }

  /** From one step of the handler to the next, over whatever others do in between. */
  ghost predicate LeadsOn(gw: Gateway, c: System, act: Action, d: System) {
    exists m :: SystemStep(gw, c, act, m) && OthersMove(gw, m, d)
  }

  lemma OthersComeBetween(gw: Gateway, c: System, id: nat, e: Event, trace: seq<Access>, found: Option<Found>, k: nat)
    requires id in c.agents && c.agents[id].lock == Unlocked && e.ReadDone? && trace != [] && k <= |trace|
    requires k < |trace| ==> Reaches(gw.hash, if k == 0 then c.cache else trace[k - 1].after, trace[k].before)
    ensures OthersMove(gw, AfterStage(gw, BeforeStage(gw, c, id, e, trace, found, k), id, e, trace, found, k),
                       BeforeStage(gw, c, id, e, trace, found, k + 1))
  {
    var a := c.agents[id];
    var b, n := BeforeStage(gw, c, id, e, trace, found, k), BeforeStage(gw, c, id, e, trace, found, k + 1);
    assert b.agents[id].s == a.s && b.agents[id].backend == a.backend;
    var m := AfterStage(gw, b, id, e, trace, found, k);
    assert m.agents == n.agents == c.agents[id := a.(lock := Stage(a.s, e, trace, found, k + 1))];
    if k == |trace| {
      ReachesItself(gw.hash, m.cache);
    }
  }

  lemma GapsAreOthers(gw: Gateway, s: Streamer, e: Event, trace: seq<Access>, found: Option<Found>, k: nat)
    requires HandledAs(gw, s, e, trace, found) && NeedsCache(gw, s, e) && 0 < k < |trace|
    ensures Reaches(gw.hash, trace[k - 1].after, trace[k].before)
  {
    ChainParts(gw, s, FirstLock(s, e), trace, Stage(s, e, trace, found, |trace| + 1), k - 1);
  }

  lemma NextStage(gw: Gateway, c: System, id: nat, e: Event, trace: seq<Access>, found: Option<Found>, k: nat)
    requires id in c.agents && HandledAs(gw, c.agents[id].s, e, trace, found) && NeedsCache(gw, c.agents[id].s, e)
    requires c.agents[id].lock == Unlocked && e.found.None? && Enabled(c.agents[id].s, e)
    requires trace != [] && Reaches(gw.hash, c.cache, trace[0].before)
    requires k <= |trace|
    ensures
      var b := BeforeStage(gw, c, id, e, trace, found, k);
      LeadsOn(gw, b, ActionFor(id, e, b.agents[id].lock), BeforeStage(gw, c, id, e, trace, found, k + 1))
  {
    var b := BeforeStage(gw, c, id, e, trace, found, k);
    HandlerIsSystemSteps(gw, c.agents[id].s, e, trace, found, b, id, k);
    if 0 < k < |trace| {
      GapsAreOthers(gw, c.agents[id].s, e, trace, found, k);
    }
    OthersComeBetween(gw, c, id, e, trace, found, k);
  }

  /**
   * The handler as a whole: from Begin, through every access, to Finish, one path of systems in which its
   * steps are the system's and only steps of others on the cache come in between.
   */
  lemma HandlerIsOnePath(gw: Gateway, c: System, id: nat, e: Event, trace: seq<Access>, found: Option<Found>)
    requires id in c.agents && HandledAs(gw, c.agents[id].s, e, trace, found) && NeedsCache(gw, c.agents[id].s, e)
    requires c.agents[id].lock == Unlocked && e.found.None? && Enabled(c.agents[id].s, e)
    requires trace != [] && Reaches(gw.hash, c.cache, trace[0].before)
    ensures BeforeStage(gw, c, id, e, trace, found, 0) == c
    ensures forall k :: 0 <= k <= |trace| ==>
              var b := BeforeStage(gw, c, id, e, trace, found, k);
              LeadsOn(gw, b, ActionFor(id, e, b.agents[id].lock), BeforeStage(gw, c, id, e, trace, found, k + 1))
    ensures
      var b := BeforeStage(gw, c, id, e, trace, found, |trace| + 1);
      StreamerMoves(gw, b, id, e.(found := found), AfterStage(gw, b, id, e, trace, found, |trace| + 1))
      && SystemStep(gw, b, Finish(id), AfterStage(gw, b, id, e, trace, found, |trace| + 1))
  {
    forall k | 0 <= k <= |trace|
      ensures var b := BeforeStage(gw, c, id, e, trace, found, k);
              LeadsOn(gw, b, ActionFor(id, e, b.agents[id].lock), BeforeStage(gw, c, id, e, trace, found, k + 1))
    {
      NextStage(gw, c, id, e, trace, found, k);
    }
    var b := BeforeStage(gw, c, id, e, trace, found, |trace| + 1);
    HandlerIsSystemSteps(gw, c.agents[id].s, e, trace, found, b, id, |trace| + 1);
  }

  /** Everything else is a single step: other reads, timeouts, chunks and peeks. */
  lemma OtherEventsAreOneStep(gw: Gateway, c: System, id: nat, e: Event)
    requires id in c.agents && c.agents[id].lock == Unlocked && Enabled(c.agents[id].s, e)
    requires !NeedsCache(gw, c.agents[id].s, e)
    ensures
      var a := c.agents[id];
      var next := Next(gw, a.s, e);
      SystemStep(gw, c, Local(id, e), c.(agents := c.agents[id := Agent(a.backend, next, Unlocked)],
                                         active := Uncount(c.active, a.backend, a.s, next)))
    ensures e.ReadDone? ==> forall trace, found :: HandledAs(gw, c.agents[id].s, e, trace, found) ==> trace == [] && found == None
  {
  }
}
