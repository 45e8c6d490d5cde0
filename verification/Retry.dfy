/** HTTP.cpp: choosing a backend, forwarding to it, and trying again when it refuses. */
module Retry {
  import opened Strings
  import opened Http
  import opened Deny
  import opened Backends
  import opened StreamerMachine
  import opened StreamerInvariant
  import opened GatewayTheorems
  import opened StreamerObject
  import opened ResponseCache

  datatype ProxyStatus =
    | PROXY_SUCCESS
    | PROXY_FAIL_REMOTE_HOST
    | PROXY_FAIL_SERVICE
    | PROXY_FAIL_REMOTE_DENIED
    | PROXY_INTERNAL_ERROR

  datatype Service = Service(backend: Option<Backend>, uri: string, definesPrefix: bool)

  datatype ClientRequest = ClientRequest(resource: string, headers: map<string, string>, clientIP: string)

  /** The client's response: its status, and the backend it will be streamed from. */
  datatype Reply = Reply(status: int, origin: Option<Backend>)

  /**
   * What happens to one attempt: the service found, whether its backend is alive, what it sends first, and
   * whether the streamer still counts as a request of the backend when the peek returns.
   */
  datatype Chance = Chance(service: Option<Service>, alive: bool, peek: Option<Bytes>, busy: bool)

  datatype Outcome = Outcome(status: ProxyStatus, services: set<Service>, reply: Reply, contacted: Option<Backend>)

  predicate Conditional(request: ClientRequest) {
    "If-None-Match" in request.headers || "If-Modified-Since" in request.headers
  }

  // ---------------------------------------------------------------- one attempt

  function HeaderOr(request: ClientRequest, name: string, default: string): string {
    if name in request.headers then request.headers[name] else default
  }

  /** The request as the backend gets it: for another resource, and marked as having come this way. */
  function ForwardedRequest(request: ClientRequest, resource: string, encrypted: bool): ClientRequest {
    request.(
      resource := resource,
      headers := request.headers
        ["X-Forwarded-For" := HeaderOr(request, "X-Forwarded-For", request.clientIP)]
        ["Connection" := "close"]
        ["X-Forwarded-Proto" := HeaderOr(request, "X-Forwarded-Proto", if encrypted then "https" else "http")])
  }

  /** `sent` is the client's request for `resource`, with the origin and protocol of its first hop, over a connection to be closed. */
  predicate SentOn(request: ClientRequest, resource: string, encrypted: bool, sent: ClientRequest) {
    && sent.resource == resource && sent.clientIP == request.clientIP
    && "X-Forwarded-For" in sent.headers && "Connection" in sent.headers && "X-Forwarded-Proto" in sent.headers
    && sent.headers["X-Forwarded-For"] ==
       (if "X-Forwarded-For" in request.headers then request.headers["X-Forwarded-For"] else request.clientIP)
    && sent.headers["Connection"] == "close"
    && sent.headers["X-Forwarded-Proto"] ==
       (if "X-Forwarded-Proto" in request.headers then request.headers["X-Forwarded-Proto"]
        else if encrypted then "https" else "http")
  }

  ghost predicate OtherHeadersKept(request: ClientRequest, sent: ClientRequest) {
    forall name :: name !in ["X-Forwarded-For", "Connection", "X-Forwarded-Proto"] ==>
      (name in sent.headers <==> name in request.headers)
      && (name in request.headers ==> sent.headers[name] == request.headers[name])
  }

  /** Origin and protocol are those of the first hop, however often the request is passed on, and no other header changes. */
  lemma ForwardingKeepsTheOrigin(request: ClientRequest, resource: string, encrypted: bool, next: string, again: bool)
    ensures
      var once := ForwardedRequest(request, resource, encrypted);
      var twice := ForwardedRequest(once, next, again);
      && SentOn(request, resource, encrypted, once) && OtherHeadersKept(request, once)
      && twice == once.(resource := next) && (Conditional(once) <==> Conditional(request))
  {
    var once := ForwardedRequest(request, resource, encrypted);
    assert ForwardedRequest(once, next, again).headers == once.headers;
  }

  /** The resource to ask the backend for: the requested one, without the backend's name in front. */
  function RouteResource(resource: string, hostName: string, service: Service): Option<string> {
    var hostPrefix := "/" + hostName;
    if service.definesPrefix then
      var r := if service.uri <= resource then resource
               else if hostPrefix + "/" <= resource then resource[|hostPrefix|..]
               else resource;
      if service.uri <= r then Some(r) else None
    else if resource == service.uri then Some(resource)
    else if resource == hostPrefix + service.uri then Some(service.uri)
    else None
  }

  /** A routed resource belongs to the service, and only the backend's own name may have been removed. */
  lemma RoutedResource(resource: string, hostName: string, service: Service)
    ensures
      var r := RouteResource(resource, hostName, service);
      r.Some? ==>
        && service.uri <= r.value && (service.definesPrefix || r.value == service.uri)
        && (resource == r.value || resource == "/" + hostName + r.value)
    ensures service.definesPrefix ==>
              (RouteResource(resource, hostName, service).Some? <==>
               service.uri <= resource || ("/" + hostName + "/" <= resource && "/" + hostName + service.uri <= resource))
    ensures !service.definesPrefix ==>
              (RouteResource(resource, hostName, service).Some? <==>
               resource == service.uri || resource == "/" + hostName + service.uri)
    ensures service.uri <= resource && (service.definesPrefix || resource == service.uri) ==>
              RouteResource(resource, hostName, service) == Some(resource)
  {
  }

  /** removeBackend: every service of that host and port goes. */
  function WithoutBackend(services: set<Service>, backend: Backend): set<Service> {
    set s | s in services && s.backend != Some(backend)
  }

  /** HTTPForward, by what the backend's first bytes turn out to be. */
  function ForwardStatus(parse: Parser, peek: Option<Bytes>): ProxyStatus {
    match peek
    case None => PROXY_FAIL_REMOTE_HOST
    case Some(prefix) =>
      if ParseBackendDenyReason(parse, prefix) != NONE then PROXY_FAIL_REMOTE_DENIED else PROXY_SUCCESS
  }

  function NoService(request: ClientRequest, services: set<Service>, reply: Reply): Outcome {
    if Conditional(request) then Outcome(PROXY_SUCCESS, services, reply.(status := NOT_MODIFIED), None)
    else Outcome(PROXY_FAIL_SERVICE, services, reply.(status := NOT_FOUND), None)
  }

  function DeadBackend(request: ClientRequest, services: set<Service>, reply: Reply, backend: Backend): Outcome {
    var left := WithoutBackend(services, backend);
    if Conditional(request) then Outcome(PROXY_SUCCESS, left, reply.(status := NOT_MODIFIED), None)
    else Outcome(PROXY_FAIL_REMOTE_HOST, left, reply, None)
  }

  function Forwarded(parse: Parser, services: set<Service>, reply: Reply, backend: Backend, peek: Option<Bytes>): Outcome {
    var status := ForwardStatus(parse, peek);
    if status == PROXY_SUCCESS then Outcome(status, services, Reply(OK, Some(backend)), Some(backend))
    else Outcome(status, WithoutBackend(services, backend), reply, Some(backend))
  }

  function TransportOutcome(parse: Parser, services: set<Service>, request: ClientRequest, reply: Reply, chance: Chance): Outcome {
    if chance.service.None? then NoService(request, services, reply)
    else if chance.service.value.backend.None? then
      Outcome(PROXY_FAIL_SERVICE, services, reply.(status := BAD_GATEWAY), None)
    else
      var backend := chance.service.value.backend.value;
      if !chance.alive then DeadBackend(request, services, reply, backend)
      else if RouteResource(request.resource, backend.name, chance.service.value).None? then
        Outcome(PROXY_INTERNAL_ERROR, services, reply, None)
      else Forwarded(parse, services, reply, backend, chance.peek)
  }

  /** What the client is told, and who was contacted, case by case. */
  predicate AnsweredAs(parse: Parser, request: ClientRequest, before: Reply, chance: Chance, status: ProxyStatus, after: Reply,
                       contacted: Option<Backend>)
  {
    var cached := "If-None-Match" in request.headers || "If-Modified-Since" in request.headers;
    match chance.service
    case None =>
      contacted.None? && status == (if cached then PROXY_SUCCESS else PROXY_FAIL_SERVICE)
      && after == before.(status := if cached then 304 else 404)
    case Some(Service(None, _, _)) =>
      contacted.None? && status == PROXY_FAIL_SERVICE && after == before.(status := 502)
    case Some(service) =>
      if !chance.alive then
        contacted.None? && status == (if cached then PROXY_SUCCESS else PROXY_FAIL_REMOTE_HOST)
        && after == if cached then before.(status := 304) else before
      else if RouteResource(request.resource, service.backend.value.name, service).None? then
        contacted.None? && status == PROXY_INTERNAL_ERROR && after == before
      else
        contacted == service.backend && ContactedAs(parse, before, chance.peek, status, after, contacted)
  }

  /** A backend that sent nothing, or refuses, leaves the reply alone; any other is where the reply will come from. */
  predicate ContactedAs(parse: Parser, before: Reply, peek: Option<Bytes>, status: ProxyStatus, after: Reply, contacted: Option<Backend>) {
    if peek.None? then status == PROXY_FAIL_REMOTE_HOST && after == before
    else if ParseBackendDenyReason(parse, peek.value) != NONE then status == PROXY_FAIL_REMOTE_DENIED && after == before
    else status == PROXY_SUCCESS && after == Reply(200, contacted)
  }

  /** The backends that an attempt finds dead or contacts in vain lose all their services, and nothing else is lost. */
  lemma AttemptMeaning(parse: Parser, services: set<Service>, request: ClientRequest, reply: Reply, chance: Chance)
    ensures
      var o := TransportOutcome(parse, services, request, reply, chance);
      && AnsweredAs(parse, request, reply, chance, o.status, o.reply, o.contacted)
      && forall s :: s in o.services <==> s in services && !(s.backend.Some? && Lost(chance, o, s.backend.value))
  {
  }

  /** The backend was dead, or contacted in vain. */
  predicate Lost(chance: Chance, o: Outcome, backend: Backend) {
    || (chance.service.Some? && chance.service.value.backend == Some(backend) && !chance.alive)
    || (o.contacted == Some(backend) && o.status != PROXY_SUCCESS)
  }

  /**
   * A client is told of success without a backend's help exactly if its copy may be as good as any: it
   * asked only for changes, and nobody could tell it of any.
   */
  lemma SuccessWithoutContact(parse: Parser, services: set<Service>, request: ClientRequest, reply: Reply, chance: Chance)
    ensures
      var o := TransportOutcome(parse, services, request, reply, chance);
      o.contacted.None? && o.status == PROXY_SUCCESS <==>
        && ("If-None-Match" in request.headers || "If-Modified-Since" in request.headers)
        && (chance.service.None? || (chance.service.value.backend.Some? && !chance.alive))
    ensures
      var o := TransportOutcome(parse, services, request, reply, chance);
      o.status == PROXY_SUCCESS ==> o.reply.status == if o.contacted.None? then 304 else 200
  {
  }

  /** A refusal comes only from the contacted backend, which is forgotten, and leaves the reply alone. */
  lemma RefusalIsClean(parse: Parser, services: set<Service>, request: ClientRequest, reply: Reply, chance: Chance)
    ensures
      var o := TransportOutcome(parse, services, request, reply, chance);
      o.status == PROXY_FAIL_REMOTE_DENIED <==>
        && o.contacted.Some? && chance.peek.Some?
        && ParseBackendDenyReason(parse, chance.peek.value) != NONE
    ensures
      var o := TransportOutcome(parse, services, request, reply, chance);
      o.status == PROXY_FAIL_REMOTE_DENIED ==> o.reply == reply && o.services == WithoutBackend(services, o.contacted.value)
  {
  }

  /** The backend that this attempt removes, from the services and from the counts. */
  function Retired(parse: Parser, request: ClientRequest, chance: Chance): Option<Backend> {
    if chance.service.None? || chance.service.value.backend.None? then None
    else
      var service := chance.service.value;
      if !chance.alive then service.backend
      else if RouteResource(request.resource, service.backend.value.name, service).None? then None
      else if ForwardStatus(parse, chance.peek) != PROXY_SUCCESS then service.backend
      else None
  }

  /** A backend is removed exactly if it is dead or was contacted in vain. */
  lemma RetiredIsForgotten(parse: Parser, services: set<Service>, request: ClientRequest, reply: Reply, chance: Chance)
    ensures
      var o, b := TransportOutcome(parse, services, request, reply, chance), Retired(parse, request, chance);
      && o.services == (if b.Some? then WithoutBackend(services, b.value) else services)
      && (o.contacted.Some? ==> (b == o.contacted <==> o.status != PROXY_SUCCESS) && (b.None? || b == o.contacted))
      && forall x :: b == Some(x) <==> Lost(chance, o, x)
  {
  }

  /** The request counts after an attempt: none for a removed backend, and one more for one that is streaming still. */
  function CountsAfter(parse: Parser, active: multiset<Backend>, request: ClientRequest, chance: Chance, o: Outcome): multiset<Backend> {
    var b := Retired(parse, request, chance);
    if b.Some? then active[b.value := 0]
    else if o.contacted.Some? && chance.busy then active + multiset{o.contacted.value}
    else active
  }

  /** A lost backend has no request left, one that is streaming still has one more, and no other count changes. */
  lemma CountsMeaning(parse: Parser, services: set<Service>, active: multiset<Backend>, request: ClientRequest, reply: Reply,
                      chance: Chance, x: Backend)
    ensures
      var o := TransportOutcome(parse, services, request, reply, chance);
      CountsAfter(parse, active, request, chance, o)[x] ==
        if Lost(chance, o, x) then 0
        else if o.contacted == Some(x) && chance.busy then active[x] + 1
        else active[x]
  {
    RetiredIsForgotten(parse, services, request, reply, chance);
  }

  // ---------------------------------------------------------------- the loop

  datatype Attempt = Attempt(before: set<Service>, chance: Chance, outcome: Outcome)

  function Registered(services: set<Service>): set<Backend> {
    set s | s in services && s.backend.Some? :: s.backend.value
  }

  predicate Possible(services: set<Service>, chance: Chance) {
    chance.service.Some? ==> chance.service.value in services
  }

  ghost predicate Attempted(parse: Parser, request: ClientRequest, reply: Reply, a: Attempt) {
    Possible(a.before, a.chance) && a.outcome == TransportOutcome(parse, a.before, request, reply, a.chance)
  }

  predicate RetriedAt(trace: seq<Attempt>, i: nat)
    requires 0 < i < |trace|
  {
    trace[i - 1].outcome.status == PROXY_FAIL_REMOTE_DENIED && trace[i].before == trace[i - 1].outcome.services
  }

  /** Attempts one after the other: each uses what the one before left, and only a refusal is followed by another. */
  ghost predicate Attempts(parse: Parser, services: set<Service>, request: ClientRequest, reply: Reply, trace: seq<Attempt>) {
    && (trace != [] ==> trace[0].before == services)
    && (forall i :: 0 <= i < |trace| ==> Attempted(parse, request, reply, trace[i]))
    && (forall i :: 0 < i < |trace| ==> RetriedAt(trace, i))
  }

  lemma OneMoreAttempt(parse: Parser, services: set<Service>, request: ClientRequest, reply: Reply,
                       trace: seq<Attempt>, a: Attempt)
    requires Attempts(parse, services, request, reply, trace) && Attempted(parse, request, reply, a)
    requires if trace == [] then a.before == services
             else trace[|trace| - 1].outcome.status == PROXY_FAIL_REMOTE_DENIED
                  && a.before == trace[|trace| - 1].outcome.services
    ensures Attempts(parse, services, request, reply, trace + [a])
  {
    var longer := trace + [a];
    forall i | 0 < i < |longer|
      ensures RetriedAt(longer, i)
    {
      assert i < |trace| ==> RetriedAt(trace, i);
    }
  }

  lemma RefusalForgets(parse: Parser, request: ClientRequest, reply: Reply, a: Attempt)
    requires Attempted(parse, request, reply, a)
    ensures a.outcome.contacted.Some? ==> a.outcome.contacted.value in Registered(a.before)
    ensures a.outcome.status == PROXY_FAIL_REMOTE_DENIED ==>
              && a.outcome.contacted.Some? && a.outcome.reply == reply
              && Registered(a.outcome.services) == Registered(a.before) - {a.outcome.contacted.value}
  {
  }

  /** After `i` refusals that many backends are gone, and later attempts know only the others. */
  lemma {:induction false} BackendsRunOut(parse: Parser, services: set<Service>, request: ClientRequest, reply: Reply,
                                          trace: seq<Attempt>, i: nat, j: nat)
    requires Attempts(parse, services, request, reply, trace) && i <= j < |trace|
    ensures Registered(trace[j].before) <= Registered(trace[i].before)
    ensures |Registered(trace[j].before)| + j == |Registered(services)|
    ensures i < j ==> trace[i].outcome.contacted.Some?
                      && trace[i].outcome.contacted.value !in Registered(trace[j].before)
    decreases j
  {
    if j > 0 {
      BackendsRunOut(parse, services, request, reply, trace, if i < j then i else j - 1, j - 1);
      RefusalForgets(parse, request, reply, trace[j - 1]);
      assert RetriedAt(trace, j);
    }
  }

  /**
   * At most one attempt more than there are backends; no backend is contacted twice; and every
   * attempt but the last was refused and left the client's response as it was.
   */
  lemma RetriesAreBounded(parse: Parser, services: set<Service>, request: ClientRequest, reply: Reply, trace: seq<Attempt>)
    requires Attempts(parse, services, request, reply, trace)
    ensures |trace| <= |Registered(services)| + 1
    ensures forall i, j :: 0 <= i < j < |trace| && trace[j].outcome.contacted.Some? ==>
              trace[i].outcome.contacted != trace[j].outcome.contacted
    ensures forall i :: 0 <= i < |trace| && trace[i].outcome.contacted.Some? ==>
              trace[i].outcome.contacted.value in Registered(services)
    ensures forall i :: 0 <= i < |trace| - 1 ==>
              trace[i].outcome.status == PROXY_FAIL_REMOTE_DENIED && trace[i].outcome.reply == reply
  {
    if trace != [] {
      BackendsRunOut(parse, services, request, reply, trace, 0, |trace| - 1);
    }
    forall i, j | 0 <= i < j < |trace| && trace[j].outcome.contacted.Some?
      ensures trace[i].outcome.contacted != trace[j].outcome.contacted
    {
      BackendsRunOut(parse, services, request, reply, trace, i, j);
      RefusalForgets(parse, request, reply, trace[j]);
    }
    forall i | 0 <= i < |trace| && trace[i].outcome.contacted.Some?
      ensures trace[i].outcome.contacted.value in Registered(services)
    {
      BackendsRunOut(parse, services, request, reply, trace, 0, i);
      RefusalForgets(parse, request, reply, trace[i]);
    }
    forall i | 0 <= i < |trace| - 1
      ensures trace[i].outcome.status == PROXY_FAIL_REMOTE_DENIED && trace[i].outcome.reply == reply
    {
      assert RetriedAt(trace, i + 1);
      RefusalForgets(parse, request, reply, trace[i]);
    }
  }

  /** The backend contacted in this attempt is no longer registered. */
  predicate Gone(services: set<Service>, a: Attempt) {
    a.outcome.contacted.Some? && a.outcome.contacted.value !in Registered(services)
  }

  /** No request of the backend contacted in this attempt is counted. */
  predicate NoneLeft(active: multiset<Backend>, a: Attempt) {
    a.outcome.contacted.Some? && active[a.outcome.contacted.value] == 0
  }

  lemma RefusedIsGone(parse: Parser, request: ClientRequest, reply: Reply, active: multiset<Backend>, a: Attempt)
    requires Attempted(parse, request, reply, a) && a.outcome.status == PROXY_FAIL_REMOTE_DENIED
    ensures Gone(a.outcome.services, a) && NoneLeft(CountsAfter(parse, active, request, a.chance, a.outcome), a)
  {
    RefusalForgets(parse, request, reply, a);
    RetiredIsForgotten(parse, a.before, request, reply, a.chance);
  }

  /** A backend once forgotten is not contacted by a later attempt, and so neither registered nor counted again. */
  lemma GoneStaysGone(parse: Parser, request: ClientRequest, reply: Reply, active: multiset<Backend>, earlier: Attempt, a: Attempt)
    requires Attempted(parse, request, reply, a) && Gone(a.before, earlier) && NoneLeft(active, earlier)
    ensures Gone(a.outcome.services, earlier) && NoneLeft(CountsAfter(parse, active, request, a.chance, a.outcome), earlier)
  {
    RefusalForgets(parse, request, reply, a);
    RetiredIsForgotten(parse, a.before, request, reply, a.chance);
  }

  predicate AllGone(services: set<Service>, active: multiset<Backend>, trace: seq<Attempt>) {
    forall i :: 0 <= i < |trace| && trace[i].outcome.status == PROXY_FAIL_REMOTE_DENIED ==>
      Gone(services, trace[i]) && NoneLeft(active, trace[i])
  }

  lemma OneMoreGone(parse: Parser, request: ClientRequest, reply: Reply, active: multiset<Backend>,
                    trace: seq<Attempt>, a: Attempt)
    requires Attempted(parse, request, reply, a) && AllGone(a.before, active, trace)
    ensures AllGone(a.outcome.services, CountsAfter(parse, active, request, a.chance, a.outcome), trace + [a])
  {
    forall i | 0 <= i < |trace| && trace[i].outcome.status == PROXY_FAIL_REMOTE_DENIED
      ensures var active' := CountsAfter(parse, active, request, a.chance, a.outcome);
              Gone(a.outcome.services, trace[i]) && NoneLeft(active', trace[i])
    {
      GoneStaysGone(parse, request, reply, active, trace[i], a);
    }
    if a.outcome.status == PROXY_FAIL_REMOTE_DENIED {
      RefusedIsGone(parse, request, reply, active, a);
    }
  }

  function Header(request: ClientRequest, name: string): Option<string> {
    if name in request.headers then Some(request.headers[name]) else None
  }

  /** What a streamer looks at in the request it is given. */
  function StreamRequest(request: ClientRequest): Request {
    Request("X-Request-ETag" in request.headers, Header(request, "Accept-Encoding"), Header(request, "If-Modified-Since"),
            Header(request, "If-Match"), Header(request, "If-None-Match"), request.resource)
  }

  const PEEK_LENGTH := 4096

  /** `r` looks at what was sent, and no longer asks for the ETag alone. */
  predicate AsksFor(r: Request, sent: ClientRequest) {
    && !r.asksForEtag && r.rest == sent.resource
    && r.acceptEncoding == (if "Accept-Encoding" in sent.headers then Some(sent.headers["Accept-Encoding"]) else None)
    && r.ifModifiedSince == (if "If-Modified-Since" in sent.headers then Some(sent.headers["If-Modified-Since"]) else None)
    && r.ifMatch == (if "If-Match" in sent.headers then Some(sent.headers["If-Match"]) else None)
    && r.ifNoneMatch == (if "If-None-Match" in sent.headers then Some(sent.headers["If-None-Match"]) else None)
  }

  lemma StreamRequestAsks(sent: ClientRequest)
    ensures AsksFor(StreamRequest(sent).(asksForEtag := false), sent)
  {
  }

  class HttpPlugin {
    const gw: Gateway
    const cache: ResponseCache
    const reactor: Reactor
    const encrypted: bool
    var services: set<Service>
    var reply: Reply
    var content: LowLatencyGatewayStreamer?
    var connections: multiset<Backend>

    constructor (gw: Gateway, cache: ResponseCache, reactor: Reactor, encrypted: bool, services: set<Service>, reply: Reply)
      ensures this.gw == gw && this.cache == cache && this.reactor == reactor && this.encrypted == encrypted
      ensures this.services == services && this.reply == reply && content == null && connections == multiset{}
    {
      this.gw, this.cache, this.reactor, this.encrypted := gw, cache, reactor, encrypted;
      this.services, this.reply, content, connections := services, reply, null, multiset{};
    }

    ghost predicate CacheOk()
      reads cache
    {
      cache.Valid() && cache.hash == gw.hash && StableParser(gw.parse)
    }

    method RemoveBackend(backend: Backend)
      modifies this`services, reactor
      ensures services == WithoutBackend(old(services), backend)
      ensures reactor.active == old(reactor.active)[backend := 0]
    {
      services := set s | s in services && s.backend != Some(backend);
      reactor.RemoveBackendRequests(backend);
    }

    /** Bookkeeping of the throttle: a connection has been made to the backend. */
    method SignalBackendConnection(backend: Backend)
      modifies this`connections
      ensures connections == old(connections) + multiset{backend}
    {
      connections := connections + multiset{backend};
    }

    /** A streamer that is running, has handed out nothing yet, and shows `peek` when peeked at. */
    ghost predicate Shows(streamer: LowLatencyGatewayStreamer, peek: Bytes)
      reads streamer, streamer.cache
    {
      && streamer.gw == gw && streamer.cache == cache && streamer.Alive()
      && streamer.delivered == "" && streamer.consumer == Ready && peek == Peeked(streamer.View(), 4096)
    }

    /** The client's response is a stream of what this backend makes of this request. */
    ghost predicate StreamsFrom(host: Backend, sent: ClientRequest)
      reads this`content, content
    {
      content != null && content.backend == host && AsksFor(content.originalRequest, sent)
    }

    /** The client's response is a stream that shows this. */
    ghost predicate Streams(peek: Option<Bytes>)
      reads this`content, content, if content != null then {content.cache} else {}
    {
      content != null && peek.Some? && Shows(content, peek.value)
    }

    /**
     * `service` is what getService gives, `alive` what queryBackendAlive says of its backend, and `net` how
     * connecting to it and sending the request ends; `chance` adds what the backend is seen to send.
     */
    method Transport(request: ClientRequest, service: Option<Service>, alive: bool, net: Connection)
      returns (status: ProxyStatus, contacted: Option<Backend>, sent: Option<ClientRequest>, chance: Chance)
      requires CacheOk()
      modifies this, reactor, cache
      ensures CacheOk()
      ensures chance.service == service && chance.alive == alive
      ensures Outcome(status, services, reply, contacted) ==
              TransportOutcome(gw.parse, old(services), request, old(reply), chance)
      ensures reactor.active ==
              CountsAfter(gw.parse, old(reactor.active), request, chance, Outcome(status, services, reply, contacted))
      ensures connections == old(connections) +
              if contacted.Some? && status == PROXY_SUCCESS then multiset{contacted.value} else multiset{}
      ensures contacted.Some? ==>
              service.Some? &&
              var routed := RouteResource(request.resource, contacted.value.name, service.value);
              routed.Some? && sent.Some? && SentOn(request, routed.value, encrypted, sent.value)
              && OtherHeadersKept(request, sent.value)
      ensures contacted.None? ==> sent.None?
      ensures contacted.Some? ==> (chance.peek.None? <==> net != Sent)
      ensures AnsweredAs(gw.parse, request, old(reply), chance, status, reply, contacted)
      ensures contacted.Some? && status == PROXY_SUCCESS ==>
                Streams(chance.peek) && StreamsFrom(contacted.value, sent.value)
    {
      contacted, sent, chance := None, None, Chance(service, alive, None, false);
      if service.None? {
        if Conditional(request) {
          reply := reply.(status := NOT_MODIFIED);
          return PROXY_SUCCESS, None, None, chance;
        }
        reply := reply.(status := NOT_FOUND);
        return PROXY_FAIL_SERVICE, None, None, chance;
      }
      if service.value.backend.None? {
        reply := reply.(status := BAD_GATEWAY);
        return PROXY_FAIL_SERVICE, None, None, chance;
      }
      var host := service.value.backend.value;
      if !alive {
        RemoveBackend(host);
        if Conditional(request) {
          reply := reply.(status := NOT_MODIFIED);
          return PROXY_SUCCESS, None, None, chance;
        }
        return PROXY_FAIL_REMOTE_HOST, None, None, chance;
      }
      var resource := RouteResource(request.resource, host.name, service.value);
      if resource.None? {
        return PROXY_INTERNAL_ERROR, None, None, chance;
      }
      var forwarded, peek, busy;
      status, forwarded, peek, busy := ForwardOrRetire(request, host, resource.value, net);
      contacted, sent, chance := Some(host), Some(forwarded), Chance(service, alive, peek, busy);
      assert AnsweredAs(gw.parse, request, old(reply), chance, status, reply, contacted);
    }

    /** The backend is forwarded to, and removed if that was in vain. */
    method ForwardOrRetire(request: ClientRequest, host: Backend, resource: string, net: Connection)
      returns (status: ProxyStatus, forwarded: ClientRequest, peek: Option<Bytes>, busy: bool)
      requires CacheOk()
      modifies this, reactor, cache
      ensures CacheOk() && (peek.None? <==> net != Sent)
      ensures status == ForwardStatus(gw.parse, peek) && forwarded == ForwardedRequest(request, resource, encrypted)
      ensures Outcome(status, services, reply, Some(host)) == Forwarded(gw.parse, old(services), old(reply), host, peek)
      ensures reactor.active ==
              if status != PROXY_SUCCESS then old(reactor.active)[host := 0]
              else if busy then old(reactor.active) + multiset{host}
              else old(reactor.active)
      ensures connections == old(connections) + if status == PROXY_SUCCESS then multiset{host} else multiset{}
      ensures SentOn(request, resource, encrypted, forwarded) && OtherHeadersKept(request, forwarded)
      ensures status == PROXY_SUCCESS ==> Streams(peek) && StreamsFrom(host, forwarded)
    {
      status, forwarded, peek, busy := HTTPForward(request, host, resource, net);
      KeepOrRetire(host, status, peek, forwarded);
    }

    method KeepOrRetire(host: Backend, status: ProxyStatus, ghost peek: Option<Bytes>, ghost sent: ClientRequest)
      requires CacheOk() && (status == PROXY_SUCCESS ==> Streams(peek) && StreamsFrom(host, sent))
      modifies this`services, this`connections, reactor
      ensures CacheOk() && (status == PROXY_SUCCESS ==> Streams(peek) && StreamsFrom(host, sent))
      ensures services == if status == PROXY_SUCCESS then old(services) else WithoutBackend(old(services), host)
      ensures reactor.active == if status == PROXY_SUCCESS then old(reactor.active) else old(reactor.active)[host := 0]
      ensures connections == old(connections) + if status == PROXY_SUCCESS then multiset{host} else multiset{}
    {
      if status != PROXY_SUCCESS {
        RemoveBackend(host);
      } else {
        SignalBackendConnection(host);
      }
    }

    method MarkForwarded(request: ClientRequest, resource: string) returns (forwarded: ClientRequest)
      ensures forwarded == ForwardedRequest(request, resource, encrypted)
      ensures SentOn(request, resource, encrypted, forwarded) && OtherHeadersKept(request, forwarded)
    {
      var headers := request.headers;
      headers := headers["X-Forwarded-For" := HeaderOr(request, "X-Forwarded-For", request.clientIP)];
      headers := headers["Connection" := "close"];
      if "X-Forwarded-Proto" !in headers {
        headers := headers["X-Forwarded-Proto" := if encrypted then "https" else "http"];
      }
      assert headers == ForwardedRequest(request, resource, encrypted).headers;
      forwarded := request.(resource := resource, headers := headers);
      ForwardingKeepsTheOrigin(request, resource, encrypted, resource, encrypted);
    }

    /** A new streamer sends the request, and is destroyed if it cannot. */
    method Open(host: Backend, request: Request, net: Connection) returns (streamer: LowLatencyGatewayStreamer, success: bool)
      requires CacheOk()
      modifies reactor
      ensures CacheOk() && fresh(streamer) && success == (net == Sent)
      ensures streamer.gw == gw && streamer.cache == cache && streamer.reactor == reactor && streamer.backend == host
      ensures success ==> streamer.Alive() && streamer.delivered == "" && streamer.consumer == Ready && !streamer.isFinishing
      ensures success ==> streamer.originalRequest == request.(asksForEtag := false)
      ensures reactor.active == if success then old(reactor.active) + multiset{host} else old(reactor.active)
    {
      streamer := new LowLatencyGatewayStreamer(gw, cache, reactor, host, request);
      var written;
      success, written := streamer.SendAndListen(net);
      if !success {
        streamer.Destroy();
      } else {
        StartHasInv(gw, request, Sent);
        StartFollows(gw, request, Sent);
      }
    }

    /** A streamer that could send the request is peeked at while its reads go on. */
    method Contact(host: Backend, sent: ClientRequest, net: Connection)
      returns (streamer: LowLatencyGatewayStreamer, peek: Option<Bytes>)
      requires CacheOk()
      modifies reactor, cache
      ensures CacheOk() && fresh(streamer) && (peek.None? <==> net != Sent)
      ensures peek.Some? ==> Shows(streamer, peek.value)
      ensures streamer.backend == host && (peek.Some? ==> AsksFor(streamer.originalRequest, sent))
      ensures reactor.active == if peek.Some? && !streamer.isFinishing then old(reactor.active) + multiset{host}
                                else old(reactor.active)
    {
      var success;
      streamer, success := Open(host, StreamRequest(sent), net);
      StreamRequestAsks(sent);
      peek := None;
      if success {
        var shown := streamer.Peek(PEEK_LENGTH);
        peek := Some(shown);
      }
    }

    /** If the first bytes are no refusal, the client's response is to be a stream of what this backend sends. */
    method Judge(host: Backend, streamer: LowLatencyGatewayStreamer, peek: Option<Bytes>, ghost sent: ClientRequest)
      returns (status: ProxyStatus)
      requires peek.Some? ==> Shows(streamer, peek.value)
      requires streamer.backend == host && (peek.Some? ==> AsksFor(streamer.originalRequest, sent))
      modifies this`reply, this`content
      ensures status == ForwardStatus(gw.parse, peek)
      ensures reply == if status == PROXY_SUCCESS then Reply(OK, Some(host)) else old(reply)
      ensures status == PROXY_SUCCESS ==> Streams(peek) && StreamsFrom(host, sent)
    {
      if peek.None? {
        return PROXY_FAIL_REMOTE_HOST;
      }
      if ParseBackendDenyReason(gw.parse, peek.value) != NONE {
        return PROXY_FAIL_REMOTE_DENIED;
      }
      reply := Reply(OK, Some(host));
      content := streamer;
      return PROXY_SUCCESS;
    }

    /** The streamer counts as a request of its backend from its creation until it is finishing or destroyed. */
    method HTTPForward(request: ClientRequest, host: Backend, resource: string, net: Connection)
      returns (status: ProxyStatus, forwarded: ClientRequest, peek: Option<Bytes>, busy: bool)
      requires CacheOk()
      modifies this`reply, this`content, reactor, cache
      ensures CacheOk() && (peek.None? <==> net != Sent)
      ensures status == ForwardStatus(gw.parse, peek)
      ensures forwarded == ForwardedRequest(request, resource, encrypted)
      ensures SentOn(request, resource, encrypted, forwarded) && OtherHeadersKept(request, forwarded)
      ensures reply == if status == PROXY_SUCCESS then Reply(OK, Some(host)) else old(reply)
      ensures status == PROXY_SUCCESS ==> Streams(peek) && StreamsFrom(host, forwarded)
      ensures reactor.active ==
              if peek.Some? && busy then old(reactor.active) + multiset{host} else old(reactor.active)
    {
      forwarded := MarkForwarded(request, resource);
      var streamer;
      streamer, peek := Contact(host, forwarded, net);
      busy := !streamer.isFinishing;
      status := Judge(host, streamer, peek, forwarded);
    }

    /** getService, queryBackendAlive and the network may answer anything, as long as the service is registered. */
    method AnyService() returns (service: Option<Service>, alive: bool, net: Connection)
      ensures service.Some? ==> service.value in services
    {
      service, alive, net := *, *, *;
      if service.Some? && service.value !in services {
        service := None;
      }
    }

    /** One attempt. */
    method TryOnce(request: ClientRequest) returns (status: ProxyStatus, ghost a: Attempt)
      requires CacheOk()
      modifies this, reactor, cache
      ensures CacheOk()
      ensures Attempted(gw.parse, request, old(reply), a) && a.before == old(services)
      ensures a.outcome == Outcome(status, services, reply, a.outcome.contacted)
      ensures reactor.active == CountsAfter(gw.parse, old(reactor.active), request, a.chance, a.outcome)
      ensures status == PROXY_SUCCESS && a.outcome.contacted.Some? ==> Streams(a.chance.peek)
    {
      var service, alive, net := AnyService();
      ghost var before := services;
      ghost var contacted, sent, chance;
      status, contacted, sent, chance := Transport(request, service, alive, net);
      a := Attempt(before, chance, Outcome(status, services, reply, contacted));
    }

    /**
     * The loop ends, and its attempts are as RetriesAreBounded describes them. If the last one reached a
     * backend, the client's response is a stream whose first bytes, when peeked at, were no refusal.
     */
    method RequestHandler(request: ClientRequest) returns (ghost trace: seq<Attempt>, status: ProxyStatus)
      requires CacheOk()
      modifies this, reactor, cache
      ensures CacheOk()
      ensures trace != [] && Attempts(gw.parse, old(services), request, old(reply), trace)
      ensures trace[|trace| - 1].outcome == Outcome(status, services, reply, trace[|trace| - 1].outcome.contacted)
      ensures status != PROXY_FAIL_REMOTE_DENIED
      ensures forall i :: 0 <= i < |trace| - 1 ==> NoneLeft(reactor.active, trace[i])
      ensures var last := trace[|trace| - 1];
              status == PROXY_SUCCESS && last.outcome.contacted.Some? ==>
                Streams(last.chance.peek) && ParseBackendDenyReason(gw.parse, last.chance.peek.value) == NONE
    {
      ghost var first, known := reply, services;
      ghost var last: Attempt;
      status, last := TryOnce(request);
      trace := [];
      assert AllGone(known, old(reactor.active), trace);
      FirstTry(gw.parse, known, request, first, old(reactor.active), last);
      trace := [last];
      while status == PROXY_FAIL_REMOTE_DENIED
        invariant CacheOk() && Tried(gw.parse, known, request, first, trace, last, reactor.active)
        invariant last.outcome == Outcome(status, services, reply, last.outcome.contacted)
        invariant status == PROXY_SUCCESS && last.outcome.contacted.Some? ==> Streams(last.chance.peek)
        decreases |Registered(services)|, status == PROXY_FAIL_REMOTE_DENIED
      {
        ghost var counted, earlier := reactor.active, last;
        RefusalForgets(gw.parse, request, first, last);
        status, last := TryOnce(request);
        NextTry(gw.parse, known, request, first, trace, earlier, counted, last);
        trace := trace + [last];
      }
      AllTried(gw.parse, known, request, first, trace, last, reactor.active);
    }
  }

  /** The attempts so far, the last of them, and the request counts they leave. */
  ghost predicate Tried(parse: Parser, services: set<Service>, request: ClientRequest, reply: Reply, trace: seq<Attempt>,
                        last: Attempt, active: multiset<Backend>)
  {
    && trace != [] && last == trace[|trace| - 1]
    && Attempts(parse, services, request, reply, trace) && AllGone(last.outcome.services, active, trace)
  }

  lemma FirstTry(parse: Parser, services: set<Service>, request: ClientRequest, reply: Reply, active: multiset<Backend>, a: Attempt)
    requires Attempted(parse, request, reply, a) && a.before == services
    ensures Tried(parse, services, request, reply, [a], a, CountsAfter(parse, active, request, a.chance, a.outcome))
  {
    OneMoreAttempt(parse, services, request, reply, [], a);
    OneMoreGone(parse, request, reply, active, [], a);
    assert [] + [a] == [a];
  }

  /** A refusal is followed by an attempt with one backend less. */
  lemma NextTry(parse: Parser, services: set<Service>, request: ClientRequest, reply: Reply, trace: seq<Attempt>,
                last: Attempt, active: multiset<Backend>, a: Attempt)
    requires Tried(parse, services, request, reply, trace, last, active)
    requires last.outcome.status == PROXY_FAIL_REMOTE_DENIED
    requires Attempted(parse, request, reply, a) && a.before == last.outcome.services
    ensures Tried(parse, services, request, reply, trace + [a], a, CountsAfter(parse, active, request, a.chance, a.outcome))
    ensures a.outcome.status == PROXY_FAIL_REMOTE_DENIED ==> |Registered(a.outcome.services)| < |Registered(a.before)|
    ensures Registered(a.outcome.services) <= Registered(a.before)
    ensures |Registered(a.outcome.services)| <= |Registered(a.before)|
  {
    OneMoreAttempt(parse, services, request, reply, trace, a);
    OneMoreGone(parse, request, reply, active, trace, a);
    RefusalForgets(parse, request, reply, a);
    RetiredIsForgotten(parse, a.before, request, reply, a.chance);
    SubsetIsSmaller(Registered(a.outcome.services), Registered(a.before));
  }

  lemma SubsetIsSmaller(a: set<Backend>, b: set<Backend>)
    requires a <= b
    ensures |a| <= |b|
  {
    assert b == a + (b - a);
  }

  lemma AllTried(parse: Parser, services: set<Service>, request: ClientRequest, reply: Reply, trace: seq<Attempt>,
                 last: Attempt, active: multiset<Backend>)
    requires Tried(parse, services, request, reply, trace, last, active)
    ensures forall i :: 0 <= i < |trace| - 1 ==> NoneLeft(active, trace[i])
    ensures last.outcome.status == PROXY_SUCCESS && last.outcome.contacted.Some? ==>
              last.chance.peek.Some? && ParseBackendDenyReason(parse, last.chance.peek.value) == NONE
  {
    RetriesAreBounded(parse, services, request, reply, trace);
    assert Attempted(parse, request, reply, trace[|trace| - 1]);
  }
}
