/**
 * LowLatencyGatewayStreamer.cpp: the handlers themselves, statement by statement. Each runs under the
 * streamer's mutex and is proved to do exactly what StreamerMachine says; a timed wait ends one
 * critical section and begins another, so getChunk and getPeekString are two methods each. The ghost
 * traces record what a handler does to the cache, access by access.
 */
module StreamerObject {
  import opened Strings
  import opened Http
  import opened CacheModel
  import opened ResponseCache
  import opened StreamerMachine
  import opened StreamerInvariant
  import opened StreamerRuns
  import opened GatewaySystem
  import opened GatewayTheorems
  import opened HandlerSteps
  import opened Backends

  /** The reactor's count of active requests per backend. */
  class Reactor {
    var active: multiset<Backend>

    constructor ()
      ensures active == multiset{}
    {
      active := multiset{};
    }

    method StartBackendRequest(backend: Backend)
      modifies this
      ensures active == old(active) + multiset{backend}
    {
      active := active[backend := active[backend] + 1];
    }

    method StopBackendRequest(backend: Backend)
      modifies this
      ensures active == old(active) - multiset{backend}
    {
      if backend in active {
        active := active[backend := active[backend] - 1];
      }
    }

    method RemoveBackendRequests(backend: Backend)
      modifies this
      ensures active == old(active)[backend := 0]
    {
      active := active[backend := 0];
    }
  }

  class LowLatencyGatewayStreamer {
    const gw: Gateway
    const cache: ResponseCache
    const reactor: Reactor
    const backend: Backend

    var originalRequest: Request
    var responseIsCacheable: bool
    var backendBufferFull: bool
    var clientDataBuffer: Bytes
    var responseHeaderBuffer: Bytes
    var cachedContent: Bytes
    var backendMetadata: MetaData
    var gatewayStatus: GatewayStatus
    var hasTimedOut: bool
    var isFinishing: bool
    var exitStatus: ExitStatus
    var pending: multiset<Handler>

    ghost var consumer: Consumer
    ghost var phase: Phase
    ghost var received: Bytes
    ghost var delivered: Bytes
    ghost var adrift: bool
    ghost var stops: nat

    ghost function View(): Streamer
      reads this
    {
      Streamer(originalRequest, responseIsCacheable, backendBufferFull, clientDataBuffer, responseHeaderBuffer,
               cachedContent, backendMetadata, gatewayStatus, hasTimedOut, isFinishing, exitStatus,
               pending, consumer, phase, received, delivered, adrift, stops)
    }

    ghost predicate CacheOk()
      reads cache
    {
      cache.Valid() && cache.hash == gw.hash
    }

    /** The handler of `e` is running, and has changed nothing yet; `s` is the streamer as it was before. */
    ghost predicate Handling(s: Streamer, e: Event)
      reads this
    {
      e.ReadDone? && View() == Taken(s, e.handler)
    }

    /** What handleError does to the cache. */
    ghost predicate Stores(s: Streamer, e: Event, trace: seq<Access>)
      requires e.ReadDone?
    {
      if Inserts(s, e.completion) then Chain(gw, s, StoringMeta(e), trace, Stored(e)) else trace == []
    }

    constructor (gw: Gateway, cache: ResponseCache, reactor: Reactor, backend: Backend, request: Request)
      modifies reactor
      ensures this.gw == gw && this.cache == cache && this.reactor == reactor && this.backend == backend
      ensures View() == Created(request)
      ensures reactor.active == old(reactor.active) + multiset{backend}
    {
      this.gw, this.cache, this.reactor, this.backend := gw, cache, reactor, backend;
      originalRequest := request;
      responseIsCacheable, backendBufferFull := true, false;
      clientDataBuffer, responseHeaderBuffer, cachedContent := "", "", "";
      backendMetadata, gatewayStatus, hasTimedOut, isFinishing, exitStatus := NO_METADATA, ONGOING, false, false, OPEN;
      pending, consumer, phase := multiset{}, Ready, Probe;
      received, delivered, adrift, stops := "", "", true, 0;
      new;
      reactor.StartBackendRequest(backend);
    }

    /** The destructor. */
    method Destroy()
      modifies reactor, this`stops
      ensures View() == Destroyed(old(View()))
      ensures reactor.active == Uncount(old(reactor.active), backend, old(View()), View())
    {
      if !isFinishing {
        reactor.StopBackendRequest(backend);
        stops := stops + 1;
      }
    }

    method MarkFinishing()
      modifies reactor, this`isFinishing, this`stops
      ensures View() == StreamerMachine.MarkFinishing(old(View()))
      ensures reactor.active == Uncount(old(reactor.active), backend, old(View()), View())
    {
      if !isFinishing {
        isFinishing := true;
        reactor.StopBackendRequest(backend);
        stops := stops + 1;
      }
    }

    /** What is written to the backend asks for an ETag, whatever the client's request did. */
    method SendAndListen(net: Connection) returns (success: bool, written: Option<Request>)
      modifies this
      ensures success == (net == Sent)
      ensures written == if net == ConnectFailed then None else Some(old(originalRequest).(asksForEtag := true))
      ensures View() == StreamerMachine.SendAndListen(old(View()), net)
    {
      if net == ConnectFailed {
        return false, None;
      }
      originalRequest := originalRequest.(asksForEtag := true);
      written := Some(originalRequest);
      if net == WriteFailed {
        return false, written;
      }
      originalRequest := originalRequest.(asksForEtag := false);
      adrift := false;
      AsyncReadSome(CacheHandler);
      return true, written;
    }

    method AsyncReadSome(handler: Handler)
      modifies this`pending
      ensures View() == Listen(old(View()), handler)
    {
      pending := pending + multiset{handler};
    }

    /** A clean end of a cacheable stream enters the cache before anything else happens. */
    method HandleError(c: Completion, ghost s: Streamer, ghost e: Event) returns (ghost trace: seq<Access>)
      requires CacheOk() && !c.Data? && Handling(s, e) && e.completion == c
      modifies this, cache
      ensures CacheOk() && old(cache.history) <= cache.history
      ensures View() == StreamerMachine.HandleError(old(View()), c) && stops == old(stops)
      ensures Stores(s, e, trace)
      ensures Inserts(s, c) ==> InsertedEntry(gw, s) in cache.history
      ensures !Inserts(s, c) ==> cache.history == old(cache.history)
    {
      trace := [];
      match c
      case Eof =>
        if responseIsCacheable && cachedContent != "" && !hasTimedOut {
          trace := StoreResponse(s, e);
        }
        gatewayStatus := FINISHED;
      case Aborted =>
        if hasTimedOut {
          gatewayStatus := FAILED;
        } else {
          adrift := true;
        }
      case Broken =>
        gatewayStatus := FAILED;
    }

    method StoreResponse(ghost s: Streamer, ghost e: Event) returns (ghost trace: seq<Access>)
      requires CacheOk() && Handling(s, e)
      modifies cache
      ensures CacheOk() && old(cache.history) <= cache.history
      ensures Chain(gw, s, StoringMeta(e), trace, Stored(e))
      ensures InsertedEntry(gw, s) in cache.history
    {
      var m := backendMetadata;
      ghost var before := cache.View();
      ghost var half, later;
      half, later := cache.InsertCachedBuffer(m.etag, m.mimeType, m.cacheControl, m.expires, m.vary, m.allowOrigin,
                                              m.contentEncoding, cachedContent);
      ghost var first := Access(StoringMeta(e), before, half, StoringBuffer(e));
      ghost var second := Access(StoringBuffer(e), later, cache.View(), Stored(e));
      ChainOfTwo(gw, s, first, second);
      trace := [first, second];
    }

    /** The old connection is closed and every buffer cleared. */
    method NewConnection()
      modifies this`clientDataBuffer, this`responseHeaderBuffer, this`cachedContent, this`phase, this`received
      ensures View() == StreamerMachine.NewConnection(old(View()))
    {
      clientDataBuffer, responseHeaderBuffer, cachedContent := "", "", "";
      phase, received := ContentHeaders, "";
    }

    /** What is written to the backend now is the request as it is. */
    method SendContentRequest(net: Connection) returns (written: Option<Request>)
      modifies this
      ensures written == if net == ConnectFailed then None else Some(originalRequest)
      ensures View() == StreamerMachine.SendContentRequest(old(View()), net)
    {
      NewConnection();
      if net == ConnectFailed {
        Fail();
        return None;
      }
      written := Some(originalRequest);
      if net == Sent {
        AsyncReadSome(HeaderHandler);
      } else {
        Fail();
      }
    }

    method Fail()
      modifies this`gatewayStatus
      ensures View() == StreamerMachine.Fail(old(View()))
    {
      gatewayStatus := FAILED;
    }

    method GiveUpCaching()
      modifies this`responseIsCacheable
      ensures View() == StreamerMachine.GiveUpCaching(old(View()))
    {
      responseIsCacheable := false;
    }

    method AppendHeaders(chunk: Bytes)
      modifies this`responseHeaderBuffer, this`received
      ensures View() == StreamerMachine.AppendHeaders(old(View()), chunk)
    {
      responseHeaderBuffer := responseHeaderBuffer + chunk;
      received := received + chunk;
    }

    /** What has been read is ready for the client; go to the data loop. */
    method StartStreaming()
      modifies this
      ensures View() == StreamerMachine.StartStreaming(old(View()))
    {
      clientDataBuffer := responseHeaderBuffer;
      phase := Streaming;
      AsyncReadSome(DataHandler);
    }

    method ReadCacheResponse(c: Completion, net: Connection, ghost s: Streamer, ghost e: Event)
      returns (found: Option<Found>, ghost trace: seq<Access>)
      requires CacheOk() && Handling(s, e) && e.completion == c && e.handler == CacheHandler
      modifies this, cache, reactor
      ensures CacheOk() && old(cache.history) <= cache.history
      ensures View() == StreamerMachine.ReadCacheResponse(gw, old(View()), c, found, net)
      ensures reactor.active == Uncount(old(reactor.active), backend, old(View()), View())
      ensures found.Some? ==>
                ProbeAnswered(gw, s, c) && Legitimate(gw, cache.history, s, ProbeEtag(gw, s, c), found.value)
      ensures HandledAs(gw, s, e, trace, found)
      ensures Inserts(s, c) ==> InsertedEntry(gw, s) in cache.history
    {
      found := None;
      if !c.Data? {
        trace := HandleError(c, s, e);
        return;
      }
      AppendHeaders(c.chunk);
      found, trace := ActOnProbe(net, s, e);
    }

    method ActOnProbe(net: Connection, ghost s: Streamer, ghost e: Event)
      returns (found: Option<Found>, ghost trace: seq<Access>)
      requires CacheOk() && e.ReadDone? && e.completion.Data?
      requires originalRequest == s.request && responseHeaderBuffer == s.headerBuffer + e.completion.chunk
      modifies this, cache, reactor
      ensures CacheOk() && old(cache.history) <= cache.history
      ensures View() == ProbeSeen(gw, old(View()), found, net)
      ensures reactor.active == Uncount(old(reactor.active), backend, old(View()), View())
      ensures if ProbeAnswered(gw, s, e.completion) then Finds(s, e, trace, found) else trace == [] && found == None
    {
      found, trace := None, [];
      var parsed := gw.parse(responseHeaderBuffer);
      if parsed.ParseFailed? {
        Fail();
      } else if parsed.ParseIncomplete? {
        AsyncReadSome(CacheHandler);
      } else if parsed.response.etag.None? {
        PassThrough();
      } else {
        found, trace := AnswerProbe(parsed.response, net, s, e);
      }
    }

    /** What the lookups of a probe do to the cache, and what a hit is worth. */
    ghost predicate Finds(s: Streamer, e: Event, trace: seq<Access>, found: Option<Found>)
      requires e.ReadDone? && ProbeAnswered(gw, s, e.completion)
      reads cache
    {
      && Chain(gw, s, AskMeta(e, ClientAcceptsContentEncoding(s.request)), trace, Answered(e, found))
      && (found.Some? ==> Legitimate(gw, cache.history, s, ProbeEtag(gw, s, e.completion), found.value))
    }

    /** The backend does not take part in caching. */
    method PassThrough()
      modifies this, reactor
      ensures View() == StreamerMachine.PassThrough(old(View()))
      ensures reactor.active == Uncount(old(reactor.active), backend, old(View()), View())
    {
      GiveUpCaching();
      StartStreaming();
      MarkFinishing();
    }

    /** The backend confirmed an ETag: answer from the cache, or ask for the content. */
    method AnswerProbe(response: Response, net: Connection, ghost s: Streamer, ghost e: Event)
      returns (found: Option<Found>, ghost trace: seq<Access>)
      requires CacheOk() && response.etag.Some? && originalRequest == s.request
      requires e.ReadDone? && ProbeAnswered(gw, s, e.completion) && ProbeEtag(gw, s, e.completion) == response.etag.value
      modifies this, cache, reactor
      ensures CacheOk() && old(cache.history) <= cache.history
      ensures Finds(s, e, trace, found)
      ensures
        View() == if found.None? then StreamerMachine.SendContentRequest(old(View()), net)
                  else ServeHit(gw, old(View()), AnswerFromCache(gw, s.request, response, found.value))
      ensures reactor.active == Uncount(old(reactor.active), backend, old(View()), View())
    {
      found, trace := LookUp(response.etag.value, s, e);
      if found.None? {
        var _ := SendContentRequest(net);
      } else {
        var clientResponse := CachedAnswer(response, found.value);
        Serve(clientResponse);
      }
    }

    /** Try the client's preferred encoding, then the identity encoding. */
    method LookUp(etag: string, ghost s: Streamer, ghost e: Event)
      returns (found: Option<Found>, ghost trace: seq<Access>)
      requires CacheOk() && originalRequest == s.request
      requires e.ReadDone? && ProbeAnswered(gw, s, e.completion) && ProbeEtag(gw, s, e.completion) == etag
      modifies cache
      ensures CacheOk() && old(cache.history) <= cache.history
      ensures Finds(s, e, trace, found)
    {
      var accepted := ClientAcceptsContentEncoding(originalRequest);
      ghost var first := AskMeta(e, accepted);
      found, trace := FindIn(etag, accepted, s, e, first, []);
      if found.None? && accepted != "" {
        cache.OtherThreads();
        found, trace := FindIn(etag, "", s, e, first, trace);
      }
    }

    /** One of the two lookups; `done` are the accesses before it. */
    method FindIn(etag: string, encoding: string, ghost s: Streamer, ghost e: Event, ghost first: Lock, ghost done: seq<Access>)
      returns (found: Option<Found>, ghost trace: seq<Access>)
      requires CacheOk() && Negotiated(s, encoding)
      requires e.ReadDone? && ProbeAnswered(gw, s, e.completion) && ProbeEtag(gw, s, e.completion) == etag
      requires Chain(gw, s, first, done, AskMeta(e, encoding))
      requires done != [] ==> Reaches(gw.hash, done[|done| - 1].after, cache.View())
      modifies cache
      ensures CacheOk() && old(cache.history) <= cache.history
      ensures trace != [] && trace[|trace| - 1].after == cache.View()
      ensures Chain(gw, s, first, trace, if found.Some? then Answered(e, found) else Missed(e, encoding))
      ensures found.Some? ==> Legitimate(gw, cache.history, s, etag, found.value)
    {
      ghost var before := cache.View();
      var buffer, meta := cache.GetCachedBuffer(etag, encoding);
      found := if buffer.Some? then Some(Found(buffer.value, meta.value)) else None;
      LookUpExtends(gw, s, first, done, e, encoding, before, cache.View());
      trace := done + Finding(gw, s, e, encoding, before, cache.View());
    }

    /** The expiration time just received replaces the cached one. */
    method CachedAnswer(response: Response, hit: Found) returns (clientResponse: ClientResponse)
      ensures FaithfulAnswer(gw, originalRequest, response, hit, clientResponse)
      ensures clientResponse == AnswerFromCache(gw, originalRequest, response, hit)
    {
      var metadata := hit.meta;
      if response.expires.Some? {
        metadata := metadata.(expires := response.expires.value);
      }
      clientResponse := BuildCacheResponse(gw, originalRequest, hit.buffer, metadata);
      FullAnswerIsFaithful(gw, originalRequest, response, hit);
    }

    method Serve(clientResponse: ClientResponse)
      modifies this, reactor
      ensures View() == ServeHit(gw, old(View()), clientResponse)
      ensures reactor.active == Uncount(old(reactor.active), backend, old(View()), View())
    {
      PutAnswer(clientResponse);
      MarkFinishing();
    }

    method PutAnswer(clientResponse: ClientResponse)
      modifies this`responseIsCacheable, this`clientDataBuffer, this`gatewayStatus, this`phase
      ensures View() == StreamerMachine.PutAnswer(gw, old(View()), clientResponse)
    {
      responseIsCacheable := false;
      clientDataBuffer := gw.render(clientResponse);
      gatewayStatus := FINISHED;
      phase := Served(clientResponse);
    }

    method ReadDataResponseHeaders(c: Completion, ghost s: Streamer, ghost e: Event) returns (ghost trace: seq<Access>)
      requires CacheOk() && Handling(s, e) && e.completion == c
      modifies this, cache
      ensures CacheOk() && old(cache.history) <= cache.history
      ensures View() == StreamerMachine.ReadDataResponseHeaders(gw, old(View()), c) && stops == old(stops)
      ensures Stores(s, e, trace)
      ensures Inserts(s, c) ==> InsertedEntry(gw, s) in cache.history
    {
      trace := [];
      if !c.Data? {
        trace := HandleError(c, s, e);
      } else {
        ReadHeaders(c.chunk);
      }
    }

    method ReadHeaders(chunk: Bytes)
      modifies this
      ensures View() == HeadersSeen(gw, StreamerMachine.AppendHeaders(old(View()), chunk)) && stops == old(stops)
    {
      AppendHeaders(chunk);
      match gw.parse(responseHeaderBuffer)
      case ParseFailed =>
        Fail();
      case ParseIncomplete =>
        AsyncReadSome(HeaderHandler);
      case ParseComplete(response, end) =>
        DecideCaching(response, end);
        StartStreaming();
    }

    method DecideCaching(response: Response, end: nat)
      modifies this
      ensures View() == if Cacheable(response) then StartMirror(old(View()), response, end)
                        else StreamerMachine.GiveUpCaching(old(View()))
    {
      if response.etag.Some? {
        if response.contentType.None? || response.transferEncoding.Some? || response.status != OK {
          responseIsCacheable := false;
        } else {
          backendMetadata := BuildMetadata(response);
          cachedContent := BodyAfter(responseHeaderBuffer, end);
        }
      } else {
        responseIsCacheable := false;
      }
    }

    method ReadDataResponse(c: Completion, ghost s: Streamer, ghost e: Event) returns (ghost trace: seq<Access>)
      requires CacheOk() && Handling(s, e) && e.completion == c
      modifies this, cache
      ensures CacheOk() && old(cache.history) <= cache.history
      ensures View() == StreamerMachine.ReadDataResponse(old(View()), c) && stops == old(stops)
      ensures Stores(s, e, trace)
      ensures Inserts(s, c) ==> InsertedEntry(gw, s) in cache.history
    {
      trace := [];
      if !c.Data? {
        trace := HandleError(c, s, e);
      } else {
        ReadBody(c.chunk);
      }
    }

    method ReadBody(chunk: Bytes)
      modifies this
      ensures View() == BodySeen(old(View()), chunk) && stops == old(stops)
    {
      AppendData(chunk);
      if responseIsCacheable {
        MirrorBody(chunk);
      }
      if |clientDataBuffer| > PROXY_MAX_BUFFER_SIZE {
        backendBufferFull := true;
        return;
      }
      AsyncReadSome(DataHandler);
    }

    method AppendData(chunk: Bytes)
      modifies this`clientDataBuffer, this`received
      ensures View() == StreamerMachine.AppendData(old(View()), chunk)
    {
      clientDataBuffer := clientDataBuffer + chunk;
      received := received + chunk;
    }

    method MirrorBody(chunk: Bytes)
      requires responseIsCacheable
      modifies this`cachedContent, this`responseIsCacheable
      ensures View() == StreamerMachine.MirrorBody(old(View()), chunk)
    {
      cachedContent := cachedContent + chunk;
      if |cachedContent| > PROXY_MAX_CACHED_BUFFER_SIZE {
        responseIsCacheable := false;
        cachedContent := "";
      }
    }

    method TakeRead(handler: Handler)
      modifies this`pending
      ensures View() == Taken(old(View()), handler)
    {
      pending := pending - multiset{handler};
    }

    /** The handler that the read was given, whichever it is. */
    method RunHandler(handler: Handler, c: Completion, net: Connection, ghost s: Streamer)
      returns (found: Option<Found>, ghost trace: seq<Access>)
      requires CacheOk() && Handling(s, ReadDone(handler, c, None, net))
      modifies this, cache, reactor
      ensures CacheOk() && old(cache.history) <= cache.history
      ensures View() == OnRead(gw, old(View()), handler, c, found, net)
      ensures reactor.active == if stops > old(stops) then old(reactor.active) - multiset{backend} else old(reactor.active)
      ensures HandledAs(gw, s, ReadDone(handler, c, None, net), trace, found)
      ensures Inserts(s, c) ==> InsertedEntry(gw, s) in cache.history
    {
      found, trace := None, [];
      ghost var e := ReadDone(handler, c, None, net);
      match handler {
        case CacheHandler => found, trace := ReadCacheResponse(c, net, s, e);
        case HeaderHandler => trace := ReadDataResponseHeaders(c, s, e);
        case DataHandler => trace := ReadDataResponse(c, s, e);
      }
    }

    /**
     * A read completes and its handler runs: a step of the machine, and towards the cache a sequence of
     * accesses with steps of others in between, as HandlerSteps describes it.
     */
    method ReadCompleted(handler: Handler, c: Completion, net: Connection)
      returns (found: Option<Found>, ghost trace: seq<Access>)
      requires CacheOk() && Enabled(View(), ReadDone(handler, c, None, net)) && Inv(gw, View())
      requires StableParser(gw.parse)
      modifies this, cache, reactor
      ensures CacheOk() && old(cache.history) <= cache.history
      ensures View() == Next(gw, old(View()), ReadDone(handler, c, found, net)) && Inv(gw, View())
      ensures reactor.active == Uncount(old(reactor.active), backend, old(View()), View())
      ensures HandledAs(gw, old(View()), ReadDone(handler, c, None, net), trace, found)
      ensures old(Inserts(View(), c)) ==> old(InsertedEntry(gw, View())) in cache.history
    {
      ghost var before := View();
      TakeRead(handler);
      found, trace := RunHandler(handler, c, net, before);
      ReadStepKeepsInv(gw, before, handler, c, found, net);
    }

    method HandleTimeout(aborted: bool)
      modifies this
      ensures View() == Next(gw, old(View()), Timeout(aborted))
    {
      if !aborted {
        hasTimedOut := true;
        responseIsCacheable := false;
      }
    }

    /** With nothing buffered, the consumer waits for more or learns how the stream ended. */
    method NoteExit() returns (waits: bool)
      modifies this`exitStatus
      ensures View() == StreamerMachine.NoteExit(old(View())) && waits == old(MustWait(View()))
    {
      waits := false;
      if clientDataBuffer == "" {
        match gatewayStatus {
          case ONGOING =>
            waits := true;
          case FINISHED =>
            exitStatus := EXIT_OK;
          case FAILED =>
            exitStatus := EXIT_ERROR;
        }
      }
    }

    /** getChunk, up to the timed wait if there is one. */
    method GetChunk() returns (waits: bool, chunk: Bytes)
      requires Enabled(View(), ChunkCalled)
      modifies this
      ensures View() == Next(gw, old(View()), ChunkCalled)
      ensures waits == old(MustWait(View())) && chunk == old(Output(View(), ChunkCalled))
    {
      waits := NoteExit();
      if waits {
        consumer := InChunk;
        chunk := "";
      } else {
        chunk := TakeChunk();
      }
    }

    /** getChunk, once the wait is over. */
    method GetChunkWoken() returns (chunk: Bytes)
      requires Enabled(View(), ChunkWoken)
      modifies this
      ensures View() == Next(gw, old(View()), ChunkWoken)
      ensures chunk == old(Output(View(), ChunkWoken))
    {
      chunk := TakeChunk();
    }

    method TakeChunk() returns (chunk: Bytes)
      modifies this
      ensures View() == StreamerMachine.TakeChunk(old(View())) && chunk == old(clientDataBuffer)
    {
      chunk := HandOver();
      if backendBufferFull {
        backendBufferFull := false;
        AsyncReadSome(DataHandler);
      }
    }

    method HandOver() returns (chunk: Bytes)
      modifies this
      ensures View() == StreamerMachine.HandOver(old(View())) && chunk == old(clientDataBuffer)
    {
      chunk := clientDataBuffer;
      clientDataBuffer := "";
      delivered := delivered + chunk;
      consumer := Ready;
    }

    /** getPeekString, up to the timed wait if there is one. */
    method GetPeekString(pos: int, len: int) returns (waits: bool, peek: Option<Bytes>)
      requires Enabled(View(), PeekCalled)
      modifies this`exitStatus, this`consumer
      ensures View() == Next(gw, old(View()), PeekCalled)
      ensures waits == old(MustWait(View())) && peek == old(PeekedAt(View(), pos, len))
    {
      waits := NoteExit();
      if waits {
        consumer := InPeek;
      }
      if clientDataBuffer == "" {
        return waits, Some("");
      }
      peek := Substr(clientDataBuffer, pos, len);
    }

    /** getPeekString, once the wait is over. */
    method GetPeekStringWoken(pos: int, len: int) returns (peek: Option<Bytes>)
      requires Enabled(View(), PeekWoken)
      modifies this`consumer
      ensures View() == old(View()).(consumer := Ready)
      ensures View() == Next(gw, old(View()), PeekWoken) && peek == old(PeekedAt(View(), pos, len))
    {
      consumer := Ready;
      if clientDataBuffer == "" {
        return Some("");
      }
      peek := Substr(clientDataBuffer, pos, len);
    }

    // -------------------------------------------------------------- with other threads

    /** What holds of a streamer between handlers. */
    ghost predicate Alive()
      reads this, cache
    {
      CacheOk() && StableParser(gw.parse) && Inv(gw, View()) && Follows(gw, View())
    }

    /** The count after this streamer has done something: lowered if it is finishing since. */
    ghost predicate CountedSince(active: multiset<Backend>, wasFinishing: bool)
      reads this, reactor
    {
      && (wasFinishing ==> isFinishing)
      && reactor.active == if isFinishing && !wasFinishing then active - multiset{backend} else active
    }

    /** An outstanding read completes, or the timer fires or is cancelled, or neither. */
    method OneEvent()
      requires Alive()
      modifies this, cache, reactor
      ensures Alive() && old(cache.history) <= cache.history
      ensures consumer == old(consumer) && delivered == old(delivered) && originalRequest == old(originalRequest)
      ensures CountedSince(old(reactor.active), old(isFinishing))
    {
      var timer: bool, aborted: bool := *, *;
      var handler: Handler, c: Completion, net: Connection := *, *, *;
      ghost var before := View();
      if timer {
        HandleTimeout(aborted);
        EventKeepsAlive(gw, before, Timeout(aborted));
        EventKeepsConsumer(gw, before, Timeout(aborted));
      } else if handler in pending && (c.Data? ==> |c.chunk| <= SOCKET_BUFFER_SIZE) {
        ghost var found, trace;
        found, trace := ReadCompleted(handler, c, net);
        EventKeepsAlive(gw, before, ReadDone(handler, c, found, net));
        EventKeepsConsumer(gw, before, ReadDone(handler, c, found, net));
      }
    }

    /** Any number of such events. */
    method OtherThreads()
      requires Alive()
      modifies this, cache, reactor
      ensures Alive() && old(cache.history) <= cache.history
      ensures consumer == old(consumer) && delivered == old(delivered) && originalRequest == old(originalRequest)
      ensures CountedSince(old(reactor.active), old(isFinishing))
    {
      var steps: nat := *;
      while steps > 0
        invariant Alive() && old(cache.history) <= cache.history
        invariant consumer == old(consumer) && delivered == old(delivered) && originalRequest == old(originalRequest)
        invariant CountedSince(old(reactor.active), old(isFinishing))
      {
        OneEvent();
        steps := steps - 1;
      }
    }

    method PeekNow(len: nat) returns (waits: bool, peek: Bytes)
      requires Alive() && consumer == Ready
      modifies this`exitStatus, this`consumer
      ensures Alive() && delivered == old(delivered) && isFinishing == old(isFinishing)
      ensures consumer == (if waits then InPeek else Ready) && peek == Peeked(View(), len)
    {
      ghost var before := View();
      var shown;
      waits, shown := GetPeekString(0, len);
      EventKeepsAlive(gw, before, PeekCalled);
      peek := shown.value;
    }

    method PeekWokenUp(len: nat) returns (peek: Bytes)
      requires Alive() && consumer == InPeek
      modifies this`consumer
      ensures Alive() && delivered == old(delivered) && isFinishing == old(isFinishing)
      ensures consumer == Ready && peek == Peeked(View(), len)
    {
      ghost var before := View();
      var shown := GetPeekStringWoken(0, len);
      PeekWokenKeepsAlive(gw, before);
      peek := shown.value;
    }

    method PeekAfterWait(len: nat) returns (peek: Bytes)
      requires Alive() && consumer == InPeek
      modifies this, cache, reactor
      ensures Alive() && old(cache.history) <= cache.history
      ensures consumer == Ready && delivered == old(delivered) && peek == Peeked(View(), len)
      ensures originalRequest == old(originalRequest)
      ensures CountedSince(old(reactor.active), old(isFinishing))
    {
      OtherThreads();
      peek := PeekWokenUp(len);
    }

    /** getPeekString(0, len) with whatever happens before it and during its wait. */
    method Peek(len: nat) returns (peek: Bytes)
      requires Alive() && consumer == Ready
      modifies this, cache, reactor
      ensures Alive() && old(cache.history) <= cache.history
      ensures consumer == Ready && delivered == old(delivered) && peek == Peeked(View(), len)
      ensures originalRequest == old(originalRequest)
      ensures CountedSince(old(reactor.active), old(isFinishing))
    {
      OtherThreads();
      var waits;
      waits, peek := PeekNow(len);
      if waits {
        peek := PeekAfterWait(len);
      }
    }
  }

  /** Everything but a chunk call leaves alone what was handed out, and only a peek moves the consumer. */
  lemma EventKeepsAlive(gw: Gateway, s: Streamer, e: Event)
    requires StableParser(gw.parse) && Inv(gw, s) && Follows(gw, s) && Enabled(s, e)
    requires !e.ChunkCalled? && !e.ChunkWoken?
    ensures
      var next := Next(gw, s, e);
      && Inv(gw, next) && Follows(gw, next)
      && next.delivered == s.delivered && next.request == s.request && (s.finishing ==> next.finishing)
      && (next.stops > s.stops <==> next.finishing && !s.finishing)
  {
    StepKeepsInv(gw, s, e);
    NextFollows(gw, s, e);
    StepEvolves(gw, s, e);
    StopMeansFinishing(gw, s, e);
    RequestStays(gw, s, e);
    assert s.delivered + "" == s.delivered;
  }

  lemma ReadKeepsRequest(gw: Gateway, s: Streamer, e: Event)
    requires e.ReadDone?
    ensures Next(gw, s, e).request == s.request
  {
    var t := Taken(s, e.handler);
    assert e.completion.Data? ==> AppendHeaders(t, e.completion.chunk).request == s.request;
  }

  lemma RequestStays(gw: Gateway, s: Streamer, e: Event)
    ensures Next(gw, s, e).request == s.request
  {
    match e
    case ReadDone(_, _, _, _) => ReadKeepsRequest(gw, s, e);
    case _ =>
  }

  lemma PeekWokenKeepsAlive(gw: Gateway, s: Streamer)
    requires StableParser(gw.parse) && Inv(gw, s) && Follows(gw, s) && s.consumer == InPeek
    ensures var next := s.(consumer := Ready);
            next == Next(gw, s, PeekWoken) && Inv(gw, next) && Follows(gw, next)
  {
    EventKeepsAlive(gw, s, PeekWoken);
  }

  /** Reads and timeouts do not move the consumer. */
  lemma EventKeepsConsumer(gw: Gateway, s: Streamer, e: Event)
    requires Inv(gw, s) && Enabled(s, e) && (e.ReadDone? || e.Timeout?)
    ensures Next(gw, s, e).consumer == s.consumer
  {
  }
}
