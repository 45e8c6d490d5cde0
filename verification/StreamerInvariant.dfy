/** What every handler of a streamer keeps. */
module StreamerInvariant {
  import opened Strings
  import opened Http
  import opened CacheModel
  import opened StreamerMachine

  function HandlerOf(phase: Phase): Handler {
    match phase
    case Probe => CacheHandler
    case ContentHeaders => HeaderHandler
    case Streaming => DataHandler
    case Served(_) => DataHandler
  }

  /**
   * An ongoing stream has one outstanding read, of the handler its phase calls for, or is paused on
   * a full buffer, or is adrift; a finished or failed one has nothing outstanding.
   */
  predicate ReadDiscipline(s: Streamer) {
    if s.status != ONGOING then s.pending == multiset{} && !s.bufferFull && !s.adrift
    else if s.adrift then s.pending == multiset{} && !s.bufferFull && !s.phase.Served?
    else if s.bufferFull then s.pending == multiset{} && s.phase == Streaming
    else s.pending == multiset{HandlerOf(s.phase)} && !s.phase.Served?
  }

  /** Where the bytes are: none is lost, repeated, reordered or leaked from the probe. */
  predicate BytesConserved(gw: Gateway, s: Streamer) {
    match s.phase
    case Probe => NothingReleased(gw, s)
    case ContentHeaders => NothingReleased(gw, s)
    case Streaming =>
      gw.parse(s.headerBuffer).ParseComplete? && s.headerBuffer <= s.received
      && s.delivered + s.clientBuffer == s.received
    case Served(response) => s.delivered + s.clientBuffer == gw.render(response)
  }

  predicate NothingReleased(gw: Gateway, s: Streamer) {
    && s.delivered == "" && s.clientBuffer == "" && s.cachedContent == ""
    && s.headerBuffer == s.received
    && (s.headerBuffer != "" && s.pending != multiset{} ==> !gw.parse(s.headerBuffer).ParseComplete?)
  }

  /** The body that would be cached is exactly what followed the header block. */
  predicate BodyMirrored(gw: Gateway, s: Streamer) {
    s.phase == Streaming && s.cacheable ==>
      var parsed := gw.parse(s.headerBuffer);
      && parsed.ParseComplete? && Cacheable(parsed.response)
      && parsed.end <= |s.headerBuffer| <= |s.received|
      && s.metadata == BuildMetadata(parsed.response)
      && s.cachedContent == s.received[parsed.end..]
      && |s.cachedContent| <= PROXY_MAX_CACHED_BUFFER_SIZE
  }

  function PressureLimit(s: Streamer): nat {
    if |s.headerBuffer| <= PROXY_MAX_BUFFER_SIZE then PROXY_MAX_BUFFER_SIZE else |s.headerBuffer|
  }

  predicate BackPressure(s: Streamer) {
    && (s.bufferFull ==> |s.clientBuffer| > PROXY_MAX_BUFFER_SIZE)
    && (s.phase == Streaming ==>
          |s.clientBuffer| <= PressureLimit(s) + if s.bufferFull then SOCKET_BUFFER_SIZE else 0)
  }

  predicate Bookkeeping(s: Streamer) {
    && (s.timedOut ==> !s.cacheable)
    && (!s.adrift ==> !s.request.asksForEtag)
    && s.stops == (if s.finishing then 1 else 0)
    && (s.phase.Served? ==> s.status == FINISHED && s.finishing)
    && (s.exit == OPEN || (s.clientBuffer == "" && s.status == if s.exit == EXIT_OK then FINISHED else FAILED))
  }

  ghost predicate Inv(gw: Gateway, s: Streamer) {
    && ReadDiscipline(s) && BytesConserved(gw, s) && BodyMirrored(gw, s) && BackPressure(s) && Bookkeeping(s)
  }

  /** A streamer whose outstanding read has just been taken to be handled. */
  ghost predicate ReadTaken(gw: Gateway, s: Streamer, handler: Handler) {
    && s.pending == multiset{} && s.status == ONGOING && !s.adrift && !s.bufferFull
    && !s.phase.Served? && handler == HandlerOf(s.phase)
    && BytesConserved(gw, s) && BodyMirrored(gw, s) && BackPressure(s) && Bookkeeping(s)
    && (!s.phase.Streaming? && s.headerBuffer != "" ==> !gw.parse(s.headerBuffer).ParseComplete?)
  }

  lemma ErrorKeepsInv(gw: Gateway, s: Streamer, handler: Handler, c: Completion)
    requires ReadTaken(gw, s, handler) && !c.Data?
    ensures Inv(gw, HandleError(s, c))
  {
  }

  lemma HitKeepsInv(gw: Gateway, s: Streamer, handler: Handler, chunk: Bytes, answer: ClientResponse)
    requires ReadTaken(gw, s, handler) && !s.phase.Streaming?
    ensures Inv(gw, ServeHit(gw, AppendHeaders(s, chunk), answer))
  {
  }

  lemma ContentRequestKeepsInv(gw: Gateway, s: Streamer, handler: Handler, chunk: Bytes, net: Connection)
    requires ReadTaken(gw, s, handler) && !s.phase.Streaming?
    ensures Inv(gw, SendContentRequest(AppendHeaders(s, chunk), net))
  {
  }

  lemma MoreHeadersKeepInv(gw: Gateway, s: Streamer, handler: Handler, chunk: Bytes)
    requires ReadTaken(gw, s, handler) && !s.phase.Streaming?
    requires !gw.parse(s.headerBuffer + chunk).ParseComplete?
    ensures Inv(gw, Listen(AppendHeaders(s, chunk), handler))
    ensures Inv(gw, Fail(AppendHeaders(s, chunk)))
  {
  }

  lemma PassThroughKeepsInv(gw: Gateway, s: Streamer, handler: Handler, chunk: Bytes)
    requires ReadTaken(gw, s, handler) && !s.phase.Streaming?
    requires gw.parse(s.headerBuffer + chunk).ParseComplete?
    ensures Inv(gw, StartStreaming(GiveUpCaching(AppendHeaders(s, chunk))))
    ensures Inv(gw, PassThrough(AppendHeaders(s, chunk)))
  {
  }

  /** Only the last read can have brought body bytes, so the body starts out small. */
  lemma CacheableStartKeepsInv(gw: Gateway, s: Streamer, handler: Handler, chunk: Bytes)
    requires StableParser(gw.parse) && |chunk| <= SOCKET_BUFFER_SIZE
    requires ReadTaken(gw, s, handler) && !s.phase.Streaming?
    requires gw.parse(s.headerBuffer + chunk).ParseComplete? && Cacheable(gw.parse(s.headerBuffer + chunk).response)
    ensures
      var parsed := gw.parse(s.headerBuffer + chunk);
      Inv(gw, StartStreaming(StartMirror(AppendHeaders(s, chunk), parsed.response, parsed.end)))
  {
    var buffer := s.headerBuffer + chunk;
    assert "" + buffer == buffer;
    if gw.parse(buffer).end < |s.headerBuffer| {
      CompleteOnceHeadersSeen(gw.parse, s.headerBuffer, buffer);
    }
  }

  lemma ProbeReadKeepsInv(gw: Gateway, s: Streamer, c: Completion, found: Option<Found>, net: Connection)
    requires ReadTaken(gw, s, CacheHandler) && c.Data?
    ensures Inv(gw, ReadCacheResponse(gw, s, c, found, net))
  {
    var t := AppendHeaders(s, c.chunk);
    var next := ReadCacheResponse(gw, s, c, found, net);
    match gw.parse(t.headerBuffer)
    case ParseFailed | ParseIncomplete =>
      MoreHeadersKeepInv(gw, s, CacheHandler, c.chunk);
    case ParseComplete(response, _) =>
      if response.etag.None? {
        PassThroughKeepsInv(gw, s, CacheHandler, c.chunk);
      } else if found.None? {
        assert next == SendContentRequest(t, net);
        ContentRequestKeepsInv(gw, s, CacheHandler, c.chunk, net);
      } else {
        var answer := AnswerFromCache(gw, s.request, response, found.value);
        assert next == ServeHit(gw, t, answer);
        HitKeepsInv(gw, s, CacheHandler, c.chunk, answer);
      }
  }

  lemma HeaderReadKeepsInv(gw: Gateway, s: Streamer, c: Completion)
    requires StableParser(gw.parse)
    requires ReadTaken(gw, s, HeaderHandler) && c.Data? && |c.chunk| <= SOCKET_BUFFER_SIZE
    ensures Inv(gw, ReadDataResponseHeaders(gw, s, c))
  {
    match gw.parse(s.headerBuffer + c.chunk)
    case ParseFailed | ParseIncomplete =>
      MoreHeadersKeepInv(gw, s, HeaderHandler, c.chunk);
    case ParseComplete(response, _) =>
      if Cacheable(response) {
        CacheableStartKeepsInv(gw, s, HeaderHandler, c.chunk);
      } else {
        PassThroughKeepsInv(gw, s, HeaderHandler, c.chunk);
      }
  }

  lemma DataReadKeepsInv(gw: Gateway, s: Streamer, c: Completion)
    requires ReadTaken(gw, s, DataHandler) && c.Data? && |c.chunk| <= SOCKET_BUFFER_SIZE
    ensures Inv(gw, ReadDataResponse(s, c))
  {
    assert s.delivered + (s.clientBuffer + c.chunk) == (s.delivered + s.clientBuffer) + c.chunk;
    if s.cacheable {
      var end := gw.parse(s.headerBuffer).end;
      assert (s.received + c.chunk)[end..] == s.received[end..] + c.chunk;
    }
  }

  lemma ReadKeepsInv(gw: Gateway, s: Streamer, e: Event)
    requires StableParser(gw.parse) && Inv(gw, s) && Enabled(s, e) && e.ReadDone?
    ensures Inv(gw, Next(gw, s, e))
  {
    var t := Taken(s, e.handler);
    assert s.pending == multiset{e.handler};
    assert ReadTaken(gw, t, e.handler);
    if !e.completion.Data? {
      ErrorKeepsInv(gw, t, e.handler, e.completion);
    } else {
      match e.handler
      case CacheHandler => ProbeReadKeepsInv(gw, t, e.completion, e.found, e.net);
      case HeaderHandler => HeaderReadKeepsInv(gw, t, e.completion);
      case DataHandler => DataReadKeepsInv(gw, t, e.completion);
    }
  }

  lemma TakeKeepsInv(gw: Gateway, s: Streamer)
    requires Inv(gw, s)
    ensures Inv(gw, TakeChunk(s))
  {
  }

  lemma NoteExitKeepsInv(gw: Gateway, s: Streamer)
    requires Inv(gw, s)
    ensures Inv(gw, NoteExit(s))
  {
  }

  lemma WaitKeepsInv(gw: Gateway, s: Streamer, consumer: Consumer)
    requires Inv(gw, s)
    ensures Inv(gw, s.(consumer := consumer))
  {
  }

  lemma TimeoutKeepsInv(gw: Gateway, s: Streamer, aborted: bool)
    requires Inv(gw, s)
    ensures Inv(gw, HandleTimeout(s, aborted))
  {
  }

  lemma StepKeepsInv(gw: Gateway, s: Streamer, e: Event)
    requires StableParser(gw.parse) && Inv(gw, s) && Enabled(s, e)
    ensures Inv(gw, Next(gw, s, e))
  {
    match e
    case ReadDone(_, _, _, _) => ReadKeepsInv(gw, s, e);
    case Timeout(aborted) => TimeoutKeepsInv(gw, s, aborted);
    case ChunkCalled =>
      WaitKeepsInv(gw, s, InChunk);
      NoteExitKeepsInv(gw, s);
      TakeKeepsInv(gw, NoteExit(s));
    case ChunkWoken => TakeKeepsInv(gw, s);
    case PeekCalled =>
      WaitKeepsInv(gw, s, InPeek);
      NoteExitKeepsInv(gw, s);
    case PeekWoken => WaitKeepsInv(gw, s, Ready);
  }

  lemma ReadStepKeepsInv(gw: Gateway, s: Streamer, handler: Handler, c: Completion, found: Option<Found>, net: Connection)
    requires StableParser(gw.parse) && Inv(gw, s) && Enabled(s, ReadDone(handler, c, None, net))
    ensures
      var next := OnRead(gw, Taken(s, handler), handler, c, found, net);
      next == Next(gw, s, ReadDone(handler, c, found, net)) && Inv(gw, next)
  {
    StepKeepsInv(gw, s, ReadDone(handler, c, found, net));
  }

  lemma StartHasInv(gw: Gateway, request: Request, net: Connection)
    ensures
      var s := SendAndListen(Created(request), net);
      && Inv(gw, s) && s.status == ONGOING && s.phase == Probe && s.cacheable && !s.timedOut && !s.finishing
      && (s.adrift <==> net != Sent) && s.request == request.(asksForEtag := s.request.asksForEtag)
  {
  }
}
