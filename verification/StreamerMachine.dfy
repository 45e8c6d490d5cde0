/**
 * LowLatencyGatewayStreamer.cpp as a state machine on values: what each handler, run under the
 * streamer's mutex, makes of the state. StreamerObject holds the handlers themselves.
 */
module StreamerMachine {
  import opened Strings
  import opened Http
  import opened CacheModel

  const PROXY_MAX_BUFFER_SIZE := 16777216
  const PROXY_MAX_CACHED_BUFFER_SIZE := 20971520
  const SOCKET_BUFFER_SIZE := 8192

  /** Everything the handlers call and do not define themselves. */
  datatype Gateway = Gateway(
    parse: Parser,
    hash: HashFunction,
    evaluate: (Request, string) -> (bool, int),
    render: ClientResponse -> Bytes,
    date: string,
    serverName: string,
    hostName: string,
    version: string)

  datatype GatewayStatus = ONGOING | FINISHED | FAILED
  datatype ExitStatus = OPEN | EXIT_OK | EXIT_ERROR

  /** The member function that an outstanding async_read_some will call. */
  datatype Handler = CacheHandler | HeaderHandler | DataHandler

  /** How an outstanding read completes. */
  datatype Completion = Data(chunk: Bytes) | Eof | Aborted | Broken

  /** How a connect followed by a write ends. */
  datatype Connection = Sent | ConnectFailed | WriteFailed

  datatype Found = Found(buffer: Bytes, meta: MetaData)

  datatype Phase = Probe | ContentHeaders | Streaming | Served(response: ClientResponse)

  /** Where the consumer thread stands: outside, or in the timed wait of getChunk or getPeekString. */
  datatype Consumer = Ready | InChunk | InPeek

  /**
   * The fields of a streamer, down to `exit`; then the reads it has outstanding and history:
   * bytes received on the current connection, bytes handed to the consumer, whether no read can
   * complete any more, and how often stopBackendRequest was called.
   */
  datatype Streamer = Streamer(
    request: Request,
    cacheable: bool,
    bufferFull: bool,
    clientBuffer: Bytes,
    headerBuffer: Bytes,
    cachedContent: Bytes,
    metadata: MetaData,
    status: GatewayStatus,
    timedOut: bool,
    finishing: bool,
    exit: ExitStatus,
    pending: multiset<Handler>,
    consumer: Consumer,
    phase: Phase,
    received: Bytes,
    delivered: Bytes,
    adrift: bool,
    stops: nat)

  const NO_METADATA := MetaData(0, "", "", "", "", "", "", "")

  // ---------------------------------------------------------------- helpers of the handlers

  /** The Content-Encoding to look for in the cache; "" is the identity encoding. */
  function ClientAcceptsContentEncoding(request: Request): (encoding: string)
    ensures encoding in ["", "gzip", "zstd"]
    ensures encoding == "" <==>
            (request.acceptEncoding.Some? ==>
               var accepted := request.acceptEncoding.value;
               accepted != "*" && !Contains(accepted, "zstd") && !Contains(accepted, "gzip"))
    ensures encoding != "" && request.acceptEncoding.value != "*" ==> Contains(request.acceptEncoding.value, encoding)
    ensures encoding != "" && request.acceptEncoding.value == "*" ==> encoding == "gzip"
    ensures request.acceptEncoding.Some? && Contains(request.acceptEncoding.value, "zstd") ==> encoding == "zstd"
  {
    match request.acceptEncoding
    case None => ""
    case Some(accepted) =>
      if Contains(accepted, "zstd") then "zstd"
      else if accepted == "*" then "gzip"
      else if Contains(accepted, "gzip") then "gzip"
      else ""
  }

  /** Quality values are not read: an encoding that the client rules out is looked for all the same. */
  lemma RuledOutIsLookedFor(request: Request)
    requires request.acceptEncoding == Some("gzip;q=0")
    ensures ClientAcceptsContentEncoding(request) == "gzip"
  {
    var accepted := "gzip;q=0";
    assert accepted[0..4] == "gzip" && OccursAt(accepted, "gzip", 0);
    forall j | 0 <= j
      ensures !OccursAt(accepted, "zstd", j)
    {
      if j <= 4 {
        assert accepted[j..j + 4][1] == accepted[j + 1] != 's';
      }
    }
  }

  function OrEmpty(header: Option<string>): string {
    if header.Some? then header.value else ""
  }

  /** A response that may enter the cache. */
  predicate Cacheable(response: Response) {
    response.etag.Some? && response.contentType.Some? && response.transferEncoding.None? && response.status == OK
  }

  function BuildMetadata(response: Response): MetaData
    requires response.etag.Some? && response.contentType.Some?
  {
    MetaData(
      0,
      response.contentType.value,
      response.etag.value,
      OrEmpty(response.cacheControl),
      OrEmpty(response.expires),
      OrEmpty(response.vary),
      OrEmpty(response.allowOrigin),
      Trim(ToLower(OrEmpty(response.contentEncoding))))
  }

  function WithDefault(value: string, default: string): string {
    if value != "" then value else default
  }

  function WithHeader(headers: map<string, string>, present: bool, name: string, value: string): map<string, string> {
    if present then headers[name := value] else headers
  }

  /** The headers of every answer to a cache hit. */
  function CommonHeaders(gw: Gateway, meta: MetaData): map<string, string> {
    var common := map[
      "Date" := gw.date,
      "Server" := gw.serverName,
      "X-Frontend-Server" := gw.hostName,
      "Expires" := WithDefault(meta.expires, "Thu, 01 Jan 1970 00:00:00 GMT"),
      "Cache-Control" := WithDefault(meta.cacheControl, "must-revalidate"),
      "Vary" := WithDefault(meta.vary, "Accept-Encoding")];
    var h1 := WithHeader(common, gw.version == "1.1", "Connection", "close");
    var h2 := WithHeader(h1, meta.allowOrigin != "", "Access-Control-Allow-Origin", meta.allowOrigin);
    WithHeader(h2, meta.etag != "" && meta.etag != "0", "ETag", meta.etag)
  }

  /** The answer to a cache hit: 304 or 412 without a body, or the cached buffer. */
  function BuildCacheResponse(gw: Gateway, request: Request, buffer: Bytes, meta: MetaData): ClientResponse {
    var h3 := CommonHeaders(gw, meta);
    var (required, suggested) := gw.evaluate(request, meta.etag);
    if !required then
      ClientResponse(h3, suggested, None)
    else if request.ifMatch.None? && request.ifNoneMatch.None? && request.ifModifiedSince.Some? then
      ClientResponse(h3, NOT_MODIFIED, None)
    else
      var h4 := h3["Content-Type" := meta.mimeType]["Content-Length" := Decimal(|buffer|)]["X-Frontend-Cache-Hit" := "true"];
      ClientResponse(WithHeader(h4, meta.contentEncoding != "", "Content-Encoding", meta.contentEncoding), OK, Some(buffer))
  }

  // ---------------------------------------------------------------- handlers

  /** What every part of a read handler leaves alone, up to flags that only move one way. */
  predicate Keeps(s: Streamer, t: Streamer) {
    && t.request == s.request && t.delivered == s.delivered && t.timedOut == s.timedOut && t.consumer == s.consumer
    && (t.cacheable ==> s.cacheable) && (s.finishing ==> t.finishing)
  }

  /** Keeps, and also keeps what has been received. */
  predicate KeepsReceived(s: Streamer, t: Streamer) {
    Keeps(s, t) && t.received == s.received && t.adrift == s.adrift
  }

  predicate SameHeaders(s: Streamer, t: Streamer) {
    t.phase == s.phase && t.headerBuffer == s.headerBuffer
  }

  /** `t` is `s` after its read brought in `chunk`, on the same connection or with a new one begun. */
  predicate Receives(s: Streamer, chunk: Bytes, t: Streamer) {
    && Keeps(s, t) && t.adrift == s.adrift
    && t.received == if s.phase == Probe && t.phase == ContentHeaders then "" else s.received + chunk
  }

  function Created(request: Request): Streamer {
    Streamer(request, true, false, "", "", "", NO_METADATA, ONGOING, false, false, OPEN,
             multiset{}, Ready, Probe, "", "", true, 0)
  }

  /** async_read_some, to be answered by `handler`. */
  function Listen(s: Streamer, handler: Handler): (t: Streamer)
    ensures KeepsReceived(s, t) && t.phase == s.phase
  {
    s.(pending := s.pending + multiset{handler})
  }

  function Fail(s: Streamer): (t: Streamer)
    ensures KeepsReceived(s, t) && t.phase == s.phase
  {
    s.(status := FAILED)
  }

  function GiveUpCaching(s: Streamer): Streamer {
    s.(cacheable := false)
  }

  function Asking(s: Streamer, asks: bool): Streamer {
    s.(request := s.request.(asksForEtag := asks))
  }

  /** sendAndListen: only a request that was sent is listened to, and is then no longer marked as a probe. */
  function SendAndListen(s: Streamer, net: Connection): Streamer {
    match net
    case ConnectFailed => s
    case WriteFailed => Asking(s, true)
    case Sent => Listen(Asking(s.(adrift := false), false), CacheHandler)
  }

  function MarkFinishing(s: Streamer): (t: Streamer)
    ensures KeepsReceived(s, t) && t.phase == s.phase
  {
    if s.finishing then s else s.(finishing := true, stops := s.stops + 1)
  }

  /** The destructor. */
  function Destroyed(s: Streamer): Streamer {
    if s.finishing then s else s.(stops := s.stops + 1)
  }

  /** The cache insertion that handleError performs on a clean end of the stream. */
  predicate Inserts(s: Streamer, c: Completion) {
    c.Eof? && s.cacheable && s.cachedContent != "" && !s.timedOut
  }

  function InsertedEntry(gw: Gateway, s: Streamer): Entry {
    Entry(s.metadata.(bufferHash := gw.hash(s.cachedContent)), s.cachedContent)
  }

  function HandleError(s: Streamer, c: Completion): (t: Streamer)
    requires !c.Data?
    ensures t == s.(status := t.status, adrift := t.adrift)
    ensures t.status == ONGOING && s.status == ONGOING ==> c.Aborted? && !s.timedOut && t.adrift
  {
    match c
    case Eof => s.(status := FINISHED)
    case Aborted => if s.timedOut then Fail(s) else s.(adrift := true)
    case Broken => Fail(s)
  }

  function NewConnection(s: Streamer): Streamer {
    s.(clientBuffer := "", headerBuffer := "", cachedContent := "", phase := ContentHeaders, received := "")
  }

  function SendContentRequest(s: Streamer, net: Connection): (t: Streamer)
    ensures Keeps(s, t) && t.received == "" && t.phase == ContentHeaders && t.adrift == s.adrift
  {
    if net == Sent then Listen(NewConnection(s), HeaderHandler) else Fail(NewConnection(s))
  }

  /** Pass a response on to the client from its first byte. */
  function StartStreaming(s: Streamer): (t: Streamer)
    ensures KeepsReceived(s, t) && t.phase == Streaming && t.clientBuffer == s.headerBuffer
  {
    Listen(s.(clientBuffer := s.headerBuffer, phase := Streaming), DataHandler)
  }

  /** The backend does not take part in caching. */
  function PassThrough(s: Streamer): (t: Streamer)
    ensures KeepsReceived(s, t) && t.phase == Streaming && t.clientBuffer == s.headerBuffer
  {
    MarkFinishing(StartStreaming(GiveUpCaching(s)))
  }

  /** The cached answer, with the expiration time the backend gave just now. */
  function AnswerFromCache(gw: Gateway, request: Request, response: Response, hit: Found): ClientResponse {
    var meta := if response.expires.Some? then hit.meta.(expires := response.expires.value) else hit.meta;
    BuildCacheResponse(gw, request, hit.buffer, meta)
  }

  /** A bare If-Modified-Since is honoured whatever its date. */
  predicate AsksOnlyForChanges(request: Request) {
    request.ifMatch.None? && request.ifNoneMatch.None? && request.ifModifiedSince.Some?
  }

  /**
   * What the client may expect of an answer from the cache: a body unless its preconditions say
   * otherwise, and then the cached one with its own type and encoding, and a length that is true.
   */
  predicate FaithfulAnswer(gw: Gateway, request: Request, response: Response, hit: Found, answer: ClientResponse) {
    var (required, suggested) := gw.evaluate(request, hit.meta.etag);
    && (answer.content.Some? <==> required && !AsksOnlyForChanges(request))
    && (answer.content.Some? ==> answer.status == 200 && answer.content.value == hit.buffer)
    && (answer.content.None? ==> answer.status == if required then 304 else suggested)
    && BodyHeaders(hit, answer)
    && FaithfulHeaders(gw, response, hit.meta, answer)
  }

  /**
   * In any case: the validator and the directives of what is cached, and the expiration time that the
   * backend has just sent.
   */
  predicate FaithfulHeaders(gw: Gateway, response: Response, meta: MetaData, answer: ClientResponse) {
    && Carries(answer, "ETag", if meta.etag in ["", "0"] then None else Some(meta.etag))
    && Carries(answer, "Cache-Control", Some(if meta.cacheControl == "" then "must-revalidate" else meta.cacheControl))
    && Carries(answer, "Vary", Some(if meta.vary == "" then "Accept-Encoding" else meta.vary))
    && Carries(answer, "Access-Control-Allow-Origin", if meta.allowOrigin == "" then None else Some(meta.allowOrigin))
    && Carries(answer, "Expires", Some(
         if response.expires.Some? && response.expires.value != "" then response.expires.value
         else if response.expires.Some? || meta.expires == "" then "Thu, 01 Jan 1970 00:00:00 GMT"
         else meta.expires))
    && Carries(answer, "Date", Some(gw.date)) && Carries(answer, "Server", Some(gw.serverName))
    && Carries(answer, "X-Frontend-Server", Some(gw.hostName))
    && Carries(answer, "Connection", if gw.version == "1.1" then Some("close") else None)
  }

  predicate Carries(answer: ClientResponse, name: string, value: Option<string>) {
    if value.None? then name !in answer.headers else name in answer.headers && answer.headers[name] == value.value
  }

  /** The answer carries `value` under `name` if the common headers do, and `name` is none of those that come with a body. */
  lemma CommonHeaderIsCarried(gw: Gateway, request: Request, buffer: Bytes, meta: MetaData, name: string, value: Option<string>)
    requires name !in ["Content-Type", "Content-Length", "X-Frontend-Cache-Hit", "Content-Encoding"]
    requires Carries(ClientResponse(CommonHeaders(gw, meta), 0, None), name, value)
    ensures Carries(BuildCacheResponse(gw, request, buffer, meta), name, value)
  {
  }

  lemma ServerHeadersAreCarried(gw: Gateway, request: Request, buffer: Bytes, meta: MetaData)
    ensures
      var answer := BuildCacheResponse(gw, request, buffer, meta);
      && Carries(answer, "Date", Some(gw.date)) && Carries(answer, "Server", Some(gw.serverName))
      && Carries(answer, "X-Frontend-Server", Some(gw.hostName))
  {
    CommonHeaderIsCarried(gw, request, buffer, meta, "Date", Some(gw.date));
    CommonHeaderIsCarried(gw, request, buffer, meta, "Server", Some(gw.serverName));
    CommonHeaderIsCarried(gw, request, buffer, meta, "X-Frontend-Server", Some(gw.hostName));
  }

  lemma DirectivesAreCarried(gw: Gateway, request: Request, buffer: Bytes, meta: MetaData)
    ensures
      var answer := BuildCacheResponse(gw, request, buffer, meta);
      && Carries(answer, "ETag", if meta.etag in ["", "0"] then None else Some(meta.etag))
      && Carries(answer, "Cache-Control", Some(if meta.cacheControl == "" then "must-revalidate" else meta.cacheControl))
  {
    CommonHeaderIsCarried(gw, request, buffer, meta, "ETag", if meta.etag in ["", "0"] then None else Some(meta.etag));
    CommonHeaderIsCarried(gw, request, buffer, meta, "Cache-Control",
                          Some(if meta.cacheControl == "" then "must-revalidate" else meta.cacheControl));
  }

  lemma OriginAndExpiryAreCarried(gw: Gateway, request: Request, buffer: Bytes, meta: MetaData)
    ensures
      var answer := BuildCacheResponse(gw, request, buffer, meta);
      && Carries(answer, "Access-Control-Allow-Origin", if meta.allowOrigin == "" then None else Some(meta.allowOrigin))
      && Carries(answer, "Expires", Some(if meta.expires == "" then "Thu, 01 Jan 1970 00:00:00 GMT" else meta.expires))
  {
    CommonHeaderIsCarried(gw, request, buffer, meta, "Access-Control-Allow-Origin",
                          if meta.allowOrigin == "" then None else Some(meta.allowOrigin));
    CommonHeaderIsCarried(gw, request, buffer, meta, "Expires",
                          Some(if meta.expires == "" then "Thu, 01 Jan 1970 00:00:00 GMT" else meta.expires));
  }

  lemma ConnectionAndVaryAreCarried(gw: Gateway, request: Request, buffer: Bytes, meta: MetaData)
    ensures
      var answer := BuildCacheResponse(gw, request, buffer, meta);
      && Carries(answer, "Connection", if gw.version == "1.1" then Some("close") else None)
      && Carries(answer, "Vary", Some(if meta.vary == "" then "Accept-Encoding" else meta.vary))
  {
    CommonHeaderIsCarried(gw, request, buffer, meta, "Connection", if gw.version == "1.1" then Some("close") else None);
    CommonHeaderIsCarried(gw, request, buffer, meta, "Vary", Some(if meta.vary == "" then "Accept-Encoding" else meta.vary));
  }

  lemma NoBodyHeaders(gw: Gateway, meta: MetaData)
    ensures
      var headers := CommonHeaders(gw, meta);
      && "Content-Type" !in headers && "Content-Encoding" !in headers && "Content-Length" !in headers
      && "X-Frontend-Cache-Hit" !in headers
  {
  }

  /** The headers that come with a body come with a body alone. */
  predicate BodyHeaders(hit: Found, answer: ClientResponse) {
    && Carries(answer, "Content-Type", if answer.content.Some? then Some(hit.meta.mimeType) else None)
    && Carries(answer, "Content-Encoding",
               if answer.content.None? || hit.meta.contentEncoding == "" then None else Some(hit.meta.contentEncoding))
    && Carries(answer, "Content-Length", if answer.content.Some? then Some(Decimal(|hit.buffer|)) else None)
    && Carries(answer, "X-Frontend-Cache-Hit", if answer.content.Some? then Some("true") else None)
  }

  lemma BodyHeadersAreCarried(gw: Gateway, request: Request, buffer: Bytes, meta: MetaData)
    ensures BodyHeaders(Found(buffer, meta), BuildCacheResponse(gw, request, buffer, meta))
  {
    NoBodyHeaders(gw, meta);
  }

  lemma FullAnswerIsFaithful(gw: Gateway, request: Request, response: Response, hit: Found)
    ensures FaithfulAnswer(gw, request, response, hit, AnswerFromCache(gw, request, response, hit))
  {
    var meta := if response.expires.Some? then hit.meta.(expires := response.expires.value) else hit.meta;
    var answer := BuildCacheResponse(gw, request, hit.buffer, meta);
    ServerHeadersAreCarried(gw, request, hit.buffer, meta);
    DirectivesAreCarried(gw, request, hit.buffer, meta);
    OriginAndExpiryAreCarried(gw, request, hit.buffer, meta);
    ConnectionAndVaryAreCarried(gw, request, hit.buffer, meta);
    BodyHeadersAreCarried(gw, request, hit.buffer, meta);
    assert AnswerFromCache(gw, request, response, hit) == answer;
  }

  /** The whole answer is ready at once, and must not be cached again. */
  function PutAnswer(gw: Gateway, s: Streamer, answer: ClientResponse): Streamer {
    s.(cacheable := false, clientBuffer := gw.render(answer), status := FINISHED, phase := Served(answer))
  }

  function ServeHit(gw: Gateway, s: Streamer, answer: ClientResponse): (t: Streamer)
    ensures KeepsReceived(s, t) && t.phase == Served(answer)
  {
    MarkFinishing(PutAnswer(gw, s, answer))
  }

  function AppendHeaders(s: Streamer, chunk: Bytes): Streamer {
    s.(headerBuffer := s.headerBuffer + chunk, received := s.received + chunk)
  }

  /** The probe is answered with an ETag, so the cache is asked. */
  predicate ProbeAnswered(gw: Gateway, s: Streamer, c: Completion) {
    c.Data? && var parsed := gw.parse(s.headerBuffer + c.chunk); parsed.ParseComplete? && parsed.response.etag.Some?
  }

  function ProbeEtag(gw: Gateway, s: Streamer, c: Completion): string
    requires ProbeAnswered(gw, s, c)
  {
    gw.parse(s.headerBuffer + c.chunk).response.etag.value
  }

  /** What a probe's header buffer leads to; `found` is what the cache lookups gave, `net` how a content request fares. */
  function ProbeSeen(gw: Gateway, s: Streamer, found: Option<Found>, net: Connection): (t: Streamer)
    ensures Keeps(s, t) && t.adrift == s.adrift
    ensures s.phase == Probe ==> t.received == if t.phase == ContentHeaders then "" else s.received
    ensures s.phase == Probe && t.phase.Served? ==>
              found.Some? && gw.parse(s.headerBuffer).ParseComplete? && gw.parse(s.headerBuffer).response.etag.Some?
  {
    match gw.parse(s.headerBuffer)
    case ParseFailed => Fail(s)
    case ParseIncomplete => Listen(s, CacheHandler)
    case ParseComplete(response, _) =>
      if response.etag.None? then PassThrough(s)
      else if found.None? then SendContentRequest(s, net)
      else ServeHit(gw, s, AnswerFromCache(gw, s.request, response, found.value))
  }

  function ReadCacheResponse(gw: Gateway, s: Streamer, c: Completion, found: Option<Found>, net: Connection): (t: Streamer)
    ensures c.Data? && s.phase == Probe ==> Receives(s, c.chunk, t)
    ensures s.phase == Probe && t.phase.Served? ==> ProbeAnswered(gw, s, c) && found.Some?
  {
    if c.Data? then ProbeSeen(gw, AppendHeaders(s, c.chunk), found, net) else HandleError(s, c)
  }

  /** The metadata and the body so far of a response that may be cached. */
  function StartMirror(s: Streamer, response: Response, end: nat): Streamer
    requires Cacheable(response)
  {
    s.(metadata := BuildMetadata(response), cachedContent := BodyAfter(s.headerBuffer, end))
  }

  /** What the header buffer of a content response leads to. */
  function HeadersSeen(gw: Gateway, s: Streamer): (t: Streamer)
    ensures KeepsReceived(s, t)
    ensures s.phase == ContentHeaders ==> !t.phase.Served? && !t.phase.Probe?
  {
    match gw.parse(s.headerBuffer)
    case ParseFailed => Fail(s)
    case ParseIncomplete => Listen(s, HeaderHandler)
    case ParseComplete(response, end) =>
      StartStreaming(if Cacheable(response) then StartMirror(s, response, end) else GiveUpCaching(s))
  }

  function ReadDataResponseHeaders(gw: Gateway, s: Streamer, c: Completion): (t: Streamer)
    ensures c.Data? && s.phase == ContentHeaders ==> Receives(s, c.chunk, t)
    ensures s.phase == ContentHeaders ==> !t.phase.Served?
  {
    if c.Data? then HeadersSeen(gw, AppendHeaders(s, c.chunk)) else HandleError(s, c)
  }

  function AppendData(s: Streamer, chunk: Bytes): Streamer {
    s.(clientBuffer := s.clientBuffer + chunk, received := s.received + chunk)
  }

  /** Keep a copy for the cache, unless it has grown too large. */
  function MirrorBody(s: Streamer, chunk: Bytes): (t: Streamer)
    ensures KeepsReceived(s, t) && t.clientBuffer == s.clientBuffer && SameHeaders(s, t)
  {
    if !s.cacheable then s
    else if |s.cachedContent + chunk| > PROXY_MAX_CACHED_BUFFER_SIZE then s.(cacheable := false, cachedContent := "")
    else s.(cachedContent := s.cachedContent + chunk)
  }

  function ListenUnlessFull(s: Streamer): (t: Streamer)
    ensures KeepsReceived(s, t) && t.clientBuffer == s.clientBuffer && SameHeaders(s, t)
  {
    if |s.clientBuffer| > PROXY_MAX_BUFFER_SIZE then s.(bufferFull := true) else Listen(s, DataHandler)
  }

  function BodySeen(s: Streamer, chunk: Bytes): (t: Streamer)
    ensures Keeps(s, t) && t.received == s.received + chunk && t.adrift == s.adrift
    ensures t.clientBuffer == s.clientBuffer + chunk && SameHeaders(s, t)
  {
    ListenUnlessFull(MirrorBody(AppendData(s, chunk), chunk))
  }

  function ReadDataResponse(s: Streamer, c: Completion): (t: Streamer)
    ensures c.Data? && s.phase == Streaming ==>
              Receives(s, c.chunk, t) && t.clientBuffer == s.clientBuffer + c.chunk && SameHeaders(s, t)
  {
    if c.Data? then BodySeen(s, c.chunk) else HandleError(s, c)
  }

  function HandleTimeout(s: Streamer, aborted: bool): Streamer {
    if aborted then s else GiveUpCaching(s.(timedOut := true))
  }

  /** Common beginning of getChunk and getPeekString: must the consumer wait, or is the stream over? */
  predicate MustWait(s: Streamer) {
    s.clientBuffer == "" && s.status == ONGOING
  }

  function NoteExit(s: Streamer): Streamer {
    if s.clientBuffer != "" || s.status == ONGOING then s
    else s.(exit := if s.status == FINISHED then EXIT_OK else EXIT_ERROR)
  }

  function HandOver(s: Streamer): Streamer {
    s.(delivered := s.delivered + s.clientBuffer, clientBuffer := "", consumer := Ready)
  }

  /** The end of getChunk: hand over the buffer, and go on reading if it had been full. */
  function TakeChunk(s: Streamer): Streamer {
    if s.bufferFull then Listen(HandOver(s).(bufferFull := false), DataHandler) else HandOver(s)
  }

  function GetChunk(s: Streamer): Streamer {
    if MustWait(s) then s.(consumer := InChunk) else TakeChunk(NoteExit(s))
  }

  function GetPeekString(s: Streamer): Streamer {
    if MustWait(s) then s.(consumer := InPeek) else NoteExit(s)
  }

  /** The beginning of the client buffer, as getPeekString(0, len) returns it. */
  function Peeked(s: Streamer, len: nat): (peek: Bytes)
    ensures peek <= s.clientBuffer && (|peek| == len || (peek == s.clientBuffer && |peek| < len))
  {
    if |s.clientBuffer| <= len then s.clientBuffer else s.clientBuffer[..len]
  }

  /** substr(pos, len): both are converted to unsigned, so a negative length is no limit; None is an exception. */
  function Substr(buffer: Bytes, pos: int, len: int): Option<Bytes> {
    if pos < 0 || pos > |buffer| then None
    else if len < 0 || pos + len >= |buffer| then Some(buffer[pos..])
    else Some(buffer[pos..pos + len])
  }

  /** What getPeekString(pos, len) returns; nothing is there to throw on an empty buffer. */
  function PeekedAt(s: Streamer, pos: int, len: int): (peek: Option<Bytes>)
    ensures pos == 0 && len >= 0 ==> peek == Some(Peeked(s, len))
    ensures peek.None? <==> s.clientBuffer != "" && (pos < 0 || pos > |s.clientBuffer|)
    ensures peek.Some? && s.clientBuffer != "" ==> s.clientBuffer[..pos] + peek.value <= s.clientBuffer
    ensures peek.Some? && s.clientBuffer != "" ==>
              |peek.value| == if 0 <= len <= |s.clientBuffer| - pos then len else |s.clientBuffer| - pos
  {
    if s.clientBuffer == "" then Some("")
    else
      assert pos == 0 ==> s.clientBuffer[pos..] == s.clientBuffer;
      assert pos == 0 && 0 <= len <= |s.clientBuffer| ==> s.clientBuffer[pos..pos + len] == s.clientBuffer[..len];
      Substr(s.clientBuffer, pos, len)
  }

  // ---------------------------------------------------------------- steps

  datatype Event =
    | ReadDone(handler: Handler, completion: Completion, found: Option<Found>, net: Connection)
    | Timeout(aborted: bool)
    | ChunkCalled | ChunkWoken
    | PeekCalled | PeekWoken

  predicate Enabled(s: Streamer, e: Event) {
    match e
    case ReadDone(handler, completion, _, _) =>
      handler in s.pending && (completion.Data? ==> |completion.chunk| <= SOCKET_BUFFER_SIZE)
    case Timeout(_) => true
    case ChunkCalled => s.consumer == Ready
    case ChunkWoken => s.consumer == InChunk
    case PeekCalled => s.consumer == Ready
    case PeekWoken => s.consumer == InPeek
  }

  /** The outstanding read of `handler` has completed. */
  function Taken(s: Streamer, handler: Handler): Streamer {
    s.(pending := s.pending - multiset{handler})
  }

  function OnRead(gw: Gateway, s: Streamer, handler: Handler, c: Completion, found: Option<Found>, net: Connection): Streamer {
    match handler
    case CacheHandler => ReadCacheResponse(gw, s, c, found, net)
    case HeaderHandler => ReadDataResponseHeaders(gw, s, c)
    case DataHandler => ReadDataResponse(s, c)
  }

  function Next(gw: Gateway, s: Streamer, e: Event): Streamer {
    match e
    case ReadDone(handler, c, found, net) =>
      OnRead(gw, Taken(s, handler), handler, c, found, net)
    case Timeout(aborted) => HandleTimeout(s, aborted)
    case ChunkCalled => GetChunk(s)
    case ChunkWoken => TakeChunk(s)
    case PeekCalled => GetPeekString(s)
    case PeekWoken => s.(consumer := Ready)
  }

  /** The bytes this event hands to the consumer. */
  function Output(s: Streamer, e: Event): Bytes {
    if (e.ChunkCalled? && !MustWait(s)) || e.ChunkWoken? then s.clientBuffer else ""
  }
}
