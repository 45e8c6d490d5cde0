/** The HTTP messages the gateway looks at, and what it assumes of the parser that reads them. */
module Http {
  import opened Strings

  const OK := 200
  const NOT_MODIFIED := 304
  const NOT_FOUND := 404
  const BAD_GATEWAY := 502
  const SERVICE_UNAVAILABLE := 503

  /** The headers of a client request that the gateway consults, and X-Request-ETag; `rest` is everything else. */
  datatype Request = Request(
    asksForEtag: bool,
    acceptEncoding: Option<string>,
    ifModifiedSince: Option<string>,
    ifMatch: Option<string>,
    ifNoneMatch: Option<string>,
    rest: string)

  /** The headers of a backend response that the gateway consults, and the length of the body it announces. */
  datatype Response = Response(
    status: int,
    etag: Option<string>,
    contentType: Option<string>,
    contentLength: Option<nat>,
    transferEncoding: Option<string>,
    contentEncoding: Option<string>,
    expires: Option<string>,
    cacheControl: Option<string>,
    vary: Option<string>,
    allowOrigin: Option<string>,
    smartmetError: Option<string>)

  /** What the gateway answers by itself: headers, status, and a body unless none is sent. */
  datatype ClientResponse = ClientResponse(headers: map<string, string>, status: int, content: Option<Bytes>)

  /** `end` is where the header block ends in the parsed buffer. */
  datatype ParseResult = ParseFailed | ParseIncomplete | ParseComplete(response: Response, end: nat)

  type Parser = Bytes -> ParseResult

  /** Once the header block is complete, bytes after it do not matter ... */
  ghost predicate StableParser(parse: Parser) {
    && (forall x: Bytes, y: Bytes {:trigger parse(x + y)} :: parse(x).ParseComplete? ==> parse(x + y) == parse(x))
    && TightParser(parse)
  }

  /** ... and it is complete as soon as its last byte has been seen. */
  ghost predicate TightParser(parse: Parser) {
    && (forall x: Bytes :: parse(x).ParseComplete? ==> parse(x).end <= |x|)
    && (forall x: Bytes, y: Bytes {:trigger parse(x + y)} ::
          parse(x + y).ParseComplete? && parse(x + y).end <= |x| ==> parse(x) == parse(x + y))
  }

  /** The body bytes in `buffer` when its header block ends at `end`. */
  function BodyAfter(buffer: Bytes, end: nat): Bytes {
    if end <= |buffer| then buffer[end..] else ""
  }

  lemma StableUnderExtension(parse: Parser, x: Bytes, z: Bytes)
    requires StableParser(parse) && parse(x).ParseComplete? && x <= z
    ensures parse(z) == parse(x)
  {
    assert z == x + z[|x|..];
  }

  /** The parser needs no byte beyond the header block, so a shorter buffer holding it is complete too. */
  lemma CompleteOnceHeadersSeen(parse: Parser, x: Bytes, z: Bytes)
    requires StableParser(parse) && x <= z
    requires parse(z).ParseComplete? && parse(z).end <= |x|
    ensures parse(x) == parse(z)
  {
    assert z == x + z[|x|..];
  }

  const CRLF := "\r\n"
  const BLANK_LINE := CRLF + CRLF

  function HeaderBlock(buffer: Bytes, end: nat): Bytes {
    if end <= |buffer| then buffer[..end] else buffer
  }

  /** Read the header block up to its blank line with `headers`, if it can, and look no further. */
  function ParseToBlankLine(headers: Bytes -> Option<Response>, x: Bytes): ParseResult {
    match Find(x, BLANK_LINE)
    case None => ParseIncomplete
    case Some(i) =>
      var response := headers(HeaderBlock(x, i + |BLANK_LINE|));
      if response.None? then ParseFailed else ParseComplete(response.value, i + |BLANK_LINE|)
  }

  function BlankLineParser(headers: Bytes -> Option<Response>): Parser {
    (x: Bytes) => ParseToBlankLine(headers, x)
  }

  lemma BlankLineEndsParsing(headers: Bytes -> Option<Response>, x: Bytes, y: Bytes)
    requires Find(x, BLANK_LINE).Some?
    ensures ParseToBlankLine(headers, x + y) == ParseToBlankLine(headers, x)
    ensures ParseToBlankLine(headers, x).ParseComplete? ==> ParseToBlankLine(headers, x).end <= |x|
  {
    FindIsStable(x, y, BLANK_LINE);
    var end := Find(x, BLANK_LINE).value + |BLANK_LINE|;
    assert (x + y)[..end] == x[..end];
  }

  /** The blank line is still the first one when what comes after it is cut off. */
  lemma NothingAfterBlankLine(headers: Bytes -> Option<Response>, x: Bytes, y: Bytes)
    requires ParseToBlankLine(headers, x + y).ParseComplete? && ParseToBlankLine(headers, x + y).end <= |x|
    ensures ParseToBlankLine(headers, x) == ParseToBlankLine(headers, x + y)
  {
    FindWithin(x, y, BLANK_LINE);
    var end := Find(x + y, BLANK_LINE).value + |BLANK_LINE|;
    assert (x + y)[..end] == x[..end];
  }

  /** Any parser of that kind is stable, whatever it makes of the header lines. */
  lemma {:induction false} BlankLineParserIsStable(headers: Bytes -> Option<Response>)
    ensures StableParser(BlankLineParser(headers))
  {
    var parse := BlankLineParser(headers);
    forall x: Bytes, y: Bytes | parse(x).ParseComplete?
      ensures parse(x + y) == parse(x) && parse(x).end <= |x|
    {
      BlankLineEndsParsing(headers, x, y);
    }
    forall x: Bytes | parse(x).ParseComplete?
      ensures parse(x).end <= |x|
    {
      BlankLineEndsParsing(headers, x, "");
    }
    forall x: Bytes, y: Bytes | parse(x + y).ParseComplete? && parse(x + y).end <= |x|
      ensures parse(x) == parse(x + y)
    {
      NothingAfterBlankLine(headers, x, y);
    }
  }
}
