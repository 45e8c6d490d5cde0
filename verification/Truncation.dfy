/**
 * Bodies cut short. The end of a connection counts as a clean end wherever in the body it comes, and the
 * announced length is not looked at, so a body may be cached, and served from the cache, that is not all
 * that the backend meant to send.
 */
module Truncation {
  import opened Strings
  import opened Http
  import opened CacheModel
  import opened StreamerMachine
  import opened StreamerRuns
  import opened GatewayTheorems

  /** A whole response, whose headers announce the length of its body. */
  predicate Announced(parse: Parser, message: Bytes) {
    var parsed := parse(message);
    && parsed.ParseComplete? && parsed.end <= |message|
    && parsed.response.contentLength == Some(|message| - parsed.end)
  }

  /** The length announced in a header block, as far as the connection has brought it. */
  function AnnouncedLength(parse: Parser, stream: Bytes): nat
    requires parse(stream).ParseComplete? && parse(stream).response.contentLength.Some?
  {
    parse(stream).response.contentLength.value
  }

  /** What came before the connection ended holds the whole body exactly if it is as long as its headers say. */
  lemma LengthDecides(parse: Parser, stream: Bytes, message: Bytes)
    requires StableParser(parse) && Announced(parse, message)
    requires stream <= message && parse(stream).ParseComplete?
    ensures
      var end := parse(stream).end;
      && parse(stream) == parse(message) && end <= |stream|
      && stream[end..] <= message[end..]
      && (stream[end..] == message[end..] <==> |stream[end..]| == AnnouncedLength(parse, stream))
  {
    StableUnderExtension(parse, stream, message);
    var end := parse(stream).end;
    assert message == stream + message[|stream|..];
    assert message[end..] == stream[end..] + message[|stream|..];
  }

  /**
   * A cached body is a beginning of the one the backend meant to send, and all of it exactly if its
   * length is the announced one.
   */
  lemma {:induction false} CachedBodyIsComplete(gw: Gateway, run: seq<Streamer>, events: seq<Event>, i: nat, message: Bytes)
    requires StableParser(gw.parse) && IsRun(gw, run, events) && i < |events|
    requires events[i].ReadDone? && Inserts(run[i], events[i].completion)
    requires Announced(gw.parse, message) && Inputs(run, events, i) <= message
    ensures
      var body, whole := InsertedEntry(gw, run[i]).buffer, message[gw.parse(message).end..];
      body <= whole && (body == whole <==> |body| == AnnouncedLength(gw.parse, message))
  {
    CacheInsertSoundness(gw, run, events, i);
    LengthDecides(gw.parse, Inputs(run, events, i), message);
  }

  /** The same for a body served from the cache, whose own Content-Length is true of whatever was cached. */
  lemma ServedBodyIsComplete(gw: Gateway, s: Streamer, answer: ClientResponse, source: Streamer, message: Bytes)
    requires StableParser(gw.parse) && Reproduces(gw, s, answer, source)
    requires Announced(gw.parse, message) && source.received <= message
    ensures
      var whole := message[gw.parse(message).end..];
      && answer.content.Some? && answer.content.value <= whole
      && (answer.content.value == whole <==> |answer.content.value| == AnnouncedLength(gw.parse, message))
  {
    LengthDecides(gw.parse, source.received, message);
  }
}
