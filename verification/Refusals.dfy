/** Peeking at a response to see whether the backend refuses, over whole runs of a streamer. */
module Refusals {
  import opened Strings
  import opened Http
  import opened CacheModel
  import opened StreamerMachine
  import opened StreamerInvariant
  import opened StreamerRuns
  import opened Deny

  /** What a peek at the beginning of `stream` shows. */
  function Beginning(stream: Bytes, len: nat): Bytes {
    if |stream| <= len then stream else stream[..len]
  }

  /** A denial read off the peeked bytes is the verdict on whatever the client would have been sent. */
  lemma {:induction false} DenialIsGenuine(gw: Gateway, run: seq<Streamer>, events: seq<Event>, i: nat, j: nat, len: nat)
    requires StableParser(gw.parse) && StatusLineFirst(gw.parse)
    requires IsRun(gw, run, events) && i <= j < |run| && run[i].delivered == ""
    requires ParseBackendDenyReason(gw.parse, Peeked(run[i], len)) != NONE || gw.parse(Peeked(run[i], len)).ParseComplete?
    ensures ParseBackendDenyReason(gw.parse, Outputs(run, events, j) + run[j].clientBuffer) ==
            ParseBackendDenyReason(gw.parse, Peeked(run[i], len))
  {
    PeekIsPrefix(gw, run, events, i, j, len);
    HistoryIsHonest(gw, run, events, i);
    assert "" + Peeked(run[i], len) == Peeked(run[i], len);
    VerdictIsFinal(gw.parse, Peeked(run[i], len), Outputs(run, events, j) + run[j].clientBuffer);
  }

  lemma NothingIsNoRefusal(parse: Parser)
    requires StatusLineFirst(parse)
    ensures ParseBackendDenyReason(parse, "") == NONE
  {
    assert Find("", CRLF).None?;
  }

  /** Once a stream is passed on, the header block it began with decides whether it is a refusal. */
  lemma {:induction false} HeaderBlockDecides(gw: Gateway, run: seq<Streamer>, events: seq<Event>, j: nat)
    requires StableParser(gw.parse) && StatusLineFirst(gw.parse)
    requires IsRun(gw, run, events) && j < |run| && run[j].phase.Streaming?
    ensures run[j].headerBuffer <= Outputs(run, events, j) + run[j].clientBuffer
    ensures ParseBackendDenyReason(gw.parse, Outputs(run, events, j) + run[j].clientBuffer) ==
            ParseBackendDenyReason(gw.parse, run[j].headerBuffer)
  {
    RunKeepsInv(gw, run, events, j);
    HistoryIsHonest(gw, run, events, j);
    VerdictIsFinal(gw.parse, run[j].headerBuffer, Released(run[j]));
  }

  /** A peek into a stream that is being passed on shows its header block, as far as it reaches. */
  lemma PeekShowsHeaders(gw: Gateway, s: Streamer, len: nat)
    requires StableParser(gw.parse) && StatusLineFirst(gw.parse)
    requires Inv(gw, s) && s.phase.Streaming? && s.delivered == ""
    ensures ParseBackendDenyReason(gw.parse, Peeked(s, len)) ==
            ParseBackendDenyReason(gw.parse, Beginning(s.headerBuffer, len))
  {
    assert s.clientBuffer == s.received;
    if |s.headerBuffer| < len {
      VerdictIsFinal(gw.parse, s.headerBuffer, Peeked(s, len));
    } else {
      assert Peeked(s, len) == Beginning(s.headerBuffer, len);
    }
  }

  /** The beginning of a refusing header block hides the refusal exactly if the block goes on and its first bytes do not show it. */
  lemma BeginningHidesRefusal(parse: Parser, headers: Bytes, len: nat)
    requires StableParser(parse) && StatusLineFirst(parse)
    requires parse(headers).ParseComplete? && ParseBackendDenyReason(parse, headers) != NONE
    ensures ParseBackendDenyReason(parse, Beginning(headers, len)) == NONE <==>
            len < parse(headers).end && WireVerdict(Beginning(headers, len)) == NONE
  {
    var seen := Beginning(headers, len);
    if parse(headers).end <= len {
      CompleteOnceHeadersSeen(parse, seen, headers);
      VerdictIsFinal(parse, seen, headers);
    } else if parse(seen).ParseComplete? {
      StableUnderExtension(parse, seen, headers);
    }
  }

  /** A status line that the peek shows as a whole is judged as it would be in the whole block. */
  lemma StatusLineInView(headers: Bytes, len: nat)
    requires 13 <= len && Find(headers, CRLF).Some? && Find(headers, CRLF).value + |CRLF| <= len
    ensures WireVerdict(Beginning(headers, len)) == WireVerdict(headers)
  {
    if len < |headers| {
      var seen, rest := headers[..len], headers[len..];
      assert headers == seen + rest;
      FindWithin(seen, rest, CRLF);
      LegacyVerdictIsStable(seen, rest);
      StatusLineVerdictIsStable(seen, rest);
    }
  }

  /** The peek at `i` sees nothing to refuse, and yet what is released by `j` is a refusal. */
  ghost predicate Missed(gw: Gateway, run: seq<Streamer>, events: seq<Event>, i: nat, j: nat, len: nat)
    requires i <= j <= |events| < |run|
  {
    && ParseBackendDenyReason(gw.parse, Peeked(run[i], len)) == NONE
    && ParseBackendDenyReason(gw.parse, Outputs(run, events, j) + run[j].clientBuffer) != NONE
  }

  /**
   * A refusal gets past the peek exactly if the header block that the stream turned out to begin with
   * refuses, and either the peek came before that block was complete, or the block is longer than the
   * peek and the first bytes it shows do not refuse by themselves.
   */
  lemma {:induction false} RefusalIsMissed(gw: Gateway, run: seq<Streamer>, events: seq<Event>, i: nat, j: nat, len: nat)
    requires StableParser(gw.parse) && StatusLineFirst(gw.parse)
    requires IsRun(gw, run, events) && i <= j < |run| && run[i].delivered == "" && run[j].phase.Streaming?
    ensures gw.parse(run[j].headerBuffer).ParseComplete?
    ensures
      var headers := run[j].headerBuffer;
      Missed(gw, run, events, i, j, len) <==>
        && ParseBackendDenyReason(gw.parse, headers) != NONE
        && (!run[i].phase.Streaming?
            || (len < gw.parse(headers).end && WireVerdict(Beginning(headers, len)) == NONE))
  {
    RunKeepsInv(gw, run, events, i);
    RunKeepsInv(gw, run, events, j);
    RunEvolves(gw, run, events, i, j);
    HeaderBlockDecides(gw, run, events, j);
    var headers := run[j].headerBuffer;
    if ParseBackendDenyReason(gw.parse, headers) != NONE {
      if run[i].phase.Streaming? {
        PeekShowsHeaders(gw, run[i], len);
        BeginningHidesRefusal(gw.parse, headers, len);
      } else {
        NothingIsNoRefusal(gw.parse);
      }
    }
  }

  /**
   * A peek into a stream already passed on that shows the whole status line misses a refusal exactly if
   * only the error header carries it and the header block goes on after the peek.
   */
  lemma {:induction false} OnlyErrorHeaderIsMissed(gw: Gateway, run: seq<Streamer>, events: seq<Event>, i: nat, j: nat, len: nat)
    requires StableParser(gw.parse) && StatusLineFirst(gw.parse)
    requires IsRun(gw, run, events) && i <= j < |run| && run[i].delivered == "" && run[i].phase.Streaming?
    requires Find(run[i].headerBuffer, CRLF).Some? && Find(run[i].headerBuffer, CRLF).value + |CRLF| <= len && 13 <= len
    ensures run[j].phase.Streaming? && run[j].headerBuffer == run[i].headerBuffer
    ensures gw.parse(run[i].headerBuffer).ParseComplete?
    ensures
      var headers := run[i].headerBuffer;
      Missed(gw, run, events, i, j, len) <==>
        && WireVerdict(headers) == NONE && HeaderVerdict(gw.parse, headers) != NONE
        && len < gw.parse(headers).end
  {
    RunEvolves(gw, run, events, i, j);
    RefusalIsMissed(gw, run, events, i, j, len);
    StatusLineInView(run[i].headerBuffer, len);
  }

  /** A first peek that is not empty and reaches the end of the header block misses nothing. */
  lemma {:induction false} LongPeekMissesNothing(gw: Gateway, run: seq<Streamer>, events: seq<Event>, i: nat, j: nat, len: nat)
    requires StableParser(gw.parse) && StatusLineFirst(gw.parse)
    requires IsRun(gw, run, events) && i <= j < |run| && run[i].delivered == ""
    requires run[i].phase.Streaming?
    requires gw.parse(run[i].headerBuffer).ParseComplete? && gw.parse(run[i].headerBuffer).end <= len
    ensures ParseBackendDenyReason(gw.parse, Outputs(run, events, j) + run[j].clientBuffer) ==
            ParseBackendDenyReason(gw.parse, Peeked(run[i], len))
  {
    RunKeepsInv(gw, run, events, i);
    FullHeadersInPeek(gw, run[i], len);
    DenialIsGenuine(gw, run, events, i, j, len);
  }

  lemma FullHeadersInPeek(gw: Gateway, s: Streamer, len: nat)
    requires StableParser(gw.parse) && Inv(gw, s) && s.phase.Streaming? && s.delivered == ""
    requires gw.parse(s.headerBuffer).ParseComplete? && gw.parse(s.headerBuffer).end <= len
    ensures gw.parse(Peeked(s, len)).ParseComplete?
  {
    assert s.clientBuffer == s.received;
    CompleteOnceHeadersSeen(gw.parse, Beginning(s.headerBuffer, len), s.headerBuffer);
    StableUnderExtension(gw.parse, Beginning(s.headerBuffer, len), Peeked(s, len));
  }

  // ---------------------------------------------------------------- refusals that come late

  /** With this read, a header block is complete that refuses and will be passed on. */
  predicate RefusesNow(gw: Gateway, s: Streamer, chunk: Bytes) {
    var buffer := s.headerBuffer + chunk;
    && gw.parse(buffer).ParseComplete?
    && (s.phase == Probe ==> gw.parse(buffer).response.etag.None?)
    && ParseBackendDenyReason(gw.parse, buffer) != NONE
  }

  /** The step in which a read releases its first bytes. */
  lemma FirstRelease(gw: Gateway, s: Streamer, chunk: Bytes, found: Option<Found>, net: Connection)
    requires Inv(gw, s) && (s.phase.Probe? || s.phase.ContentHeaders?) && s.status == ONGOING && !s.adrift
    requires |chunk| <= SOCKET_BUFFER_SIZE
    ensures
      var e := ReadDone(HandlerOf(s.phase), Data(chunk), found, net);
      var next := Next(gw, s, e);
      var parsed := gw.parse(s.headerBuffer + chunk);
      && Enabled(s, e)
      && (next.phase.Streaming? <==> parsed.ParseComplete? && (s.phase == Probe ==> parsed.response.etag.None?))
      && (next.phase.Streaming? ==> Released(next) == s.headerBuffer + chunk)
  {
  }

  /**
   * As long as nothing has been released, every peek sees nothing to refuse; and a read then passes on
   * a refusal exactly if it completes a header block that is one, and the probe did not bring an ETag.
   */
  lemma NextReadMayRefuse(gw: Gateway, s: Streamer, len: nat, chunk: Bytes, found: Option<Found>, net: Connection)
    requires StatusLineFirst(gw.parse) && Inv(gw, s) && (s.phase.Probe? || s.phase.ContentHeaders?)
    requires s.status == ONGOING && !s.adrift && |chunk| <= SOCKET_BUFFER_SIZE
    ensures ParseBackendDenyReason(gw.parse, Peeked(s, len)) == NONE
    ensures
      var e := ReadDone(HandlerOf(s.phase), Data(chunk), found, net);
      var next := Next(gw, s, e);
      && Enabled(s, e)
      && (next.phase.Streaming? && ParseBackendDenyReason(gw.parse, Released(next)) != NONE <==> RefusesNow(gw, s, chunk))
  {
    NothingIsNoRefusal(gw.parse);
    FirstRelease(gw, s, chunk, found, net);
  }

  /** A timed wait that ends before the backend has answered, and then the answer. */
  function LateEvents(answer: Bytes): (events: seq<Event>)
    ensures |events| == 3
  {
    [PeekCalled, PeekWoken, ReadDone(CacheHandler, Data(answer), None, Sent)]
  }

  function LateRun(gw: Gateway, request: Request, answer: Bytes): (run: seq<Streamer>)
    ensures |run| == 4
  {
    var start := SendAndListen(Created(request), Sent);
    var waiting := Next(gw, start, PeekCalled);
    var peeked := Next(gw, waiting, PeekWoken);
    [start, waiting, peeked, Next(gw, peeked, LateEvents(answer)[2])]
  }

  lemma LateRunIsRun(gw: Gateway, request: Request, answer: Bytes)
    requires |answer| <= SOCKET_BUFFER_SIZE
    ensures IsRun(gw, LateRun(gw, request, answer), LateEvents(answer))
  {
    var run, events := LateRun(gw, request, answer), LateEvents(answer);
    assert run[0] == SendAndListen(Created(request), Sent);
    forall i | 0 <= i < |events|
      ensures MovesAt(gw, run, events, i)
    {
      assert i == 0 || i == 1 || i == 2;
    }
  }

  lemma LateRunOutputs(gw: Gateway, request: Request, answer: Bytes)
    ensures Outputs(LateRun(gw, request, answer), LateEvents(answer), 3) == ""
  {
    var run, events := LateRun(gw, request, answer), LateEvents(answer);
    assert Outputs(run, events, 1) == Outputs(run, events, 0) + Output(run[0], events[0]);
    assert Outputs(run, events, 2) == Outputs(run, events, 1) + Output(run[1], events[1]);
    assert Outputs(run, events, 3) == Outputs(run, events, 2) + Output(run[2], events[2]);
  }

  lemma ProbePassesOn(gw: Gateway, s: Streamer, answer: Bytes)
    requires s.phase == Probe && s.headerBuffer == ""
    requires gw.parse(answer).ParseComplete? && gw.parse(answer).response.etag.None?
    ensures var next := Next(gw, s, ReadDone(CacheHandler, Data(answer), None, Sent));
            next.phase.Streaming? && next.clientBuffer == answer
  {
    var t := AppendHeaders(Taken(s, CacheHandler), answer);
    assert t.headerBuffer == "" + answer == answer;
    var next := PassThrough(t);
    assert next == ProbeSeen(gw, t, None, Sent);
    assert next == Next(gw, s, ReadDone(CacheHandler, Data(answer), None, Sent));
  }

  lemma LateAnswerIsReleased(gw: Gateway, request: Request, answer: Bytes)
    requires gw.parse(answer).ParseComplete? && gw.parse(answer).response.etag.None?
    ensures var run := LateRun(gw, request, answer);
            run[1].clientBuffer == "" && run[3].phase.Streaming? && run[3].clientBuffer == answer
  {
    var run := LateRun(gw, request, answer);
    assert run[2].phase == Probe && run[2].headerBuffer == "";
    ProbePassesOn(gw, run[2], answer);
  }

  /** The peek of a consumer that is waiting in `run[i]` sees nothing to refuse, and then a refusal is released. */
  predicate GetsPast(gw: Gateway, run: seq<Streamer>, events: seq<Event>, i: nat, j: nat, len: nat)
    requires i < j <= |events| < |run|
  {
    && events[i] == PeekWoken && ParseBackendDenyReason(gw.parse, Peeked(run[i], len)) == NONE
    && run[j].phase.Streaming?
    && ParseBackendDenyReason(gw.parse, Outputs(run, events, j) + run[j].clientBuffer) != NONE
  }

  lemma ReleasedUnseen(gw: Gateway, run: seq<Streamer>, events: seq<Event>, i: nat, j: nat, len: nat)
    requires StatusLineFirst(gw.parse) && i < j <= |events| < |run| && events[i] == PeekWoken
    requires run[i].clientBuffer == "" && run[j].phase.Streaming? && Outputs(run, events, j) == ""
    requires ParseBackendDenyReason(gw.parse, run[j].clientBuffer) != NONE
    ensures GetsPast(gw, run, events, i, j, len)
  {
    NothingIsNoRefusal(gw.parse);
    assert "" + run[j].clientBuffer == run[j].clientBuffer;
  }

  /**
   * Every refusal without an ETag that arrives in one read can get past the peek: in this run the peek
   * returns before it and shows nothing, and the client is sent the refusal.
   */
  lemma {:induction false} EarlyPeekMissesDenial(gw: Gateway, request: Request, answer: Bytes, len: nat)
    requires StatusLineFirst(gw.parse) && |answer| <= SOCKET_BUFFER_SIZE
    requires gw.parse(answer).ParseComplete? && gw.parse(answer).response.etag.None?
    requires ParseBackendDenyReason(gw.parse, answer) != NONE
    ensures IsRun(gw, LateRun(gw, request, answer), LateEvents(answer))
    ensures GetsPast(gw, LateRun(gw, request, answer), LateEvents(answer), 1, 3, len)
  {
    LateRunIsRun(gw, request, answer);
    LateRunOutputs(gw, request, answer);
    LateAnswerIsReleased(gw, request, answer);
    ReleasedUnseen(gw, LateRun(gw, request, answer), LateEvents(answer), 1, 3, len);
  }

  const REFUSAL := "HTTP/1.0 " + "3210" + " Shutdown in progress" + BLANK_LINE

  /** Such a refusal, for every parser that reads it. */
  lemma {:induction false} LegacyRefusalIsMissed(gw: Gateway, request: Request)
    requires StatusLineFirst(gw.parse)
    requires gw.parse(REFUSAL).ParseComplete? && gw.parse(REFUSAL).response.etag.None?
    ensures IsRun(gw, LateRun(gw, request, REFUSAL), LateEvents(REFUSAL))
    ensures GetsPast(gw, LateRun(gw, request, REFUSAL), LateEvents(REFUSAL), 1, 3, 4096)
  {
    assert REFUSAL[9..13] == "3210";
    EarlyPeekMissesDenial(gw, request, REFUSAL, 4096);
  }

  /** The answer comes in one read; then the frontend may peek. */
  function PromptEvents(answer: Bytes): (events: seq<Event>)
    ensures |events| == 1
  {
    [ReadDone(CacheHandler, Data(answer), None, Sent)]
  }

  function PromptRun(gw: Gateway, request: Request, answer: Bytes): (run: seq<Streamer>)
    ensures |run| == 2
  {
    var start := SendAndListen(Created(request), Sent);
    [start, Next(gw, start, PromptEvents(answer)[0])]
  }

  lemma PromptRunIsRun(gw: Gateway, request: Request, answer: Bytes)
    requires |answer| <= SOCKET_BUFFER_SIZE
    requires gw.parse(answer).ParseComplete? && gw.parse(answer).response.etag.None?
    ensures IsRun(gw, PromptRun(gw, request, answer), PromptEvents(answer))
    ensures PromptRun(gw, request, answer)[1].clientBuffer == answer
    ensures Outputs(PromptRun(gw, request, answer), PromptEvents(answer), 1) == ""
  {
    var run, events := PromptRun(gw, request, answer), PromptEvents(answer);
    assert run[0] == SendAndListen(Created(request), Sent);
    assert MovesAt(gw, run, events, 0);
    ProbePassesOn(gw, run[0], answer);
    assert Outputs(run, events, 1) == Outputs(run, events, 0) + Output(run[0], events[0]);
  }

  lemma HiddenInPeek(gw: Gateway, run: seq<Streamer>, events: seq<Event>, i: nat, answer: Bytes, len: nat)
    requires StableParser(gw.parse) && StatusLineFirst(gw.parse) && i <= |events| < |run|
    requires run[i].clientBuffer == answer && Outputs(run, events, i) == ""
    requires gw.parse(answer).ParseComplete? && ParseBackendDenyReason(gw.parse, answer) != NONE
    requires len < gw.parse(answer).end && WireVerdict(Beginning(answer, len)) == NONE
    ensures Missed(gw, run, events, i, i, len)
  {
    BeginningHidesRefusal(gw.parse, answer, len);
    assert "" + answer == answer && Peeked(run[i], len) == Beginning(answer, len);
  }

  /**
   * And every refusal in one read, without an ETag, whose header block goes on after a peek that its first
   * bytes do not give away, gets past even a peek that comes in time.
   */
  lemma {:induction false} ShortPeekMissesDenial(gw: Gateway, request: Request, answer: Bytes, len: nat)
    requires StableParser(gw.parse) && StatusLineFirst(gw.parse) && |answer| <= SOCKET_BUFFER_SIZE
    requires gw.parse(answer).ParseComplete? && gw.parse(answer).response.etag.None?
    requires ParseBackendDenyReason(gw.parse, answer) != NONE
    requires len < gw.parse(answer).end && WireVerdict(Beginning(answer, len)) == NONE
    ensures IsRun(gw, PromptRun(gw, request, answer), PromptEvents(answer))
    ensures Missed(gw, PromptRun(gw, request, answer), PromptEvents(answer), 1, 1, len)
  {
    PromptRunIsRun(gw, request, answer);
    HiddenInPeek(gw, PromptRun(gw, request, answer), PromptEvents(answer), 1, answer, len);
  }
}
