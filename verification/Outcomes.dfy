/** What becomes of a streamer, told from the events of its run alone: how it ends, what it passes on, what it caches. */
module Outcomes {
  import opened Strings
  import opened Http
  import opened CacheModel
  import opened StreamerMachine
  import opened StreamerInvariant
  import opened StreamerRuns

  // ---------------------------------------------------------------- what may happen at an event

  datatype Kind =
    | Failing   // the connection breaks, a read is cancelled after a timeout, the headers are garbled, the content cannot be asked for
    | Ending    // the backend ends the stream
    | Hitting   // the probe brings an ETag, and the cache has a body for it
    | Asking    // it does, and the cache has none
    | Passing   // a header block is complete whose response is passed on
    | Leaving   // the backend is done with as far as load balancing goes: a hit, or a response to the probe that is passed on

  /** A timer that was not cancelled has fired. */
  predicate TimedOut(events: seq<Event>, i: nat)
    requires i <= |events|
  {
    exists m :: 0 <= m < i && events[m] == Timeout(false)
  }

  /** A read of header bytes. */
  predicate HeaderRead(e: Event) {
    e.ReadDone? && e.completion.Data? && e.handler != DataHandler
  }

  /** The response whose header block this read completes, on a connection that has brought `before`. */
  function Completes(gw: Gateway, before: Bytes, e: Event): Option<Response> {
    if HeaderRead(e) && gw.parse(before + e.completion.chunk).ParseComplete?
    then Some(gw.parse(before + e.completion.chunk).response) else None
  }

  /** This read answers the probe with an ETag. */
  predicate BringsEtag(gw: Gateway, before: Bytes, e: Event) {
    var response := Completes(gw, before, e);
    response.Some? && response.value.etag.Some? && e.handler == CacheHandler
  }

  predicate Garbled(gw: Gateway, before: Bytes, e: Event) {
    HeaderRead(e) && gw.parse(before + e.completion.chunk).ParseFailed?
  }

  predicate PassesOn(gw: Gateway, before: Bytes, e: Event) {
    Completes(gw, before, e).Some? && !BringsEtag(gw, before, e)
  }

  /** Does this event amount to that, after a timeout or not? */
  predicate Amounts(gw: Gateway, before: Bytes, timedOut: bool, e: Event, kind: Kind) {
    match kind
    case Failing =>
      || (e.ReadDone? && e.completion.Broken?)
      || (e.ReadDone? && e.completion.Aborted? && timedOut)
      || Garbled(gw, before, e)
      || (BringsEtag(gw, before, e) && e.found.None? && e.net != Sent)
    case Ending => e.ReadDone? && e.completion.Eof?
    case Hitting => BringsEtag(gw, before, e) && e.found.Some?
    case Asking => BringsEtag(gw, before, e) && e.found.None?
    case Passing => PassesOn(gw, before, e)
    case Leaving => (BringsEtag(gw, before, e) && e.found.Some?) || (PassesOn(gw, before, e) && e.handler == CacheHandler)
  }

  /** The event after `k` others amounts to that, going by what the reads before it brought in. */
  predicate HappensAt(gw: Gateway, run: seq<Streamer>, events: seq<Event>, kind: Kind, k: nat)
    requires k < |events| < |run|
  {
    Amounts(gw, Inputs(run, events, k), TimedOut(events, k), events[k], kind)
  }

  ghost predicate Ever(gw: Gateway, run: seq<Streamer>, events: seq<Event>, kind: Kind, i: nat)
    requires i <= |events| < |run|
  {
    exists k :: 0 <= k < i && HappensAt(gw, run, events, kind, k)
  }

  lemma EverGrows(gw: Gateway, run: seq<Streamer>, events: seq<Event>, kind: Kind, i: nat)
    requires i < |events| < |run|
    ensures Ever(gw, run, events, kind, i + 1) <==> Ever(gw, run, events, kind, i) || HappensAt(gw, run, events, kind, i)
  {
  }

  lemma TimedOutGrows(events: seq<Event>, i: nat)
    requires i < |events|
    ensures TimedOut(events, i + 1) <==> TimedOut(events, i) || events[i] == Timeout(false)
  {
  }

  // ---------------------------------------------------------------- one step

  /** One step changes status, phase and flags exactly as its event has it. */
  predicate Decides(gw: Gateway, s: Streamer, e: Event, t: Streamer) {
    && (t.timedOut <==> s.timedOut || e == Timeout(false))
    && (t.status == FAILED <==> s.status == FAILED || Amounts(gw, s.headerBuffer, s.timedOut, e, Failing))
    && (t.status == FINISHED <==> s.status == FINISHED || Amounts(gw, s.headerBuffer, s.timedOut, e, Ending)
                                  || Amounts(gw, s.headerBuffer, s.timedOut, e, Hitting))
    && (t.phase.Served? <==> s.phase.Served? || Amounts(gw, s.headerBuffer, s.timedOut, e, Hitting))
    && (t.phase.Streaming? <==> s.phase.Streaming? || Amounts(gw, s.headerBuffer, s.timedOut, e, Passing))
    && (t.phase.Probe? <==> s.phase.Probe? && !Amounts(gw, s.headerBuffer, s.timedOut, e, Asking)
                            && !Amounts(gw, s.headerBuffer, s.timedOut, e, Hitting)
                            && !Amounts(gw, s.headerBuffer, s.timedOut, e, Passing))
    && (t.finishing <==> s.finishing || Amounts(gw, s.headerBuffer, s.timedOut, e, Leaving))
  }

  predicate SameOutcome(s: Streamer, t: Streamer) {
    t.status == s.status && t.phase == s.phase && t.finishing == s.finishing
  }

  lemma ErrorDecides(gw: Gateway, s: Streamer, e: Event)
    requires s.status == ONGOING && e.ReadDone? && !e.completion.Data?
    ensures Decides(gw, s, e, Next(gw, s, e))
  {
    var t := HandleError(Taken(s, e.handler), e.completion);
    assert t == Next(gw, s, e) && SameOutcome(s, t.(status := s.status));
    assert Completes(gw, s.headerBuffer, e).None?;
  }

  /** `t` is `s` with this status, phase and standing in the load balancing, and no timeout noticed. */
  predicate Turns(s: Streamer, status: GatewayStatus, phase: Phase, finishing: bool, t: Streamer) {
    t.status == status && t.phase == phase && t.finishing == finishing && t.timedOut == s.timedOut
  }

  lemma HeadersAppended(s: Streamer, e: Event)
    requires HeaderRead(e)
    ensures
      var t := AppendHeaders(Taken(s, e.handler), e.completion.chunk);
      SameOutcome(s, t) && t.timedOut == s.timedOut && t.headerBuffer == s.headerBuffer + e.completion.chunk
  {
  }

  lemma AnswersTurn(gw: Gateway, s: Streamer, net: Connection, answer: ClientResponse)
    ensures Turns(s, s.status, Streaming, true, PassThrough(s))
    ensures Turns(s, if net == Sent then s.status else FAILED, ContentHeaders, s.finishing, SendContentRequest(s, net))
    ensures Turns(s, FINISHED, Served(answer), true, ServeHit(gw, s, answer))
  {
  }

  /** The phase a probe's complete header block leads to. */
  predicate ProbeTurnsOut(s: Streamer, response: Response, found: Option<Found>, net: Connection, t: Streamer) {
    if response.etag.None? then Turns(s, s.status, Streaming, true, t)
    else if found.None? then Turns(s, if net == Sent then s.status else FAILED, ContentHeaders, s.finishing, t)
    else t.phase.Served? && Turns(s, FINISHED, t.phase, true, t)
  }

  lemma ProbeTurns(gw: Gateway, s: Streamer, found: Option<Found>, net: Connection)
    ensures
      match gw.parse(s.headerBuffer)
      case ParseFailed => Turns(s, FAILED, s.phase, s.finishing, ProbeSeen(gw, s, found, net))
      case ParseIncomplete => Turns(s, s.status, s.phase, s.finishing, ProbeSeen(gw, s, found, net))
      case ParseComplete(response, _) => ProbeTurnsOut(s, response, found, net, ProbeSeen(gw, s, found, net))
  {
    match gw.parse(s.headerBuffer)
    case ParseFailed =>
    case ParseIncomplete =>
    case ParseComplete(response, _) =>
      if response.etag.Some? && found.Some? {
        AnswersTurn(gw, s, net, AnswerFromCache(gw, s.request, response, found.value));
      } else {
        AnswersTurn(gw, s, net, ClientResponse(map[], OK, None));
      }
  }

  lemma ProbeDecides(gw: Gateway, s: Streamer, e: Event)
    requires s.phase == Probe && s.status == ONGOING && HeaderRead(e) && e.handler == CacheHandler
    ensures Decides(gw, s, e, Next(gw, s, e))
  {
    var t := AppendHeaders(Taken(s, e.handler), e.completion.chunk);
    HeadersAppended(s, e);
    ProbeTurns(gw, t, e.found, e.net);
    NextAfterProbe(gw, s, e);
  }

  lemma NextAfterProbe(gw: Gateway, s: Streamer, e: Event)
    requires HeaderRead(e) && e.handler == CacheHandler
    ensures Next(gw, s, e) == ProbeSeen(gw, AppendHeaders(Taken(s, e.handler), e.completion.chunk), e.found, e.net)
  {
  }

  lemma HeadersTurn(gw: Gateway, s: Streamer)
    ensures
      match gw.parse(s.headerBuffer)
      case ParseFailed => Turns(s, FAILED, s.phase, s.finishing, HeadersSeen(gw, s))
      case ParseIncomplete => Turns(s, s.status, s.phase, s.finishing, HeadersSeen(gw, s))
      case ParseComplete(_, _) => Turns(s, s.status, Streaming, s.finishing, HeadersSeen(gw, s))
  {
  }

  lemma HeadersDecide(gw: Gateway, s: Streamer, e: Event)
    requires s.phase == ContentHeaders && s.status == ONGOING && HeaderRead(e) && e.handler == HeaderHandler
    ensures Decides(gw, s, e, Next(gw, s, e))
  {
    var t := AppendHeaders(Taken(s, e.handler), e.completion.chunk);
    HeadersAppended(s, e);
    HeadersTurn(gw, t);
    assert Next(gw, s, e) == HeadersSeen(gw, t);
  }

  lemma BodyTurnsNothing(s: Streamer, chunk: Bytes)
    ensures Turns(s, s.status, s.phase, s.finishing, BodySeen(s, chunk))
  {
    var t := AppendData(s, chunk);
    assert Turns(s, s.status, s.phase, s.finishing, MirrorBody(t, chunk));
  }

  lemma DataDecides(gw: Gateway, s: Streamer, e: Event)
    requires s.phase == Streaming && s.status == ONGOING && e.ReadDone? && e.completion.Data? && e.handler == DataHandler
    ensures Decides(gw, s, e, Next(gw, s, e))
  {
    var t := Taken(s, e.handler);
    BodyTurnsNothing(t, e.completion.chunk);
    assert Next(gw, s, e) == BodySeen(t, e.completion.chunk);
    assert SameOutcome(s, t) && Completes(gw, s.headerBuffer, e).None?;
  }

  lemma ReadDecides(gw: Gateway, s: Streamer, e: Event)
    requires s.status == ONGOING && e.ReadDone? && e.handler == HandlerOf(s.phase) && !s.phase.Served?
    ensures Decides(gw, s, e, Next(gw, s, e))
  {
    if !e.completion.Data? {
      ErrorDecides(gw, s, e);
    } else {
      match s.phase
      case Probe => ProbeDecides(gw, s, e);
      case ContentHeaders => HeadersDecide(gw, s, e);
      case Streaming => DataDecides(gw, s, e);
    }
  }

  lemma OthersDecide(gw: Gateway, s: Streamer, e: Event)
    requires !e.ReadDone?
    ensures Decides(gw, s, e, Next(gw, s, e))
  {
    assert Completes(gw, s.headerBuffer, e).None?;
    ChangesNoOutcome(gw, s, e);
  }

  /** Nothing that matters to caching is different. */
  predicate SameCaching(s: Streamer, t: Streamer) {
    && t.cacheable == s.cacheable && t.timedOut == s.timedOut && t.phase == s.phase
    && t.headerBuffer == s.headerBuffer && t.received == s.received
  }

  lemma TakingTurnsNothing(s: Streamer)
    ensures Turns(s, s.status, s.phase, s.finishing, TakeChunk(s))
    ensures Turns(s, s.status, s.phase, s.finishing, NoteExit(s))
    ensures SameCaching(s, TakeChunk(s)) && SameCaching(s, NoteExit(s))
  {
  }

  lemma GetChunkTurnsNothing(s: Streamer)
    ensures Turns(s, s.status, s.phase, s.finishing, GetChunk(s)) && SameCaching(s, GetChunk(s))
  {
    TakingTurnsNothing(NoteExit(s));
    TakingTurnsNothing(s);
  }

  /** What the consumer does turns nothing, and touches neither the headers nor the right to cache. */
  lemma ConsumerTurnsNothing(gw: Gateway, s: Streamer, e: Event)
    requires !e.ReadDone? && !e.Timeout?
    ensures Turns(s, s.status, s.phase, s.finishing, Next(gw, s, e)) && SameCaching(s, Next(gw, s, e))
  {
    match e
    case ChunkCalled => GetChunkTurnsNothing(s);
    case ChunkWoken => TakingTurnsNothing(s);
    case PeekCalled => TakingTurnsNothing(s);
    case PeekWoken =>
  }

  lemma ChangesNoOutcome(gw: Gateway, s: Streamer, e: Event)
    requires !e.ReadDone?
    ensures SameOutcome(s, Next(gw, s, e)) && (Next(gw, s, e).timedOut <==> s.timedOut || e == Timeout(false))
  {
    if !e.Timeout? {
      ConsumerTurnsNothing(gw, s, e);
    }
  }

  lemma StepDecides(gw: Gateway, s: Streamer, e: Event)
    requires Inv(gw, s) && Enabled(s, e)
    ensures Decides(gw, s, e, Next(gw, s, e))
  {
    if e.ReadDone? {
      ReadDecides(gw, s, e);
    } else {
      OthersDecide(gw, s, e);
    }
  }

  /** A read of body bytes adds them to the buffer, and fills it exactly if that leaves more than 16 MB. */
  lemma DataReadFills(gw: Gateway, s: Streamer, e: Event)
    requires s.phase == Streaming && !s.bufferFull && e.ReadDone? && e.completion.Data? && e.handler == DataHandler
    ensures Next(gw, s, e).clientBuffer == s.clientBuffer + e.completion.chunk
    ensures Next(gw, s, e).bufferFull <==> |s.clientBuffer| + |e.completion.chunk| > 16777216
  {
    var t := AppendData(Taken(s, e.handler), e.completion.chunk);
    var u := MirrorBody(t, e.completion.chunk);
    assert Next(gw, s, e) == ListenUnlessFull(u);
    assert u.bufferFull == s.bufferFull && u.clientBuffer == s.clientBuffer + e.completion.chunk;
  }

  // ---------------------------------------------------------------- over runs

  /** How a streamer stands after `i` events is settled by what those events were. */
  ghost predicate StandsAsToldBy(gw: Gateway, run: seq<Streamer>, events: seq<Event>, i: nat)
    requires i <= |events| < |run|
  {
    && (run[i].timedOut <==> TimedOut(events, i))
    && (run[i].status == FAILED <==> Ever(gw, run, events, Failing, i))
    && (run[i].status == FINISHED <==> Ever(gw, run, events, Ending, i) || Ever(gw, run, events, Hitting, i))
    && (run[i].phase.Served? <==> Ever(gw, run, events, Hitting, i))
    && (run[i].phase.Streaming? <==> Ever(gw, run, events, Passing, i))
    && (run[i].phase.Probe? <==> !Ever(gw, run, events, Asking, i) && !Ever(gw, run, events, Hitting, i)
                                 && !Ever(gw, run, events, Passing, i))
    && (run[i].finishing <==> Ever(gw, run, events, Leaving, i))
  }

  lemma EverythingGrows(gw: Gateway, run: seq<Streamer>, events: seq<Event>, i: nat)
    requires i < |events| < |run|
    ensures forall kind :: Ever(gw, run, events, kind, i + 1) <==> Ever(gw, run, events, kind, i) || HappensAt(gw, run, events, kind, i)
  {
    forall kind
      ensures Ever(gw, run, events, kind, i + 1) <==> Ever(gw, run, events, kind, i) || HappensAt(gw, run, events, kind, i)
    {
      EverGrows(gw, run, events, kind, i);
    }
  }

  /** While headers are read, what has been read on the connection is the header buffer. */
  lemma ReadSoFar(gw: Gateway, run: seq<Streamer>, events: seq<Event>, k: nat, kind: Kind)
    requires StableParser(gw.parse) && IsRun(gw, run, events) && k < |events|
    requires run[k].timedOut <==> TimedOut(events, k)
    ensures HappensAt(gw, run, events, kind, k) <==> Amounts(gw, run[k].headerBuffer, run[k].timedOut, events[k], kind)
  {
    RunKeepsInv(gw, run, events, k);
    HistoryIsHonest(gw, run, events, k);
    assert MovesAt(gw, run, events, k);
    if HeaderRead(events[k]) {
      assert run[k].headerBuffer == Inputs(run, events, k);
    }
  }

  /**
   * A streamer has failed exactly if a read broke, was cancelled after a timeout or brought garbled
   * headers, or the content could not be asked for; it has finished exactly if a read came to the
   * end of the stream or the cache had an answer to the probe; and it is in the phase, and has left
   * the load balancing, exactly as the header blocks that came in say.
   */
  lemma {:induction false} OutcomeFollowsEvents(gw: Gateway, run: seq<Streamer>, events: seq<Event>, i: nat)
    requires StableParser(gw.parse) && IsRun(gw, run, events) && i < |run|
    ensures StandsAsToldBy(gw, run, events, i)
  {
    if i > 0 {
      OutcomeFollowsEvents(gw, run, events, i - 1);
      RunKeepsInv(gw, run, events, i - 1);
      assert MovesAt(gw, run, events, i - 1);
      StepDecides(gw, run[i - 1], events[i - 1]);
      forall kind {:trigger HappensAt(gw, run, events, kind, i - 1)}
        ensures HappensAt(gw, run, events, kind, i - 1)
                <==> Amounts(gw, run[i - 1].headerBuffer, run[i - 1].timedOut, events[i - 1], kind)
      {
        ReadSoFar(gw, run, events, i - 1, kind);
      }
      EverythingGrows(gw, run, events, i - 1);
      TimedOutGrows(events, i - 1);
    }
  }

  // ---------------------------------------------------------------- what the consumer is told

  /** The consumer asks for a chunk or a peek, the stream is over, and nothing is left of it. */
  predicate AsksAtEnd(s: Streamer, e: Event) {
    (e.ChunkCalled? || e.PeekCalled?) && s.clientBuffer == "" && s.status != ONGOING
  }

  lemma AskingTells(s: Streamer)
    ensures NoteExit(s).exit == if s.clientBuffer == "" && s.status == FINISHED then EXIT_OK
                                else if s.clientBuffer == "" && s.status == FAILED then EXIT_ERROR else s.exit
    ensures TakeChunk(s).exit == s.exit && TakeChunk(s).consumer == Ready
    ensures NoteExit(s).clientBuffer == s.clientBuffer && NoteExit(s).consumer == s.consumer
  {
  }

  lemma ErrorsAndDataTellNothing(gw: Gateway, s: Streamer, e: Event)
    requires e.ReadDone? && (!e.completion.Data? || e.handler == DataHandler)
    ensures Next(gw, s, e).exit == s.exit && Next(gw, s, e).consumer == s.consumer
  {
    var t := Taken(s, e.handler);
    if e.completion.Data? {
      assert Next(gw, s, e) == BodySeen(t, e.completion.chunk);
    } else {
      assert Next(gw, s, e) == HandleError(t, e.completion);
    }
  }

  lemma AnswersTellNothing(gw: Gateway, s: Streamer, net: Connection, answer: ClientResponse)
    ensures PassThrough(s).exit == s.exit && PassThrough(s).consumer == s.consumer
    ensures SendContentRequest(s, net).exit == s.exit && SendContentRequest(s, net).consumer == s.consumer
    ensures ServeHit(gw, s, answer).exit == s.exit && ServeHit(gw, s, answer).consumer == s.consumer
  {
  }

  lemma ProbeTellsNothing(gw: Gateway, s: Streamer, found: Option<Found>, net: Connection)
    ensures ProbeSeen(gw, s, found, net).exit == s.exit && ProbeSeen(gw, s, found, net).consumer == s.consumer
  {
    match gw.parse(s.headerBuffer)
    case ParseComplete(response, _) =>
      if response.etag.Some? && found.Some? {
        AnswersTellNothing(gw, s, net, AnswerFromCache(gw, s.request, response, found.value));
      } else {
        AnswersTellNothing(gw, s, net, ClientResponse(map[], OK, None));
      }
    case _ =>
  }

  lemma HeadersTellNothing(gw: Gateway, s: Streamer, e: Event)
    requires HeaderRead(e)
    ensures Next(gw, s, e).exit == s.exit && Next(gw, s, e).consumer == s.consumer
  {
    var t := AppendHeaders(Taken(s, e.handler), e.completion.chunk);
    assert t.exit == s.exit && t.consumer == s.consumer;
    if e.handler == CacheHandler {
      NextAfterProbe(gw, s, e);
      ProbeTellsNothing(gw, t, e.found, e.net);
    } else {
      assert Next(gw, s, e) == HeadersSeen(gw, t);
    }
  }

  /** A chunk or peek call waits exactly if there is nothing to hand out yet, and no other event makes the consumer wait. */
  lemma WhoWaits(gw: Gateway, s: Streamer, e: Event)
    requires Enabled(s, e)
    ensures
      var t := Next(gw, s, e);
      && (e.ChunkCalled? ==> t.consumer == if s.clientBuffer == "" && s.status == ONGOING then InChunk else Ready)
      && (e.PeekCalled? ==> t.consumer == if s.clientBuffer == "" && s.status == ONGOING then InPeek else Ready)
      && (e.ChunkWoken? || e.PeekWoken? ==> t.consumer == Ready)
      && (e.ReadDone? || e.Timeout? ==> t.consumer == s.consumer)
  {
    match e
    case ReadDone(handler, _, _, _) => ReadTellsNothing(gw, s, e);
    case ChunkCalled => AskingTells(s); AskingTells(NoteExit(s));
    case _ => AskingTells(s);
  }

  lemma ReadTellsNothing(gw: Gateway, s: Streamer, e: Event)
    requires e.ReadDone?
    ensures Next(gw, s, e).exit == s.exit && Next(gw, s, e).consumer == s.consumer
  {
    if HeaderRead(e) {
      HeadersTellNothing(gw, s, e);
    } else {
      ErrorsAndDataTellNothing(gw, s, e);
    }
  }

  lemma StepTells(gw: Gateway, s: Streamer, e: Event)
    ensures Next(gw, s, e).exit != OPEN <==> s.exit != OPEN || AsksAtEnd(s, e)
  {
    match e
    case ReadDone(_, _, _, _) => ReadTellsNothing(gw, s, e);
    case ChunkCalled => AskingTells(s); AskingTells(NoteExit(s));
    case _ => AskingTells(s);
  }

  ghost predicate AskedAtEnd(run: seq<Streamer>, events: seq<Event>, i: nat)
    requires i <= |events| < |run|
  {
    exists k :: 0 <= k < i && AsksAtEnd(run[k], events[k])
  }

  lemma {:induction false} TellingAddsUp(gw: Gateway, run: seq<Streamer>, events: seq<Event>, i: nat)
    requires IsRun(gw, run, events) && i < |run|
    ensures run[i].exit != OPEN <==> AskedAtEnd(run, events, i)
  {
    if i > 0 {
      TellingAddsUp(gw, run, events, i - 1);
      assert MovesAt(gw, run, events, i - 1);
      StepTells(gw, run[i - 1], events[i - 1]);
      assert AskedAtEnd(run, events, i) <==> AskedAtEnd(run, events, i - 1) || AsksAtEnd(run[i - 1], events[i - 1]);
    }
  }

  /**
   * The consumer has been told an outcome exactly if it asked when the stream was over and nothing was
   * left; an error exactly if the stream failed, and success exactly if the backend ended it or the
   * cache had the answer.
   */
  lemma ToldWhatHappened(gw: Gateway, run: seq<Streamer>, events: seq<Event>, i: nat)
    requires StableParser(gw.parse) && IsRun(gw, run, events) && i < |run|
    ensures run[i].exit != OPEN <==> AskedAtEnd(run, events, i)
    ensures run[i].exit == EXIT_ERROR <==> AskedAtEnd(run, events, i) && Ever(gw, run, events, Failing, i)
    ensures run[i].exit == EXIT_OK <==>
              AskedAtEnd(run, events, i) && (Ever(gw, run, events, Ending, i) || Ever(gw, run, events, Hitting, i))
  {
    TellingAddsUp(gw, run, events, i);
    OutcomeFollowsEvents(gw, run, events, i);
    RunKeepsInv(gw, run, events, i);
  }

  /** After the end, two calls for a chunk are enough to be told, and told the truth. */
  lemma TwoChunksTell(gw: Gateway, run: seq<Streamer>, events: seq<Event>, i: nat)
    requires StableParser(gw.parse) && IsRun(gw, run, events) && i + 1 < |events|
    requires run[i].consumer == Ready && events[i] == ChunkCalled && events[i + 1] == ChunkCalled
    requires Ever(gw, run, events, Failing, i) || Ever(gw, run, events, Ending, i) || Ever(gw, run, events, Hitting, i)
    ensures run[i + 2].exit == if Ever(gw, run, events, Failing, i) then EXIT_ERROR else EXIT_OK
  {
    OutcomeFollowsEvents(gw, run, events, i);
    DrainedStreamEnds(gw, run, events, i);
  }

  // ---------------------------------------------------------------- what is cached

  /** Whether the streamer may still cache is settled by the timeouts, the header block and the length of the body so far. */
  predicate CachingExact(gw: Gateway, s: Streamer) {
    match s.phase
    case Probe => s.cacheable <==> !s.timedOut
    case ContentHeaders => s.cacheable <==> !s.timedOut
    case Streaming =>
      var parsed := gw.parse(s.headerBuffer);
      s.cacheable <==>
        !s.timedOut && parsed.ParseComplete? && Storable(parsed.response) && |s.received| - parsed.end <= 20971520
    case Served(_) => !s.cacheable
  }

  /** The content's header block decides about caching, once and for all that it does not rule out. */
  lemma HeaderBlockDecidesCaching(gw: Gateway, s: Streamer, e: Event)
    requires s.phase == ContentHeaders && HeaderRead(e) && e.handler == HeaderHandler
    requires Completes(gw, s.headerBuffer, e).Some?
    ensures
      var t, parsed := Next(gw, s, e), gw.parse(s.headerBuffer + e.completion.chunk);
      && t.phase == Streaming && t.headerBuffer == s.headerBuffer + e.completion.chunk
      && t.clientBuffer == t.headerBuffer && t.received == s.received + e.completion.chunk && t.timedOut == s.timedOut
      && (t.cacheable <==> s.cacheable && Storable(parsed.response))
      && (Storable(parsed.response) ==> FiledUnder(parsed.response, t.metadata))
      && (Storable(parsed.response) && parsed.end <= |t.headerBuffer| ==> t.cachedContent == t.headerBuffer[parsed.end..])
  {
    var t := AppendHeaders(Taken(s, e.handler), e.completion.chunk);
    assert Next(gw, s, e) == HeadersSeen(gw, t);
  }

  lemma ErrorKeepsCaching(gw: Gateway, s: Streamer, e: Event)
    requires e.ReadDone? && !e.completion.Data?
    ensures SameCaching(s, Next(gw, s, e))
  {
    var t := Taken(s, e.handler);
    assert SameCaching(s, t) && Next(gw, s, e) == HandleError(t, e.completion);
  }

  lemma ProbeKeepsCaching(gw: Gateway, s: Streamer, e: Event)
    requires s.phase == Probe && HeaderRead(e) && e.handler == CacheHandler && CachingExact(gw, s)
    ensures CachingExact(gw, Next(gw, s, e))
  {
    var t := AppendHeaders(Taken(s, e.handler), e.completion.chunk);
    NextAfterProbe(gw, s, e);
    assert t.phase == Probe && t.cacheable == s.cacheable && t.timedOut == s.timedOut;
    ProbeSeenKeepsCaching(gw, t, e.found, e.net);
  }

  lemma ProbeSeenKeepsCaching(gw: Gateway, s: Streamer, found: Option<Found>, net: Connection)
    requires s.phase == Probe && (s.cacheable <==> !s.timedOut)
    ensures CachingExact(gw, ProbeSeen(gw, s, found, net))
  {
    var t := ProbeSeen(gw, s, found, net);
    match gw.parse(s.headerBuffer)
    case ParseFailed => assert t == Fail(s);
    case ParseIncomplete => assert t == Listen(s, CacheHandler);
    case ParseComplete(response, _) =>
      if response.etag.None? {
        assert t == PassThrough(s) && t.headerBuffer == s.headerBuffer && !t.cacheable;
      } else if found.None? {
        assert t == SendContentRequest(s, net) && t.cacheable == s.cacheable && t.timedOut == s.timedOut;
      } else {
        assert t == ServeHit(gw, s, AnswerFromCache(gw, s.request, response, found.value)) && !t.cacheable;
      }
  }

  lemma HeadersKeepCaching(gw: Gateway, s: Streamer, e: Event)
    requires StableParser(gw.parse) && Inv(gw, s) && Enabled(s, e) && CachingExact(gw, s)
    requires s.phase == ContentHeaders && HeaderRead(e) && e.handler == HeaderHandler
    ensures CachingExact(gw, Next(gw, s, e))
  {
    if Completes(gw, s.headerBuffer, e).Some? {
      HeaderBlockDecidesCaching(gw, s, e);
      BodyStartsSmall(gw, s, e);
    } else {
      assert SameCaching(s, Next(gw, s, e).(headerBuffer := s.headerBuffer, received := s.received));
    }
  }

  /** The read that completes the header block is all that can have brought body. */
  lemma BodyStartsSmall(gw: Gateway, s: Streamer, e: Event)
    requires StableParser(gw.parse) && Inv(gw, s) && Enabled(s, e)
    requires s.phase == ContentHeaders && HeaderRead(e) && Completes(gw, s.headerBuffer, e).Some?
    ensures
      var buffer := s.headerBuffer + e.completion.chunk;
      gw.parse(buffer).end <= |buffer| <= gw.parse(buffer).end + 8192
  {
    var buffer := s.headerBuffer + e.completion.chunk;
    assert "" + buffer == buffer;
    if gw.parse(buffer).end < |s.headerBuffer| {
      CompleteOnceHeadersSeen(gw.parse, s.headerBuffer, buffer);
    }
  }

  lemma DataKeepsCaching(gw: Gateway, s: Streamer, e: Event)
    requires StableParser(gw.parse) && Inv(gw, s) && CachingExact(gw, s)
    requires s.phase == Streaming && e.ReadDone? && e.completion.Data? && e.handler == DataHandler
    ensures CachingExact(gw, Next(gw, s, e))
  {
    var t := AppendData(Taken(s, e.handler), e.completion.chunk);
    var u := MirrorBody(t, e.completion.chunk);
    assert Next(gw, s, e) == ListenUnlessFull(u);
    assert t.received == s.received + e.completion.chunk && t.cacheable == s.cacheable && t.cachedContent == s.cachedContent;
    assert SameCaching(u, ListenUnlessFull(u));
  }

  lemma StepKeepsCaching(gw: Gateway, s: Streamer, e: Event)
    requires StableParser(gw.parse) && Inv(gw, s) && Enabled(s, e) && CachingExact(gw, s)
    ensures CachingExact(gw, Next(gw, s, e))
  {
    if e == Timeout(false) {
      assert Next(gw, s, e) == s.(timedOut := true, cacheable := false);
    } else if !e.ReadDone? {
      if !e.Timeout? {
        ConsumerTurnsNothing(gw, s, e);
      }
    } else if !e.completion.Data? {
      ErrorKeepsCaching(gw, s, e);
    } else {
      match s.phase
      case Probe => ProbeKeepsCaching(gw, s, e);
      case ContentHeaders => HeadersKeepCaching(gw, s, e);
      case Streaming => DataKeepsCaching(gw, s, e);
      case Served(_) => assert false;
    }
  }

  lemma BeginningMayCache(gw: Gateway, run: seq<Streamer>, events: seq<Event>)
    requires IsRun(gw, run, events)
    ensures CachingExact(gw, run[0])
  {
    var request, net :| run[0] == SendAndListen(Created(request), net);
  }

  lemma LastStepKeepsCaching(gw: Gateway, run: seq<Streamer>, events: seq<Event>, i: nat)
    requires StableParser(gw.parse) && IsRun(gw, run, events) && 0 < i < |run| && CachingExact(gw, run[i - 1])
    ensures CachingExact(gw, run[i])
  {
    RunKeepsInv(gw, run, events, i - 1);
    assert MovesAt(gw, run, events, i - 1);
    StepKeepsCaching(gw, run[i - 1], events[i - 1]);
  }

  /** In every run: while headers are awaited, the right to cache is lost by a timeout alone. */
  lemma {:induction false} CachingStaysExact(gw: Gateway, run: seq<Streamer>, events: seq<Event>, i: nat)
    requires StableParser(gw.parse) && IsRun(gw, run, events) && i < |run|
    ensures CachingExact(gw, run[i])
  {
    if i == 0 {
      BeginningMayCache(gw, run, events);
    } else {
      CachingStaysExact(gw, run, events, i - 1);
      LastStepKeepsCaching(gw, run, events, i);
    }
  }

  /** Some bytes have followed the header block of a response that may be kept, and not too many. */
  predicate KeepsBody(gw: Gateway, stream: Bytes) {
    var parsed := gw.parse(stream);
    && parsed.ParseComplete? && Storable(parsed.response)
    && 0 < |stream| - parsed.end <= 20971520
  }

  /**
   * A stream that ends cleanly enters the cache exactly if it was passed on, no timeout came before its
   * end, and it consists of a 200 answer with an ETag, a Content-Type and no Transfer-Encoding, and a
   * body of 1 byte to 20 MB.
   */
  lemma CachedExactlyWhen(gw: Gateway, run: seq<Streamer>, events: seq<Event>, i: nat)
    requires StableParser(gw.parse) && IsRun(gw, run, events) && i < |events|
    requires events[i].ReadDone?
    ensures Inserts(run[i], events[i].completion) <==>
              && events[i].completion == Eof && !TimedOut(events, i)
              && Ever(gw, run, events, Passing, i) && KeepsBody(gw, Inputs(run, events, i))
  {
    CachingStaysExact(gw, run, events, i);
    RunKeepsInv(gw, run, events, i);
    OutcomeFollowsEvents(gw, run, events, i);
    HistoryIsHonest(gw, run, events, i);
    assert MovesAt(gw, run, events, i);
    var s := run[i];
    if s.phase == Streaming {
      StableUnderExtension(gw.parse, s.headerBuffer, s.received);
    }
  }
}
