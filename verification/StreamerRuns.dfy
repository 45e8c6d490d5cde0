/** What holds of one streamer over every run: any number of reads, timeouts and consumer calls, in any order. */
module StreamerRuns {
  import opened Strings
  import opened Http
  import opened CacheModel
  import opened StreamerMachine
  import opened StreamerInvariant
  import opened Deny

  ghost predicate IsRun(gw: Gateway, run: seq<Streamer>, events: seq<Event>) {
    && |run| == |events| + 1
    && (exists request, net :: run[0] == SendAndListen(Created(request), net))
    && forall i :: 0 <= i < |events| ==> MovesAt(gw, run, events, i)
  }

  predicate MovesAt(gw: Gateway, run: seq<Streamer>, events: seq<Event>, i: nat)
    requires i < |events| < |run|
  {
    Enabled(run[i], events[i]) && Next(gw, run[i], events[i]) == run[i + 1]
  }

  lemma BeginningHasInv(gw: Gateway, run: seq<Streamer>, events: seq<Event>)
    requires IsRun(gw, run, events)
    ensures Inv(gw, run[0])
  {
    var request, net :| run[0] == SendAndListen(Created(request), net);
    StartHasInv(gw, request, net);
  }

  lemma {:induction false} RunKeepsInv(gw: Gateway, run: seq<Streamer>, events: seq<Event>, i: nat)
    requires StableParser(gw.parse) && IsRun(gw, run, events) && i < |run|
    ensures Inv(gw, run[i])
  {
    if i == 0 {
      BeginningHasInv(gw, run, events);
    } else {
      RunKeepsInv(gw, run, events, i - 1);
      assert MovesAt(gw, run, events, i - 1);
      StepKeepsInv(gw, run[i - 1], events[i - 1]);
    }
  }

  // ---------------------------------------------------------------- what only ever moves one way

  /** Everything the consumer has or can already take. */
  function Released(s: Streamer): Bytes {
    s.delivered + s.clientBuffer
  }

  /** `t` is later than `s`: released bytes stay, and so do the end of the stream and a lost right to cache. */
  predicate Evolves(s: Streamer, t: Streamer) {
    && Released(s) <= Released(t)
    && (t.cacheable ==> s.cacheable)
    && (s.timedOut ==> t.timedOut)
    && (s.finishing ==> t.finishing)
    && (s.phase.Streaming? || s.phase.Served? ==> t.phase == s.phase && t.headerBuffer == s.headerBuffer)
    && (s.status != ONGOING ==> t.status == s.status && t.phase == s.phase && Released(t) == Released(s))
    && (s.exit != OPEN ==> t.exit == s.exit && t.delivered == s.delivered)
  }

  /** The bytes a read brings in. */
  function NewBytes(e: Event): Bytes {
    if e.ReadDone? && e.completion.Data? then e.completion.chunk else ""
  }

  /** From the probe the streamer went on to a second connection. */
  predicate Reconnected(s: Streamer, t: Streamer) {
    s.phase == Probe && t.phase == ContentHeaders
  }

  /** A read that was cancelled although no timeout had been noticed. */
  predicate LosesRead(s: Streamer, e: Event) {
    e.ReadDone? && e.completion.Aborted? && !s.timedOut
  }

  /** The history fields record what they are meant to. */
  predicate Records(s: Streamer, e: Event, t: Streamer) {
    && t.delivered == s.delivered + Output(s, e)
    && t.received == (if Reconnected(s, t) then "" else s.received + NewBytes(e))
    && (t.adrift <==> s.adrift || LosesRead(s, e))
  }

  lemma ErrorStep(gw: Gateway, s: Streamer, e: Event)
    requires s.status == ONGOING && s.exit == OPEN && e.ReadDone? && !e.completion.Data?
    ensures Evolves(s, Next(gw, s, e)) && Records(s, e, Next(gw, s, e))
  {
    var next := HandleError(Taken(s, e.handler), e.completion);
    assert next == Next(gw, s, e);
    assert s.delivered + "" == s.delivered && s.received + "" == s.received;
  }

  /** A streamer that has released nothing may go anywhere but back to being allowed to cache. */
  predicate Unreleased(s: Streamer) {
    Released(s) == "" && s.status == ONGOING && s.exit == OPEN && !s.phase.Streaming? && !s.phase.Served?
  }

  lemma HeaderStep(gw: Gateway, s: Streamer, e: Event)
    requires Unreleased(s) && e.ReadDone? && e.completion.Data? && e.handler == HandlerOf(s.phase)
    ensures Evolves(s, Next(gw, s, e)) && Records(s, e, Next(gw, s, e))
  {
  }

  lemma DataStep(gw: Gateway, s: Streamer, e: Event)
    requires s.phase == Streaming && s.status == ONGOING && s.exit == OPEN
    requires e.ReadDone? && e.completion.Data? && e.handler == DataHandler
    ensures Evolves(s, Next(gw, s, e)) && Records(s, e, Next(gw, s, e))
  {
    var t := Taken(s, e.handler);
    var next := ReadDataResponse(t, e.completion);
    assert Receives(t, e.completion.chunk, next) && SameHeaders(t, next);
    assert next == Next(gw, s, e);
    assert Released(next) == Released(s) + e.completion.chunk;
  }

  lemma TakeEvolves(s: Streamer)
    requires s.exit != OPEN ==> s.clientBuffer == ""
    ensures Evolves(s, TakeChunk(s)) && TakeChunk(s).received == s.received && TakeChunk(s).adrift == s.adrift
    ensures TakeChunk(s).delivered == s.delivered + s.clientBuffer
  {
  }

  lemma NoteExitEvolves(s: Streamer)
    requires s.exit != OPEN ==> s.status == if s.exit == EXIT_OK then FINISHED else FAILED
    ensures Evolves(s, NoteExit(s)) && NoteExit(s) == s.(exit := NoteExit(s).exit)
    ensures NoteExit(s).exit != OPEN ==> s.clientBuffer == "" || s.exit != OPEN
  {
  }

  lemma EvolvesTransitive(s: Streamer, t: Streamer, u: Streamer)
    requires Evolves(s, t) && Evolves(t, u)
    ensures Evolves(s, u)
  {
  }

  lemma WaitEvolves(s: Streamer)
    requires MustWait(s)
    ensures Evolves(s, GetChunk(s)) && Records(s, ChunkCalled, GetChunk(s))
  {
    assert s.delivered + "" == s.delivered && s.received + "" == s.received;
  }

  lemma GetChunkEvolves(s: Streamer)
    requires Bookkeeping(s)
    ensures Evolves(s, GetChunk(s)) && Records(s, ChunkCalled, GetChunk(s))
  {
    if MustWait(s) {
      WaitEvolves(s);
    } else {
      var noted := NoteExit(s);
      NoteExitEvolves(s);
      TakeEvolves(noted);
      EvolvesTransitive(s, noted, TakeChunk(noted));
      assert GetChunk(s) == TakeChunk(noted) && s.received + "" == s.received;
    }
  }

  lemma WokenStep(gw: Gateway, s: Streamer)
    requires Bookkeeping(s)
    ensures Evolves(s, Next(gw, s, ChunkWoken)) && Records(s, ChunkWoken, Next(gw, s, ChunkWoken))
  {
    TakeEvolves(s);
    assert s.received + "" == s.received;
  }

  /** Nothing but flags of one direction and the outcome told to the consumer has changed. */
  predicate OnlyNotes(s: Streamer, t: Streamer) {
    && t == s.(cacheable := t.cacheable, timedOut := t.timedOut, exit := t.exit, consumer := t.consumer)
    && (t.cacheable ==> s.cacheable) && (s.timedOut ==> t.timedOut) && (s.exit != OPEN ==> t.exit == s.exit)
  }

  lemma NotesStep(s: Streamer, e: Event, t: Streamer)
    requires OnlyNotes(s, t) && (e.Timeout? || e.PeekCalled? || e.PeekWoken?)
    ensures Evolves(s, t) && Records(s, e, t)
  {
  }

  lemma TimeoutOnlyNotes(s: Streamer, aborted: bool)
    ensures OnlyNotes(s, HandleTimeout(s, aborted))
  {
  }

  lemma PeekOnlyNotes(s: Streamer)
    requires Bookkeeping(s)
    ensures OnlyNotes(s, GetPeekString(s)) && OnlyNotes(s, s.(consumer := Ready))
  {
  }

  /** Timeouts and peeks neither move bytes nor touch reads. */
  lemma QuietStep(gw: Gateway, s: Streamer, e: Event)
    requires Bookkeeping(s) && (e.Timeout? || e.PeekCalled? || e.PeekWoken?)
    ensures Evolves(s, Next(gw, s, e)) && Records(s, e, Next(gw, s, e))
  {
    if e.Timeout? {
      TimeoutOnlyNotes(s, e.aborted);
    } else {
      PeekOnlyNotes(s);
    }
    NotesStep(s, e, Next(gw, s, e));
  }

  lemma ReadStep(gw: Gateway, s: Streamer, e: Event)
    requires Inv(gw, s) && Enabled(s, e) && e.ReadDone?
    ensures Evolves(s, Next(gw, s, e)) && Records(s, e, Next(gw, s, e))
  {
    assert s.status == ONGOING && s.exit == OPEN && e.handler == HandlerOf(s.phase);
    if !e.completion.Data? {
      ErrorStep(gw, s, e);
    } else if e.handler == DataHandler {
      DataStep(gw, s, e);
    } else {
      HeaderStep(gw, s, e);
    }
  }

  lemma StepEvolves(gw: Gateway, s: Streamer, e: Event)
    requires Inv(gw, s) && Enabled(s, e)
    ensures Evolves(s, Next(gw, s, e)) && Records(s, e, Next(gw, s, e))
  {
    match e
    case ReadDone(_, _, _, _) => ReadStep(gw, s, e);
    case ChunkCalled => GetChunkEvolves(s);
    case ChunkWoken => WokenStep(gw, s);
    case Timeout(_) => QuietStep(gw, s, e);
    case PeekCalled => QuietStep(gw, s, e);
    case PeekWoken => QuietStep(gw, s, e);
  }

  /** A run, one step before `i`. */
  lemma LastStep(gw: Gateway, run: seq<Streamer>, events: seq<Event>, i: nat)
    requires StableParser(gw.parse) && IsRun(gw, run, events) && 0 < i < |run|
    ensures Inv(gw, run[i - 1]) && Enabled(run[i - 1], events[i - 1])
    ensures Evolves(run[i - 1], run[i]) && Records(run[i - 1], events[i - 1], run[i])
  {
    RunKeepsInv(gw, run, events, i - 1);
    assert MovesAt(gw, run, events, i - 1);
    StepEvolves(gw, run[i - 1], events[i - 1]);
  }

  lemma {:induction false} ChainEvolves(run: seq<Streamer>, i: nat, j: nat)
    requires forall k :: 0 < k < |run| ==> Evolves(run[k - 1], run[k])
    requires i <= j < |run|
    ensures Evolves(run[i], run[j])
    decreases j - i
  {
    if i < j {
      ChainEvolves(run, i, j - 1);
      EvolvesTransitive(run[i], run[j - 1], run[j]);
    }
  }

  lemma {:induction false} RunEvolves(gw: Gateway, run: seq<Streamer>, events: seq<Event>, i: nat, j: nat)
    requires StableParser(gw.parse) && IsRun(gw, run, events) && i <= j < |run|
    ensures Evolves(run[i], run[j])
  {
    forall k | 0 < k < |run|
      ensures Evolves(run[k - 1], run[k])
    {
      LastStep(gw, run, events, k);
    }
    ChainEvolves(run, i, j);
  }

  // ---------------------------------------------------------------- byte conservation

  /** All chunks handed out by getChunk in the first `i` events, one after the other. */
  function Outputs(run: seq<Streamer>, events: seq<Event>, i: nat): Bytes
    requires i <= |events| < |run|
  {
    if i == 0 then "" else Outputs(run, events, i - 1) + Output(run[i - 1], events[i - 1])
  }

  /** All bytes that reads brought in on the connection that is current after `i` events. */
  function Inputs(run: seq<Streamer>, events: seq<Event>, i: nat): Bytes
    requires i <= |events| < |run|
  {
    if i == 0 || Reconnected(run[i - 1], run[i]) then ""
    else Inputs(run, events, i - 1) + NewBytes(events[i - 1])
  }

  predicate RecordedAt(run: seq<Streamer>, events: seq<Event>, i: nat)
    requires 0 < i <= |events| < |run|
  {
    Records(run[i - 1], events[i - 1], run[i])
  }

  lemma {:induction false} RecordsAddUp(run: seq<Streamer>, events: seq<Event>, i: nat)
    requires i <= |events| < |run| && run[0].delivered == "" && run[0].received == ""
    requires forall k :: 0 < k <= i ==> RecordedAt(run, events, k)
    ensures run[i].delivered == Outputs(run, events, i)
    ensures run[i].received == Inputs(run, events, i)
  {
    if i > 0 {
      RecordsAddUp(run, events, i - 1);
      assert RecordedAt(run, events, i);
    }
  }

  lemma StepsAreRecorded(gw: Gateway, run: seq<Streamer>, events: seq<Event>)
    requires StableParser(gw.parse) && IsRun(gw, run, events)
    ensures forall k :: 0 < k < |run| ==> RecordedAt(run, events, k)
  {
    forall k | 0 < k < |run|
      ensures RecordedAt(run, events, k)
    {
      LastStep(gw, run, events, k);
    }
  }

  lemma {:induction false} HistoryIsHonest(gw: Gateway, run: seq<Streamer>, events: seq<Event>, i: nat)
    requires StableParser(gw.parse) && IsRun(gw, run, events) && i < |run|
    ensures run[i].delivered == Outputs(run, events, i)
    ensures run[i].received == Inputs(run, events, i)
  {
    StepsAreRecorded(gw, run, events);
    RecordsAddUp(run, events, i);
  }

  /**
   * The chunks already handed out, followed by the buffer, are exactly what the backend sent on the
   * current connection, or what the cache answered; before that is decided, nothing is handed out.
   */
  lemma {:induction false} ByteConservation(gw: Gateway, run: seq<Streamer>, events: seq<Event>, i: nat)
    requires StableParser(gw.parse) && IsRun(gw, run, events) && i < |run|
    ensures run[i].phase.Streaming? ==> Outputs(run, events, i) + run[i].clientBuffer == Inputs(run, events, i)
    ensures run[i].phase.Served? ==>
              Outputs(run, events, i) + run[i].clientBuffer == gw.render(run[i].phase.response)
    ensures run[i].phase.Probe? || run[i].phase.ContentHeaders? ==>
              Outputs(run, events, i) == "" && run[i].clientBuffer == ""
  {
    HistoryIsHonest(gw, run, events, i);
    RunKeepsInv(gw, run, events, i);
  }

  /** Once the consumer is told the outcome, it has everything there will ever be. */
  lemma {:induction false} ExitMeansDrained(gw: Gateway, run: seq<Streamer>, events: seq<Event>, i: nat, j: nat)
    requires StableParser(gw.parse) && IsRun(gw, run, events) && i <= j < |run|
    requires run[i].exit != OPEN
    ensures run[j].exit == run[i].exit && run[j].status == if run[i].exit == EXIT_OK then FINISHED else FAILED
    ensures Outputs(run, events, j) == Outputs(run, events, i)
    ensures run[i].phase.Streaming? ==> Outputs(run, events, i) == Inputs(run, events, i)
    ensures run[i].phase.Served? ==> Outputs(run, events, i) == gw.render(run[i].phase.response)
    ensures run[i].phase.Probe? || run[i].phase.ContentHeaders? ==> Outputs(run, events, i) == ""
  {
    RunKeepsInv(gw, run, events, i);
    RunEvolves(gw, run, events, i, j);
    HistoryIsHonest(gw, run, events, j);
    ByteConservation(gw, run, events, i);
    assert Outputs(run, events, i) + "" == Outputs(run, events, i);
    HistoryIsHonest(gw, run, events, i);
  }

  /** If the backend ends or breaks the stream before its header block is complete, nothing is ever delivered. */
  lemma {:induction false} EarlyEndDeliversNothing(gw: Gateway, run: seq<Streamer>, events: seq<Event>, i: nat, j: nat)
    requires StableParser(gw.parse) && IsRun(gw, run, events) && i <= j < |run|
    requires run[i].status != ONGOING && (run[i].phase.Probe? || run[i].phase.ContentHeaders?)
    ensures Outputs(run, events, j) == ""
  {
    RunEvolves(gw, run, events, i, j);
    ByteConservation(gw, run, events, j);
  }

  /** Once the stream is over, a chunk call takes what is left, and tells the outcome if nothing is. */
  lemma ChunkAtEnd(gw: Gateway, s: Streamer)
    requires s.status != ONGOING && s.consumer == Ready
    ensures Enabled(s, ChunkCalled) && Output(s, ChunkCalled) == s.clientBuffer
    ensures
      var next := Next(gw, s, ChunkCalled);
      && next.clientBuffer == "" && next.status == s.status && next.consumer == Ready
      && (s.clientBuffer == "" ==> next.exit == if s.status == FINISHED then EXIT_OK else EXIT_ERROR)
  {
  }

  /** A drained stream ends: the consumer that goes on asking is told the outcome, and has everything. */
  lemma {:induction false} DrainedStreamEnds(gw: Gateway, run: seq<Streamer>, events: seq<Event>, i: nat)
    requires StableParser(gw.parse) && IsRun(gw, run, events) && i + 1 < |events|
    requires run[i].status != ONGOING && run[i].consumer == Ready
    requires events[i] == ChunkCalled && events[i + 1] == ChunkCalled
    ensures run[i + 2].exit == if run[i].status == FINISHED then EXIT_OK else EXIT_ERROR
    ensures run[i].phase.Streaming? ==> Outputs(run, events, i + 2) == Inputs(run, events, i + 2)
    ensures run[i].phase.Served? ==> Outputs(run, events, i + 2) == gw.render(run[i].phase.response)
    ensures run[i].phase.Probe? || run[i].phase.ContentHeaders? ==> Outputs(run, events, i + 2) == ""
  {
    assert MovesAt(gw, run, events, i) && MovesAt(gw, run, events, i + 1);
    ChunkAtEnd(gw, run[i]);
    ChunkAtEnd(gw, run[i + 1]);
    RunEvolves(gw, run, events, i, i + 2);
    ExitMeansDrained(gw, run, events, i + 2, i + 2);
  }

  // ---------------------------------------------------------------- reads

  ghost predicate LostRead(run: seq<Streamer>, events: seq<Event>, i: nat)
    requires i <= |events| < |run|
  {
    exists k :: 0 <= k < i && LosesRead(run[k], events[k])
  }

  lemma {:induction false} LossesAddUp(run: seq<Streamer>, events: seq<Event>, i: nat)
    requires i <= |events| < |run| && forall k :: 0 < k <= i ==> RecordedAt(run, events, k)
    ensures run[i].adrift <==> run[0].adrift || LostRead(run, events, i)
  {
    if i > 0 {
      LossesAddUp(run, events, i - 1);
      assert RecordedAt(run, events, i);
      if LostRead(run, events, i - 1) {
        var k :| 0 <= k < i - 1 && LosesRead(run[k], events[k]);
        assert LostRead(run, events, i);
      }
    }
  }

  lemma AdriftMeansLostRead(gw: Gateway, run: seq<Streamer>, events: seq<Event>, i: nat)
    requires StableParser(gw.parse) && IsRun(gw, run, events) && i < |run|
    ensures run[i].adrift <==> run[0].adrift || LostRead(run, events, i)
  {
    StepsAreRecorded(gw, run, events);
    LossesAddUp(run, events, i);
  }

  /**
   * No double read and no stuck stream: at most one read is ever outstanding, and an ongoing stream
   * has one, or is paused on a full buffer, unless its request was never sent or its read was
   * cancelled without a timeout.
   */
  lemma {:induction false} OneReadOrFull(gw: Gateway, run: seq<Streamer>, events: seq<Event>, i: nat)
    requires StableParser(gw.parse) && IsRun(gw, run, events) && i < |run|
    ensures |run[i].pending| <= 1
    ensures run[i].bufferFull ==> run[i].status == ONGOING && run[i].pending == multiset{}
    ensures run[i].status != ONGOING ==> run[i].pending == multiset{}
    ensures run[i].status == ONGOING ==>
              ((|run[i].pending| == 1) != run[i].bufferFull) !=
              (run[0].adrift || LostRead(run, events, i))
  {
    RunKeepsInv(gw, run, events, i);
    AdriftMeansLostRead(gw, run, events, i);
  }

  /** getChunk on a full buffer empties it and restarts reading, whichever way it is reached. */
  lemma ChunkRestartsReading(gw: Gateway, s: Streamer, e: Event)
    requires Inv(gw, s) && s.bufferFull && Enabled(s, e) && (e.ChunkCalled? || e.ChunkWoken?)
    ensures Next(gw, s, e).pending == multiset{DataHandler} && !Next(gw, s, e).bufferFull
    ensures Next(gw, s, e).clientBuffer == "" && Output(s, e) == s.clientBuffer != ""
  {
    assert multiset{} + multiset{DataHandler} == multiset{DataHandler};
  }

  /** The client buffer stays bounded by the larger of 16 MB and the header buffer, plus one read. */
  lemma {:induction false} BackPressureBound(gw: Gateway, run: seq<Streamer>, events: seq<Event>, i: nat)
    requires StableParser(gw.parse) && IsRun(gw, run, events) && i < |run| && run[i].phase.Streaming?
    ensures |run[i].clientBuffer| <= 16777216 + 8192 || |run[i].clientBuffer| <= |run[i].headerBuffer| + 8192
    ensures |run[i].clientBuffer| > 16777216 && |run[i].clientBuffer| > |run[i].headerBuffer| ==>
              run[i].bufferFull && run[i].pending == multiset{}
    ensures run[i].bufferFull ==> |run[i].clientBuffer| > 16777216
  {
    RunKeepsInv(gw, run, events, i);
  }

  // ---------------------------------------------------------------- cache insertion

  /** A response whose body may be kept: an ordinary 200 answer with a validator and a type, sent as it is. */
  predicate Storable(response: Response) {
    response.status == 200 && response.etag.Some? && response.contentType.Some? && response.transferEncoding.None?
  }

  /** The metadata says what the response's own headers said. */
  predicate FiledUnder(response: Response, meta: MetaData)
    requires response.etag.Some? && response.contentType.Some?
  {
    && meta.mimeType == response.contentType.value
    && meta.etag == response.etag.value
    && meta.cacheControl == (if response.cacheControl.Some? then response.cacheControl.value else "")
    && meta.expires == (if response.expires.Some? then response.expires.value else "")
    && meta.vary == (if response.vary.Some? then response.vary.value else "")
    && meta.allowOrigin == (if response.allowOrigin.Some? then response.allowOrigin.value else "")
    && meta.contentEncoding == Trim(ToLower(if response.contentEncoding.Some? then response.contentEncoding.value else ""))
  }

  /** `entry` is the body of the complete response `stream`, filed under that response's own headers. */
  ghost predicate FromStream(gw: Gateway, stream: Bytes, entry: Entry) {
    var parsed := gw.parse(stream);
    && parsed.ParseComplete? && parsed.end <= |stream|
    && Storable(parsed.response)
    && entry.buffer == stream[parsed.end..]
    && FiledUnder(parsed.response, entry.meta) && entry.meta.bufferHash == gw.hash(entry.buffer)
  }

  lemma InsertIsSound(gw: Gateway, s: Streamer, e: Event)
    requires StableParser(gw.parse) && Inv(gw, s) && Enabled(s, e) && e.ReadDone? && Inserts(s, e.completion)
    ensures s.phase.Streaming? && !s.timedOut && e.handler == DataHandler
    ensures FromStream(gw, s.received, InsertedEntry(gw, s))
    ensures 0 < |s.cachedContent| <= 20971520
  {
    StableUnderExtension(gw.parse, s.headerBuffer, s.received);
  }

  /**
   * An insert happens only at the clean end of a streamed 200 response with ETag and Content-Type
   * and without Transfer-Encoding, and stores exactly the bytes after its header block.
   */
  lemma {:induction false} CacheInsertSoundness(gw: Gateway, run: seq<Streamer>, events: seq<Event>, i: nat)
    requires StableParser(gw.parse) && IsRun(gw, run, events) && i < |events|
    requires events[i].ReadDone? && Inserts(run[i], events[i].completion)
    ensures FromStream(gw, Inputs(run, events, i), InsertedEntry(gw, run[i]))
    ensures 0 < |InsertedEntry(gw, run[i]).buffer| <= 20971520
    ensures run[i + 1].status == FINISHED
    ensures forall k :: 0 <= k <= i ==> run[k].cacheable && !run[k].timedOut
  {
    RunKeepsInv(gw, run, events, i);
    assert MovesAt(gw, run, events, i);
    InsertIsSound(gw, run[i], events[i]);
    HistoryIsHonest(gw, run, events, i);
    forall k | 0 <= k <= i
      ensures run[k].cacheable && !run[k].timedOut
    {
      RunEvolves(gw, run, events, k, i);
    }
  }

  // ---------------------------------------------------------------- peeking

  /** What a peek shows comes right after what was handed out before it, whatever else is released later. */
  lemma {:induction false} PeekIsPrefix(gw: Gateway, run: seq<Streamer>, events: seq<Event>, i: nat, j: nat, len: nat)
    requires StableParser(gw.parse) && IsRun(gw, run, events) && i <= j < |run|
    ensures Outputs(run, events, i) + Peeked(run[i], len) <= Outputs(run, events, j) + run[j].clientBuffer
  {
    RunEvolves(gw, run, events, i, j);
    HistoryIsHonest(gw, run, events, i);
    HistoryIsHonest(gw, run, events, j);
    PeekIsReleased(run[i], len);
  }

  lemma PeekIsReleased(s: Streamer, len: nat)
    ensures s.delivered + Peeked(s, len) <= Released(s)
  {
  }
}
