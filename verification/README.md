# Verification of the SmartMet frontend

A Dafny model of the frontend's gateway and of the logic around it, with proofs. The frontend passes
client requests on to backend servers. It streams each response through while it is still arriving,
keeps complete responses in a cache that it validates by ETag, tries another backend when one
refuses, and answers administrative queries by merging what all backends report about their data.

`dafny verify dfyconfig.toml` checks everything.

## How the model is laid out

**The gateway streamer.** `StreamerObject` holds the class `LowLatencyGatewayStreamer` with the
source's fields and handlers, statement by statement. `StreamerMachine` says, on values, what each
handler makes of the state, and every method of the class is proved to do exactly that. The source
runs each handler under the streamer's mutex, so a handler is one step; only the timed waits of
`getChunk` and `getPeekString` release the mutex, and these two are split there. `StreamerInvariant`
shows what every step keeps, `StreamerRuns` what therefore holds over whole runs: any number of
reads, errors, timeouts, chunks and peeks, in any order. `Outcomes` tells from the events of a run
alone, without naming any handler, how the stream ends, what its consumer is told, when the backend
is done with, and whether the body enters the cache.

Some fields of the model are history and exist only to state properties, among them the reads that
are outstanding, the bytes received on the current connection, the bytes handed to the consumer, and
whether the stream is *adrift*: no read can complete any more, because the first request was never
sent, or because a read was cancelled although no timeout had been noticed.

**The cache.** `CacheModel` has the two levels of the response cache as maps with steps for half an
insert and for evicting anything from either level. `ResponseCache` is the shared object, whose
methods let other threads act between their two accesses. `GatewaySystem` puts any number of
streamers around one cache. A handler that uses the cache holds its mutex for several steps there,
one for each cache access, and every other streamer's steps may come in between. `HandlerSteps`
ties the two together: the class keeps a ghost trace of its cache accesses, and each access on it is
proved to be a step of the system, so that a handler is Begin, its accesses, and Finish. Between them
the class allows the cache any steps of others at all, more than other streamers can take.
`GatewayTheorems` holds the results about all interleavings, `Truncation` those about bodies cut short,
and `TruncationRuns` builds runs of the system in which one is cached and served.

**The summary of backend information.** `SetIntersection` is the two-pointer loop of
`std::set_intersection` with the comparator as a parameter; `Merge` is the fold over any number of
responses; `BackendInfo` has the three constructors; `InfoRecords` the orders and filters of the two
kinds of record; `InfoLists` the list columns; `Backends` the removal of duplicate backends.

**Refusals, retries and the pause.** `Deny` classifies the first bytes of a response, `Refusals` says
what peeking at a stream tells about it over whole runs, `Retry` is the loop over backends, each attempt
with a streamer of its own, and `Pause` the pause with a deadline that expires only when somebody asks.

## Findings

- **The merge is not an intersection.** The record lists are sorted descending, but the loop that
  intersects them is given the ascending comparator (`frontend/info/BackendInfoResponse.cpp:35`
  against lines 111 to 115). What comes out is the longest common *prefix* of the lists, not the
  "common records for all responses" of `frontend/info/BackendInfoResponse.h:41-43`. The model
  follows the code. `Merge.AsWrittenMerge` says exactly what is computed, `Merge.DocumentedMerge`
  what the documentation promises and a matching comparator would give,
  `Merge.AsWrittenVersusDocumented` exactly when the two agree. `InfoRecords.QEngineMerge` and
  `InfoRecords.GridMerge` say the same of whole responses with the program's two kinds of record, and
  `InfoRecords.SharedGenerationIsLost` gives responses of both kinds that lose a record they share.
- **The cache is only as faithful as its hash.** A body is found by its hash alone.
  `CacheModel.FaithfulIffInjective` proves that the cache answers with what was inserted under the
  same key, in every run, if and only if the hash has no collisions. The results about whole systems
  assume only that the bodies inserted so far do not collide.
- **An empty list does not survive printing.** It is printed as "nan", which reads back as a list of
  one word, or, for integers, as an error (`InfoLists.ListRoundTrip`, `InfoLists.IntegerRoundTrip`).
- **A refusal can be missed.** The frontend peeks once, after a wait of at most a tenth of a second, and
  an empty peek is taken for consent. `Refusals.RefusalIsMissed` proves exactly when a refusal gets
  past: the header block refuses, and either the peek came before the block was complete, or the block is
  longer than the 4096 bytes of the peek and their legacy code and status line do not refuse. So if the
  status line fits, a timely peek misses only refusals that the error header alone carries
  (`Refusals.OnlyErrorHeaderIsMissed`). `Refusals.EarlyPeekMissesDenial` and
  `Refusals.ShortPeekMissesDenial` give runs of both kinds, for every such refusal that arrives in one read
  without an ETag. A refusal that is seen is always genuine.
- **A body cut short is cached and served.** When a connection ends within the body, that counts as a clean
  end: what has come is cached (`TruncationRuns.TruncatedBodyIsCached`), and the next client that asks for
  the same is sent it with a Content-Length of its own, as if it were complete
  (`TruncationRuns.TruncatedBodyIsServed`). `Truncation.CachedBodyIsComplete` and
  `Truncation.ServedBodyIsComplete` prove that a body is complete if and only if its length is the one its
  headers announced, which nothing checks.
- **Quality values are not read.** An encoding that the client rules out may be looked for, and served
  (`StreamerMachine.RuledOutIsLookedFor`).
- **`requestContinue` with a time alone** sets a pause and clears it again; the model does the same.
- **A timeout cancels nothing.** `handleTimeout` says it cancels pending tasks but only sets two
  flags. The model follows the code, so no result here says that a stalled backend is given up.

## What is assumed

These are parameters or preconditions, never axioms.

- `Http.StableParser`: once the response parser reports a complete header block, bytes after that
  block change nothing, and it reports completion as soon as the block is complete.
  `Http.BlankLineParserIsStable` shows that every parser that reads up to the first blank line is so.
- `Deny.StatusLineFirst`: a complete header block contains a complete status line.
  `Deny.StatusLineParserIsStable` shows that both assumptions can be met together.
- `GatewayTheorems.CleanEtags`: no ETag contains the separator 0x1F. The grammar of section 2.3 of
  RFC 7232 guarantees it: `CacheModel.EntityTagHasNoSeparator`.
- `CacheModel.CollisionFree`: different bodies inserted so far have different hashes.

The parser, the hash, the entity-tag evaluation of sections 3.1 and 3.2 of RFC 7232, the rendering of
a response into bytes, and the date and host names put into it are fields of
`StreamerMachine.Gateway`. How a connect, a write or a read ends is a parameter of the step, and so
is what the routing finds. One character of a Dafny string stands for one byte.

## Model

| member | source | states |
|---|---|---|
| `StreamerRuns.ByteConservation` | frontend/LowLatencyGatewayStreamer.cpp:340-820 | after any run, the chunks handed out followed by the client buffer are exactly the bytes read on the current connection (streamed), exactly the rendered cached answer (served), and nothing at all before either is decided; no probe byte leaks |
| `StreamerRuns.ExitMeansDrained` | frontend/LowLatencyGatewayStreamer.cpp:346-367 | once the consumer has been told EXIT_OK or EXIT_ERROR, that outcome is final, agrees with the gateway status, and every byte has already been handed out |
| `StreamerRuns.EarlyEndDeliversNothing` | frontend/LowLatencyGatewayStreamer.cpp:644-690 | a stream that ends or fails before its header block is complete never delivers a byte, then or later |
| `StreamerRuns.DrainedStreamEnds` | frontend/LowLatencyGatewayStreamer.cpp:340-391 | once a stream is over, two chunk calls at most tell the consumer how it ended, and by then it has every byte the backend sent, or the whole cached answer |
| `Outcomes.OutcomeFollowsEvents` | frontend/LowLatencyGatewayStreamer.cpp:429-912 | after any run the stream has failed if and only if a read broke, was cancelled after a timeout or brought headers that cannot be parsed, or the content request could not be sent; it has finished if and only if a read met the end of the stream or a probe with an ETag was answered from the cache; and which phase it is in, and whether it is finishing, follow from the header blocks that came in |
| `Outcomes.ToldWhatHappened` | frontend/LowLatencyGatewayStreamer.cpp:340-427 | the consumer has been told an outcome if and only if it asked, for a chunk or a peek, when the stream was over and nothing was left: EXIT_ERROR if and only if the stream failed in one of those ways, EXIT_OK if and only if it ended or was answered from the cache |
| `Outcomes.TwoChunksTell` | frontend/LowLatencyGatewayStreamer.cpp:340-391 | after any such end two chunk calls tell EXIT_ERROR or EXIT_OK by the event that ended the stream |
| `Outcomes.WhoWaits` | frontend/LowLatencyGatewayStreamer.cpp:340-427 | a chunk or peek call waits if and only if the buffer is empty and the stream is ongoing; no other event moves the consumer into a wait |
| `Outcomes.CachedExactlyWhen` | frontend/LowLatencyGatewayStreamer.cpp:697-872 | over any run, a read completion inserts into the cache if and only if it is the clean end of a stream that was passed on, no timeout came before, and what was received is a header block with status 200, an ETag, a Content-Type and no Transfer-Encoding, followed by 1 to 20971520 bytes |
| `Outcomes.HeaderBlockDecidesCaching` | frontend/LowLatencyGatewayStreamer.cpp:695-740 | when the content header block is complete, the streamer goes on caching if and only if it could so far and the block has exactly these four properties; then the mirror is the bytes after the block, under its own headers |
| `Outcomes.CachingStaysExact` | frontend/LowLatencyGatewayStreamer.cpp:779-844 | over any run, the right to cache is lost only by a timeout, by a header block without the four properties, by a body over 20971520 bytes, or because the answer came from the cache |
| `Outcomes.DataReadFills` | frontend/LowLatencyGatewayStreamer.cpp:775-801 | a read of body bytes adds exactly them to the client buffer and pauses reading if and only if that leaves more than 16777216 |
| `StreamerRuns.OneReadOrFull` | frontend/LowLatencyGatewayStreamer.cpp:793-806 | in every reachable state at most one read is outstanding; an ongoing stream has exactly one or is paused on a full buffer, never both, and neither exactly if it is adrift; an ended stream has none |
| `StreamerRuns.AdriftMeansLostRead` | frontend/LowLatencyGatewayStreamer.cpp:874-892 | a stream is adrift exactly when its request was never sent or some read was cancelled before any timeout |
| `StreamerRuns.ChunkRestartsReading` | frontend/LowLatencyGatewayStreamer.cpp:366-385 | taking a chunk from a full buffer yields a non-empty chunk, empties the buffer and restores exactly one outstanding data read |
| `StreamerRuns.BackPressureBound` | frontend/LowLatencyGatewayStreamer.cpp:793-801 | in every reachable streaming state the client buffer is at most 8192 bytes beyond the larger of 16777216 and the header buffer, beyond both only while reading is paused, and reading is paused only beyond 16777216 |
| `StreamerRuns.InsertIsSound` | frontend/LowLatencyGatewayStreamer.cpp:851-870 | a handler can only insert in the data phase without timeout, and the entry is the body of the stream received, with the literal four properties, each field of its metadata taken from that stream's own headers |
| `StreamerRuns.CacheInsertSoundness` | frontend/LowLatencyGatewayStreamer.cpp:697-740 | over any run, an insert happens only at a clean end of a response with status 200, an ETag and a Content-Type and without Transfer-Encoding, never after a timeout or overflow, and stores exactly the 1 to 20971520 bytes after the header block, described field by field by that response's headers |
| `StreamerRuns.PeekIsPrefix` | frontend/LowLatencyGatewayStreamer.cpp:393-427 | at any time in a run, what has been handed out followed by what a peek shows is a prefix of everything handed out and buffered at any later time |
| `Refusals.DenialIsGenuine` | frontend/Proxy.cpp:209-230 | a denial read off the peeked bytes, or any verdict on a complete peeked header block, is the verdict on every later state of the stream that would have reached the client |
| `Refusals.RefusalIsMissed` | frontend/Proxy.cpp:209-241 | over any run, a streamed response turns out a refusal that the peek did not see if and only if the header block it began with refuses and either the peek came before that block was complete, or the block is longer than the peek and neither legacy code nor status line, as far as shown, refuses |
| `Refusals.OnlyErrorHeaderIsMissed` | frontend/Proxy.cpp:37-51 | a peek that comes in time and shows the whole status line misses a refusal if and only if the error header alone carries it and the header block goes on after the peek |
| `Refusals.ShortPeekMissesDenial` | frontend/Proxy.cpp:53-70 | for every refusal without an ETag in one read that the beginning of its header block does not show there is a run in which a timely peek of that length misses it |
| `Refusals.LongPeekMissesNothing` | frontend/Proxy.cpp:209-230 | a first peek into a stream already passed on that reaches the end of its header block gives the verdict on everything that follows |
| `Refusals.NextReadMayRefuse` | frontend/Proxy.cpp:209-230 | while nothing is released every peek sees nothing to refuse; the next read then releases a refusal if and only if it completes a header block that is one, and that is not the answer to a probe with an ETag |
| `Refusals.HeaderBlockDecides` | frontend/LowLatencyGatewayStreamer.cpp:494-508 | in every reachable streaming state the verdict on everything released is that on the header block the stream began with |
| `Refusals.EarlyPeekMissesDenial` | frontend/LowLatencyGatewayStreamer.cpp:398-427 | for every refusal without an ETag that arrives in one read there is a run in which the timed wait of the peek ends before it, the peek shows nothing to refuse, and the refusal is released to the client |
| `Refusals.LegacyRefusalIsMissed` | frontend/Proxy.cpp:28-35 | such a run for a legacy shutdown answer of one status line, and the length of peek that the frontend uses |
| `StreamerRuns.HistoryIsHonest` | frontend/LowLatencyGatewayStreamer.cpp:340-391 | the history fields are the concatenated outputs of the run and the concatenated reads since the last reconnection |
| `StreamerRuns.RunEvolves` | frontend/LowLatencyGatewayStreamer.cpp:846-904 | between any two states of a run released bytes stay, the right to cache is never regained, timeouts and finishing stay, and a finished or failed stream releases nothing more |
| `StreamerRuns.StepEvolves` | frontend/LowLatencyGatewayStreamer.cpp:340-912 | each single step does so, and changes the history by exactly the bytes it read or handed out |
| `StreamerInvariant.StepKeepsInv` | frontend/LowLatencyGatewayStreamer.cpp:340-912 | read discipline, byte conservation, exact body mirror, back-pressure and bookkeeping survive every enabled step |
| `StreamerInvariant.CacheableStartKeepsInv` | frontend/LowLatencyGatewayStreamer.cpp:697-735 | when a cacheable header block completes, the mirrored body is what follows it and, coming from the last read alone, is small enough to cache |
| `StreamerInvariant.DataReadKeepsInv` | frontend/LowLatencyGatewayStreamer.cpp:779-806 | appending a read keeps client buffer, mirror and limits exact, also on overflow of either |
| `StreamerInvariant.HitKeepsInv` | frontend/LowLatencyGatewayStreamer.cpp:533-566 | serving a cached answer keeps the invariant: nothing but that answer will be delivered and it will not be cached again |
| `StreamerInvariant.ContentRequestKeepsInv` | frontend/LowLatencyGatewayStreamer.cpp:580-642 | reconnecting for the content, however it fares, keeps the invariant: nothing of the probe is left |
| `StreamerInvariant.StartHasInv` | frontend/LowLatencyGatewayStreamer.cpp:275-337 | after construction and sending the invariant holds, the stream is an ongoing probe that may cache, and it is adrift if and only if its request was not sent |
| `StreamerMachine.ClientAcceptsContentEncoding` | frontend/LowLatencyGatewayStreamer.cpp:44-69 | gzip, zstd or nothing is looked for, and something if and only if the client names one of them or accepts anything; zstd is preferred, and a bare asterisk means gzip |
| `StreamerMachine.RuledOutIsLookedFor` | frontend/LowLatencyGatewayStreamer.cpp:53-60 | an encoding that the client rules out by a quality value of zero is looked for all the same |
| `StreamerObject.LowLatencyGatewayStreamer.constructor` | frontend/LowLatencyGatewayStreamer.cpp:222-241 | a new streamer is in the initial state and its backend's request count is one higher |
| `StreamerObject.LowLatencyGatewayStreamer.Destroy` | frontend/LowLatencyGatewayStreamer.cpp:216-220 | the count is lowered unless the streamer was already finishing |
| `StreamerObject.LowLatencyGatewayStreamer.MarkFinishing` | frontend/LowLatencyGatewayStreamer.cpp:265-272 | the count is lowered the first time only |
| `StreamerObject.LowLatencyGatewayStreamer.SendAndListen` | frontend/LowLatencyGatewayStreamer.cpp:275-337 | what is written asks for an ETag; it succeeds exactly if the request was sent, and only then starts a probe read and takes the mark off the request again |
| `StreamerObject.LowLatencyGatewayStreamer.ReadCacheResponse` | frontend/LowLatencyGatewayStreamer.cpp:429-578 | the new state is the machine's for what the lookups found; a hit is vouched for by an earlier insert under the probed ETag in a negotiated encoding; the request count and the trace of cache accesses match |
| `StreamerObject.LowLatencyGatewayStreamer.LookUp` | frontend/LowLatencyGatewayStreamer.cpp:514-524 | the accesses are those of the preferred encoding and then, exactly after a miss, those of the identity, and the result is what they saw, whatever other threads do in between; a hit was inserted under the ETag asked for |
| `StreamerObject.LowLatencyGatewayStreamer.AnswerProbe` | frontend/LowLatencyGatewayStreamer.cpp:512-566 | an ETag leads to the content request without a hit, and to the complete cached answer with one |
| `StreamerObject.LowLatencyGatewayStreamer.SendContentRequest` | frontend/LowLatencyGatewayStreamer.cpp:580-642 | all three buffers are cleared, the request is written as it is, and a header read is outstanding exactly if it was sent |
| `StreamerObject.LowLatencyGatewayStreamer.ReadDataResponseHeaders` | frontend/LowLatencyGatewayStreamer.cpp:644-764 | the new state is the machine's, and a clean end of a cacheable stream has entered the cache |
| `StreamerObject.LowLatencyGatewayStreamer.DecideCaching` | frontend/LowLatencyGatewayStreamer.cpp:695-740 | the mirror is started exactly for cacheable responses, which `Outcomes.HeaderBlockDecidesCaching` spells out; all others give up caching |
| `StreamerObject.LowLatencyGatewayStreamer.ReadDataResponse` | frontend/LowLatencyGatewayStreamer.cpp:766-820 | the new state is the machine's, and a clean end of a cacheable stream has entered the cache |
| `StreamerObject.LowLatencyGatewayStreamer.HandleError` | frontend/LowLatencyGatewayStreamer.cpp:846-912 | exactly a clean end of a cacheable, non-empty, timely stream is inserted, with its own metadata; anything else leaves the history of inserts alone; which status it leads to is spelt out by `Outcomes.OutcomeFollowsEvents` |
| `StreamerObject.LowLatencyGatewayStreamer.HandleTimeout` | frontend/LowLatencyGatewayStreamer.cpp:823-844 | a timer that was not cancelled sets the timeout flag and gives up caching, and does nothing else |
| `StreamerObject.LowLatencyGatewayStreamer.ReadCompleted` | frontend/LowLatencyGatewayStreamer.cpp:429-820 | every read completion is a step of the machine, keeps the streamer's and the cache's invariant, lowers the request count exactly when the streamer turns finishing, and does to the cache what its trace of accesses says |
| `StreamerObject.LowLatencyGatewayStreamer.GetChunk` | frontend/LowLatencyGatewayStreamer.cpp:340-391 | waits exactly on an empty buffer of an ongoing stream, and otherwise hands out the whole buffer |
| `StreamerObject.LowLatencyGatewayStreamer.GetChunkWoken` | frontend/LowLatencyGatewayStreamer.cpp:353-385 | after the wait, hands out whatever has arrived |
| `StreamerObject.LowLatencyGatewayStreamer.GetPeekString` | frontend/LowLatencyGatewayStreamer.cpp:393-427 | returns the part of the buffer asked for, or fails exactly on a position outside a non-empty one; takes nothing from it, and notes the end of a drained stream |
| `StreamerObject.LowLatencyGatewayStreamer.GetPeekStringWoken` | frontend/LowLatencyGatewayStreamer.cpp:405-421 | after the wait, the same of whatever has arrived |
| `StreamerObject.LowLatencyGatewayStreamer.Peek` | frontend/Proxy.cpp:209 | with any read completions and timeouts before it and during its wait, a peek shows the beginning of the buffer as it is then, nothing has been handed out, and the streamer is where a run of its machine leads |
| `HandlerSteps.HandlerIsSystemSteps` | frontend/LowLatencyGatewayStreamer.cpp:512-566 | a handler that uses the cache, as the class runs it, is Begin, one system step for each access, and Finish: in whatever system it finds itself at any of them, that step is the system's, and the cache gets from one to the next by steps of others |
| `HandlerSteps.HandlerIsOnePath` | frontend/LowLatencyGatewayStreamer.cpp:429-570 | as a whole such a handler is one path of systems from before it to after it, in which nothing but steps of others on the cache comes between its own |
| `HandlerSteps.PreferredThenIdentity` | frontend/LowLatencyGatewayStreamer.cpp:512-531 | while nobody else touches the cache, a probe with an ETag finds the body held in the client's preferred encoding, failing that the one held without encoding, and nothing if and only if neither is held at both levels |
| `HandlerSteps.OtherEventsAreOneStep` | frontend/LowLatencyGatewayStreamer.cpp:340-844 | every other event is one system step: reads that do not use the cache, timeouts, chunks and peeks |
| `Truncation.CachedBodyIsComplete` | frontend/LowLatencyGatewayStreamer.cpp:851-872 | a body that is inserted is a beginning of the one the backend meant to send, and all of it if and only if its length is the announced one |
| `Truncation.ServedBodyIsComplete` | frontend/LowLatencyGatewayStreamer.cpp:533-553 | the same for a body served from the cache |
| `TruncationRuns.TruncatedBodyIsCached` | frontend/LowLatencyGatewayStreamer.cpp:851-872 | for every cacheable response cut off anywhere in its body, in any reads, up to the cache limit, there is a run that ends with that much of the body being inserted, a proper beginning of what was meant to be sent |
| `TruncationRuns.TruncatedBodyIsServed` | frontend/LowLatencyGatewayStreamer.cpp:512-566 | and there is a run of the whole system in which the next client that probes the same ETag is then served from the cache a body that is not the one its backend has just confirmed, with a Content-Length that says it is complete |
| `TruncationRuns.HalfABodyIsServed` | frontend/LowLatencyGatewayStreamer.cpp:533-553 | such a run with a concrete parser and response: two bytes announced, one received, one served |
| `GatewayTheorems.CacheTransparency` | frontend/LowLatencyGatewayStreamer.cpp:512-566 | in every interleaving of any number of streamers, inserts, lookups and evictions, a full body served from the cache is byte for byte the body of a response with status 200, a Content-Type, no Transfer-Encoding and the same ETag that some streamer had earlier received to a clean end, with its content type, Cache-Control, Vary and allowed origin, in the encoding looked for on the client's behalf or none |
| `GatewayTheorems.StreamersFollowTheirMachine` | frontend/LowLatencyGatewayStreamer.cpp:429-578 | whatever the interleaving, every streamer is at the end of a run of its own machine, so all results about single streamers hold in the system |
| `GatewayTheorems.SystemKeepsInv` | frontend/LowLatencyGatewayStreamer.cpp:216-912 | in every reachable system the cache is consistent with its inserts and every streamer, between or amid handlers, satisfies its invariant |
| `GatewayTheorems.HistoryComesFromStreams` | frontend/LowLatencyGatewayStreamer.cpp:857-870 | every entry ever inserted is the complete body of a stream some streamer received, under its headers |
| `StreamerMachine.FullAnswerIsFaithful` | frontend/LowLatencyGatewayStreamer.cpp:110-212 | an answer has a body if and only if the preconditions require one and the client did not merely send If-Modified-Since, and is then a 200 with the cached body, type and encoding and a true length; in every case validator, Cache-Control, Vary and allowed origin are the cached ones or their defaults, the expiration time is the one the backend has just sent, and no other header varies |
| `GatewayTheorems.HitReproduces` | frontend/LowLatencyGatewayStreamer.cpp:538-553 | an answer built from a hit under the probed ETag and a negotiated encoding reproduces the response the entry came from |
| `GatewayTheorems.ActiveRequestsAreCounted` | frontend/LowLatencyGatewayStreamer.cpp:216-241 | each backend's count is the number of its live streamers not yet finishing as long as no count was reset, and never more than that afterwards; a streamer stops at most once, and exactly once by its destruction |
| `GatewayTheorems.StopMeansFinishing` | frontend/LowLatencyGatewayStreamer.cpp:265-272 | a step calls stop exactly when the streamer turns finishing, and finishing is never undone |
| `GatewaySystem.SystemStepKeepsInv` | frontend/LowLatencyGatewayStreamer.cpp:512-566 | every action of the system, also one amid another streamer's handler, keeps cache consistency and every streamer's invariant |
| `GatewaySystem.OnlyProbeServes` | frontend/LowLatencyGatewayStreamer.cpp:533-566 | a streamer becomes served only by a probe read answered from the cache, and then stays as it is |
| `GatewaySystem.LookUpKeepsLockOk` | frontend/LowLatencyGatewayStreamer.cpp:519-524 | a lookup interrupted between its two accesses still ends with metadata and body that were both inserted, under the key asked for |
| `CacheModel.KeyIsInjective` | frontend/ResponseCache.cpp:15-20 | equal keys mean equal ETags and equal encodings, unless an ETag contains the separator |
| `CacheModel.EntityTagHasNoSeparator` | frontend/ResponseCache.cpp:17-19 | no entity tag of the RFC 7232 grammar contains the separator |
| `CacheModel.StepKeepsConsistent` | frontend/ResponseCache.cpp:39-64 | half inserts and evictions, whether an existing value is kept or replaced, leave nothing in the cache that was not inserted under that key |
| `CacheModel.AnswerIsVouched` | frontend/ResponseCache.cpp:22-37 | a lookup whose two finds saw different states answers with metadata inserted under the key, a body that was inserted, and a hash that matches |
| `CacheModel.VouchedIsOneEntry` | frontend/ResponseCache.cpp:22-37 | without collisions among inserted bodies, such an answer is one single earlier insert |
| `CacheModel.FaithfulIffInjective` | frontend/ResponseCache.cpp:22-64 | in all runs all answers are earlier inserts under the same key if and only if the hash is injective |
| `ResponseCache.ResponseCache.GetCachedBuffer` | frontend/ResponseCache.cpp:22-37 | the metadata are what the first find saw and the buffer what the second one sees after any steps of other threads; a non-null buffer has the hash its metadata name, and both were inserted, the metadata under exactly this key |
| `ResponseCache.ResponseCache.InsertCachedBuffer` | frontend/ResponseCache.cpp:39-64 | both halves of the insert happen, metadata first, with any steps of other threads in between; right after each half its key is there; the entry is in the history and the cache stays consistent |
| `Deny.WireVerdictIsStable` | frontend/Proxy.cpp:28-51 | a refusal recognised by the legacy code or the status line is the verdict on every longer prefix, for any parser |
| `Deny.VerdictMeaning` | frontend/Proxy.cpp:26-73 | SHUTDOWN, HIGH_LOAD or NONE exactly as six facts say that name no verdict: bytes 9 to 12 are 3210 or 1234; the first line is complete and holds " 503 " and one of the two phrases; the header block is complete, has status 503 and an error header that without white characters around it, and for the words in any case, is 3210 or shutdown, 1234 or high_load; the code comes before the line, the line before the header, and shutting down before high load within each of the last two |
| `Deny.VerdictIsFinal` | frontend/Proxy.cpp:26-73 | any refusal, and any verdict on a complete header block, is the verdict on every longer prefix |
| `Deny.NoneIsFinalOnTheWire` | frontend/Proxy.cpp:28-51 | that the first bytes show no refusal stays so on every extension if and only if the status line is complete and 13 bytes are there or those there cannot become one of the two codes |
| `Deny.UnsettledCanBeOverturned` | frontend/Proxy.cpp:26-73 | until then, whatever the parser, a verdict of no refusal can still be overturned |
| `Retry.RetriesAreBounded` | frontend/HTTP.cpp:213-223 | at most one attempt more than there are registered backends, no backend contacted twice, and every attempt but the last was refused and left the client's response as it was |
| `Retry.RefusalIsClean` | frontend/HTTP.cpp:168-197 | an attempt is to be repeated exactly if a contacted backend's first bytes are a refusal; then that backend is unregistered and the response untouched |
| `Retry.AttemptMeaning` | frontend/HTTP.cpp:43-203 | status, client response and contacted backend, case by case with the literal codes: no service, no backend, dead backend, unroutable, unreachable, refusing, accepted; and the services lost are those of a backend found dead or contacted in vain, and no others |
| `Retry.SuccessWithoutContact` | frontend/HTTP.cpp:52-107 | a success without contacting a backend is told if and only if the request has If-None-Match or If-Modified-Since and there is no service or its backend is dead; then the response is a 304, and any other success a 200 |
| `Retry.CountsMeaning` | frontend/HTTP.cpp:83-197 | after an attempt a lost backend counts no request, one that is streaming still counts one more, and every other count is as it was |
| `Retry.RoutedResource` | frontend/HTTP.cpp:115-166 | the resource sent on belongs to the service and differs from the requested one at most by the backend's name in front, which is left where the request fits without removing it; routing succeeds if and only if the request has one of the two expected forms, for services with a prefix and without |
| `Retry.BackendsRunOut` | frontend/HTTP.cpp:177-190 | after i refusals exactly i backends are gone, and none of them is known to a later attempt |
| `Retry.HttpPlugin.Transport` | frontend/HTTP.cpp:43-203 | status, client response and contacted backend are, in each case, the literal ones of `Retry.AttemptMeaning`; services, request counts and throttle signals are those of the specification; the request sent on is the client's for the routed resource with the three headers set; on success the response is a stream from the contacted backend for that very request that shows what was peeked |
| `Retry.RetiredIsForgotten` | frontend/HTTP.cpp:83-190 | a backend is unregistered if and only if it is dead or was contacted in vain |
| `Retry.ForwardingKeepsTheOrigin` | frontend/Proxy.cpp:155-187 | the forwarded request asks for the connection to be closed, carries the first hop's address and protocol (https or http by the reactor) however often it is forwarded, stays conditional or not, and changes no other header |
| `Retry.HttpPlugin.HTTPForward` | frontend/Proxy.cpp:145-247 | a streamer is created, sent off and peeked at for 4096 bytes while its reads go on; a backend that cannot be reached or refuses leaves the response unchanged, otherwise the response is a 200 streamed from that streamer, which has handed out nothing and looks at the forwarded request field by field; the request is forwarded with the three headers set, and counted while its streamer is busy |
| `Retry.HttpPlugin.RequestHandler` | frontend/HTTP.cpp:205-231 | the loop terminates, is a sequence of attempts each begun with what the last one left, never ends on a refusal, leaves no request counted for a backend that refused, and ends, if it reached a backend, with a stream whose beginning, as peeked at, does not refuse |
| `SetIntersection.SetIntersect` | frontend/info/BackendInfoResponse.cpp:107-115 | the two-pointer loop computes the specification function |
| `SetIntersection.OppositeOrderGivesPrefix` | frontend/info/BackendInfoResponse.cpp:102-115 | on lists sorted against the comparator, the loop yields the longest prefix on which they agree |
| `SetIntersection.IntersectionCounts` | frontend/info/BackendInfoResponse.cpp:107-115 | on lists sorted by the comparator, each key occurs as often as where it is rarer |
| `SetIntersection.IntersectionIsSubSequence` | frontend/info/BackendInfoResponse.cpp:107-115 | with any comparator and lists, the records are those of the first list, in its order |
| `Merge.AsWrittenMerge` | frontend/info/BackendInfoResponse.cpp:89-122 | for any number of descending lists, the merge is exactly the longest prefix of the first on which all agree up to key equivalence |
| `Merge.MergeIsOrderIndependent` | frontend/info/BackendInfoResponse.cpp:89-122 | the keys of the merge do not depend on the order of the responses |
| `Merge.DocumentedMerge` | frontend/info/BackendInfoResponse.h:41-46 | with a matching comparator every key is kept as often as where it is rarest, sorted, as records of the first response |
| `Merge.DocumentedKeys` | frontend/info/BackendInfoResponse.h:41-46 | with a matching comparator a key is in the merge if and only if it is in every response |
| `Merge.AsWrittenVersusDocumented` | frontend/info/BackendInfoResponse.cpp:102-116 | the merge as written is always the beginning of the documented one, and equal to it if and only if no key occurs in every response beyond the common prefix |
| `Merge.DistinctKeysCompareByPrefix` | frontend/info/BackendInfoResponse.cpp:102-116 | with distinct keys the two are equal if and only if the beginning on which all lists agree holds every common key |
| `Merge.NewestRecordsDiffer` | frontend/info/BackendInfoResponse.cpp:102-116 | for any order, two lists whose newest records differ lose the older record they share, which the documented merge keeps |
| `BackendInfo.MergeIsCommonPrefix` | frontend/info/BackendInfoResponse.cpp:88-122 | what is kept of a common producer begins the first response's list and goes on exactly as long as all lists agree |
| `BackendInfo.MergeMatchesDocumentation` | frontend/info/BackendInfoResponse.h:41-46 | merging any well-formed responses gives what is documented if and only if no common producer has a record in all of them beyond the point where their lists stop agreeing |
| `BackendInfo.SharedRecordIsLost` | frontend/info/BackendInfoResponse.cpp:102-121 | two well-formed responses whose newest records differ: the documented merge holds the record they share, the merge as written is empty |
| `InfoRecords.QEngineMerge` | frontend/info/QEngineInfoRec.cpp:137-153 | both statements for responses about querydata under their own order |
| `InfoRecords.GridMerge` | frontend/info/GridGenerationsInfoRec.cpp:104-115 | both statements for responses about grid generations under theirs |
| `InfoRecords.SharedGenerationIsLost` | frontend/info/BackendInfoResponse.cpp:102-121 | two backends with different newest generations, or querydata, of one producer and one older in common: the shared one is lost |
| `BackendInfo.ParseResponse` | frontend/info/BackendInfoResponse.cpp:12-52 | fails if and only if the value is not an array or the record factory fails on an item; otherwise every record that the factory made and the filter passes is in the list of its own producer as often as it was made, and nothing else is in any list; lists are newest first and never empty |
| `BackendInfo.AcceptedCounts` | frontend/info/BackendInfoResponse.cpp:22-31 | of one producer, each record that passes the filter is kept as often as it occurs, any other not at all |
| `BackendInfo.BackendInfoResponse.Merge` | frontend/info/BackendInfoResponse.cpp:55-123 | the records of the specification, well formed again, with the number of responses present and the title of the first; a missing response is skipped, as long as the second loop does not look into it |
| `BackendInfo.BackendInfoResponse.Filtered` | frontend/info/BackendInfoResponse.cpp:130-145 | each record that passes is kept under its producer as often as it was there, any other not at all; in order, without empty lists, well formed again |
| `BackendInfo.MergeIsWellFormed` | frontend/info/BackendInfoResponse.cpp:88-122 | merging keeps lists non-empty, sorted and of one producer, and each is a prefix of the first response's |
| `BackendInfo.MergedKeysAreOrderIndependent` | frontend/info/BackendInfoResponse.cpp:62-122 | which producers survive, and with which keys, does not depend on the order of the responses |
| `BackendInfo.MergeRecords` | frontend/info/BackendInfoResponse.cpp:88-122 | every lookup of a common producer succeeds in every response, and producers with nothing left are dropped |
| `BackendInfo.FilterIsWellFormed` | frontend/info/BackendInfoResponse.cpp:135-144 | filtering keeps a response well formed |
| `BackendInfo.FilterKeepsAll` | frontend/info/BackendInfoResponse.cpp:137-143 | exactly the passing records, each as often as it occurs, in their order |
| `BackendInfo.CommonProducers` | frontend/info/BackendInfoResponse.cpp:62-86 | a producer is common if and only if every response has it |
| `InfoRecords.OrdersAreStrictWeak` | frontend/info/QEngineInfoRec.cpp:137-153 | both record orders are strict weak orders, as sorting and intersecting require |
| `InfoRecords.QEngineOrder` | frontend/info/QEngineInfoRec.cpp:137-153 | two records are equivalent if and only if origin time, path and producer are equal |
| `InfoRecords.GridOrder` | frontend/info/GridGenerationsInfoRec.cpp:104-115 | two records are equivalent if and only if producer, geometry and analysis time are equal |
| `InfoRecords.Precedence` | frontend/info/QEngineInfoRec.cpp:137-153 | querydata is compared by origin time first, then by path, then by producer; grid generations by producer, then by geometry, then by analysis time |
| `InfoRecords.NewestQueryDataFirst` | frontend/info/BackendInfoResponse.cpp:33-36 | in every list of a response the newer origin time comes first whatever the path, and among equal ones the greater path |
| `InfoRecords.NewestGenerationFirst` | frontend/info/BackendInfoResponse.cpp:33-36 | in every list the greater geometry comes first, and of each geometry the newer analysis time |
| `InfoRecords.LookupParameter` | frontend/info/BackendInfoRec.h:69-89 | true if and only if some list contains the parameter |
| `InfoRecords.FilterMeaning` | frontend/info/BackendInfoFilter.cpp:19-29 | a record passes if and only if its producer matches and all, or any, of the parameters are found |
| `InfoRecords.QEngineFilterMeaning` | frontend/info/QEngineInfoRec.cpp:50-53 | the same for querydata records and their one list |
| `InfoRecords.GridFilterMeaning` | frontend/info/GridGenerationsInfoRec.cpp:133-136 | the same for grid records, either list counting |
| `InfoLists.GetStringVectorField` | frontend/info/BackendInfoRec.cpp:110-130 | a missing or blank field gives no tokens, any other its trimmed tokens |
| `InfoLists.GetIntegerVectorField` | frontend/info/BackendInfoRec.cpp:133-173 | a missing or null field gives no numbers, a number itself if it fits 64 bits and an exception otherwise, a text its tokens' numbers, with an exception if and only if some token other than "-" is no integer, and any other value an exception |
| `InfoLists.DashesAreSkipped` | frontend/info/BackendInfoRec.cpp:160-167 | a dash among the tokens changes nothing wherever it stands, and reading fails if and only if some other token is no integer |
| `InfoLists.SplitMeaning` | frontend/info/BackendInfoRec.cpp:123-124 | no token holds a separator, only the first and the last may be empty, and the tokens with non-empty runs of separators between them are the text |
| `InfoLists.ListRoundTrip` | frontend/info/QEngineInfoRec.cpp:61-66 | a printed list of plain tokens reads back exactly, with either set of separators, if and only if it is not empty |
| `InfoLists.SplitOfJoin` | frontend/info/BackendInfoRec.cpp:123-124 | splitting on blanks and commas with compression undoes joining with ", " |
| `InfoLists.SplitOfJoinAtCommas` | frontend/info/BackendInfoRec.cpp:123-128 | splitting on commas alone gives the tokens back with the blanks that trimming then removes |
| `InfoLists.IntegerRoundTrip` | frontend/info/QEngineInfoRec.cpp:67 | printed levels read back exactly if and only if there are some and each fits 64 bits; otherwise reading them is an error |
| `Backends.Deduplicate` | frontend/Plugin.cpp:312-328 | every host and port of the input occurs exactly once, as an announcement of the input, in strict order of host and then port |
| `Backends.UniqueInPlace` | frontend/Plugin.cpp:321-328 | the in-place shift leaves the first of each run of equal keys in front |
| `Backends.UniqueIsStrict` | frontend/Plugin.cpp:313-328 | on a sorted list what remains is strictly ordered |
| `Backends.UniqueCovers` | frontend/Plugin.cpp:321-328 | no key is lost |
| `Pause.LazyExpiryIsInvisible` | frontend/Plugin.cpp:489-511 | after any commands and queries in the order of time, the plugin is paused if and only if the last effective command paused it without a deadline or with one still ahead |
| `Pause.AnswerAfterCommand` | frontend/Plugin.cpp:407-511 | for each kind of command, what is answered at any later time: until its time, until its duration past the full second, always, never, or as before where a parameter cannot be read, except that continuing with a time and an unreadable duration pauses until that time |
| `Pause.QueriesChangeNothing` | frontend/Plugin.cpp:489-511 | leaving all queries out of the past changes no later answer |
| `Pause.ActualVersusCommanded` | frontend/Plugin.cpp:503-508 | a query changes the state only after the deadline of the last effective command has passed |
| `Pause.Plugin.DoRequestPause` | frontend/Plugin.cpp:407-440 | the new state is that of the specification, and it fails exactly on an unreadable time, or an unreadable duration without a time |
| `Pause.Plugin.DoRequestContinue` | frontend/Plugin.cpp:448-481 | the new state is that of the specification, also where reading the duration fails after the time has paused |
| `Pause.ContinueIsTwoSections` | frontend/Plugin.cpp:454-475 | continuing with a time is a pause until then followed by a continuation without it, so what others see in between its two critical sections is covered by the results above |
| `Pause.Plugin.DoIsPaused` | frontend/Plugin.cpp:489-511 | answers by the clock, and ends an expired pause |

## Left out

- Sockets, threads, the reactor's event loop, logging and the parsing of HTTP and JSON: a step says how a read, a write or a connection ended.
- Timer liveness: the timer's only modelled effect is the two flags its handler sets, at any time.
- Exceptions caught and swallowed inside the read handlers: they are taken not to occur.
- The internals of the two caches: each may evict anything at any time and may keep or replace a value inserted again, but nothing is said of sizes or of the file system.
- The internals of the services registry: its choice of a service is arbitrary among those registered, and of its throttle only the signals it is sent are modelled.
- StreamerMachine.BuildCacheResponse: the date and the host name are constants of the gateway, so their changing with time is not modelled.
- Retry.RetriesAreBounded: backends that register while a request is being retried are excluded; with them no bound holds.
- Retry.HttpPlugin.HTTPForward: other requests that start or stop at the same backend meanwhile are not part of this class; GatewaySystem counts those.
- BackendInfo.BackendInfoResponse.Merge: responses on which the source follows a null pointer are excluded: a missing first one, or a missing one while the others have a producer in common.
- BackendInfo.ParseResponse: records of mixed types, on whose comparison the source throws, are not modelled; sorting is some sorted permutation.
- Table and JSON output, time formatting, and the network requests that collect backend information.
- Configuration, authentication, registration of the administrative requests, and the design proposal in the documentation that is not implemented.
