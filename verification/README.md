# Hypercorn's buffering and scheduling layer, modelled and proved

Between an ASGI application and the protocol libraries (h2, aioquic, wsproto)
Hypercorn has code of its own that buffers, bounds, orders, schedules and
acknowledges bytes.  This project models that code in Dafny and proves what it
promises.

Every part has the same three layers:

1. a **class** with the source's own mutable fields, one method per stretch of
   code between two suspensions (for the trio writer: per block under its
   condition), each tied by its contract to a function on plain values;
2. a **step machine** over those functions: any number of tasks, any choice the
   environment can make, any interleaving.  A run is a sequence of steps, each
   enabled where the earlier ones lead;
3. the **theorems**, about every run.

What happened in a run is a history (`Start | Then(past, obs)`), and most
promises are stated on the history alone: what was accepted, sent, granted,
flushed, released.

| files | source | what is proved |
|---|---|---|
| `StreamBuffers` | `h2_send.py` `StreamBuffer` | a chunk deque with a head offset is a byte queue |
| `H2Send`, `H2Scheduler`, `H2Drain`, `H2Batches` | `h2_send.py` `H2SendScheduler` | the scheduler object computes the functions; the drain loop ends within a bound; a batch is a run of the machine |
| `H2System`, `H2Wakeups`, `H2Progress`, `H2Fidelity`, `H2Flow`, `H2Frames`, `H2Release`, `H2Flushes`, `H2Backpressure`, `H2Liveness` | `h2_send.py`, `h2.py` | what each step does to the tree, no stall, order and completeness, flow control, full frames, the right end, releases, flushes, buffer bound, every application goes on |
| `HttpStreams`, `HttpGrammar`, `HttpAnswers` | `http_stream.py` | the response grammar and exactly when it breaks; which response, hints, bodies and trailers there are, told from what application and client did |
| `EndToEnd`, `H2Trailers`, `H2Delivery` | `http_stream.py`, `h2.py`, `h2_send.py` | DATA on the wire is the application's body, the trailers are its trailers, and with enough credit an ended answer gets there whole |
| `QueuedStreams`, `QueueRuns` | `queued_stream.py` | a coalescing queue is a first-in first-out queue; bounds, acknowledgements, wake-ups, and exactly when data can be lost |
| `H3Sends`, `H3Runs` | `h3_send.py` | admission, batches, the completion barrier, nothing stranded |
| `H3EndToEnd`, `H3Delivery` | `http_stream.py`, `h3.py`, `h3_send.py` | the same two results over HTTP/3 |
| `ByteSinks`, `TrioWriters`, `TrioRuns`, `TrioStops`, `TrioErrors`, `AsyncioWriters` | both `tcp_writer.py` | two very different writers keep one specification; exactly when a call waits, when a stop is for good, and which error is raised |
| `QuicTables` | `quic.py` | the routing table, and exactly which library behaviour breaks it |
| `WsMessages`, `WsArrivals` | `ws_stream.py` | message assembly under any batching |

## What the source does that may surprise

- **A response can end without having begun.**  When the application's first
  message is `http.response.trailers` with no more to come, the HTTP version is
  2 or 3 and the request has no `te: trailers` header, `http_stream.py:212-236`
  emits the end of the body with no response before it (and then raises, as the
  access log has no response to read).  `HttpGrammar.GrammarHoldsUnlessBare`:
  the emitted events follow the grammar if and only if that branch was never
  taken; `BareEndExists` is a concrete case.
- **Queued data can be overtaken by the end of its stream and stranded.**  With
  a byte limit set, a producer that waits for space can be overtaken by
  `StreamClosed`, which carries no bytes.  `queued_stream.py:129-130` then lets
  the dispatcher leave, and the producer's item is queued where nobody takes it.
  `QueueRuns.LossIffACallWaits`: once the end of the stream is under way and
  nothing new is handed in, some schedule loses an accepted item if and only if
  some call of `handle` still waits; `OvertakenDataMayBeLost` is a concrete case.
- **A raising flush releases the callers of `end` all the same**
  (`h2_send.py:243-245`).  They are promised that their end was flushed or their
  stream closed.  Without a raising flush the promise is kept
  (`H2Release.CallersAreReleasedStrictly`); for a caller whose end is in the
  batch being flushed it is kept if and only if that flush completes
  (`StrictIffTheFlushCompletes`); `RaisedFlushReleases` is a run that breaks it.
- **A library error while ending a stream forgets that its data needs a flush**
  (`h2_send.py:280-287`).  `H2Flushes.BatchReturnsUnflushedIff`: a batch skips
  its flush if and only if every call of it that handed a frame over drained a
  complete buffer and was refused the end.  `UnflushedIff`: over every run a
  frame waits unflushed if and only if the batch under way is going to flush it
  or some call forgot it and no flush has begun since.  `ForgottenFlush` is a
  run that ends with the loop asleep and such a frame waiting.  The model has
  only the scheduler's own flushes; in the source any other flush of the
  connection, as after the next data received (`h2.py:190`), sends it too.
- **A message too big leaves its bytes in the buffer**
  (`ws_stream.py:320-326`).  The next message of the other type then raises
  TypeError out of `handle` (`ws_stream.py:152`), up into the dispatcher.
  `WsArrivals.CrashesIffOtherKindFollows`: with fragments of one kind per
  message, some cutting into calls makes writing one raise if and only if a
  fragment of the other kind follows the one that takes a message over the
  limit; `SecondKindCrashes` is a case, and `MessagesAreWhole` holds all the same.
- **A `stop` before `start` is forgotten** (`trio/tcp_writer.py:68-70`).  It comes
  back normally at once, and the writer can be started and takes bytes after it.
  `TrioStops.StopIsFinalIff`: after a normal return of `stop` nothing more is ever
  accepted if and only if the writer had been started when it was called;
  `StopBeforeStart` is a run that goes on.
- **`stop` does not notify** (`trio/tcp_writer.py:72-77`): a `send` that waits is
  refused only once the batch in flight completes.  It is never stuck
  (`TrioRuns.NoLostWakeUp`, `WakeUpComes`).

## Assumptions

- Cooperative scheduling: a step is the code between two real suspensions;
  setting and clearing an event does not suspend
  (`src/hypercorn/asyncio/worker_context.py:41-48`).  The two socket writers are
  modelled at the granularity of their locks.  Where the model allows a switch
  that the source does not have (between two turns of a batch, between the end
  of a batch and the head of its loop) it covers more interleavings.
- At most one `send` of an application is in flight per stream
  (`H2System.Producer`, `EndToEnd.May`).  No task is cancelled.
- The peer's maximum frame size is positive.  Stream ids are not reused.
- The HTTP/2 library applies a window change at once; the `window_updated` call
  it triggers (`h2.py:181-187`) is a step of its own, listed in `notices` until
  it comes.  The priority tree is a set of ids with a ready subset, and picks
  any ready id; it never raises for being too large.
- The HTTP/3 scheduler is stopped through `close()` (`h3.py:94-96`).
- The QUIC library issues ids nobody else owns, none to a connection that is
  gone, and retires only ids it issued.  `QuicTables.BreachBreaksTheTable` shows
  that each of these is needed: without it a KeyError is raised or the table is
  broken.
- What a library may refuse is a choice of the environment: the `fault`
  arguments.
- In `H2Liveness`, `H2Delivery` and `H3Delivery` the server is left to itself: no
  new message, no new input from the peer, no close, and no fault.  Over HTTP/3
  flow control is the library's, which takes every operation.
- Over HTTP/3 nothing more is followed of an application one of whose sends has
  raised: the scheduler has an error or is closed, and admits nothing more
  (`H3Runs.NothingIsStranded`).
- For the asyncio writer the transport "has taken" bytes once the stream
  writer's own `drain` has returned after them.

## Model

| member | source | states |
|---|---|---|
| StreamBuffers.StreamBuffer.Push | src/hypercorn/protocol/h2_send.py:78-86 | accepts the bytes at the end of the queue and says whether 32768 bytes are then reached; refuses an ended buffer and leaves it alone |
| StreamBuffers.StreamBuffer.TakePart | src/hypercorn/protocol/h2_send.py:101-112 | one turn takes a non-empty first piece out of the head chunk and keeps the offset inside it |
| StreamBuffers.StreamBuffer.Pop | src/hypercorn/protocol/h2_send.py:92-120 | for every length, returns exactly the first min(size, n) bytes across chunks, leaves the rest, and sets one flag when at most 16384 bytes are left and the other when none are |
| StreamBuffers.StreamBuffer.Close | src/hypercorn/protocol/h2_send.py:60-68 | drops the bytes and the trailers and sets all three events |
| StreamBuffers.StreamBuffer.IsComplete | src/hypercorn/protocol/h2_send.py:70-72 | true exactly when ended and empty |
| H2Scheduler.H2SendScheduler.RegisterStream | src/hypercorn/protocol/h2_send.py:147-155 | a fresh empty buffer object of its own; blocked, unless a PRIORITY frame had put the id into the tree before |
| H2Scheduler.H2SendScheduler.BufferData | src/hypercorn/protocol/h2_send.py:157-166 | only this stream's buffer grows, the stream becomes ready, the loop is woken; nothing changes where the source raises |
| H2Scheduler.H2SendScheduler.EndWithTrailers | src/hypercorn/protocol/h2_send.py:175-180 | marks the end with trailers, readies the stream, wakes the loop |
| H2Scheduler.H2SendScheduler.UpdateWindow | src/hypercorn/protocol/h2_send.py:185-191 | readies all registered streams for the connection or settings, one for a stream, none for an unknown one; always wakes |
| H2Scheduler.H2SendScheduler.UpdatePriority | src/hypercorn/protocol/h2_send.py:193-209 | new ids enter the tree blocked, known ones keep their state |
| H2Scheduler.H2SendScheduler.Close | src/hypercorn/protocol/h2_send.py:211-221 | takes the stream out of the dictionary and the tree and closes its buffer; every other buffer is untouched |
| H2Scheduler.H2SendScheduler.SendOne | src/hypercorn/protocol/h2_send.py:247-289 | one `_send_data` over the heap: state, frames, windows, flush flag and the detached buffer are those of `H2Send.SendData`, for every place the library may raise; what those have to be is stated on histories, in `H2Frames`, `H2Wakeups`, `H2Flow` and `H2Flushes` |
| H2Send.SendOutcome | src/hypercorn/protocol/h2_send.py:253-287 | a call closes the stream (with nothing sent, or after its data), or ends it when drained, or leaves it open; it is blocked only when nothing was sent |
| H2Scheduler.H2SendScheduler.SendReadyBatch | src/hypercorn/protocol/h2_send.py:223-245 | 1 to 16 calls, each on a stream ready at that moment, stopping early only when all are blocked; the buffers it ended wait for the flush |
| H2Scheduler.H2SendScheduler.FinishAll | src/hypercorn/protocol/h2_send.py:243-245 | sets the finished event of every ended buffer and changes nothing else |
| H2Scheduler.H2SendScheduler.RunUntilBlocked | src/hypercorn/protocol/h2_send.py:137-145 | the loop of `run` with no new input ends with no stream ready, after at most (buffered bytes + ready streams) calls |
| H2Drain.DrainIsBounded | src/hypercorn/protocol/h2_send.py:223-289 | every sequence of picks uses up the buffered bytes and ready streams, one at least per call |
| H2Drain.SendAllAppend | src/hypercorn/protocol/h2_send.py:137-145 | batches compose: draining on from where a drain stopped is one drain |
| H2Batches.BatchIsARun | src/hypercorn/protocol/h2_send.py:223-245 | a batch of the scheduler object is a run of send steps of the machine, with the same buffers, windows, frames and ended streams |
| H2System.SendIsStep | src/hypercorn/protocol/h2_send.py:247-289 | what one call may change in the whole system, for every outcome |
| H2System.KeepBase | src/hypercorn/protocol/h2_send.py:147-289 | every step keeps ready ids within registered ids within the tree, and every id with one buffer, live or detached |
| H2Wakeups.StepsFollow | src/hypercorn/protocol/h2_send.py:147-280 | what every step of anyone does to the tree, the ready streams and the wake-up flag: a hand-over or a credit notice readies exactly the streams it concerns, a turn blocks its stream exactly when nothing of it could be taken, a priority frame only adds ids, and a stream leaves only when it is ended or closed |
| H2Progress.NeverStalls | src/hypercorn/protocol/h2_send.py:147-221 | in every reachable state a blocked stream is empty and not ended, or has bytes and a window used up, or its wake-up is due; a loop asleep with nothing due leaves no stream that could send or end |
| H2Progress.DrainLeavesOnlyStarved | src/hypercorn/protocol/h2_send.py:253-280 | where the drain loop stops every stream left is empty and not ended, or has bytes and a window used up; an end that needs no window is never left behind |
| H2Fidelity.StreamsAreFaithful | src/hypercorn/protocol/h2_send.py:157-289 | sent ++ buffered is what was accepted; sent is always a prefix of it and all of it at the end; one end per stream, nothing after an end or a close |
| H2Flow.CreditIsRespected | src/hypercorn/protocol/h2_send.py:253-267 | every DATA frame is non-empty and within stream credit, connection credit and frame size at that moment; the library's windows are credit granted less bytes sent, however settings moved them |
| H2Flow.NoDataWithoutCredit | src/hypercorn/protocol/h2_send.py:254-258 | a stream granted no more than it sent, as after a settings change that made its window negative, sends no DATA |
| H2Flow.SettingsMayOverdraw | src/hypercorn/protocol/h2.py:185-187 | a settings change does drive a stream's window below zero |
| H2Frames.FramesCarryAllTheyMay | src/hypercorn/protocol/h2_send.py:253-275 | over every run each DATA frame carries exactly the least of the bytes buffered, the stream's credit, the connection's credit and the frame size at that moment, told from the history; and each end is a trailers frame with headers hs exactly when the last hand-over before it was trailers hs, and bare otherwise |
| H2Frames.EndsAreTheApps | src/hypercorn/protocol/h2_send.py:168-275 | in every reached state in which a stream was ended: by a trailers frame with these headers if and only if its end was handed over as trailers with them, by a bare end if and only if it was handed over bare |
| H2Release.CallersAreReleasedInTime | src/hypercorn/protocol/h2_send.py:168-180 | a caller of `end` or `trailers` returns only after a flush that covers its end completed or raised, or after a close (exactly when it is which: the three rows below); one still waiting is not forgotten |
| H2Release.CallersAreReleasedStrictly | src/hypercorn/protocol/h2_send.py:241-245 | over every run in which no flush raised, a caller returns only after its end was flushed or its stream closed |
| H2Release.StrictIffTheFlushCompletes | src/hypercorn/protocol/h2_send.py:241-245 | a caller whose end is in the batch being flushed goes on when the flush is over, and its end was flushed (or its stream closed) if and only if the flush completed |
| H2Release.RaisedFlushReleases | src/hypercorn/protocol/h2_send.py:243-245 | the concrete run in which a raising flush releases a caller whose end was not flushed |
| H2Release.RaisedFlushEndsTheLoop | src/hypercorn/protocol/h2_send.py:137-145 | in every state reached after a flush raised the scheduler's task has ended: no send, no flush, no wake-up of it any more |
| H2Flushes.CallAsksIff | src/hypercorn/protocol/h2_send.py:263-289 | a call that handed a frame over asks for a flush unless it drained a complete buffer and the library refused the end; one that handed none over never asks |
| H2Flushes.BatchSkipsFlushIff | src/hypercorn/protocol/h2_send.py:228-242 | the scheduler object's batch skips its flush if and only if every call that handed a frame over was refused its end |
| H2Flushes.BatchReturnsUnflushedIff | src/hypercorn/protocol/h2_send.py:228-245 | the same over the machine, with anything between the calls: back to the head of the loop without a flush if and only if so |
| H2Flushes.UnflushedIff | src/hypercorn/protocol/h2_send.py:223-287 | over every run a frame waits unflushed if and only if the running batch is going to flush, or some call forgot it and no flush has begun since |
| H2Flushes.ForgottenFlush | src/hypercorn/protocol/h2_send.py:280-287 | the concrete run: a byte handed over, the end refused, the loop asleep with nothing due |
| H2Liveness.EveryAppGoesOn | src/hypercorn/protocol/h2_send.py:137-145 | from every reached state with credit for the bytes buffered and a loop that has not stopped, every sequence of the scheduler's own steps is bounded, and where none is left every waiting application can go on, for space or for its end |
| H2Backpressure.BuffersAreBounded | src/hypercorn/protocol/h2_send.py:157-166 | with pieces of at most B bytes a buffer never holds more than HIGH - 1 + 2B; a producer waiting with its flag clear has more than LOW left to send |
| H2Backpressure.BoundIsReached | src/hypercorn/protocol/h2_send.py:88-90 | that bound is tight for every B > 0: a stale pause flag lets one more piece through |
| H2Backpressure.ClosedStreamsFreeTheirApps | src/hypercorn/protocol/h2_send.py:60-68 | an application waiting for space on a closed stream finds its flag set |
| HttpStreams.HTTPStream.Send | src/hypercorn/protocol/http_stream.py:144-256 | one application message over the object: every branch, including the events already out when a later step raises; which events those have to be is told from the moves in `HttpAnswers` |
| HttpStreams.HTTPStream.FindTakesTrailers | src/hypercorn/protocol/http_stream.py:243-247 | the search loop finds the `te: trailers` header, byte for byte, exactly when there is one |
| HttpStreams.HTTPStream.BuildHeaders | src/hypercorn/utils.py:56-63 | raises exactly when some name is empty or begins with a colon; otherwise the headers in order, stripped |
| HttpAnswers.StripTakesTheSpaces | src/hypercorn/utils.py:62 | stripping takes spaces off both ends and nothing else, and leaves none there |
| HttpGrammar.GrammarHoldsUnlessBare | src/hypercorn/protocol/http_stream.py:144-276 | over every life of a stream the emitted events follow the response grammar if and only if the bare-trailers branch was never taken |
| HttpGrammar.EndedShape | src/hypercorn/protocol/http_stream.py:258-262 | an ended response is informational responses, one response, bodies, at most one trailers, one end |
| HttpGrammar.BareEndExists | src/hypercorn/protocol/http_stream.py:212-236 | the concrete life that ends a response it never began |
| HttpGrammar.ReplyBodies | src/hypercorn/protocol/http_stream.py:197-205 | the body events of one reply are the message's body, or none when content is forbidden |
| HttpGrammar.BodiesAreTheApps | src/hypercorn/protocol/http_stream.py:197-211 | the emitted bodies are those the application sent, and no body follows a response whose status or method forbids content (section 6.4.1 of RFC 9110) |
| HttpAnswers.EventsAreTold | src/hypercorn/protocol/http_stream.py:144-276 | over every life of a stream all it emits, in order, is a script told from the moves of the application and the client alone |
| HttpAnswers.ResponseIsTheAnswer | src/hypercorn/protocol/http_stream.py:144-276 | there is exactly the one response the moves call for, with its status and headers: those of the application's first start message that is not refused, or 200 with its early trailers for a client that takes them, or 500 when it is over without either, or 404 for an unknown server; and none otherwise |
| HttpAnswers.HintsAndTrailersAreTheApps | src/hypercorn/protocol/http_stream.py:184-254 | the informational responses are the application's early hints, links and order kept; there is at most one Trailers event, with the headers, in order, of the trailers messages sent while they were due, for a client that takes them |
| HttpAnswers.BodiesAreTold | src/hypercorn/protocol/http_stream.py:197-205 | the bodies emitted are those of the body messages sent while the response was under way, in order, none of them for HEAD, 1xx, 204 and 304 |
| HttpAnswers.StatusIsTheAnswers | src/hypercorn/protocol/http_stream.py:153-199 | the status by which bodies are let through is the one the client was sent |
| HttpAnswers.EndedIffOver | src/hypercorn/protocol/http_stream.py:207-276 | the end was emitted if and only if the moves have come to it: the last body when no trailers were announced, the last trailers otherwise, or a refusal |
| HttpAnswers.MessagesRaiseIff | src/hypercorn/protocol/http_stream.py:144-262 | a message raises into the application if and only if it does not go with the moves so far |
| HttpAnswers.AppHearsTheRequest | src/hypercorn/protocol/http_stream.py:118-142 | the application is put exactly the parts of the request's body, its end and the disconnect, in order, from its start until the client is gone |
| HttpGrammar.AppHearsOneDisconnect | src/hypercorn/protocol/http_stream.py:126-142 | the application gets `http.disconnect` exactly when a started stream was closed, once, as its last message |
| EndToEnd.DataIsTheAppsBody | src/hypercorn/protocol/h2.py:107-139 | for all messages of all applications and every schedule: DATA on the wire is a prefix of the application's body (nothing when content is forbidden), and all of it whenever the stream was ended |
| H2Trailers.EndIsTheApps | src/hypercorn/protocol/h2.py:107-139 | for all messages of all applications and every schedule: a stream that was ended on the wire was ended as the first end among its application's events says, bare or by these trailers |
| H2Trailers.TrailersAreTheApps | src/hypercorn/protocol/h2.py:107-139 | the same from the application's moves: a trailers frame with these headers if and only if its trailers messages come to them, a bare end if and only if they come to none |
| H2Trailers.ClosedIsClosed | src/hypercorn/protocol/h2.py:123-139 | a stream whose close was carried out is out of the dictionary, ended or closed on the wire |
| H2Delivery.AnswersAreDelivered | src/hypercorn/protocol/h2.py:107-139 | from every reached connection with credit for all that is buffered or due, every sequence of the server's own actions is bounded, and where none is left every answer its application has ended, on a stream still open, is on the wire whole and ended |
| H2Delivery.EndedAnswersAreUnderWay | src/hypercorn/protocol/http_stream.py:197-236 | the message that brings its response to an end makes it such an answer |
| QueuedStreams.QueuedEvent.Append | src/hypercorn/protocol/queued_stream.py:36-41 | merging in place puts the other entry's data and callbacks after its own and adds the sizes |
| QueuedStreams.QueuedEvent.Materialize | src/hypercorn/protocol/queued_stream.py:43-50 | one event with the concatenated data of all that was merged |
| QueuedStreams.MergeQueuedEvents | src/hypercorn/protocol/queued_stream.py:133-140 | merges exactly two bodies or two data events |
| QueuedStreams.QueuedStream.TryHandle | src/hypercorn/protocol/queued_stream.py:83-107 | one turn of `handle`: merged, appended or told to wait, over distinct entry objects |
| QueuedStreams.QueuedStream.Retry | src/hypercorn/protocol/queued_stream.py:102-107 | the turn after a wait, with the flag cleared first |
| QueuedStreams.QueuedStream.TakeNext | src/hypercorn/protocol/queued_stream.py:113-120 | takes the first entry, its bytes off the count, and sets and clears the flags |
| QueuedStreams.QueuedStream.Settle | src/hypercorn/protocol/queued_stream.py:126-130 | leaves exactly when closed and empty |
| QueuedStreams.OfferAppends | src/hypercorn/protocol/queued_stream.py:93-107 | either way of accepting an item puts it after all the others |
| QueueRuns.QueueIsFifo | src/hypercorn/protocol/queued_stream.py:80-130 | handled ++ in hand ++ queued is what was accepted, in order, and the events the stream was given read, byte by byte, as the accepted ones |
| QueueRuns.AcksFollowHandling | src/hypercorn/protocol/queued_stream.py:122-124 | callbacks run once each, in order of acceptance, after the event with their data; all of them once the queue is empty |
| QueueRuns.AckedNeverExceedsHandled | src/hypercorn/protocol/h2.py:155-167 | with one callback per piece of data, bytes acknowledged never exceed bytes handled, as flow control counts them, and equal all of them once the queue is empty |
| QueueRuns.BoundsAndWakeUpsHold | src/hypercorn/protocol/queued_stream.py:83-124 | the byte count is exact, both limits hold (over the byte limit only one unmerged entry), no two neighbours could merge, no wake-up is lost |
| QueueRuns.ItemsAreQueuedIffRoom | src/hypercorn/protocol/queued_stream.py:83-107 | over every run, when it is handed in and whenever its call goes on: an item is queued at once if and only if the byte limit allows it (or nothing is queued) and it joins a last entry of its kind or the count limit allows one entry more; it then stands in that entry |
| QueueRuns.TakingWakesIffUnder | src/hypercorn/protocol/queued_stream.py:113-120 | taking an entry wakes the waiting calls if and only if it leaves the queue under one of its limits |
| QueueRuns.LossIffACallWaits | src/hypercorn/protocol/queued_stream.py:99-130 | with the end of the stream under way and nothing new, some schedule strands an accepted item if and only if some call still waits |
| QueueRuns.OvertakenDataMayBeLost | src/hypercorn/protocol/queued_stream.py:87-103 | the concrete run in which data is overtaken by its stream's end |
| QueueRuns.DispatcherLeaves | src/hypercorn/protocol/queued_stream.py:126-130 | in every run, once the end of the stream is under way the dispatcher's own steps come to it and it leaves, the queue empty |
| QueueRuns.EveryCallIsWoken | src/hypercorn/protocol/queued_stream.py:102-124 | from every reached state with the dispatcher still there, its own steps come to a state in which every waiting call is woken |
| ByteSinks.WrittenIsAPrefix | src/hypercorn/trio/tcp_writer.py:40-109 | in a history that keeps the writers' common specification, what is written is always the first of what was accepted |
| ByteSinks.StopIsFinal | src/hypercorn/trio/tcp_writer.py:68-81 | in such a history, after a normal return of a `stop` that found the writer started nothing more is ever accepted and all there is is written |
| TrioWriters.Payload | src/hypercorn/trio/tcp_writer.py:101 | the payload is the concatenation of the batch |
| TrioRuns.WriterIsASink | src/hypercorn/trio/tcp_writer.py:40-119 | every run keeps the common specification; without an error accepted is written ++ being written ++ queued |
| TrioRuns.CallersMayRelyOnIt | src/hypercorn/trio/tcp_writer.py:57-81 | over every run a normal return of `drain` or `stop` finds all that was accepted before the call written, that of `stop` all there is; and if that `stop` found the writer started, nothing more is ever accepted |
| TrioStops.StopIsFinalIff | src/hypercorn/trio/tcp_writer.py:68-81 | when a `stop` has come back normally, no continuation accepts anything more if and only if the writer was started when it was called |
| TrioStops.StopBeforeStart | src/hypercorn/trio/tcp_writer.py:68-70 | the concrete run: stopped, then started, then bytes accepted |
| TrioRuns.CountersAreExact | src/hypercorn/trio/tcp_writer.py:44-55 | submitted - completed is the number of pending items, the byte count is their exact sum, and it is at most the high-water mark unless one item alone is pending |
| TrioRuns.NoLostWakeUp | src/hypercorn/trio/tcp_writer.py:44-119 | the writer parks exactly while the queue is empty and there is no stop; a call waiting unwoken would take the bytes over the high-water mark, or waits for items not completed, and has bytes pending and a writer that can go on |
| TrioRuns.SentAtOnceIffRoom | src/hypercorn/trio/tcp_writer.py:40-55 | over every run bytes sent to an open writer are taken at once if and only if nothing is pending or with them the high-water mark is not exceeded, when handed in and whenever the call goes on |
| TrioRuns.DrainsReturnIffCompleted | src/hypercorn/trio/tcp_writer.py:57-66 | a `drain` of a started writer comes back as soon as it looks with everything completed that was accepted before the call, and one of an unstarted writer at once |
| TrioErrors.SendsRaiseTheTransportsError | src/hypercorn/trio/tcp_writer.py:40-119 | over every run the writer is broken exactly once its transport raised and `run` has handled it; from then on a `send` raises that very error, while a writer not started or stopped refuses as closed and any other takes the bytes or lets the call wait |
| TrioRuns.WakeUpComes | src/hypercorn/trio/tcp_writer.py:85-110 | over every run, whenever bytes are pending the writer can go on until, after at most four steps of its own, everyone is notified, whether the transport takes the bytes or raises |
| TrioRuns.StopBringsTheEnd | src/hypercorn/trio/tcp_writer.py:68-119 | after a stop the writer can always go on, every step of its own brings its end nearer and nothing else takes it away: at most eight steps |
| TrioRuns.AtMostTwoBatchesAfterStop | src/hypercorn/trio/tcp_writer.py:72-110 | at most two more batches are written after a stop |
| AsyncioWriters.WriterIsASink | src/hypercorn/asyncio/tcp_writer.py:21-62 | every run keeps the same specification as the trio writer's; what is counted is exactly what the transport has not settled, below the high-water mark whenever the lock is free |
| AsyncioWriters.CallersMayRelyOnIt | src/hypercorn/asyncio/tcp_writer.py:36-58 | the same word of `drain` and `stop` over every run of the asyncio writer |
| AsyncioWriters.SendWaitsIffMarkReached | src/hypercorn/asyncio/tcp_writer.py:21-34 | over every run bytes sent to an open writer are accepted, and the call waits for the transport if and only if with them the high-water mark is reached |
| AsyncioWriters.DrainWaitsIffUnsettled | src/hypercorn/asyncio/tcp_writer.py:36-58 | `drain` and the first `stop` wait if and only if some bytes are unsettled; a later `stop` never does |
| AsyncioWriters.ErrorIsTheTransports | src/hypercorn/asyncio/tcp_writer.py:21-62 | the writer breaks only when its transport raises, with that very error, and keeps it |
| AsyncioWriters.CallsRaiseTheError | src/hypercorn/asyncio/tcp_writer.py:21-58 | a broken writer raises the error it keeps from every call; a stopped one refuses bytes as closed; otherwise a `send` raises only what the transport raises |
| H3Sends.H3SendScheduler.Enqueue | src/hypercorn/protocol/h3_send.py:95-120 | closed, then the scheduler's error, then the limits: an operation is admitted if and only if nothing is pending, or with it at most 64 operations and 32 KiB are; else the call waits for the oldest |
| H3Sends.H3SendScheduler.Resume | src/hypercorn/protocol/h3_send.py:107-120 | after the wait: the error of the oldest operation first, then the scheduler's, then closed, and otherwise the same two limits again |
| H3Sends.H3SendScheduler.Complete | src/hypercorn/protocol/h3_send.py:155-162 | removes exactly this operation from the pending ones, and its bytes only if it was there |
| H3Sends.H3SendScheduler.FailPending | src/hypercorn/protocol/h3_send.py:126-130 | empties the queue and completes every operation of it with the error |
| H3Sends.H3SendScheduler.ApplyBatch | src/hypercorn/protocol/h3_send.py:137-140 | takes operations in order, all there are up to 32, up to and with the first that raises, and asks for a flush exactly when one was applied |
| H3Sends.H3SendScheduler.FinishBatch | src/hypercorn/protocol/h3_send.py:144-153 | completes all it took, all with the error if there was one, and wakes the loop if more is queued |
| H3Sends.H3SendScheduler.Close | src/hypercorn/protocol/h3_send.py:90-93 | closes admission, fails what is queued, wakes the loop |
| H3Runs.EndIsABarrier | src/hypercorn/protocol/h3_send.py:116-153 | operations are applied in order of admission, at most 32 per flush; a normal return of an end-of-stream call means that its operation and all admitted before were applied and then flushed |
| H3Runs.AccountsHold | src/hypercorn/protocol/h3_send.py:103-130 | pending is in flight ++ queue, its bytes exactly counted, at most 64 operations and 32 KiB unless one operation is alone |
| H3Runs.AdmittedIffRoom | src/hypercorn/protocol/h3_send.py:95-120 | over every run a call is admitted at once if and only if nothing is pending, or with it at most 64 operations and 32 KiB are, when it comes and when it goes on after a wait |
| H3Runs.BatchTakesTheFirst | src/hypercorn/protocol/h3_send.py:132-153 | a batch takes the first 32 operations, or all there are, and applies them in order; where one raises, those before it |
| H3Runs.EndReturnsIff | src/hypercorn/protocol/h3_send.py:121-124 | over every run a call that ends a stream comes back normally if and only if a flush has covered its operation |
| H3Runs.NothingIsStranded | src/hypercorn/protocol/h3_send.py:52-67 | once `run` has ended nothing is queued or pending and every admitted operation is complete; after an error or a close nothing is admitted |
| H3Runs.NoLostWakeUp | src/hypercorn/protocol/h3_send.py:57-67 | the loop parks only with nothing queued and no close; a call that waits waits for a pending operation and the loop can go on |
| H3Runs.EveryCallGoesOn | src/hypercorn/protocol/h3_send.py:52-153 | from every reached state the loop's own steps complete everything pending, so that every suspended call can go on |
| H3EndToEnd.DataIsTheAppsBody | src/hypercorn/protocol/h3.py:75-94 | for all messages of all applications and every schedule, errors and closes included: what reached the library on a stream are the first of the events its application's messages emitted, in order; its DATA is a prefix of the application's body, and all of it whenever the stream was ended |
| H3EndToEnd.ReturnedMeansDelivered | src/hypercorn/protocol/h3_send.py:116-120 | when the send that ends a response came back normally, the whole of the body and its end were applied and then flushed |
| H3EndToEnd.NothingPendingNothingLeft | src/hypercorn/protocol/h3_send.py:122-153 | on an open scheduler with nothing pending, all that was carried out for any application is on the wire |
| H3Delivery.EverythingIsDelivered | src/hypercorn/protocol/h3_send.py:52-153 | from every reached connection with an open scheduler, every sequence of the server's own actions is bounded, and where none is left everything the applications' messages emitted is on the wire, in order |
| QuicTables.QuicProtocol.Receive | src/hypercorn/protocol/quic.py:64-103 | a datagram whose id is in the dictionary goes to exactly that connection; one with another id opens a new connection if and only if it is long, initial and the server is open; an unknown version is answered; all else is dropped |
| QuicTables.QuicProtocol.HandleEvents | src/hypercorn/protocol/quic.py:117-153 | the event loop over the objects, for any events: it ends normally exactly when no event raises a KeyError; then every id leads to whom the events gave it, a terminated connection owns no id and no route leads to it, and the HTTP/3 protocol got the events from the negotiation on |
| QuicTables.QuicProtocol.Idle | src/hypercorn/protocol/quic.py:60-62 | idle exactly when no connection owns an id |
| QuicTables.EventKeepsIff | src/hypercorn/protocol/quic.py:120-146 | an event is handled without a KeyError and keeps dictionary and id sets in agreement if and only if the library keeps its side |
| QuicTables.EventsKeepIff | src/hypercorn/protocol/quic.py:120-151 | a whole run of the loop raises nothing and is consistent after each event if and only if the library keeps its side in each |
| QuicTables.OpenKeepsIff | src/hypercorn/protocol/quic.py:93-99 | a new connection keeps the table consistent if and only if the server's id is new |
| QuicTables.RoutesToTheOwner | src/hypercorn/protocol/quic.py:82 | an id leads to a connection exactly when that connection owns it, to one only, never to one that is gone (section 5.1 of RFC 9000) |
| QuicTables.TableStaysConsistent | src/hypercorn/protocol/quic.py:64-159 | consistent after every datagram, timer and event of every run |
| QuicTables.RoutesFollowTheSteps | src/hypercorn/protocol/quic.py:82-146 | over every run an id leads to the connection that was opened with it or issued it last, unless that one retired it or was terminated since; and each connection's own set has exactly the ids that lead to it |
| QuicTables.TerminatedOwnsNone | src/hypercorn/protocol/quic.py:122-128 | over every run, once a connection was terminated it owns no id and no datagram leads to it |
| QuicTables.RetiredIsForgotten | src/hypercorn/protocol/quic.py:144-146 | an id just retired is owned by nobody and leads nowhere |
| QuicTables.BreachBreaksTheTable | src/hypercorn/protocol/quic.py:141-146 | after any run, a step raises a KeyError or breaks the table if and only if the library does not keep its side in it |
| WsMessages.WebsocketBuffer.ExtendWith | src/hypercorn/protocol/ws_stream.py:146-154 | appends and counts, before it finds the message too large; raises on the wrong type without counting |
| WsMessages.WSStream.HandleEvents | src/hypercorn/protocol/ws_stream.py:317-337 | the event loop up to the first message too large, the rest left with the library |
| WsArrivals.MessagesAreWhole | src/hypercorn/protocol/ws_stream.py:317-330 | for any cutting into calls and any pings between, and whatever happens after a message too big: with fragments of one kind per message the application gets exactly the messages put together from the fragments that arrived, up to the first over the limit (section 5.4 of RFC 6455) |
| WsArrivals.DeliveredAreThePrefix | src/hypercorn/protocol/ws_stream.py:317-330 | for any fragments at all, what the application gets is a prefix of those messages |
| WsArrivals.TakenAreThePrefix | src/hypercorn/protocol/ws_stream.py:317-326 | whether or not writing a fragment has raised, the fragments taken are the first that arrived, in order |
| WsArrivals.PongsAndCloses | src/hypercorn/protocol/ws_stream.py:317-337 | for any fragments in any calls: one pong for each ping taken, one close for each fragment taken with or after a message over the limit |
| WsArrivals.CrashesIffOtherKindFollows | src/hypercorn/protocol/ws_stream.py:146-154 | with fragments of one kind per message, some cutting into calls makes writing one raise if and only if a fragment of the other kind follows the one that takes a message over the limit |
| WsArrivals.SecondKindCrashes | src/hypercorn/protocol/ws_stream.py:146-154 | the concrete case: a binary message after a text message too big |
| WsMessages.DeliveredIffAllFitSoFar | src/hypercorn/protocol/ws_stream.py:152-154 | the k-th message is delivered, whole and within the limit, if and only if no message up to it is over the limit |
| WsMessages.NoFragmentIsLost | src/hypercorn/protocol/ws_stream.py:317-330 | unless writing one raised, every fragment that arrived was taken once, in order, or is left with the library |

## Left out

- Frame encoding, header compression, TLS, QUIC packets and the inside of h2, h11, wsproto, aioquic and the priority tree: library code.
- Weights, exclusive dependencies and fairness of the priority tree: only which streams are ready matters here.
- Cancellation, timeouts, signals, sockets, process supervision: no task is cancelled in the model.
- The suspension points that the trio `EventWrapper` adds inside the HTTP/2 scheduler and the queue: asyncio's atomicity is used there.
- `h11.py`, protocol upgrades, and the WebSocket handshake and rejection states.
- The side effects of server push and access logging; a push is one event of an HTTP stream, with the application's headers only (`http_stream.py:169-172` puts the scheme and the authority before them), and does not count in the grammar.
- The headers that the server adds to every response (`config.py`, `response_headers`) and the pseudo headers of the encoded response.
- Over HTTP/2 a response's own frame goes to the library at once (`h2.py:109-116`), past the scheduler; the history of `H2System` has the DATA and end frames. What a response holds is proved of the events, in `HttpAnswers`.
- What else the termination of a QUIC connection does (`quic.py:123-125`): it closes the HTTP/3 protocol and stops the timer.
- `StreamBuffer.drain` and the `_is_empty` event's waiters: nothing in the layer waits for it.
- H2Scheduler.H2SendScheduler.UpdatePriority: the tree's own errors (a cycle, too many streams) are not modelled, only which ids become known.
- AsyncioWriters.WriterIsASink: a normal return of `drain` means that the transport's own `drain` returned, which is all the source waits for; it does not mean that the bytes reached the wire.
- TrioRuns.WriterIsASink: the bytes that a raising `send_all` may have put on the wire are not counted as written.
- QueueRuns.QueueIsFifo: order is the order of acceptance; two calls of `handle` that wait at the same time may be accepted in either order.
- WsArrivals.MessagesAreWhole: lengths are counted as the source counts them, characters for text and bytes for binary; Unicode decoding is not modelled.
- Data for a stream that is no longer in the table (`h2.py:168-170`): it is dropped without an acknowledgement; only streams in the table are modelled.
