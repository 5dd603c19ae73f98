# pingola: a verified model of its stateful kernels

pingola is a reverse proxy for HTTP/1, HTTP/2 and HTTP/3 with a DNS-over-HTTPS cache.  This
Dafny project models the parts of it where state, concurrency or byte-level layout make
mistakes easy, and proves what these parts are relied on for.  `dafny verify dfyconfig.toml`
checks everything.

- **Upstream HTTP/3 connection worker** (`UpstreamH3*.dfy`, `H3Upload.dfy`).  `UpstreamH3` is
  the worker as a state machine: commands, opening of streams, partial writes, events,
  back-pressure, cancellation and GOAWAY (section 5.2 of RFC 9114).  What quiche and the
  consumers of body channels do is an input of every transition, limited only by their
  contract: stream ids are fresh, `recv_body` yields the next bytes, trailers and the end of a
  stream are reported after everything before them was read.  Five modules prove five
  invariants over all runs: agreement of the indexes, settlement of one-shot replies, ordered
  delivery, and, with the client's writer and reader moving beside the worker, ordered upload
  and download.  Three more say what the steps bring about: which answers are good news and what
  a GOAWAY, a cancel or a reset ends (`UpstreamH3Effects`), that streams open, writes complete
  and responses arrive when nothing stands in their way (`UpstreamH3Progress`), and in which
  order requests are served (`UpstreamH3Fairness`).  `UpstreamH3Worker` and `UpstreamH3Connector` hold the program's own form,
  objects updated in place by loops, each method proved equal to a transition.
- **Single-flight cache fills** (`Coalesce.dfy`) and **active-request limiter**
  (`ActiveLimits.dfy`).  Both are concurrent; they are modelled as interleaved atomic steps of
  any number of threads, and every statement is about every interleaving.
- **Token-bucket limiter** (`RateLimits.dfy`, `RateLateness.dfy`, `RateThreads.dfy`), with
  instants and tokens as real numbers: one call at a time, with clock readings that come late,
  and as interleaved atomic steps.
- **DNS cache** (`DnsWire.dfy`, `DnsAgeing.dfy`, `DnsResponse.dfy`, `DnsPolicy.dfy`,
  `Base64Url.dfy`, `CacheStore.dfy`, `CacheBooks.dfy`, `CacheServing.dfy`): the wire walks with
  compression pointers, in-place ageing, the cacheability decision, the weighted store, and
  what these give together.  `DnsEncoding.dfy` and `DnsEncodedAgeing.dfy` hold an encoder of
  messages (section 4 of RFC 1035) against which the walks, the ageing and the decision are
  proved.
- **Downstream HTTP/3 session** (`H3Session.dfy`, `H3SessionTrace.dfy`, `H3SessionContent.dfy`)
  and the **header transforms** (`H3Wire.dfy`, `ContentEncoding.dfy`, `EncodingJoin.dfy`,
  `EncodingWeights.dfy`, `HopHeaders.dfy`, `ContentLength.dfy`, `ListFields.dfy`, `Text.dfy`).

Some promises turned out to hold only under a condition; each is stated as an equivalence.

- The rate bound needs burst + 1 <= 120 * rate, because an idle bucket is evicted after 120
  seconds and comes back full (`RateLimits.RateHoldsExactly`), and it needs clock readings that
  reach the bucket in order: any lateness at all breaks it
  (`RateLateness.RateHoldsExactlyOnTime`).  With late readings the excess is at most the rate
  times their total delay (`RateLimits.LateReadingsCostTheirDelay`).
- A grant respects its limit only if the limit is at least one
  (`ActiveLimits.GrantIsWithinLimit`).
- A kept answer is servable for its whole lifetime only if the lifetime does not exceed its
  smallest TTL (`DnsPolicy.ServableExactly`); NOERROR answers meet this, NXDOMAIN answers may
  not.
- The response frames are well formed exactly if nothing but a fin is sent once trailers have
  gone out and their fin has failed (`H3SessionTrace.FramesAreWellFormed`).  A caller is safe
  that makes no body, trailers or duplex call after an error from trailers or duplex
  (`H3SessionTrace.CarefulCallersAreSafe`).
- Joining or splitting Accept-Encoding fields changes nothing exactly if both parts can be read
  as text or neither names a coding (`EncodingJoin.JoiningIsHarmlessExactly`).
- The reusing header encoding equals the plain one exactly if every captured pair that stands
  in for a field has a lower-case name (`H3Wire.FinalizeIsEncodeExactly`).
- A waiter for a cache fill misses its wake-up exactly if it registers after it
  (`Coalesce.StrandedExactlyWhenRegisteredLate`).

## Model

| member | source | states |
|---|---|---|
| `UpstreamH3Indexes.IndexesAgree` | src/upstream_h3.rs:931-1164 | In every state of every run the stream table and the requests' stream ids are inverse, a request without a stream is queued for opening exactly once, a pending write is queued exactly once (so a stale id can serve no live request), and the "no request state" and "sender missing" errors never happen |
| `UpstreamH3Indexes.StepKeeps` | src/upstream_h3.rs:748-928 | Every action of the worker, with every answer of the environment, keeps the four indexes in agreement |
| `UpstreamH3Indexes.CommandKeeps` | src/upstream_h3.rs:931-1023 | Commands keep the indexes in agreement |
| `UpstreamH3Indexes.DispatchOneKeeps` | src/upstream_h3.rs:1113-1164 | Opening, postponing or refusing a queued request keeps them |
| `UpstreamH3Indexes.DriveOneKeeps` | src/upstream_h3.rs:1047-1111 | Serving one queued write keeps them |
| `UpstreamH3Indexes.RetryKeeps` | src/upstream_h3.rs:1179-1215 | Retrying the blocked delivery keeps them |
| `UpstreamH3Indexes.EventKeeps` | src/upstream_h3.rs:1218-1395 | Every QUIC event, GOAWAY included, keeps them |
| `UpstreamH3Indexes.CancelKeeps` | src/upstream_h3.rs:1481-1498 | Cancellation keeps them, although queues still hold the id |
| `UpstreamH3Replies.RunKeeps` | src/upstream_h3.rs:748-928 | On every run each one-shot sender received was used once or is held by exactly one live request |
| `UpstreamH3Replies.CancelKeeps` | src/upstream_h3.rs:479-493 | Ending a request uses exactly the senders it held |
| `UpstreamH3Replies.DispatchOneKeeps` | src/upstream_h3.rs:1113-1164 | Opening a stream answers `opened` once; a refusal answers everything held |
| `UpstreamH3Replies.AfterSendKeeps` | src/upstream_h3.rs:1093-1109 | A write is answered when its last byte is taken, or with an error when quiche refuses it |
| `UpstreamH3Replies.EventKeeps` | src/upstream_h3.rs:1238-1390 | Heads, resets and ends of streams settle what they settle once |
| `UpstreamH3Replies.DrainedMeansAnswered` | src/upstream_h3.rs:1546-1550 | After `fail_all` no sender is left unanswered and none was answered twice |
| `UpstreamH3Order.EveryCommandIsAnsweredOnce` | src/upstream_h3.rs:748-928 | Every reply slot of every command of a run is settled exactly once by the time the worker exits, and no other slot ever is |
| `UpstreamH3Order.RunInOrder` | src/upstream_h3.rs:822-853 | Once draining no stream is opened, and a request that has ended never comes back |
| `UpstreamH3Order.StreamsOnlyGrow` | src/upstream_h3.rs:1047-1111 | What a peer has accepted only grows; after fin nothing more is accepted |
| `UpstreamH3Order.StepChannels` | src/upstream_h3.rs:1179-1215 | No step takes back a frame a response channel has carried or changes the stream that feeds it |
| `UpstreamH3Order.ProcessOnward` | src/upstream_h3.rs:1166-1402 | Event processing touches no write, no upload and no reply of a request it does not end |
| `UpstreamH3Delivery.ResponsesAreDeliveredInOrder` | src/upstream_h3.rs:1309-1386 | For every run a response channel holds at most 24 unread frames and has carried an in-order prefix of its stream's data, then the trailers, with at most one failure notice at the end; marked finished, it has carried everything |
| `UpstreamH3Delivery.DrainFaithful` | src/upstream_h3.rs:1426-1479 | Draining appends exactly the bytes read, whatever the consumer does meanwhile, and reads nothing it cannot put in |
| `UpstreamH3Delivery.RetryFaithful` | src/upstream_h3.rs:1179-1215 | A frame that found the channel full is the next one in |
| `UpstreamH3Delivery.TrailersFaithful` | src/upstream_h3.rs:1309-1348 | Trailers go in after the whole body, wait, or end the request |
| `UpstreamH3Delivery.CancelFaithful` | src/upstream_h3.rs:1481-1498 | A request that ends early leaves a prefix and one failure notice |
| `UpstreamH3Delivery.FinishedFaithful` | src/upstream_h3.rs:1369-1386 | A stream is marked finished only when its channel has carried everything |
| `UpstreamH3Effects.GoAwayIsFinal` | src/upstream_h3.rs:1231-1236 | Once polling reaches a GOAWAY the worker drains: in every continuation the set of streams is what it was, and both senders of every later request are answered with an error |
| `UpstreamH3Effects.GoAwayDrains` | src/upstream_h3.rs:1231-1236 | A GOAWAY that polling reaches, behind any events that do not pause it, starts the drain |
| `UpstreamH3Effects.EndIsFinal` | src/upstream_h3.rs:1369-1390 | A request that its caller cancels, or whose stream is reset or ends, is gone in every continuation, and whatever was or will be asked in its name has had exactly one answer |
| `UpstreamH3Effects.AnswersAreExact` | src/upstream_h3.rs:748-928 | When the worker has exited, a reply slot was answered well exactly if its stream was opened, its last byte was taken or its response head arrived, and with an error otherwise |
| `UpstreamH3Effects.StepTells` | src/upstream_h3.rs:1047-1402 | The good answers of one step are exactly these: an opened stream, a completed write, a response head of a request that had none |
| `UpstreamH3Progress.EarlyDataIsRespected` | src/upstream_h3.rs:1122-1137 | Before the handshake is complete a stream is opened only for a request that allows early data, and only if the connection offers it |
| `UpstreamH3Progress.EveryoneGetsAStream` | src/upstream_h3.rs:1113-1164 | On an established connection with credit one pass gives every waiting request its stream, in queue order, and empties the queue |
| `UpstreamH3Progress.EveryWriteCompletes` | src/upstream_h3.rs:1047-1111 | When quiche takes everything, one pass completes every queued write: all bytes and the fin are on the stream, the write is answered well and the queue is empty |
| `UpstreamH3Progress.ResponseArrives` | src/upstream_h3.rs:1238-1386 | A response whose head, data, trailers and end are reported, with a consumer that keeps up, is in the channel whole, is marked finished and its head was answered well |
| `UpstreamH3Progress.DrainReadsAll` | src/upstream_h3.rs:1426-1479 | Draining with a consumer that keeps up reads the stream to its end |
| `UpstreamH3Progress.BlockedDeliveryResumes` | src/upstream_h3.rs:1179-1215 | A delivery that found its channel full is made up for as soon as there is room: parked trailers go in, or the drain goes on to the end of the data |
| `UpstreamH3Progress.WarmupGetsAStream` | src/upstream_h3.rs:495-537 | A warm-up is queued behind the waiting requests and gets its stream like them |
| `UpstreamH3Progress.WarmupPasses` | src/upstream_h3.rs:1257-1424 | The answer to a warm-up is read and thrown away; its end or its trailers end it, no frame is sent to anybody and nothing is answered |
| `UpstreamH3Fairness.FirstComeFirstServed` | src/upstream_h3.rs:941-982 | Requests that arrive one after the other get the streams opened one after the other, behind those that waited before |
| `UpstreamH3Fairness.EachWriteGetsItsShare` | src/upstream_h3.rs:1047-1111 | One pass offers every queued write to quiche exactly once, in order: the i-th answer says how many bytes the stream of the i-th write gets, and the rest of that write is kept |
| `UpstreamH3Fairness.NewWriteWaitsItsTurn` | src/upstream_h3.rs:1025-1045 | A write that arrives is offered behind those queued before it |
| `UpstreamH3Worker.H3Worker.constructor` | src/upstream_h3.rs:720-729 | The worker starts with empty, agreeing indexes, no open reply and no response in flight |
| `UpstreamH3Worker.H3Worker.Perform` | src/upstream_h3.rs:748-928 | One turn of the loop, in place, is one step of a run and keeps the invariants of indexes, replies and delivery |
| `UpstreamH3Worker.H3Worker.Serve` | src/upstream_h3.rs:748-928 | Over a whole run of turns and the final drain the object uses every reply slot of every command exactly once and ends with an empty table |
| `UpstreamH3Worker.H3Worker.TrySend` | src/upstream_h3.rs:1189-1199 | `try_send` on the bounded body channel: in, full or closed, as the transition says |
| `UpstreamH3Worker.H3Worker.FailRequest` | src/upstream_h3.rs:479-493 | Failing a removed request, as the transition says |
| `UpstreamH3Worker.H3Worker.CancelRequest` | src/upstream_h3.rs:1481-1498 | In-place cancellation is the transition `CancelRequest` |
| `UpstreamH3Worker.H3Worker.EnqueueWrite` | src/upstream_h3.rs:1025-1045 | In-place write queueing is the transition, rejections included |
| `UpstreamH3Worker.H3Worker.HandleOpen` | src/upstream_h3.rs:941-982 | In-place registration of a request, or its refusal while draining, is the transition |
| `UpstreamH3Worker.H3Worker.HandleCommand` | src/upstream_h3.rs:931-1023 | In-place command handling is the transition |
| `UpstreamH3Worker.H3Worker.EnqueueWarmup` | src/upstream_h3.rs:495-537 | In-place queueing of the warm-up request is the transition |
| `UpstreamH3Worker.H3Worker.DispatchWaiting` | src/upstream_h3.rs:1113-1164 | The dispatch loop, stopping when credit runs out, is the transition over the whole queue |
| `UpstreamH3Worker.H3Worker.DispatchFront` | src/upstream_h3.rs:1122-1161 | One turn of it |
| `UpstreamH3Worker.H3Worker.StreamOpened` | src/upstream_h3.rs:1139-1151 | The bookkeeping of an opened stream |
| `UpstreamH3Worker.H3Worker.DrivePendingWrites` | src/upstream_h3.rs:1047-1111 | The write loop is the transition over the whole queue |
| `UpstreamH3Worker.H3Worker.DriveFront` | src/upstream_h3.rs:1056-1109 | One turn of it |
| `UpstreamH3Worker.H3Worker.AfterSend` | src/upstream_h3.rs:1093-1109 | Requeue, answer or cancel, as the transition says |
| `UpstreamH3Worker.H3Worker.RejectWrite` | src/upstream_h3.rs:1105-1108 | A refused write ends its request |
| `UpstreamH3Worker.H3Worker.DrainResponseBody` | src/upstream_h3.rs:1426-1479 | The drain loop is the transition for every script of reads and consumer moves |
| `UpstreamH3Worker.H3Worker.DrainChunk` | src/upstream_h3.rs:1466-1472 | One chunk of it |
| `UpstreamH3Worker.H3Worker.DiscardResponseBody` | src/upstream_h3.rs:1404-1424 | Discarding the warm-up body is the transition |
| `UpstreamH3Worker.H3Worker.AfterDelivery` | src/upstream_h3.rs:1205-1215 | Clear, block or cancel after a delivery attempt |
| `UpstreamH3Worker.H3Worker.RetryBlocked` | src/upstream_h3.rs:1179-1215 | The retry of the blocked delivery is the transition |
| `UpstreamH3Worker.H3Worker.DeliverHead` | src/upstream_h3.rs:1257-1307 | Delivery of a response head is the transition |
| `UpstreamH3Worker.H3Worker.DeliverTrailers` | src/upstream_h3.rs:1319-1347 | Delivery of trailers is the transition |
| `UpstreamH3Worker.H3Worker.HandleHeaders` | src/upstream_h3.rs:1242-1348 | A header block, of either kind, is handled as the transition says |
| `UpstreamH3Worker.H3Worker.HandleFinished` | src/upstream_h3.rs:1369-1386 | The end of a stream is handled as the transition says |
| `UpstreamH3Worker.H3Worker.HandleEvent` | src/upstream_h3.rs:1218-1395 | One event is handled as the transition says whose effects the GOAWAY, ending and arrival theorems of `UpstreamH3Effects` and `UpstreamH3Progress` state |
| `UpstreamH3Worker.H3Worker.ProcessH3Events` | src/upstream_h3.rs:1166-1402 | The event loop, pausing while a delivery is blocked, is the transition |
| `UpstreamH3Worker.H3Worker.FailAll` | src/upstream_h3.rs:1546-1550 | The final drain of the table is the transition |
| `UpstreamH3Worker.H3Worker.FailNext` | src/upstream_h3.rs:1546-1550 | One request of it |
| `H3Upload.UploadIsAPrefix` | src/upstream_h3_connector.rs:181-250 | For one awaited body writer and every run: the bytes accepted by the stream are a prefix of the bytes written; an idle writer lacks less than one batch; fin means everything was accepted and a finished writer means fin; a body command that reaches a live request finds its stream open and no other write pending |
| `H3Upload.SystemStepKeeps` | src/upstream_h3_connector.rs:181-250 | Every step of writer, queue and worker keeps the upload invariant |
| `H3Upload.OurSendKeeps` | src/upstream_h3.rs:1047-1111 | Whatever part of a write quiche takes, accepted bytes plus what is left are what was handed over |
| `H3Upload.ProceedKeeps` | src/upstream_h3_connector.rs:181-226 | Batching neither loses nor reorders bytes |
| `UpstreamH3Connector.RequestBodyWriter.constructor` | src/upstream_h3_connector.rs:169-175 | A writer starts with nothing pending and its stream not known to be open |
| `UpstreamH3Connector.RequestBodyWriter.WriteAllBuf` | src/upstream_h3_connector.rs:181-208 | The in-place writer moves as the model of it does and sends a command only with a full batch |
| `UpstreamH3Connector.RequestBodyWriter.Finish` | src/upstream_h3_connector.rs:210-226 | Finishing a request with a body sends the rest with fin, even when it is empty; without a body it does nothing |
| `UpstreamH3Connector.RequestBodyWriter.FlushPending` | src/upstream_h3_connector.rs:240-249 | The whole batch goes into one command; an empty one into none |
| `UpstreamH3Connector.RequestBodyWriter.SendBodyCommand` | src/upstream_h3.rs:1552-1571 | A command carries the bytes, the fin flag and a fresh reply |
| `UpstreamH3Connector.ResponseReader.ReadResponseBody` | src/upstream_h3_connector.rs:297-341 | The read loop skips empty frames and returns the next chunk, trailers, error or end; it is the reader step of the composed system |
| `UpstreamH3Download.ReadsReturnTheBody` | src/upstream_h3_connector.rs:297-341 | In every run of worker, peer, reader and worker exit, all that successive reads have returned is a prefix of the stream's body, and after a clean end it is the whole body and the trailers reported are the stream's |
| `UpstreamH3Download.WorkerStepKeeps` | src/upstream_h3.rs:748-928 | Whatever the worker does between reads, what the reader has stays right |
| `UpstreamH3Download.ExitKeeps` | src/upstream_h3.rs:1546-1550 | So it does when the worker exits and fails every request |
| `UpstreamH3Download.ReadKeeps` | src/upstream_h3_connector.rs:297-341 | A read returns the next bytes, and reports a clean end only with everything behind it |
| `UpstreamH3Download.FailureStays` | src/upstream_h3_connector.rs:327-339 | After a failure notice reads yield nothing but errors |
| `UpstreamH3Download.FinishedStreamEndsCleanly` | src/upstream_h3_connector.rs:297-341 | A finished stream is read to a clean end, with its whole body and its trailers, by as many reads as it has frames left and one more |
| `UpstreamH3Download.ReadCarries` | src/upstream_h3_connector.rs:297-341 | What a read returns is exactly what the frames it took carry |
| `Coalesce.RunKeeps` | src/cache/coalesce.rs:51-150 | Every interleaving of the atomic steps keeps the fill invariant |
| `Coalesce.OneUnfinishedWriterPerKey` | src/cache/coalesce.rs:51-80 | In every interleaving a key has at most one unfinished fill |
| `Coalesce.WritersHaveDistinctKeys` | src/cache/coalesce.rs:51-80 | Two writers that have not stored `done` yet, whatever else they have stored, work on different keys |
| `Coalesce.TrueMeansInserted` | src/cache/coalesce.rs:113-131 | A waiter is told true only if the writer of that very entry finished with `inserted = true` |
| `Coalesce.NewerEntrySurvives` | src/cache/coalesce.rs:103-107 | No step of another thread removes or changes an unfinished entry |
| `Coalesce.NoWritersNoEntries` | src/cache/coalesce.rs:134-150 | Without a writer permit the map is empty: aborted fills leave nothing |
| `Coalesce.StrandedExactlyWhenRegisteredLate` | src/cache/coalesce.rs:118-129 | In every run a waiter that registers misses its wake-up if and only if the wake-up of its entry was sent earlier in the run |
| `Coalesce.RetiredExactlyWhenWoken` | src/cache/coalesce.rs:82-101 | In every run the writer of an entry is done with it exactly if its wake-up has been sent |
| `Coalesce.RegisteredInTimeIsWoken` | src/cache/coalesce.rs:113-131 | A waiter parked before the wake-up is no longer parked after it, and is told exactly the outcome of the writer it waited for, unless its own deadline comes first |
| `Coalesce.StrandedUntilTimeout` | src/cache/coalesce.rs:118-129 | Such a waiter stays parked until its own deadline, whatever the others do |
| `Coalesce.RegisteringLateHappens` | src/cache/coalesce.rs:82-101 | Such runs exist |
| `Coalesce.BeginJoins` | src/cache/coalesce.rs:51-80 | In every reachable state a begin on a key whose fill is under way joins that fill |
| `Coalesce.BeginWrites` | src/cache/coalesce.rs:51-80 | A begin on a free key becomes the writer of a new, unfinished entry |
| `Coalesce.BeginReplaces` | src/cache/coalesce.rs:62-75 | A begin that finds a finished fill left over clears it away and becomes the writer |
| `Coalesce.FinishPublishes` | src/cache/coalesce.rs:82-101 | A writer that finishes publishes what it was told, takes its entry out of the map and wakes everybody parked on it |
| `Coalesce.DropPublishesFailure` | src/cache/coalesce.rs:134-150 | A writer that is dropped publishes a failure, takes its entry out and wakes everybody parked on it |
| `Coalesce.LateWaiterIsTold` | src/cache/coalesce.rs:113-131 | A wait on a fill that is over is told its outcome at once |
| `Coalesce.WaitingEnds` | src/cache/coalesce.rs:113-131 | A wait on a fill that is not over ends with false at its deadline, registered or not |
| `ActiveLimits.RunKeeps` | src/limits.rs:189-272 | Every interleaving of acquire, drop and cleanup steps keeps the counting invariant |
| `ActiveLimits.CountersCountPermits` | src/limits.rs:203-272 | In every interleaving a client's counter is its number of live permits, and a client with a live permit is in the map |
| `ActiveLimits.MapIsBounded` | src/limits.rs:189-201 | The map never exceeds its bound, and the slot count is exact when nobody is between reserving and inserting or inside a cleanup |
| `ActiveLimits.GrantIsWithinLimit` | src/limits.rs:203-262 | A grant leaves the client within that call's limit if and only if the limit is at least one |
| `ActiveLimits.ZeroLimitIsGranted` | src/limits.rs:239-250 | A call with limit zero for a new client is granted |
| `ActiveLimits.NeverAboveLimit` | src/limits.rs:203-272 | If no call for a client asks for more than a limit, the client never has more live permits, in any interleaving |
| `ActiveLimits.RefusalHasACause` | src/limits.rs:215-258 | A refusal found the client at its limit, or started from a full map |
| `ActiveLimits.BelowLimitIsGranted` | src/limits.rs:215-232 | In every reachable state a client with a counter and fewer live permits than its limit gets one at once |
| `ActiveLimits.IdleCounterMakesRoom` | src/limits.rs:189-262 | In every reachable state a full map that holds an idle counter does not keep a new client out: the cleanup frees the slot and the client gets its permit |
| `RateLimits.RateHoldsExactly` | src/limits.rs:110-163 | The bound burst + 1 + rate * T holds of every window of every run if and only if burst + 1 <= 120 * rate |
| `RateLimits.RateIsBounded` | src/limits.rs:110-163 | Under that condition the bound holds in every window with a clock that does not run back, whatever came before, evictions included |
| `RateLimits.LateReadingsCostTheirDelay` | src/limits.rs:110-163 | Whatever came before and in whatever order clock readings come, a client gets at most burst + 1 + rate * (time to the last reading + all that readings came late) |
| `RateLimits.CallsSpend` | src/limits.rs:152-162 | For every order of clock readings, grants plus what is left never exceed what was there plus the refill of every forward move of the readings |
| `RateLimits.RateBoundNeedsRefill` | src/limits.rs:91-108 | Without it, two bursts an idle time apart exceed the bound |
| `RateLateness.RateHoldsExactlyOnTime` | src/limits.rs:110-163 | The bound holds of every window of every run whose readings are at most d late in all if and only if d is zero and burst + 1 <= 120 * rate |
| `RateLateness.AnyLatenessBreaks` | src/limits.rs:152-154 | For every rate, burst and positive d, readings d late in all exceed the bound |
| `RateLateness.LateReadingsRefill` | src/limits.rs:152-154 | For every rate, burst and n, readings that can be late by one token's refill give burst + 1 + n grants within that time |
| `RateLimits.BucketsAreBounded` | src/limits.rs:127-151 | After every sequence of whole calls the slot count is the size of the bucket map and within the maximum, whatever the clock does |
| `RateLimits.PatientClientPasses` | src/limits.rs:110-163 | A client that waits for one token's refill between its calls is never refused, whatever scans run in between |
| `RateLimits.IdleBucketMakesRoom` | src/limits.rs:127-151 | A full map that holds a bucket idle for 120 seconds does not keep a new client out when the last scan is a second old |
| `RateThreads.BucketsAreBounded` | src/limits.rs:91-151 | In every interleaving of lookups, reservations, inserts and scans the map is within the maximum, and the slot count is exact when no reservation or scan is under way |
| `RateThreads.IdleBucketGivesWay` | src/limits.rs:91-151 | In every interleaving a new client that finds the map full, an idle bucket in it and a scan due is let in |
| `RateThreads.NextKeeps` | src/limits.rs:91-163 | Every atomic step keeps the books of slots: buckets, reservations and evictions not yet counted |
| `RateThreads.RateIsBoundedByReadings` | src/limits.rs:110-163 | In every interleaving a client gets at most burst + 1 + rate * the forward movement of the readings that reached its bucket, evictions included |
| `RateThreads.RateIsBoundedInOrder` | src/limits.rs:110-163 | If those readings come in order, that is burst + 1 + rate * the time to the last of them |
| `RateLimits.RateLimiter.constructor` | src/limits.rs:81-89 | A limiter starts empty, with a scan due |
| `RateLimits.RateLimiter.CleanupIdle` | src/limits.rs:91-108 | The scan loop keeps exactly the buckets used within the idle time and gives their slots back |
| `RateLimits.RateLimiter.FindBucket` | src/limits.rs:127-151 | The entry loop finds, makes or refuses a bucket with at most one extra scan |
| `RateLimits.RateLimiter.TakeToken` | src/limits.rs:152-162 | Refill up to the capacity, then take a token if there is one |
| `RateLimits.RateLimiter.Allow` | src/limits.rs:110-163 | The in-place call is the transition the bound is proved of |
| `DnsWire.ReadableIsSkippable` | src/cache/dns.rs:373-444 | For every byte string, cyclic pointers included, a name that can be read can be skipped, to the same offset |
| `DnsWire.LabelsAccumulate` | src/cache/dns.rs:378-419 | Labels read so far stay in front of those a pointer leads to |
| `DnsWire.ReadNameLabels` | src/cache/dns.rs:378-419 | The recursive loop reads the labels, at most eight pointers deep, and terminates |
| `DnsWire.SkipNameLoop` | src/cache/dns.rs:421-444 | The loop finds the end of a name and stays in bounds |
| `DnsWire.SkipQuestionsLoop` | src/cache/dns.rs:301-314 | The loop skips the question section |
| `DnsWire.ReadRecordsLaid` | src/cache/dns.rs:358-371 | Records lie in order, within the message and without overlap |
| `DnsEncoding.RecordsOfEncoding` | src/cache/dns.rs:195-222 | For every message of questions and records, names compressed or not, the walk over its encoding finds exactly its records: each behind its owner name, with its type, class, TTL and data, and the next one right behind the data |
| `DnsEncoding.ReadsName` | src/cache/dns.rs:373-419 | Reading an encoded name gives its labels in lower case, then those at its compression pointer |
| `DnsEncoding.SkipsName` | src/cache/dns.rs:421-444 | Skipping an encoded name ends right behind it |
| `DnsAgeing.MinRrTtlLoop` | src/cache/dns.rs:267-299 | The loop yields the smallest real TTL, if positive |
| `DnsAgeing.MinTtlMeaning` | src/cache/dns.rs:267-299 | That TTL exceeds e exactly when there is a real record and every real TTL does |
| `DnsAgeing.NextRecord` | src/cache/dns.rs:195-204 | The head of every record loop reads the next record or fails, by the walk that finds an encoded message's records |
| `DnsAgeing.AgeSucceedsExactly` | src/cache/dns.rs:181-225 | Ageing succeeds if and only if the elapsed seconds are below the smallest real TTL |
| `DnsAgeing.AgeIsExact` | src/cache/dns.rs:171-225 | An aged answer has the query's id, each real TTL reduced by the elapsed seconds and at least one, and every other byte unchanged, OPT fields included |
| `DnsAgeing.AgedIsUnique` | src/cache/dns.rs:171-225 | That description leaves no freedom |
| `DnsAgeing.AgedKeepsRecords` | src/cache/dns.rs:190-222 | Rewriting TTLs does not move or change the records |
| `DnsAgeing.AgedLifetime` | src/cache/dns.rs:171-225 | Ageing shortens the smallest TTL by what elapsed |
| `DnsAgeing.AgeTwice` | src/cache/dns.rs:171-225 | Ageing by a and then by b is ageing by a + b, failures included |
| `DnsEncodedAgeing.AgeOfEncoding` | src/cache/dns.rs:171-225 | Ageing an encoded message is encoding it with the query's id and every TTL but that of OPT records reduced; it fails exactly if no record is real or a real one does not outlive the elapsed seconds |
| `DnsResponse.AgeResponse` | src/cache/dns.rs:171-225 | The loop that rewrites the buffer it walks computes exactly the aged answer of the stored message |
| `DnsResponse.AgeRecords` | src/cache/dns.rs:194-222 | The record loop over the array does what a walk over the stored message would |
| `DnsResponse.AgeTurn` | src/cache/dns.rs:194-222 | One turn reads ahead of what has been rewritten |
| `DnsResponse.WalkOutcome` | src/cache/dns.rs:194-222 | Record by record, the walk ends with all real TTLs reduced, or gives up |
| `DnsPolicy.NegativeTtlLoop` | src/cache/dns.rs:227-265 | The loops yield the smallest of TTL and minimum over the authority's SOA records, at least one second |
| `DnsPolicy.SoaMinMeaning` | src/cache/dns.rs:227-265 | The negative lifetime exceeds e exactly when there is an SOA record and every SOA record allows more than e |
| `DnsPolicy.KeepsOnlyUsableAnswers` | src/cache/dns.rs:118-145 | Truncated answers and errors other than NXDOMAIN are never kept, nothing longer than the policy allows, and a NOERROR answer never longer than any of its real TTLs |
| `DnsEncodedAgeing.DecideOfEncoding` | src/cache/dns.rs:118-145 | Exactly which encoded messages are kept and for how long: untruncated ones of acceptable size; NOERROR for the smallest real TTL if positive, NXDOMAIN for the least SOA limit of the authority section, at least a second, or the default; never above the maximum |
| `DnsEncodedAgeing.MinRrTtlOf` | src/cache/dns.rs:267-299 | On an encoded message the TTL walk finds the smallest TTL over the records of all sections that are not OPT |
| `DnsEncodedAgeing.NegativeTtlOf` | src/cache/dns.rs:227-265 | On an encoded message the negative walk finds the smaller of TTL and minimum field over the SOA records of the authority section |
| `DnsPolicy.SkipRecords` | src/cache/dns.rs:358-371 | The loop ends where the skipped records end |
| `DnsPolicy.ServableExactly` | src/cache/dns.rs:118-225 | A stored answer can be aged at every instant before the end of its lifetime if and only if the lifetime is at most the smallest TTL |
| `DnsPolicy.CacheableIsServable` | src/cache/dns.rs:118-145 | Every NOERROR answer judged cacheable can be aged at every instant of its lifetime |
| `DnsPolicy.NxDomainMayNotServe` | src/cache/dns.rs:128-133 | An NXDOMAIN answer may be kept without ever being servable |
| `Base64Url.RoundTrip` | src/cache/dns.rs:446-469 | Decoding the text of a byte string, padded or not, gives it back |
| `Base64Url.EncodedStrips` | src/cache/dns.rs:446-469 | The unpadded and the padded text of a byte string are such texts |
| `Base64Url.DecodedLength` | src/cache/dns.rs:446-469 | Decoding k non-pad characters gives floor(6k/8) bytes, and fails exactly on a foreign character |
| `Base64Url.ShiftSound` | src/cache/dns.rs:460-466 | The bit buffer never holds more than twelve bits and no pushed byte is truncated |
| `Base64Url.PaddingIsIgnored` | src/cache/dns.rs:457-457 | Padding changes nothing, wherever it stands |
| `Base64Url.DecodeLoop` | src/cache/dns.rs:446-469 | The loop computes the decoding |
| `CacheBooks.BooksBalance` | src/cache/core.rs:149-236 | Over every sequential run the byte total and the per-namespace entry and byte counters are the sums over the stored entries, order and data agree, and the weight is within the limit |
| `CacheBooks.InsertKeeps` | src/cache/core.rs:179-211 | Insertion with replacement and any eviction that fits keeps the books |
| `CacheBooks.HitIsLastInserted` | src/cache/core.rs:149-177 | A hit is fresh and is exactly the last value accepted under that namespace and hash, with no removal, purge or expiry since, even if storage keys of two namespaces collide |
| `CacheBooks.UndisturbedValueIsHit` | src/cache/core.rs:149-177 | The converse, for both namespaces: over every run a value that fits the store and that no later operation removed, purged, replaced or evicted is hit, exactly it, at every instant before its deadline |
| `CacheBooks.EntriesWeighTheirBodies` | src/cache/core.rs:83-86 | Over every run a stored entry is charged its body and 128 bytes |
| `CacheBooks.NoHitAfterRemoval` | src/cache/core.rs:219-236 | After a removal or a purge a key has no hit until it is inserted again |
| `CacheBooks.PurgeIsExact` | src/cache/core.rs:223-236 | A purge leaves nothing of its namespace and everything of the other |
| `CacheBooks.OriginIsKey` | src/cache/core.rs:63-73 | A namespace's storage keys determine their hashes |
| `CacheBooks.SomeEvictionFits` | src/cache/core.rs:203-208 | The eviction contract can always be met |
| `CacheStore.MixFormula` | src/cache/core.rs:63-73 | The namespace share of a storage key is the rotated product the program computes |
| `CacheStore.PingolaCache.constructor` | src/cache/core.rs:121-138 | A store starts empty with at least the minimal limit |
| `CacheStore.PingolaCache.AccountInsert` | src/cache/core.rs:269-277 | All three counters grow together |
| `CacheStore.PingolaCache.AccountRemove` | src/cache/core.rs:279-287 | All three counters shrink together |
| `CacheStore.PingolaCache.RemoveStorageKey` | src/cache/core.rs:289-296 | An entry leaves data, books and order together |
| `CacheStore.PingolaCache.Find` | src/cache/core.rs:149-177 | The lookup answers as the transition says, a hit exactly for an undisturbed fresh value of either namespace, and removes what expired |
| `CacheStore.PingolaCache.Replace` | src/cache/core.rs:189-201 | An entry takes its slot and whatever was there leaves the books |
| `CacheStore.PingolaCache.ForgetVictims` | src/cache/core.rs:203-208 | The eviction loop drops every victim from data and books |
| `CacheStore.PingolaCache.Put` | src/cache/core.rs:179-211 | The in-place insert is the transition |
| `CacheStore.PingolaCache.PurgeNamespace` | src/cache/core.rs:223-236 | The purge loop removes each of the namespace's keys once and counts them |
| `CacheServing.StoreHitIsServed` | src/cache/integration.rs:82-122 | In every run whose DNS inserts come from the DNS branch, a store hit on a NOERROR answer is served, aged, and never falls back to a miss |
| `CacheServing.StoredAnswerIsServed` | src/cache/integration.rs:82-122 | End to end: a NOERROR answer that the policy lets in and nothing disturbs is served, aged, at every instant of its lifetime |
| `CacheServing.StoreDnsIsAnInsert` | src/cache/integration.rs:231-239 | The DNS branch stores exactly what its policy allows, with that lifetime |
| `CacheServing.StoredFromPolicy` | src/cache/integration.rs:231-239 | Whatever is stored in the DNS namespace came from that branch |
| `H3SessionTrace.FramesAreWellFormed` | src/h3_session.rs:139-237 | For every call sequence, whatever sends fail: the frames are well formed (nothing, a lone fin, or one response head and first, then data, at most one trailers block followed by nothing but the fin, nothing after the fin) if and only if no call that finds trailers without their fin on an open stream emits more than a fin |
| `H3SessionTrace.StepLeads` | src/h3_session.rs:139-237 | From every reachable well-formed state each call, duplex task lists included, loses the format exactly if the stream is left with trailers and no fin and the call is one of the emitting ones |
| `H3SessionTrace.CarefulCallersAreSafe` | src/h3_session.rs:327-372 | A caller that after an error from trailers or duplex makes no body, trailers or duplex call always gets well-formed frames |
| `H3SessionTrace.UpToTheFirstFailedSend` | src/h3_session.rs:139-237 | Every call sequence in which no send fails before the last call gives well-formed frames, whatever calls are rejected on the way |
| `H3SessionTrace.CarelessCallsBreak` | src/h3_session.rs:327-353 | From every open session, trailers that lose their fin report an error, and any emitting call after them breaks the format |
| `H3SessionTrace.BytesAreCounted` | src/h3_session.rs:192-207 | The byte counter is right in every call sequence, whatever fails |
| `H3SessionContent.FramesCarryWhatWasGiven` | src/h3_session.rs:139-237 | For every call sequence, whatever sends fail, the frames carry exactly the first accepted head, the bytes of the accepted body calls and tasks, and the end-to-end fields of the accepted trailers, in call order |
| `H3SessionContent.OkMeansSent` | src/h3_session.rs:192-207 | On an open response a body call succeeds exactly if there is a head and its frame, if it needs one, is sent; then its bytes follow what was sent before, and otherwise nothing was sent |
| `H3SessionContent.OkTrailersEnd` | src/h3_session.rs:327-353 | Trailers succeed exactly if there is a head and both sends succeed; then the stream ends with the fin |
| `H3SessionContent.DuplexEnds` | src/h3_session.rs:355-372 | Tasks that succeed report the end exactly if one of them is an ending one, and a response with a head has then ended |
| `H3SessionContent.EndedMeansFin` | src/h3_session.rs:139-237 | For every call sequence in which no fin fails to be sent, the session regards the response as ended exactly when the last frame carries the fin |
| `H3SessionContent.EndToEndIsFiltered` | src/h3_session.rs:106-113 | The trailer fields sent are the given ones without the six hop-by-hop names |
| `H3SessionTrace.AcceptsWellFormed` | src/h3_session.rs:139-237 | The phase automaton of section 4.1 of RFC 9114 accepts exactly the well-formed frame sequences |
| `H3SessionTrace.RetryBufferIsWholeBody` | src/h3_session.rs:526-545 | Enabled before the first read, the retry buffer is exactly all request bytes read while these fit 64 KiB, and is gone for good once they do not |
| `H3SessionTrace.ReadOk` | src/h3_session.rs:257-299 | Each read hands out and records the same bytes |
| `H3SessionContent.ReadsAreTheBody` | src/h3_session.rs:257-299 | After any number of reads, what was handed out and what is to come are the request body |
| `H3SessionContent.ReadIsNext` | src/h3_session.rs:257-299 | A read hands out the next non-empty bytes, or the end when none are left and the stream is over, or a timeout when none are left for now |
| `H3Session.Session.SendFrame` | src/h3_session.rs:92-104 | A frame is delivered or the send fails |
| `H3Session.Session.WriteResponseHeader` | src/h3_session.rs:139-190 | Informational, repeated and late heads are ignored; the head and its fin are sent once |
| `H3Session.Session.WriteBody` | src/h3_session.rs:192-207 | Body data needs a head, is put out unchanged and counts only when sent |
| `H3Session.Session.PutTrailers` | src/h3_session.rs:327-353 | The filter loop drops hop-by-hop fields; trailers and fin follow |
| `H3Session.Session.FinishStream` | src/h3_session.rs:432-440 | Fin once, and only after a head |
| `H3Session.Session.ShutdownStream` | src/h3_session.rs:419-426 | Fin if still open, and nothing afterwards |
| `H3Session.Session.Apply` | src/h3_session.rs:209-237 | Each task does what its call does and says whether the response ends |
| `H3Session.Session.ResponseDuplexVec` | src/h3_session.rs:355-372 | The task loop stops at the first error and finishes an ended response |
| `H3Session.Session.ReadBodyBytes` | src/h3_session.rs:257-299 | The read loop skips empty frames and datagrams |
| `H3Wire.FinalizeIsEncode` | src/h3_wire.rs:113-169 | For every captured block with lower-case names and every request with an authority, the reusing form is exactly the plain encoding, duplicates and order included |
| `H3Wire.FinalizeIsEncodeIgnoringCase` | src/h3_wire.rs:113-169 | For every captured block it is so up to the case of reused names |
| `H3Wire.FinalizeIsEncodeExactly` | src/h3_wire.rs:113-169 | For every captured block and every request: the reusing form gives exactly the plain list if and only if there is an authority and every captured pair that stands in for a field (the last of its name for the first of its name, same value) has a lower-case name |
| `H3Wire.EmitEncodes` | src/upstream_h3.rs:1610-1624 | Field by field, reuse changes neither choice nor order |
| `H3Wire.DecodeEncoded` | src/upstream_h3.rs:1593-1624 | Decoding an encoded request gives back its method, the https scheme, its authority (a readable Host field, or else the one of its URI), its path and its forwarded fields in order |
| `H3Wire.ForwardedOne` | src/upstream_h3.rs:1610-1624 | A field is forwarded unless it is Host, a hop-by-hop field or a TE other than "trailers" |
| `H3Wire.SameFilter` | src/h3_wire.rs:20-24 | On lower-case names the two filters agree |
| `H3Wire.FinalizeUpstreamWirePairs` | src/h3_wire.rs:113-169 | The method drains and rebuilds the block as specified |
| `H3Wire.Drain` | src/h3_wire.rs:122-136 | The drain loop keeps the last reusable pair of each name |
| `H3Wire.Rebuild` | src/h3_wire.rs:155-168 | The rebuild loop reuses each captured pair at most once |
| `ContentEncoding.NegotiateIsGeneral` | src/content_encoding.rs:78-106 | The shortcut for a bare token and the empty case give what the general rule gives |
| `ContentEncoding.OnlyItemsMatter` | src/content_encoding.rs:43-75 | Negotiation depends only on the multiset of (coding, quality) items |
| `ContentEncoding.ReorderingFieldsChangesNothing` | src/content_encoding.rs:108-115 | Reordering fields changes nothing |
| `EncodingJoin.JoiningIsHarmlessExactly` | src/content_encoding.rs:43-75 | Two fields negotiate the same joined and apart, beside any other fields, if and only if both can be read as text or neither names a coding |
| `ContentEncoding.JoiningFieldsChangesNothing` | src/content_encoding.rs:43-75 | Joining two such fields into one, or splitting one, anywhere in the list changes nothing |
| `ContentEncoding.JoiningKeepsItemsExactly` | src/content_encoding.rs:43-75 | A joined field has the items of its parts if and only if they are such fields |
| `EncodingJoin.ItemsAreSeen` | src/content_encoding.rs:117-154 | No non-empty list of items goes unnoticed: beside suitable others it changes the outcome |
| `EncodingJoin.JoiningCanLoseACoding` | src/content_encoding.rs:44-46 | Joined to a field that is not text, gzip is no longer chosen |
| `ContentEncoding.UnreadableTakesAll` | src/content_encoding.rs:44-46 | Joined to a field that cannot be read as text, on either side, a field loses its items |
| `ContentEncoding.ChoosesTheBest` | src/content_encoding.rs:117-154 | The result is the best-quality coding, never one of quality zero, ties to zstd, br, gzip; identity wins only with an explicit higher quality |
| `ContentEncoding.TallyIsHighest` | src/content_encoding.rs:39-41 | A slot holds the highest quality given to its coding |
| `ContentEncoding.QualityRoundTrip` | src/content_encoding.rs:157-183 | Every weight written with three decimals is parsed back |
| `ContentEncoding.ParseQualityMeans` | src/content_encoding.rs:157-183 | Exactly which texts are weights, and that a fraction of one to three digits counts as if padded to three |
| `EncodingWeights.WrittenWeightIsTheQuality` | src/content_encoding.rs:43-75 | For every coding and every weight up to 1000 thousandths, the field that writes them has exactly that one item |
| `EncodingWeights.HigherWeightWins` | src/content_encoding.rs:78-154 | From the text of one field to the choice: of two codings the one with the higher weight is chosen, in whichever order they are written |
| `EncodingWeights.LastWeightCounts` | src/content_encoding.rs:53-61 | The last weight counts whatever comes before it, and a malformed one counts as zero |
| `EncodingWeights.OtherParametersAreIgnored` | src/content_encoding.rs:53-61 | A parameter with another name, or without one, changes nothing |
| `EncodingWeights.WrittenItem` | src/content_encoding.rs:48-74 | A name with any parameters behind it is one item of that coding with the quality of those parameters |
| `EncodingWeights.IdentityAcceptableExactly` | src/content_encoding.rs:117-154 | An uncompressed answer is acceptable unless identity is named and only refused, or is not named and the wildcard is named and only refused |
| `ContentEncoding.NegotiateLoop` | src/content_encoding.rs:78-154 | The method with its loops computes the negotiation |
| `ContentEncoding.ParseValue` | src/content_encoding.rs:43-75 | The item loop of one field records exactly its items |
| `ContentEncoding.QualityLoop` | src/content_encoding.rs:53-61 | The parameter loop keeps the last weight as written, zero if malformed |
| `ContentEncoding.SelectLoop` | src/content_encoding.rs:137-142 | The candidate loop keeps the first best |
| `HopHeaders.StrippedRequest` | src/gateway.rs:1642-1706 | A stripped request has exactly the fields that are neither fixed hop-by-hop fields nor nominated by the client, plus "TE: trailers" when offered; framing fields stay |
| `HopHeaders.StripRequestSucceeds` | src/gateway.rs:1642-1706 | Stripping fails exactly on options that cannot be honoured or on bad framing |
| `HopHeaders.StrippedResponse` | src/gateway.rs:1717-1749 | The same for responses, which may be given back their Upgrade |
| `HopHeaders.StripResponseSucceeds` | src/gateway.rs:1717-1749 | Stripping a response fails exactly on options that cannot be honoured, on bad framing, or on a missing Upgrade that is to be forwarded |
| `HopHeaders.NominateMeans` | src/gateway.rs:1604-1640 | Options are accepted exactly when there are at most ten, each a field name, none a framing field |
| `ListFields.ListedFieldsGo` | src/gateway.rs:1604-1706 | From the text of the Connection and Proxy-Connection fields to the stripped request: exactly the fields listed in either and the fixed ones go |
| `ListFields.BadOptionsAreRefused` | src/gateway.rs:1604-1706 | More than ten options, one that is no field name or one that names a framing field, and the request is refused |
| `ListFields.TrailersOffered` | src/gateway.rs:1708-1715 | TE offers trailers exactly if one of its list elements says so, in any case |
| `HopHeaders.FixedFieldsFit` | src/gateway.rs:1646-1661 | The eight and fifteen fixed slots never overflow |
| `HopHeaders.NamesAreSane` | src/gateway.rs:1751-1777 | No framing field is among the fixed fields |
| `HopHeaders.StripRequestHopHeaders` | src/gateway.rs:1642-1706 | The loops that remove fields as they are nominated do what is specified |
| `HopHeaders.RemoveOptions` | src/gateway.rs:1669-1692 | One Connection value, option by option |
| `HopHeaders.ConnectionOptionNames` | src/gateway.rs:1604-1640 | The loops collect the options in order or fail at the first bad one |
| `HopHeaders.StripResponseHopHeaders` | src/gateway.rs:1717-1749 | The removal loops over a response do what is specified |
| `ContentLength.ValidLengthMeans` | src/gateway.rs:1806-1823 | A length is accepted exactly when every element of every field is that number |
| `ListFields.ListedLengths` | src/gateway.rs:1806-1823 | A field that lists decimal lengths is accepted exactly if they are all the same, as that length |
| `ContentLength.NormalizeIsExact` | src/gateway.rs:1837-1877 | Normalization keeps the length and every other field, leaves one digit-only field, and fails exactly on a bad length or on both framings |
| `ContentLength.NormalizeIsIdempotent` | src/gateway.rs:1837-1877 | A second normalization changes nothing |
| `ContentLength.DecimalFits` | src/gateway.rs:1865-1875 | Any accepted length fits the buffer it is written to |
| `ContentLength.ValidatedContentLength` | src/gateway.rs:1806-1823 | The nested loops compute the validation |
| `ContentLength.NormalizeContentLength` | src/gateway.rs:1837-1877 | The method computes the normalization |

## Left out

- Sockets, TLS, QUIC packets, timers, pacing, task scheduling and reconnection: only the events they deliver are modelled.
- Hash functions, `edns_fingerprint` and the derivation of cache keys from queries: keys and hashes are inputs, and nothing is claimed about distinct queries having distinct keys.
- Commands still in the worker's queue when it exits: settlement is proved for the commands the worker handles.
- Dropping the future of a body writer in the middle of a call: `H3Upload` models a caller that awaits each call.
- Progress of waiting: `Coalesce` shows exactly which waiters miss a wake-up and what the others are told; it does not bound how long they take to run.
- ActiveLimits.RunKeeps: a cleanup may stop before it has visited every counter, which covers the program's complete scans and more.
- RateLimits.RateLimiter.Allow: calls are taken one at a time, interleavings are the subject of `RateThreads`; floating-point rounding of tokens is not modelled.
- CacheBooks.BooksBalance: sequential runs only; the program updates data and order in separate steps under concurrency.  Hit, miss and eviction metrics are not modelled.
- CacheServing.StoreHitIsServed: starts where the query has been parsed; `parse_doh_query`, `dns_query_key` and the Navidrome branch are not modelled.
- Machine-word overflow of offsets and lengths in the DNS walks: messages are far shorter than the address space.
- H3SessionTrace.FramesAreWellFormed: the contents of the response header block (`encode_response_headers`), read timeouts other than as an outcome, and custom messages are not modelled.
- H3Wire.FinalizeIsEncode: sharing of buffers between captured and rebuilt blocks is not modelled, only their contents.
- HopHeaders.StrippedRequest: header maps are maps from names to value lists, so the relative order of different fields is not modelled; names longer than the header library admits are not rejected.
- `decode_request_headers`, `AssetCache`, `PathCache`, configuration, preflight checks, health output, logging, benchmarks and examples.
