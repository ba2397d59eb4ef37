# Verification of the vLLM SLO proxy

The proxy stands between clients and a vLLM server.  It admits up to
`max_inflight` requests at a time, queues up to `max_queue_size` more, rejects the
rest, and forwards the answers as Server-Sent Events.  This project models its
three pieces of real logic in Dafny and proves what they guarantee.

**The admission protocol.**  Three records have to agree: the counters of
`InflightLimiter`, the deque of `ProxyServer` with the `queued_` flags of its
sessions, and the live permits.

- `InflightLimiter.dfy` has the mutable limiter and its movable permits.
  `PermitInterleaving.dfy` lets any number of threads act on them between any two
  visits to the mutex; a release is three steps there.
- `ProxyModel.dfy` is the server with its sessions as a transition system, one step
  a whole handler: connections, requests, both timers (expired, cancelled, or
  cancelled too late), the strand with its Enqueue, Promote and Stop tasks, and the
  upstream chain with the real stream observer inside.  `ProxyInvariant.dfy` keeps
  the invariant, `ProxyTheorems.dfy` and `ProxyDrain.dfy` state what follows from it
  for every run.  `ProxyOutcomes.dfy` says of every step which sessions it counts,
  queues, starts and ends, how an answer passes through the upstream chain, and what
  a stop does.
- `ProxyObjects.dfy` has the server, the sessions and the metrics as objects that
  change in place.  `Represents(st)` relates them to a state of the transition
  system; each handler, the promotion loop included, is proved to take objects in
  state `st` to objects in the state that the corresponding step leads to.

**The stream parser.**  `SseParser.dfy` has the mutable parser with its 64-bit limit
checks and the function it computes.  `SseChunks.dfy` is about the places where the
network cuts the stream, `SseStandard.dfy` compares the parser with sections 9.2.5
and 9.2.6 of the WHATWG HTML standard, `SseRoundTrip.dfy` writes payloads and reads
them back, `SseObserver.dfy` is about what a session detects in its stream.

**Control and measurement.**  `AdmissionPolicy.dfy`, `TokenBucket.dfy` and
`SlidingWindow.dfy` each have the mutable object, the function it implements and the
laws of whole runs.  `Tallies.dfy` counts over sequences.

Each mutable class has a `View()` (or the relation above), and its methods state the
whole new view as a function of the old one; the properties are proved about those
functions.

Where the code is not what one might expect:

- The parser skips a line that is exactly "data"; the standard reads it as an empty
  data line.  It takes a byte order mark for part of the first line, and it does not
  end a line at a CR alone.  `SseStandard.RefinesStandard` says exactly which streams
  with CRs only before LFs come out as the standard wants;
  `SseStandard.ByteOrderMarkLosesTheFirstEvent` and `SseStandard.LoneCrIsNoLineEnd`
  are concrete differences.
- The size limit counts whole chunks, so a stream may pass in small chunks and fail
  in a large one (`SseChunks.CuttingCanHelp`).  It never changes events otherwise.
- The branch of the promotion loop for a session the limiter does not count and the
  one for a session that refuses to start are dead with one worker, and so are the
  zero guard of `release` and the final clamp of `percentile`.

## Model

| member | source | states |
|---|---|---|
| `LimiterCore.SectionsKeepBounds` | controller/src/inflight_limiter.cpp:80-124 | no critical section takes either counter past its limit |
| `LimiterCore.AcquireRun` | controller/src/inflight_limiter.cpp:80-97 | n acquires from any open state: every free slot is given out first, then every place in the queue with its position, and only then is anyone rejected; the counters end accordingly |
| `LimiterCore.NewLimiterAnswers` | controller/src/inflight_limiter.cpp:73-97 | of n acquires on a new limiter exactly min(n, max_inflight) are admitted, the next max_queue_size queued at positions 1, 2, ..., the rest rejected |
| `LimiterCore.ClosedRefusesAll` | controller/src/inflight_limiter.cpp:82-84 | a closed limiter answers Closed to everyone and never changes |
| `LimiterObjects.InflightLimiter.TryAcquireOrQueue` | controller/src/inflight_limiter.cpp:80-97 | Closed iff closed, Admit iff open with a free slot, Queue iff open, full and room in the queue; the counters, the permit and the position that go with each |
| `LimiterObjects.InflightLimiter.TryPromoteQueued` | controller/src/inflight_limiter.cpp:99-109 | one waiting request becomes one in flight and the permit owns its slot, unless closed, empty or full |
| `LimiterObjects.InflightLimiter.CancelQueued` | controller/src/inflight_limiter.cpp:111-118 | one waiting request less, or false and no change when there is none |
| `LimiterObjects.InflightLimiter.Close` | controller/src/inflight_limiter.cpp:120-124 | closed, nobody waits, slots in flight untouched |
| `LimiterObjects.MakeLimiter` | controller/src/inflight_limiter.cpp:73-78 | refused exactly for a zero limit, otherwise an empty open limiter |
| `LimiterObjects.Permit.MoveFrom` | controller/src/inflight_limiter.cpp:24-27 | the new permit owns what the other one did, the other one nothing |
| `LimiterObjects.Permit.Release` | controller/src/inflight_limiter.cpp:39-67 | a slot is given back at most once; the callback runs exactly when one was given back and a callback is installed |
| `LimiterObjects.Permit.MoveAssign` | controller/src/inflight_limiter.cpp:29-37 | the slot held before is given back, ownership is taken over, and assigning a permit to itself changes nothing |
| `PermitInterleaving.StepConserves` | controller/src/inflight_limiter.cpp:21-67 | every step of any thread keeps: the counter is the permits that own a slot or are releasing one, and every slot is in exactly one place |
| `PermitInterleaving.RunConserves` | controller/src/inflight_limiter.cpp:21-129 | the same over whole runs; the two limits never change |
| `PermitInterleaving.SlotConservation` | controller/src/inflight_limiter.cpp:21-124 | in every state any interleaving can reach: counter = owning + releasing permits, both counters within their limits, zero guard never taken, each slot held once or freed once, one callback per freed slot when one is installed |
| `PermitInterleaving.NoLeak` | controller/src/inflight_limiter.cpp:39-67 | once every permit is destroyed nothing is in flight and each slot ever acquired was freed exactly once |
| `PermitInterleaving.WholeRelease` | controller/src/inflight_limiter.cpp:43-67 | the three steps of a release can always be taken and together free the slot it owned, with one callback |
| `PermitInterleaving.WholeAssign` | controller/src/inflight_limiter.cpp:29-37 | an uninterrupted move assignment frees the slot held before and takes over the other one; onto itself it does nothing |
| `ProxyInvariant.StepKeepsSafe` | controller/src/proxy_session.cpp:88-193 | every handler, stale ones included, keeps counters, deque, flags, timers, permits and metrics in agreement |
| `ProxyInvariant.StepKeepsAwake` | controller/src/proxy_server.cpp:55-115 | every handler keeps a Promote task behind all pending Enqueue tasks while a slot is free and somebody is counted as waiting |
| `ProxyInvariant.RunKeepsInv` | controller/src/proxy_server.cpp:55-115 | the invariant holds in every reachable state |
| `ProxyTheorems.NoLostWakeup` | controller/src/proxy_server.cpp:55-115 | while the server runs, a free slot beside a waiting session means a Promote task is coming behind every Enqueue task; with the strand drained either nobody waits or every slot is taken |
| `ProxyTheorems.CountersAgree` | controller/include/vllm_slo/inflight_limiter.hpp:25-28 | `current_inflight` is the number of permits held, `queued_requests` the queued sessions plus the pending Enqueue tasks; a queued session is in the deque exactly once |
| `ProxyTheorems.LiveTimeoutCancels` | controller/src/proxy_session.cpp:97-106 | the timeout of a session that still waits always finds a request to cancel, and finishes the session |
| `ProxyTheorems.PromoteServesOldest` | controller/src/proxy_server.cpp:91-115 | promotion gives the free slots, one each, to the sessions waiting longest, as many as there are slots, and leaves the rest in line and in order |
| `ProxyTheorems.FirstComeFirstServed` | controller/src/proxy_server.cpp:80-115 | once a session is promoted nobody who was queued before it still waits: each was promoted or has finished |
| `ProxyTheorems.Accounting` | controller/src/proxy_metrics.cpp:10-41 | total = completed + failed + open requests; one outcome and one first token at most for each session; a finished session holds no permit |
| `ProxyTheorems.NobodyWithoutTimer` | controller/src/proxy_session.cpp:88-107 | a queued session has its queue timer pending, a permit holder its request timer |
| `ProxyTheorems.FinishedStaysSilent` | controller/src/proxy_session.cpp:442-500 | whatever runs after a session has finished changes neither its outcome nor its permit |
| `ProxyTheorems.NeverReadsPastFailure` | controller/src/proxy_session.cpp:382-417 | after a length error the parser of the session is never fed again |
| `ProxyOutcomes.SessionLife` | controller/src/proxy_session.cpp:88-494 | for every reachable state, step and session: exactly which steps count, queue, start, complete and fail its request or close its connection; each outcome is recorded once |
| `ProxyOutcomes.CountersFollow` | controller/src/proxy_metrics.cpp:10-23 | total, completed and failed each rise by one exactly on a step that counts, completes or fails some session: timeouts, refusals and failed upstream operations are failures |
| `ProxyOutcomes.RequestLaw` | controller/src/proxy_session.cpp:151-193 | a health check awaits its reply unfinished, a bad request is over uncounted; a completion request gets a free slot, else a place in the queue, else is over |
| `ProxyOutcomes.ChainAdvances` | controller/src/proxy_session.cpp:269-380 | n successes lead through resolve, connect, write, read header, write header to reading the body, in this order, and change nothing else |
| `ProxyOutcomes.UpstreamLaw` | controller/src/proxy_session.cpp:382-440 | a chunk is observed and written; written, it leads back to reading unless it was reported done; a buffer to refill changes nothing |
| `ProxyOutcomes.UpstreamReleases` | controller/src/proxy_session.cpp:269-494 | exactly the completions that end an unfinished session give its slot back and post a promotion; all others leave outcome, permit, limiter and strand alone |
| `ProxyOutcomes.BodyGoesOn` | controller/src/proxy_session.cpp:382-440 | over any chunks of which none is reported done the answer goes on: all are observed, the session still reads, nothing else changes but the first-token count |
| `ProxyOutcomes.BodyEnds` | controller/src/proxy_session.cpp:382-456 | the first chunk reported done, by an end marker or a length error, is still written and then completes the request, once, with its slot given back |
| `ProxyOutcomes.AnsweredInFull` | controller/src/proxy_session.cpp:247-456 | from start to end: encoded payloads with "[DONE]" among them, in any chunks that fit, complete the request with exactly the chunk that completes the first "[DONE]" event |
| `ProxyOutcomes.FirstAnswer` | controller/src/proxy_session.cpp:139-456 | from a new proxy: one client connects, asks and is answered in full; one request counted and completed, no slot taken, a promotion posted |
| `ProxyOutcomes.StrandIsFifo` | controller/src/proxy_server.cpp:55-89 | a step runs at most the oldest task and otherwise only appends |
| `ProxyOutcomes.StopStep` | controller/src/proxy_server.cpp:64-78 | the server begins to stop exactly when the posted Stop task runs |
| `ProxyOutcomes.StopArrives` | controller/src/proxy_server.cpp:64-78 | a posted Stop takes effect once the tasks before it have run, whatever else happens, and stays in effect |
| `ProxyOutcomes.StoppedStartsNobody` | controller/src/proxy_server.cpp:64-89 | over any run of a stopping server no session is started any more |
| `ProxyDrain.StepWeight` | controller/src/proxy_session.cpp:88-107 | firing a timer or running a task lowers a measure that nothing but a request or a stop can raise |
| `ProxyDrain.DrainGoesOn` | controller/src/proxy_session.cpp:247-267 | while a slot or a queue place is taken there is a task to run or a timer to fire |
| `ProxyDrain.DrainIsBounded` | controller/src/proxy_session.cpp:88-107 | without new requests the number of timers fired and tasks run is bounded, whatever upstream does in between |
| `ProxyDrain.DrainFrom` | controller/src/proxy_session.cpp:442-500 | timers and tasks alone empty the queue and free every slot |
| `ProxyDrain.NoLeak` | controller/src/proxy_session.cpp:247-267 | from every reachable state, draining ends, and it ends with both counters at zero whichever order is chosen |
| `ProxyObjects.ProxyServer.PromoteQueuedSessions` | controller/src/proxy_server.cpp:91-115 | the loop over the mutable deque implements the Promote step |
| `ProxyObjects.ProxyServer.PromoteNext` | controller/src/proxy_server.cpp:92-113 | one turn of that loop, with its put-back-and-return case |
| `ProxyObjects.ProxyServer.RunEnqueue` | controller/src/proxy_server.cpp:80-89 | implements the Enqueue step; a stopping server drops the session |
| `ProxyObjects.ProxyServer.RunStop` | controller/src/proxy_server.cpp:66-77 | implements the Stop step: closed limiter, empty deque |
| `ProxyObjects.ProxyServer.RunTask` | controller/src/proxy_server.cpp:55-115 | implements the step that runs the oldest task of the strand |
| `ProxyObjects.ProxySession.HandleRequest` | controller/src/proxy_session.cpp:151-193 | implements the request step, for every kind of request and all four decisions |
| `ProxyObjects.ProxySession.StartProxyRequest` | controller/src/proxy_session.cpp:247-252 | moves the permit in, arms the timer, starts the chain |
| `ProxyObjects.ProxySession.TryStartFromQueue` | controller/src/proxy_session.cpp:109-117 | starts exactly when queued and not finished; otherwise the permit is destroyed and its slot returns |
| `ProxyObjects.ProxySession.OnQueueTimer` | controller/src/proxy_session.cpp:97-106 | implements the queue timeout step, stale or live |
| `ProxyObjects.ProxySession.OnRequestTimer` | controller/src/proxy_session.cpp:254-267 | implements the request timeout step, stale or live |
| `ProxyObjects.ProxySession.EndRequest` | controller/src/proxy_session.cpp:442-470 | ends a session once: timers cancelled, one outcome recorded, permit released |
| `ProxyObjects.ProxySession.OnChunk` | controller/src/proxy_session.cpp:405-440 | implements the step for a body chunk: observed, then written or finished |
| `ProxyObjects.ProxySession.OnUpstream` | controller/src/proxy_session.cpp:269-440 | implements every completion of the upstream chain |
| `SseParsing.SseParser.Feed` | controller/src/sse_parser.cpp:25-66 | the events and the state left behind are those of the one-shot function on buffer + chunk, or the length error |
| `SseParsing.SseParser.ScanLines` | controller/src/sse_parser.cpp:32-59 | the loop over the complete lines computes the recursive scan |
| `SseParsing.SseParser.AppendDataLine` | controller/src/sse_parser.cpp:77-90 | accepts exactly when the joined data fits and otherwise changes nothing |
| `SseParsing.SseParser.Reset` | controller/src/sse_parser.cpp:68-71 | the state of a new parser |
| `SseParsing.MakeParser` | controller/src/sse_parser.cpp:19-23 | refused exactly for a zero limit |
| `SseParsing.LimitsAreExact` | controller/src/sse_parser.cpp:77-105 | in wrapping 64-bit arithmetic both checks accept exactly when the true sums fit |
| `SseParsing.ZeroLimitWouldWrap` | controller/src/sse_parser.cpp:19-23 | without the constructor's check the arithmetic would wrap |
| `SseParsing.ScanLive` | controller/src/sse_parser.cpp:25-66 | whatever the text, what stays buffered has no LF and the event data stays within the limit |
| `SseParsing.FeedKeepsLive` | controller/src/sse_parser.cpp:25-66 | every state that is not failed has an LF-free buffer, and buffer and data within the limit |
| `SseParsing.FreshFeedFailsOnlyOnBuffer` | controller/src/sse_parser.cpp:25-105 | a feed that starts with no partial event fails if and only if the buffer check does |
| `SseChunks.ScanCut` | controller/src/sse_parser.cpp:25-66 | scanning a + b is scanning a and going on with b, wherever the cut is |
| `SseChunks.DoneMeansDone` | controller/src/sse_parser.cpp:92-94 | over any chunks from any state, the events marked done are exactly those whose data is "[DONE]" |
| `SseChunks.ChunkIndependence` | controller/src/sse_parser.cpp:25-66 | one feed of a + b is accepted if and only if both halves are and the whole fits; then events and final state are the same |
| `SseChunks.CuttingCanHelp` | controller/src/sse_parser.cpp:101-105 | two feeds accepted, the same bytes in one feed refused |
| `SseChunks.AnyChunking` | controller/src/sse_parser.cpp:25-66 | every chunking that fits computes the one-shot scan of the whole stream |
| `SseChunks.ChunkingsAgree` | controller/src/sse_parser.cpp:25-66 | two chunkings that fit agree on every event and on the state they leave |
| `SseChunks.OneFeedImpliesAll` | controller/src/sse_parser.cpp:25-66 | a stream accepted in one feed is accepted in every chunking, with the same result |
| `SseStandard.ScanByLines` | controller/src/sse_parser.cpp:32-59 | where CRs stand before LFs only, the parser sees the lines of section 9.2.5 |
| `SseStandard.SameField` | controller/src/sse_parser.cpp:50-56 | the prefix test equals the standard's split at the first colon, on every line but the bare "data" |
| `SseStandard.RefinesStandard` | controller/src/sse_parser.cpp:10-66 | under any chunking that fits, a stream with CRs only before LFs gives the payloads of section 9.2.6 if and only if no blank line follows a bare "data" line or a data line behind a byte order mark |
| `SseStandard.ByteOrderMarkLosesTheFirstEvent` | controller/src/sse_parser.cpp:50-56 | a stream whose only event is lost |
| `SseStandard.LoneCrIsNoLineEnd` | controller/src/sse_parser.cpp:33-41 | a stream in which the standard sees an event and the parser no line |
| `SseRoundTrip.CleanIsIdentity` | controller/src/sse_parser.cpp:38-41 | a payload survives the dropping of CRs exactly when none of its lines ends in one |
| `SseRoundTrip.ScanEncoded` | controller/src/sse_parser.cpp:25-94 | an encoded stream is accepted exactly when every payload fits |
| `SseRoundTrip.RoundTrip` | tools/mock_vllm/mock_vllm_server.py:72-86 | under any chunking that fits there is one event for each payload, equal to it if and only if no line of it ends in CR, and done exactly for "[DONE]" |
| `SseRoundTrip.OneChunkPerPayloadFits` | tools/mock_vllm/mock_vllm_server.py:79-86 | sending each payload as one chunk fits whenever each encoded payload does |
| `SseObserver.StreamObserver.ObserveSseChunk` | controller/src/proxy_session.cpp:508-525 | the loop computes the observer function; a length error ends the stream |
| `SseObserver.ObserveMatches` | controller/src/proxy_session.cpp:508-525 | done is reported exactly if a "[DONE]" event was emitted, a first token counted exactly if some event had data |
| `SseObserver.FailureIsReported` | controller/src/proxy_session.cpp:508-525 | on any input: done is reported if and only if a done event was emitted or a length error thrown |
| `SseObserver.EncodedDoneIsReported` | controller/src/proxy_session.cpp:508-525 | a stream of encoded payloads with "[DONE]" among them is reported done under any chunking that fits, and where no payload line ends in CR no other stream is |
| `SseObserver.ReportedSoFar` | controller/src/proxy_session.cpp:508-525 | what has been reported after k chunks depends on the bytes so far only, not on how they were cut |
| `SseObserver.DetectedInCompletingChunk` | controller/src/proxy_session.cpp:508-525 | done is first reported on the chunk that completes the first "[DONE]" event, the first token on the chunk that completes the first event with data |
| `SseObserver.AtMostOneFirstToken` | controller/src/proxy_session.cpp:512-517 | at most one first token in a session, on any input |
| `AdmissionControl.UpdateInRange` | controller/src/admission_policy.cpp:107-140 | recommendation, cooldown and streak stay within their bounds |
| `PolicyObject.AdmissionPolicy.UpdateRecommendation` | controller/src/admission_policy.cpp:107-140 | the whole new control state, from the three flags |
| `PolicyObject.AdmissionPolicy.Evaluate` | controller/src/admission_policy.cpp:49-75 | new state and result; negative counters are refused before anything changes |
| `PolicyObject.MakePolicy` | controller/src/admission_policy.cpp:19-47 | refused exactly for the configurations the constructor throws on |
| `AdmissionLaws.WorseIsMoreSevere` | controller/src/admission_policy.cpp:85-105 | worse metrics never classify as a milder sample |
| `AdmissionLaws.SampleMeaning` | controller/src/admission_policy.cpp:85-105 | the four kinds of sample, from the thresholds |
| `AdmissionLaws.DecisionLaw` | controller/src/admission_policy.cpp:49-97 | every result in a run of a new policy: Reject iff a critical threshold is met or the queue is full, else Queue iff a soft threshold is met or the recommendation after this sample is used up, else Admit; both flags; an error iff a counter is negative |
| `AdmissionLaws.OnlySamplesCount` | controller/src/admission_policy.cpp:49-60 | the recommendation of a run depends on the samples of its accepted inputs only, so the laws about samples hold of evaluations |
| `AdmissionLaws.UpdateMonotone` | controller/src/admission_policy.cpp:107-140 | one update keeps the relation between a worse and a better run, over recommendation, cooldown and streak |
| `AdmissionLaws.RunsAreMonotone` | controller/src/admission_policy.cpp:49-140 | pointwise worse metrics and larger loads keep the recommendation no higher and each decision at least as restrictive, from related states |
| `AdmissionLaws.PolicyIsMonotone` | controller/src/admission_policy.cpp:19-140 | the same for two new policies with one configuration, after every sample |
| `AdmissionLaws.CriticalDecay` | controller/src/admission_policy.cpp:111-116 | k critical samples in a row give max(min, r / 2^k) |
| `AdmissionLaws.SoftDecay` | controller/src/admission_policy.cpp:118-123 | k soft samples in a row give max(min, r - k) |
| `AdmissionLaws.RecoveryLaw` | controller/src/admission_policy.cpp:125-139 | n recovery samples after an overload give min(max, r + max(0, n - c) / c) |
| `AdmissionLaws.RecoveryIsFastest` | controller/src/admission_policy.cpp:107-140 | no run of n samples after an overload raises the recommendation further |
| `AdmissionLaws.StreakMeaning` | controller/src/admission_policy.cpp:125-139 | a streak of n is the last n samples, all recoveries, with the recommendation standing still |
| `AdmissionLaws.IncreaseNeedsStreak` | controller/src/admission_policy.cpp:130-139 | an increase takes c recoveries in a row since the start or the last increase |
| `AdmissionLaws.SteadyStartsAnew` | controller/src/admission_policy.cpp:130-139 | outside a cooldown a steady sample resets the streak: n recoveries after it add exactly n / c |
| `AdmissionLaws.CooldownPasses` | controller/src/admission_policy.cpp:125-128 | in a cooldown every sample that is no overload only lets it pass |
| `AdmissionLaws.MaximumUntilOverload` | controller/src/admission_policy.cpp:19-20 | the recommendation stays at the maximum until an overload |
| `AdmissionLaws.IncreaseRate` | controller/src/admission_policy.cpp:125-139 | any n samples in a row, from any state, contain at most (n + c - 1) / c increases |
| `TokenBuckets.RefillBounded` | controller/src/token_bucket.cpp:52-60 | a refill adds at most rate times elapsed time and stays within the capacity |
| `TokenBuckets.Budget` | controller/src/token_bucket.cpp:22-60 | tokens granted plus tokens left are at most tokens at the start plus rate times elapsed time, in every run |
| `TokenBuckets.RateBound` | controller/src/token_bucket.cpp:22-60 | over any window, tokens granted are at most tokens at the start (so at most the capacity) plus rate times elapsed time |
| `TokenBuckets.AnswerMeaning` | controller/src/token_bucket.cpp:22-60 | each answer and new bucket from what the call finds: min(capacity, tokens + rate times elapsed time) |
| `TokenBuckets.ConsumeLaw` | controller/src/token_bucket.cpp:22-36 | in every run a positive request is refused iff the tokens found are fewer, and a grant takes exactly its amount |
| `TokenBuckets.Account` | controller/src/token_bucket.cpp:22-60 | tokens granted, left and spilled over the cap are exactly the tokens at the start plus rate times elapsed time |
| `TokenBuckets.ExactBudget` | controller/src/token_bucket.cpp:22-60 | the budget of a run is an equality if and only if no call finds the cap exceeded |
| `TokenBuckets.FillLaw` | controller/src/token_bucket.cpp:52-60 | a run without grants leaves exactly min(capacity, tokens + rate times elapsed time) |
| `TokenBuckets.FilledAt` | controller/src/token_bucket.cpp:52-60 | the same at the time t of its last call, in particular for a bucket that was emptied |
| `TokenBuckets.RefillTwice` | controller/src/token_bucket.cpp:52-60 | refilling on the way to a time changes nothing about the refill at that time |
| `TokenBuckets.FruitlessCallIsInvisible` | controller/src/token_bucket.cpp:22-60 | a query, a refused call or an invalid one put anywhere into a run changes no other answer |
| `TokenBucketObject.TokenBucket.RefillUnlocked` | controller/src/token_bucket.cpp:52-60 | the whole new bucket; a clock that stands still changes nothing |
| `TokenBucketObject.TokenBucket.TryConsume` | controller/src/token_bucket.cpp:22-36 | new bucket and answer, the argument error included |
| `TokenBucketObject.TokenBucket.AvailableTokens` | controller/src/token_bucket.cpp:38-42 | new bucket and answer |
| `SlidingWindows.HoldsLatest` | controller/src/sliding_window.cpp:17-27 | the window holds the last min(n, capacity) samples, in order |
| `SlidingWindows.SortSorts` | controller/src/sliding_window.cpp:58 | sorted, and a permutation of the samples |
| `SlidingWindows.ClampIsIdle` | controller/src/sliding_window.cpp:59-65 | the index is in range before the clamp, and p = 0 agrees with the general formula |
| `SlidingWindows.NoPercentile` | controller/src/sliding_window.cpp:49-56 | an argument error iff p is out of range, empty window or not; no value iff p is in range and the window is empty |
| `SlidingWindows.PercentileMeaning` | controller/src/sliding_window.cpp:48-66 | the answer is v if and only if v is the least held sample with at least p percent of the samples at most v |
| `SlidingWindows.PercentileMonotone` | controller/src/sliding_window.cpp:48-66 | percentiles grow with p |
| `SlidingWindowObject.SlidingWindow.AddSample` | controller/src/sliding_window.cpp:17-27 | the whole new window |
| `SlidingWindowObject.SlidingWindow.Percentile` | controller/src/sliding_window.cpp:48-66 | value, missing value or argument error, read from a copy that is sorted in place |
| `SlidingWindowObject.SortInPlace` | controller/src/sliding_window.cpp:58 | the array becomes the sorted sequence of its elements |

## Left out

- Sockets, DNS, HTTP parsing, response texts and the bytes forwarded downstream: an upstream operation is a step that succeeds or fails, a body chunk an arbitrary text.
- That exactly one response is written: success callbacks that were already queued do not look at `finished_`.  The guarded facts, permit and metrics, are proved.
- More than one worker thread for server and sessions: a Queue decision and the task it posts are not one critical section then.  `controller/include/vllm_slo/proxy_config.hpp` line 20 sets one worker; limiter and permits are proved under every interleaving.
- Expired weak pointers, the session destructor and destruction at process exit: the server outlives its sessions, and the pending queue timer keeps a queued session alive.
- The accept loop beyond the arrival of a connection; a connection may arrive at any time here, even after a stop.
- Parser state after a length error: one absorbing failure (`Broken`), because the caller ends the stream there.
- SseStandard.RefinesStandard: streams with a CR that no LF follows are not characterised; `LoneCrIsNoLineEnd` shows that they can differ.  The byte order mark is one character of the text.
- Floating point: times, tokens, samples, ratios and ranks are exact reals, so rounding, NaN and the argument errors for infinite values are not modelled.
- The clock is a parameter of each call.
- PolicyObject.AdmissionPolicy.UpdateRecommendation: `int` overflow of the recommendation plus one, possible only when `max_inflight` is the largest `int`.
- SlidingWindowObject.SortInPlace: an insertion sort stands for `std::sort`; both are determined by sortedness and permutation.
- `ProxyMetrics::record_ttft` is counted; its duration, its window and its clock-order error are not part of this model.
- ProxyObjects.ProxySession.ObserveChunk: the observer is a value there; its loop over the mutable parser is `StreamObserver.ObserveSseChunk`.
- `std::optional<Permit>` in a session is a permit without a slot until one is moved into it.
- `SlidingWindow::average`, health body, `json_escape`, configuration from the environment, `to_string`, the demo program, scripts and the mock server apart from its wire form: no hard logic.
