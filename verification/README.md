# kvmux in Dafny

A model of kvmux, an LLM gateway, and proofs about it. kvmux admits chat requests
through a global FIFO gate, orders the healthy backends that serve the model, walks
that order with at most one failover, relays Server-Sent Events from the upstream to
the client, and counts what it does. `dafny verify dfyconfig.toml` checks everything.

The parts, one module each unless said otherwise:

- `AdmissionGate`: the global gate. `acquire` is a coroutine that suspends at most
  once, so it is two atomic segments; timers fire at any moment, also before a
  release hands the expired waiter a slot. Theorems are about every run.
- `CircuitBreaker`: the per-backend breaker and its call histories, late and stale
  completions included.
- `LineFraming` and `SseParser` (in SseParser.dfy), `SseDialect`, `SseFrames`,
  `StreamRelay`: the incremental parser against a batch definition, what single lines
  mean, the printed frames, one whole attempt from the upstream socket to the
  client's, and the whole response.
- `Failover`, `FailoverWalk`, `Gateway`: how an attempt is judged, what the walk does
  between two suspensions, and the objects that do it.
- `GatewayProtocol`, `GatewayInvariant`, `GatewayTheorems`: any number of concurrent
  requests as a transition system over gate, limiters and breakers; its invariant; and
  what follows in every reachable state.
- `BreakerFates`: which completions of a run leave a breaker unanswered, and what
  becomes of a breaker that is never answered or never told the truth.
- `PrefixAffinity`, `AffinityKey`, `RoundRobin`: the routing policies. Hashes are
  uninterpreted, so every law holds for every assignment of scores.
- `MetricLabels`: escaping and label strings of the metrics exposition.
- `Sequences`, `Transducers`: vocabulary.

A `char` stands for one byte. Sockets are inputs: the upstream is a script of reads
with their error codes, the client may refuse any write. Health, the clock, timer
expiry and upstream outcomes are inputs too. A load threshold is an exact real.

Configuration bounds that the loader enforces appear as preconditions where a law
needs them: failure thresholds of at least 1 and load thresholds of at most 1.
`GatewayProtocol.Steady`, which a step asks for, holds in every reachable state
(`GatewayInvariant.EveryRunKeeps`), so it excludes no run. A walk accepts every order
a policy can return, also a wrapped round-robin order that repeats a backend
(`GatewayProtocol.Offers`, `AffinityRoutes`, `RoundRobinRoutes`).

## Where the code and its own description differ

The model follows the code.

- The breaker header promises a single half-open probe under concurrency. A late
  ordinary completion that arrives in HalfOpen breaks this; `LoneProbeIffNoStray`
  gives the exact condition and `LateCompletionAdmitsSecondProbe` a run.
- A client that dies after the SSE header leaves the breaker decision unanswered. The
  unanswered decisions of a gateway at rest are exactly those completions
  (`DecisionsAreAccountedFor`, `QuietGatewayOwesNothing`). A half-open breaker that no
  call under way can answer stays half-open, and its backend is never tried again
  (`ShutForGood`). Without stray completions that is the state of a backend exactly when
  a probe was lost so (`LostProbeShutsBackend`); `ProbeIsLost` is a run that gets there.
- A unary upstream that connects and then fails leaves status 0, which is reported as
  a success and answered 200. The breaker is told the truth if and only if the upstream
  did not go silent (`StreamRelay.AttemptUnary`); a backend that always goes silent keeps
  a breaker as new (`SilentBackendStaysTrusted`).
- The branch for a 2xx upstream that produced nothing is reached if and only if it did
  produce an event, the client refused the SSE header, and the budget had not run out on
  the read that completed that event (`StreamRelay.Attempt`).
- The writer does not split a payload at line feeds, so a payload with one, or one
  ending in CR, is not forwarded verbatim (`FrameRoundTrip`, `RelayRoundTrip`).
- A line ends at LF only, any field makes a blank line dispatch, and leading empty
  `data` lines leave no newline; sections 9.2.5 and 9.2.6 of the WHATWG HTML Living
  Standard say otherwise. `Batch` is the code's dialect.
- `flush` reports false after emitting an event when a lone CR ended it
  (`FlushReportIsExact`; `LoneReturnIsMisreported` has inputs).
- When every candidate is overloaded, all are counted as spills although none is
  passed over (`SpillsCountSkippedLeaders`; `EveryoneBusyCountsEveryone` has two).
- The sum `start + i` of round-robin wraps at 2^64 and can then repeat or miss a
  candidate (`PermutationIffNoWrap`; `WrapRepeatsOne` has three candidates). The retry
  can then go to the backend that has just failed (`WrapRetriesSameBackend`).

## Model

| member | source | states |
|---|---|---|
| AdmissionGate.GlobalGate.AcquireEnter | src/admission/controller.cpp:15-35 | the segment of acquire before the suspension: takes a slot if and only if one is free and nobody waits, is turned away if and only if it gets none and the queue is full, and otherwise stands last in the queue |
| AdmissionGate.GlobalGate.AcquireResume | src/admission/controller.cpp:42-58 | the segment after the suspension: admitted exactly if granted, whether or not the timer fired; otherwise it leaves the queue |
| AdmissionGate.GlobalGate.ReleaseSlot | src/admission/controller.cpp:61-75 | hands the slot to the oldest waiter and to nobody else, or frees it |
| AdmissionGate.ArrivalIsAnswered | src/admission/controller.cpp:15-35 | in every state a run can reach, an arrival is turned away if and only if all slots are taken and the queue is full; it gets a ticket while a slot is free and otherwise stands last in the queue |
| AdmissionGate.EveryRunKeeps | src/admission/controller.cpp:15-75 | along every run, expire-then-grant races included: in-flight is live tickets plus grants under way and within the ceiling; a queued waiter means no free slot; the queue is within its depth; service is arrival order minus those who gave up |
| AdmissionGate.ReachableIsSound | src/admission/controller.cpp:10-75 | the same for every state reachable from an idle gate |
| AdmissionGate.NoOvertaking | src/admission/controller.hpp:15-18 | whoever is served was served after every earlier arrival that did not give up |
| AdmissionGate.WaitersAdvance | src/admission/controller.cpp:61-75 | each release moves every waiter at least one place forward unless it is served or gives up |
| AdmissionGate.ServedWithinReleases | src/admission/controller.cpp:61-75 | a waiter at position k that does not give up is served within k + 1 releases |
| CircuitBreaker.Breaker.AllowRequest | src/health/circuit_breaker.cpp:17-34 | decision and new state of allow_request, with promotion to the probe |
| CircuitBreaker.Breaker.OnSuccess | src/health/circuit_breaker.cpp:36-44 | any success closes the breaker and clears the run |
| CircuitBreaker.Breaker.AbortProbe | src/health/circuit_breaker.cpp:46-55 | a probe abort re-arms Open and restarts the window, an ordinary one does nothing |
| CircuitBreaker.Breaker.OnFailure | src/health/circuit_breaker.cpp:57-74 | probe failures re-open, late failures in Open do not count, others trip at the threshold |
| CircuitBreaker.ProbesAreSpaced | src/health/circuit_breaker.cpp:17-74 | any two probe admissions of a run are an open window apart, whatever completions arrive |
| CircuitBreaker.OpenWindowIsRespected | src/health/circuit_breaker.cpp:22-28 | after an opening nobody is admitted before the window elapsed unless a success came between |
| CircuitBreaker.OpenedAtLastOpening | src/health/circuit_breaker.cpp:57-74 | the window of an open breaker counts from the last call that opened or re-armed it: late ordinary failures do not restart it |
| CircuitBreaker.WindowDecidesProbe | src/health/circuit_breaker.cpp:22-28 | with no success, probe or opening since the last opening, a request is admitted, as the probe, if and only if the window has elapsed |
| CircuitBreaker.LoneProbeIffNoStray | src/health/circuit_breaker.hpp:10-13 | HalfOpen means exactly one outstanding probe throughout a run if and only if no ordinary completion arrived in HalfOpen |
| CircuitBreaker.LateCompletionAdmitsSecondProbe | src/health/circuit_breaker.cpp:36-44 | a concrete run in which two probes are outstanding at once |
| CircuitBreaker.ClosedCountsTheRun | src/health/circuit_breaker.cpp:57-74 | a closed breaker has counted exactly the failures since the last success, and fewer than the threshold |
| CircuitBreaker.ClosedExactly | src/health/circuit_breaker.cpp:36-74 | a breaker is closed if and only if since the last success there were fewer failures than the threshold and no probe failed or was taken back |
| CircuitBreaker.TripLaw | src/health/circuit_breaker.hpp:3-6 | an ordinary completion opens a closed breaker exactly when it is the threshold-th failure without a success between |
| SseParser.Parser.FeedChunk | src/upstream/sse_parser.cpp:17-31 | the byte loop: state and emitted events of feeding a chunk |
| SseParser.Parser.ProcessLine | src/upstream/sse_parser.cpp:33-64 | the effect of one complete line |
| SseParser.Parser.DispatchEvent | src/upstream/sse_parser.cpp:66-77 | emits and clears the event under construction if any field was seen |
| SseParser.Parser.FlushTail | src/upstream/sse_parser.cpp:79-94 | state, events and return value of flush |
| SseParser.ChunkingIsInvisible | src/upstream/sse_parser.hpp:9-10 | however the bytes are cut into feeds, state and events are the same |
| LineFraming.BytesAreLines | src/upstream/sse_parser.cpp:17-31 | feeding bytes and ending the line is interpreting the lines of the whole, for any interpreter of lines |
| SseParser.JoinedData | src/upstream/sse_parser.cpp:55-59 | joining `data` values one by one is dropping the leading empty ones and joining the rest with LF |
| SseParser.LinesToBlocks | src/upstream/sse_parser.cpp:33-77 | interpreting lines one by one emits the events of the blocks between blank lines |
| SseParser.ParserIsBatch | src/upstream/sse_parser.cpp:17-94 | feeding any chunks and flushing emits exactly the batch interpretation of all the bytes |
| SseParser.FlushIsTwoLineFeeds | src/upstream/sse_parser.cpp:79-94 | flush has the effect of feeding two line feeds and returns the parser to its initial state, with at most one event |
| SseParser.FlushReportIsExact | src/upstream/sse_parser.cpp:81-93 | flush reports an emitted event correctly if and only if the pending bytes were not a lone CR ending an event |
| SseDialect.FieldAndValue | src/upstream/sse_parser.cpp:48-52 | the field is what stands before the first colon; the value is the rest, less exactly one space if there is one |
| SseDialect.DataIsItsValue | src/upstream/sse_parser.cpp:48-59 | a `data` line alone is one event with exactly its value, with or without the space after the colon, with LF or CRLF |
| SseDialect.DataLinesJoin | src/upstream/sse_parser.cpp:55-59 | two `data` lines are joined by a line feed unless the first is empty |
| SseDialect.NamedEvent | src/upstream/sse_parser.cpp:54-62 | an `event` line names the event its block emits |
| SseDialect.OtherFieldOnlyCounts | src/upstream/sse_parser.cpp:48-64 | any other field, even without a colon, makes the next blank line emit an event and adds nothing to it |
| SseDialect.CommentsAreInvisible | src/upstream/sse_parser.cpp:40-43 | a line that starts with a colon changes nothing, wherever it stands |
| SseDialect.SentinelIsRecognised | src/upstream/sse_parser.hpp:32-33 | the sentinel is recognised however its line is spelled, and nothing else is |
| SseFrames.LoneReturnIsMisreported | src/upstream/sse_parser.cpp:79-94 | after any `data` line followed by a lone CR, flush emits the event and reports that it did not |
| SseFrames.FrameRoundTrip | src/server/sse_writer.cpp:32-37 | a printed frame reads back as exactly its payload if and only if the payload has no LF and does not end in CR |
| SseFrames.LineFeedIsLost | src/server/sse_writer.cpp:32-37 | no event read back from a frame of a payload with LF is that payload: all are shorter |
| SseFrames.FrameEndsClean | src/server/sse_writer.cpp:32-37 | after any frame the client's parser is in its initial state |
| SseFrames.RelayRoundTrip | src/server/sse_writer.cpp:32-44 | a sequence of printed payloads reads back unchanged if and only if every one is printable |
| StreamRelay.SseWriter.Begin | src/server/sse_writer.cpp:23-30 | the header is written once |
| StreamRelay.SseWriter.WriteData | src/server/sse_writer.cpp:32-44 | one chunk carrying exactly the frame of the payload |
| StreamRelay.SseWriter.End | src/server/sse_writer.cpp:46-52 | the terminator is written once |
| StreamRelay.FrameSink.Accept | src/server/gateway.cpp:427-459 | the wire holds header and frames of everything offered, up to the write that failed; a dead client is never written to again |
| StreamRelay.FrameSink.Drain | src/upstream/client.cpp:149-162 | events are offered in order until the sink asks to stop; the sentinel is noticed |
| StreamRelay.ReadBody | src/upstream/client.cpp:164-186 | the read loop forwards the events of every byte received before the stream ended, or up to the event a dead client refused, and reports a timeout exactly if the read it ended on ran out of budget, dead client or not |
| StreamRelay.StreamBody | src/upstream/client.cpp:143-191 | with the final flush: forwarded is the batch interpretation of the body, or a prefix of it if the client died; the timeout flag in both cases |
| StreamRelay.StreamChat | src/upstream/client.cpp:91-209 | how the result flags follow from script and client: timed out by the last event offered, aborted iff in time without sentinel and with a live client, and nothing sent to a live client means a failure flag |
| StreamRelay.ConcludeEmpty | src/server/gateway.cpp:492-507 | the minimal stream after a refused header: head, [DONE] frame, terminator, up to the first refused write |
| StreamRelay.ConcludeStream | src/server/gateway.cpp:509-539 | after the forwarded events, the error event if any, then the terminator |
| StreamRelay.Conclude | src/server/gateway.cpp:464-539 | what is written once the read loop is over: the judgement, nothing before a retry, and for a client that refused nothing the exact items |
| StreamRelay.Attempt | src/server/gateway.cpp:411-539 | one attempt, over upstream and client: its verdict (unanswered if and only if the client took the header and refused a later event; a success if and only if the stream carried its sentinel in time to a client that took all of it, or the client refused the header in time), the exact transcript of a client that refused no write of it, when the header goes out, and one well-formed response at most for any client |
| StreamRelay.PostChat | src/upstream/client.cpp:211-239 | how far a non-streaming call got: unreachable, silent after connecting, or answered |
| StreamRelay.AttemptUnary | src/server/gateway.cpp:377-409 | the response and judgement of a non-streaming attempt from its upstream: the verdict is right if and only if the upstream did not go silent, which is answered 200 |
| StreamRelay.Respond | src/server/gateway.cpp:340-548 | over all dispatches of a request, whatever upstreams and client do, everything written is one well-formed response; for a client that refused nothing it is the transcript of the first dispatch that sends anything, or a 503 |
| StreamRelay.NoSilentTruncation | src/server/gateway.cpp:516-530 | for every script, chunking and failure point, the client's parser recovers all events of all received bytes in order, then a terminal error unless the stream carried [DONE] in time, if and only if the payloads are printable; the terminator is last |
| Gateway.Limiter.TryAcquire | src/admission/controller.hpp:39-48 | takes a slot exactly when below the cap, however often the weak exchange fails |
| Gateway.Limiter.Release | src/admission/controller.hpp:50-50 | gives one slot back |
| Gateway.Gateway.BackendsForModel | src/server/gateway.cpp:82-93 | exactly the backends serving the model, in configuration order |
| Gateway.Gateway.WalkFrom | src/server/gateway.cpp:340-371 | the loop computes the walk: breakers asked, capacity skips aborted, first free backend dispatched |
| FailoverWalk.WalkEffect | src/server/gateway.cpp:356-371 | a walk opens one breaker decision and takes one slot, at the backend it dispatches to, which had room; everything it skips keeps its decisions and slots |
| FailoverWalk.WalkFindsFirstTaker | src/server/gateway.cpp:340-371 | a walk dispatches to the first backend from its position on that allows the request and has room, with its probe flag; it gives up if and only if there is none |
| FailoverWalk.AbortEffect | src/server/gateway.cpp:363-369 | a capacity skip takes back exactly the decision it was given |
| FailoverWalk.WalkAnswersNobody | src/server/gateway.cpp:364-368 | a walk tells no breaker of a success or a failure |
| GatewayInvariant.StepKeeps | src/server/gateway.cpp:157-548 | every atomic step of every request keeps the books of gate, limiters, breakers and handler count |
| GatewayInvariant.EveryRunKeeps | src/server/gateway.cpp:157-548 | so does every run, and any enabled step can follow |
| GatewayTheorems.SlotConservation | src/server/gateway.cpp:277-371 | in every interleaving: sum of active counts at most gate in-flight at most the ceiling; each active count is the requests dispatched there and within its cap; in-flight is ticket holders plus grants under way |
| GatewayTheorems.NoLostWakeup | src/admission/controller.cpp:20-58 | in every reachable state nobody waits while a slot is free, and the queue is within its depth |
| GatewayTheorems.Reception | src/server/gateway.cpp:263-286 | an arriving request is told 404 if nobody serves the model, gets a ticket while the gate has a slot, waits last in line while the queue has room, and is told 429 if and only if both are full |
| GatewayTheorems.Resumption | src/admission/controller.cpp:42-58 | a queued request that resumes is admitted if and only if it was served, and otherwise told 429 after its timer fired |
| GatewayTheorems.DrainNeverRises | src/server/gateway.cpp:162-184 | once draining, the handler count never rises |
| GatewayTheorems.DrainedIsIdle | src/main.cpp:120-126 | when the handler count reads zero the gate has no holders, waiters or pending grants and every limiter is at zero |
| GatewayTheorems.WalkDiscipline | src/server/gateway.cpp:297-548 | at most two dispatches, to healthy backends serving the model, distinct unless the order repeats one; a second only after the first was reported failed with nothing sent; at most one response head, exactly one for a client that refused no write: JSON only if no attempt sent anything, an event stream only if the last one did |
| GatewayTheorems.FirstDispatch | src/server/gateway.cpp:297-371 | an admitted request goes to the first backend of its order that takes it, or is told 503 if none does |
| GatewayTheorems.FailoverLaw | src/server/gateway.cpp:379-490 | a first attempt that failed with nothing sent is followed by one at the first later backend that takes the request; with no later position the client is told of the failure, with none willing 503; every other attempt is the last |
| BreakerFates.DecisionsAreAccountedFor | src/server/gateway.cpp:357-539 | completions answer admissions one to one with the same probe flag; the unanswered are as many as calls under way plus completions of the run whose client was dead after the SSE header |
| BreakerFates.QuietGatewayOwesNothing | src/server/gateway.cpp:512-515 | with no call under way at a backend, its breaker is owed nothing if and only if no completion there lost its client after the SSE header |
| BreakerFates.ShutForGood | src/health/circuit_breaker.cpp:17-34 | a half-open breaker with no call under way at its backend stays half-open in every continuation, and the backend is never dispatched to again |
| BreakerFates.LostProbeShutsBackend | src/server/gateway.cpp:512-515 | without stray completions and with no call under way, a backend is shut for good if and only if a probe of the run lost its client after the SSE header |
| BreakerFates.ProbeIsLost | src/server/gateway.cpp:512-515 | a concrete run after which all requests are done and the backend is shut |
| BreakerFates.SilentBackendStaysTrusted | src/upstream/client.cpp:235-238 | if every completion at a backend is a silent non-streaming upstream, its breaker is in its initial state in every run and admits the next request |
| GatewayTheorems.VerdictsAreReportedOnce | src/server/gateway.cpp:379-539 | a breaker hears of a failure or success once per attempt at its backend, first or second, that ended so, and never else |
| GatewayTheorems.GatewaySpacesProbes | src/health/circuit_breaker.cpp:22-28 | however requests interleave, a backend's probes are an open window apart |
| GatewayTheorems.GatewayRunsTheGate | src/server/gateway.cpp:277-287 | every run of the gateway is, at the gate, a legal run of the gate |
| GatewayTheorems.QueuedRequestIsServed | src/admission/controller.cpp:61-75 | a request waiting at position k has its slot once k + 1 tickets were given back, unless it timed out |
| GatewayTheorems.AffinityRoutes | src/server/gateway.cpp:95-116 | prefix affinity hands the walk each eligible backend exactly once |
| GatewayTheorems.RoundRobinRoutes | src/server/gateway.cpp:117-121 | so does round-robin, if and only if its counter does not wrap inside the order or the candidate count divides 2^64; wrapped or not, it hands over eligible backends only |
| GatewayTheorems.WrapRetriesSameBackend | src/routing/round_robin.cpp:12-17 | a concrete run in which a wrapped order makes the retry go to the backend that has just failed |
| PrefixAffinity.HrwRank | src/routing/prefix_affinity.cpp:87-120 | scoring, sorting with the comparator and projecting yields the reference ranking |
| PrefixAffinity.RankRanks | src/routing/prefix_affinity.cpp:108-113 | the ranking is sorted by score, then id, and is a permutation |
| PrefixAffinity.RankIgnoresInputOrder | src/routing/prefix_affinity.cpp:87-120 | the ranking does not depend on the order of the candidates |
| PrefixAffinity.RestrictionLaw | src/routing/prefix_affinity.hpp:15-16 | ranking a reduced pool is the full ranking with the dropped backends left out |
| PrefixAffinity.SkipLeaders | src/routing/prefix_affinity.cpp:149-159 | the cascade stops at the first leader below the threshold, one spill per leader before it |
| PrefixAffinity.OrderCandidates | src/routing/prefix_affinity.cpp:122-180 | the loops compute the guarded order and the spill count |
| PrefixAffinity.OrderIsPermutation | src/routing/prefix_affinity.hpp:52-55 | the order is a permutation of the candidates and its tail keeps the ranking |
| PrefixAffinity.HeadIsBest | src/routing/prefix_affinity.cpp:145-167 | the head is the best candidate below the threshold, or the best of all if none is |
| PrefixAffinity.GuardLaw | src/routing/prefix_affinity.cpp:145-167 | over the candidates' own scores, loads and caps: everyone ranked ahead of the head is at or above the threshold; the head is below it, unless everyone is at or above it and the head is the best of all |
| PrefixAffinity.TailIsRanked | src/routing/prefix_affinity.cpp:169-178 | behind the head the order goes from the highest score to the lowest, ties by id |
| PrefixAffinity.SpillsCountSkippedLeaders | src/routing/prefix_affinity.cpp:145-161 | spills are the candidates ranked ahead of the head, or all of them if all are overloaded |
| PrefixAffinity.EveryoneBusyCountsEveryone | src/routing/prefix_affinity.cpp:145-167 | two overloaded candidates count as two spills with nobody ranked ahead of the head |
| PrefixAffinity.RemovalKeepsHead | src/routing/prefix_affinity.hpp:15-19 | removing any backend but the head keeps the head, load guard included |
| PrefixAffinity.AdditionMovesOnlyToNewcomer | src/routing/prefix_affinity.hpp:15-19 | adding a backend keeps the head or makes the newcomer the head |
| PrefixAffinity.FullHeadMeansAllOverloaded | src/routing/prefix_affinity.cpp:149-167 | a head at capacity means every candidate is at or above the threshold |
| AffinityKey.CanonicalAffinityString | src/routing/prefix_affinity.cpp:16-45 | the capped loop returns exactly the first `prefixBytes` bytes of the whole rendering, or all of it |
| AffinityKey.KeyTellsModels | src/routing/prefix_affinity.cpp:16-45 | requests for different models never share a key once the budget reaches past both names |
| AffinityKey.KeyTellsMessages | src/routing/prefix_affinity.cpp:16-45 | conversations that part at a byte within the budget have different keys |
| AffinityKey.LongConversationStays | src/routing/prefix_affinity.hpp:11-16 | messages appended past the budget never change the route |
| AffinityKey.ConversationSurvivesChurn | src/routing/prefix_affinity.hpp:11-19 | a conversation that fills the budget keeps its backend as it grows and while other backends leave |
| RoundRobin.Policy.Order | src/routing/round_robin.cpp:5-19 | the loop returns the rotation at the cursor, which advances by one modulo 2^64 unless there is no candidate |
| RoundRobin.PermutationIffNoWrap | src/routing/round_robin.cpp:12-17 | the order is a permutation if and only if the rotation does not pass the end of the counter or the count divides 2^64 |
| RoundRobin.WrapRepeatsOne | src/routing/round_robin.cpp:12-17 | three candidates with the cursor at its last value: one listed twice, one left out |
| RoundRobin.EveryRoundServesAll | src/routing/round_robin.cpp:5-19 | any n consecutive calls head each of n candidates exactly once |
| RoundRobin.Fairness | src/routing/round_robin.hpp:3-5 | over any number of calls before the cursor wraps, head counts differ by at most one |
| MetricLabels.Esc | src/metrics/registry.cpp:31-50 | the loop computes the escaping |
| MetricLabels.LabelStr | src/metrics/registry.cpp:100-111 | the label string of a label set |
| MetricLabels.EscapeIsReadBack | src/metrics/registry.cpp:31-50 | escaping can be undone for every string, whatever follows the closing quote |
| MetricLabels.LabelStringsAreInjective | src/metrics/registry.cpp:100-111 | two label sets have the same label string if and only if route, backend and model agree |
| MetricLabels.LabelsAreReadBack | src/metrics/registry.cpp:100-111 | a label string reads back, name by name, as the labels it was made of |
| MetricLabels.LabelStringIsOneLine | src/metrics/registry.cpp:31-50 | a label string never contains a line feed |

## Left out

- Gateway.Gateway.WalkFrom: one clock reading serves all breaker calls of one atomic step; the code reads the clock at each call.
- GatewayProtocol: a streaming attempt is one step with its final flags; `StreamRelay` proves what happens inside it and that the flags are feasible.
- StreamRelay.FrameSink.Accept: latency observations are not modelled.
- Sockets, DNS, HTTP parsing and chunk encoding are library code and appear as scripts of reads and refusable writes.
- XXH64 is uninterpreted, so nothing is said about how evenly keys spread.
- The library sort behind the ranking is written as an insertion by the same comparator.
- JSON: request parsing and its 400 replies, error wrapping, usage injection and flattening of structured content.
- StreamRelay.PostChat: what can go wrong after connecting (the write, the read, the budget) is one case, because the result is the same.
- Moves of tickets and slots: the gateway never moves one, so only taking and releasing is modelled.
- Health probing: health is an input that may change between any two steps.
- Configuration loading, histograms and number formatting, logging, listeners, signals, the load generator and the mock servers.
- The model list endpoint, the health endpoint, and the breaker's observer `state()`.
