# Verified model of the pricing optimizer's generation pipeline

This project models, in Dafny, what happens between `POST /v1/generate` and the exports of
what it produced, and proves what the service promises about it. `dafny verify dfyconfig.toml`
checks everything.

## What is modelled

**The fan-out** (`Fanout`, `FanoutProofs`, `FanoutTheorems`, `FanoutEvents`, `FanoutOutcome`).
One request starts a coordinator, one goroutine and one provider goroutine per strategy, and a consumer of
an unbuffered channel. They are a transition system: a step is one atomic action of one of
them, a run is any interleaving, the number of strategies is arbitrary, cancellation may come
between any two steps, and a `select` that could both deliver and give up may do either. The
providers are also modelled as the code writes them, as loops over the upstream stream
(`Providers`), and the transition system's producers are proved to keep the same contract.

**The idempotency protocol** (`IdempotencyStore`, `Sessions`, `SessionProofs`,
`SessionTheorems`, `SessionProgress`, `Reservations`, `Retries`, `StuckKeys`). Any number of
requests bearing one key run concurrently, each composed with its own fan-out, over one Redis key
and the generations table (`Repository`). Store and repository calls may fail, with or without
having taken effect, and the key may expire at any moment. `Handlers` is the code of one request
over mutable stores, method by method. Its decision and what it leaves under the key are proved
to be those of the concurrent model's moves.

**Replay** (`ApiMapping`, `ReplayTheorems`) and **the implicit key** (`ContentKey`). What a
second client sees is tied back to the run the first client saw.

**The rate limiter** (`RateLimiter`): the Lua script as a step on one key, over any sequence of
calls, and the two roundings on the way to `Retry-After`. Whether a key is gone in the
millisecond of its deadline or, as in Redis, in the one after it, is a parameter (`Expiry`), and
everything is proved for both.

**The printers** (`Binary64`, `Decimals`, `PriceFormat`, `JsonString`, `Json`, `FrameJson`, `Jsx`,
`Sse`, `Stripe`). Each has a reader, and the reader is proved to undo it. The price printer goes
through binary64 arithmetic, which is modelled with its rounding. `Wire` puts mapper, JSON and
framing together: from the events of a run to bytes, and from the bytes to what a client learns.

## Assumptions

- The upstream SDK stream is a finite list of items followed by an optional error; once the
  context is done it may end early with any error. `json.Unmarshal` of a tool call is an
  arbitrary partial function, `unmarshal`.
- Generation ids are distinct and none equals the sentinel `pending`; variation ids are given
  with the upstream. SHA-256 over the JSON encoding is injective.
- Redis commands, the Lua script and the upsert are atomic; times are milliseconds of one clock.
  The limiter's counters expire by either convention; an idempotency key may expire at any
  moment, so its convention does not matter.
- A time is written in JSON by an arbitrary function that some other function undoes.
- A repository or store call either reports success after taking effect, or reports an error
  after taking effect or not.
- A Dafny character is a Unicode scalar value. Strings compare by code point, which is Go's
  order of UTF-8 bytes.
- Go's `int` is 64 bits wide; the model's amounts and times are unbounded, and no statement
  needs more of them than that they are the values the code holds.

## Where the code and its comments part

- `Execute`'s comment (internal/usecase/generate_variations.go:45-50) says a cancelled run is
  always saved as failed, never left `streaming` and never marked completed. Of the cancelled
  runs that are over, exactly those are saved as failed whose `generation_started` had been
  received, whose terminal save took effect, and that were cancelled before the outcome was
  decided or had a strategy fail anyway. Without one of the first two the record stays
  `streaming` (`FanoutTheorems.LeftStreaming` is such a run); with both, and cancelled only
  between the decision and the end, it is completed, with all its variations
  (`FanoutOutcome.LateCancelIsStoredCompleted`). The whole statement is
  `FanoutTheorems.CanceledRunIsSavedAsFailed`.
- `Release`'s comment (internal/adapter/cache/redis_idempotency_store.go:69-77) says nobody else
  can have taken the key over. Over all runs of two requests or more with at most so many
  fail-opens and expiries, that holds if and only if there are none of either
  (`Reservations.ReleasePromiseIsExact`).
- `resolveIdempotencyConflict`'s comment (internal/adapter/httpapi/idempotency.go:60-66) says 409
  means that a generation is genuinely in progress. When the request that wrote the key has been
  answered and its run, if it started one, is over, 409 is still the answer in exactly two cases
  (`StuckKeys.WrongConflictIsExact`): its Release call failed and left the sentinel
  (`StuckKeys.LeftReservedRefuses` is such a run), or its terminal save never took effect and
  left the record `streaming` (`StuckKeys.StuckExactly`; `StuckKeys.StuckKeyRefuses` is such a
  run). The second shows as soon as the run is over, before the request is answered
  (`StuckKeys.ConflictExactlyWhenStuck`). Neither happens without a failing store or repository
  call (`StuckKeys.NoFaultNoWrongConflict`).
- The limiter's window is truncated to milliseconds while the configuration only asks for a
  positive duration; below a millisecond nothing is limited (`RateLimiter.LimitsIffWholeMillisecond`).
- The burst of twice the limit that the limiter's comment allows (lines 38-48) needs one
  millisecond more than a counter lives (`RateLimiter.TwiceTheLimitIsReached`); within a
  counter's life at most 2 * limit - 1 calls are admitted (`RateLimiter.AnyWindowSpan`). If a key
  is gone at its deadline, that is the difference between counting one or both end points of a
  window; if it is gone a millisecond later, as in Redis, a window with both end points already
  stays below twice the limit. A denial in the very millisecond of the deadline then reports a
  remaining time of 0, and the next call is admitted one millisecond after the reported time
  (`RateLimiter.NeverLockedOut`).
- `formatPrice` prints every amount exactly up to 100 * 2^46 minor units, and one past that it
  prints a different amount (`PriceFormat.AmountsPrintExactlyBelow`).
- `jsxString`'s comment says `json.Marshal` fails on invalid UTF-8; Go replaces the bytes. The
  fallback is unreachable either way, and the model has no such strings.
- `renderJSX`'s comment says escaping neutralizes curly braces. They are not escaped; they are
  harmless because a literal cannot be closed early (`JsonString.LiteralRoundTrip`).

## Model

| member | source | states |
|---|---|---|
| `Domain.ValidateInput` | internal/domain/generate_variations_input.go:29-48 | the loop with its `seen` set accepts exactly the inputs with a URL and 1 to 3 known strategies without duplicates |
| `Domain.TierError` | internal/domain/variation.go:48-65 | no violation exactly when the tier is named and has a custom label or a currency, a known interval and a non-negative amount |
| `Domain.VariationError` | internal/domain/variation.go:29-46 | no violation exactly when strategy, headline, 1 to 5 tiers and every tier are valid |
| `Providers.ToDomainVariation` | internal/adapter/llm/schema.go:116-142 | the filled slice holds every tier of the tool call in order, under the id and strategy that were asked for |
| `Providers.Decode` | internal/adapter/llm/schema.go:147-157 | whatever is accepted is valid and carries the requested id and strategy |
| `Providers.DecodeIsExact` | internal/adapter/llm/schema.go:116-157 | a tool call is accepted if and only if the strategy is known, the text unmarshals, there is a headline, 1 to 5 tiers, each named and with a label or a currency, a known interval and an amount of 0 or more; the whole tool call can be read back from what is accepted |
| `Providers.SendChunk` | internal/adapter/llm/stream.go:14-21 | a send gives up only when the context is done, may still deliver then, and otherwise appends exactly the chunk |
| `Providers.ToolCallDeltas` | internal/adapter/llm/groq.go:141-152 | exactly the non-empty argument fragments of the first choice, in order |
| `Providers.GroqChunkAdds` | internal/adapter/llm/groq.go:141-152 | a further chunk adds the non-empty fragments of its first choice, one without a choice nothing |
| `Providers.GroqDeltasHaveNoEmptyPart` | internal/adapter/llm/groq.go:145-151 | no empty token is ever relayed |
| `Providers.RelayDeltas` | internal/adapter/llm/groq.go:84-89 | what was accumulated and what was sent stay the same text, also when the send gives up half way |
| `Providers.FinishStream` | internal/adapter/llm/groq.go:92-102 | after the loop: one terminal chunk, an error or the decoded variation, unless the context is done |
| `Providers.StreamGroq` | internal/adapter/llm/groq.go:79-103 | the channel ends closed; without cancellation exactly the deltas and one terminal chunk were sent; with it, a prefix; a completed variation is what the sent tokens decode to |
| `Providers.AnthropicDeltasHaveNoEmptyPart` | internal/adapter/llm/anthropic.go:80-83 | no empty token is ever relayed |
| `Providers.AnthropicEventAdds` | internal/adapter/llm/anthropic.go:139-144 | a further event adds its JSON fragment if it is a content block delta and has one, else nothing |
| `Providers.StreamAnthropic` | internal/adapter/llm/anthropic.go:75-101 | the same contract for the second provider |
| `Providers.UndisturbedEndsRightly` | internal/adapter/llm/groq.go:79-103 | an undisturbed stream sends every delta and ends in the error of the upstream, or in the variation its text spells if that is acceptable, or in an invalid-response error if it is not |
| `FanoutProofs.StepInv` | internal/usecase/generate_variations.go:77-212 | every step of coordinator, strategy, provider, consumer or cancellation keeps the invariant |
| `FanoutProofs.RunInv` | internal/usecase/generate_variations.go:77-212 | so every interleaving does |
| `FanoutTheorems.CompletedIsFaithful` | internal/usecase/generate_variations.go:96-141 | a record written as completed holds, for each i, the valid variation that strategy i's provider ended with, whatever the finish order, and every event about it was delivered |
| `FanoutTheorems.DecisionIsExact` | internal/usecase/generate_variations.go:125-141 | completed if and only if not cancelled and every strategy succeeded; otherwise failed, with no variations and with an error |
| `FanoutTheorems.EventOrder` | internal/usecase/generate_variations.go:82-212 | generation_started, then a shuffle of per-strategy sequences of the promised shape, then at most one aggregate event, which is last |
| `FanoutEvents.FirstEvent` | internal/usecase/generate_variations.go:91-94 | the first event is generation_started with the streaming record and nothing else |
| `FanoutEvents.StrategyEventsSayTheChunks` | internal/usecase/generate_variations.go:177-211 | a strategy's k-th event says that it started, and then, field by field, what its provider's chunks said, or why it could not be opened |
| `FanoutEvents.LastEvent` | internal/usecase/generate_variations.go:147-162 | a run that was not cancelled ends in done, with the stored record, if and only if every strategy succeeded and the terminal save reported success; in an error with the failed record and the recorded cause if a strategy failed; in an error with no generation if the save errored |
| `FanoutEvents.AggregateEventSaysOutcome` | internal/usecase/generate_variations.go:147-162 | cancelled or not, an event about the whole generation after the first is the last one and says how it was decided and saved |
| `FanoutEvents.RecordedErrorIsACause` | internal/usecase/generate_variations.go:102-111 | in every run the recorded error names a strategy that failed and what it failed with |
| `FanoutEvents.FirstErrorStays` | internal/usecase/generate_variations.go:102-111 | and no later failure replaces it |
| `FanoutTheorems.DoneIsEarned` | internal/usecase/generate_variations.go:147-162 | done comes only after the completed save, carries that record, and every strategy's sequence has ended in its variation_completed |
| `FanoutTheorems.TokensDecodeToVariation` | internal/usecase/generate_variations.go:192-211 | the token text a client has received for a strategy is exactly the JSON that decoded to the variation it then receives |
| `FanoutTheorems.RecordLifecycle` | internal/usecase/generate_variations.go:58-162 | over every run what was stored is exactly the streaming record and then, if and only if a terminal save took effect, the record decided on; identity, source, profile and creation time never change; one decision and one save attempt if and only if generation_started was delivered |
| `FanoutTheorems.CanceledRunIsSavedAsFailed` | internal/usecase/generate_variations.go:91-162 | for every cancelled run that is over, exactly when it is stored as failed, as streaming and as completed |
| `FanoutTheorems.LeftStreaming` | internal/usecase/generate_variations.go:91-94 | every request has a run that ends with its record still streaming |
| `FanoutTheorems.ReturnedIsStable` | internal/usecase/generate_variations.go:80-163 | after the coordinator returns, no step changes what was stored or delivered |
| `FanoutTheorems.NoSendAfterClose` | internal/usecase/generate_variations.go:80-123 | the channel is closed at most once, and then nobody is sending or ever will |
| `FanoutTheorems.NoDeadlock` | internal/usecase/generate_variations.go:82-123 | while anything is unfinished some goroutine can move: with the context done by itself, nobody receiving; otherwise once the client is back to receive |
| `FanoutTheorems.WorkDrops` | internal/usecase/generate_variations.go:165-212 | every step, of any party, strictly lowers a measure of the deltas and program counters left |
| `FanoutTheorems.RunsAreBounded` | internal/usecase/generate_variations.go:77-163 | every run has at most as many steps as the measure had at the start |
| `FanoutTheorems.RunsToCompletion` | internal/usecase/generate_variations.go:77-163 | from every reachable state the run can be completed, channel closed once and every goroutine finished; with the context done, by the goroutines' own steps only |
| `FanoutOutcome.ProducersKeepTheContract` | internal/adapter/llm/groq.go:79-103 | in every interleaving a provider goroutine that has closed its channel has met the contract `StreamGroq` and `StreamAnthropic` are proved against |
| `FanoutOutcome.CutOffersItsEnd` | internal/adapter/llm/groq.go:84-102 | once the context is done a read may end the stream early, and the provider then offers that very error, or what the text so far spells |
| `FanoutOutcome.OutcomeIsDetermined` | internal/usecase/generate_variations.go:115-141 | without cancellation the decided record is the one the upstreams determine strategy by strategy |
| `FanoutOutcome.OutcomeIgnoresScheduling` | internal/usecase/generate_variations.go:115-141 | two runs of one request, scheduled in any two ways, decide on the same record |
| `FanoutOutcome.CompletedExactlyWhen` | internal/usecase/generate_variations.go:115-141 | without cancellation a generation is completed if and only if every strategy's input is accepted and its upstream ends without error in an acceptable tool call; the variations are then those tool calls, in requested order |
| `FanoutOutcome.LateCancelIsStoredCompleted` | internal/usecase/generate_variations.go:130-162 | whenever every upstream would succeed, some run is cancelled after its decision, over, and stored as completed |
| `Repository.RowAfterSaves` | internal/adapter/repository/sqlcgen/generations.sql.go:34-42 | after any interleaved saves a row holds its last write with the creation time of its first |
| `Repository.UnwrittenIsUntouched` | internal/adapter/repository/sqlcgen/generations.sql.go:34-42 | saves of other generations leave a row, or its absence, alone |
| `Repository.GenerationRepo.Save` | internal/adapter/repository/postgres.go:35-61 | the row is upserted, or not if the call never reached the table; no other row changes |
| `Repository.GenerationRepo.Get` | internal/adapter/repository/postgres.go:64-83 | the row; not-found exactly when a read that works finds none; another error when it does not work |
| `IdempotencyStore.RedisIdempotencyStore.Reserve` | internal/adapter/cache/redis_idempotency_store.go:61-67 | a dead or absent key is claimed with the sentinel for a full TTL from now and the caller told; a live one is left as it is; other keys are untouched |
| `IdempotencyStore.RedisIdempotencyStore.Release` | internal/adapter/cache/redis_idempotency_store.go:78-83 | the key is gone whoever wrote it, unless the call never arrived |
| `IdempotencyStore.RedisIdempotencyStore.Save` | internal/adapter/cache/redis_idempotency_store.go:88-93 | the key holds the id for a full TTL from now |
| `IdempotencyStore.RedisIdempotencyStore.Get` | internal/adapter/cache/redis_idempotency_store.go:98-110 | not-found, still-pending, or the id, as the live value says |
| `SessionProofs.FirstEventNamesGeneration` | internal/adapter/httpapi/generate.go:250-255 | the first event a handler receives always carries its generation's id, so the nil-id case of the mapping never arises |
| `SessionProofs.RunInv` | internal/adapter/httpapi/idempotency.go:40-95 | every interleaving of requests, fan-outs, faults and expiry keeps the protocol invariant |
| `SessionTheorems.ReservationIsResolved` | internal/adapter/httpapi/generate.go:210-265 | once a request has ended, by any path, the key does not hold its pending sentinel unless its own Release call errored |
| `SessionTheorems.MappingProvenance` | internal/adapter/httpapi/generate.go:372-384 | an id under the key names a stored generation whose run delivered generation_started to a request bearing the key |
| `SessionTheorems.GrantsAreCharged` | internal/adapter/httpapi/idempotency.go:45-94 | requests let through are exactly the reported wins plus the fail-open branches taken |
| `SessionTheorems.Conservation` | internal/adapter/cache/redis_idempotency_store.go:61-93 | keys created equal keys removed plus the one present; wins exceed removals by at most one; every Execute is paid for |
| `SessionTheorems.AtMostOneExecute` | internal/adapter/httpapi/idempotency.go:40-95 | with no fault, removal or failed generation, at most one of any number of requests executes; every other answer is 409 or a replay of that one |
| `Retries.MappingIsKept` | internal/adapter/httpapi/generate.go:372-384 | in every run without fail-open and expiry, whatever other call fails, a saved mapping stays under the key |
| `Retries.RetryFollowsRecord` | internal/adapter/httpapi/idempotency.go:67-95 | and the next request with the key is then replayed a completed record, let through after a failed one, refused during one that is not over |
| `Retries.RetryGetsWhatWasServed` | internal/adapter/httpapi/idempotency.go:40-95 | so once a client was sent done, the next request with its key is answered with that very generation and executes nothing |
| `SessionProgress.MoveDropsWork` | internal/adapter/httpapi/generate.go:76-88 | every move of a request, its fan-out's steps included, strictly lowers the work it has left |
| `SessionProgress.ProtocolRunsAreBounded` | internal/adapter/httpapi/generate.go:76-88 | every run of any number of requests, faults and expiry included, has at most twice as many steps as the requests had work at the start |
| `SessionProgress.EveryRequestCanBeAnswered` | internal/adapter/httpapi/generate.go:76-88 | in every reachable world every request can be answered by its own steps alone, none of them failing and the client staying |
| `SessionProgress.AnsweredRequestsDrain` | internal/adapter/httpapi/generate.go:239-264 | once a request is answered and its context done, its goroutines finish by themselves |
| `Reservations.ReservationsAreOwned` | internal/adapter/cache/redis_idempotency_store.go:69-83 | in every run without fail-open and expiry, everyone who may yet call Release wrote what the key holds |
| `Reservations.OneHolder` | internal/adapter/cache/redis_idempotency_store.go:54-67 | and there is at most one such request |
| `Reservations.ReleasePromiseIsExact` | internal/adapter/cache/redis_idempotency_store.go:69-83 | over all runs with at most so many fail-opens and expiries, a DEL only removes what its own request wrote if and only if there is one request only, or none of either |
| `Reservations.ReleaseStealsReservation` | internal/adapter/cache/redis_idempotency_store.go:69-83 | one fail-open is enough for a third request to win the key while the first winner is still on its way to Execute |
| `StuckKeys.ConflictExactlyWhenStuck` | internal/adapter/httpapi/idempotency.go:67-94 | in every run, once the run a key names is over, a request that finds the key taken is answered 409 if and only if the record is still streaming |
| `StuckKeys.WrongConflictIsExact` | internal/adapter/httpapi/idempotency.go:67-94 | in every run, when whoever wrote the key is over, a request that lost Reserve is answered 409 if and only if the key was left reserved by a failing Release or is stuck on a streaming record |
| `StuckKeys.NoFaultNoWrongConflict` | internal/adapter/httpapi/idempotency.go:67-94 | so never without a failing store or repository call |
| `StuckKeys.LeftReservedRefuses` | internal/adapter/httpapi/idempotency.go:67-72 | Execute refuses the winner, its Release is lost, and a request that comes after it is over is answered 409 |
| `StuckKeys.StuckExactly` | internal/usecase/generate_variations.go:147-154 | and that is so if and only if the terminal save never took effect |
| `StuckKeys.NoFaultNoStuckKey` | internal/usecase/generate_variations.go:143-154 | never without a failing store or repository call |
| `StuckKeys.StuckIsReached` | internal/usecase/generate_variations.go:143-154 | every acceptable request has a run, client gone and terminal save failing, that ends so |
| `StuckKeys.StuckKeyRefuses` | internal/adapter/httpapi/idempotency.go:67-94 | which goes on to answer the next request 409 |
| `StuckKeys.StuckStays` | internal/adapter/httpapi/idempotency.go:67-94 | only expiry, a Release or another mapping ends that |
| `Handlers.CheckRateLimit` | internal/adapter/httpapi/ratelimit.go:35-63 | proceeds with no limiter, a failing one, or room left; a denial is 429 with the least whole seconds covering the time left |
| `Handlers.ResolveIsLookupThenLoad` | internal/adapter/httpapi/idempotency.go:67-95 | the handler's decision is what the concurrent model's lookup and load steps come to |
| `Handlers.DecisionTable` | internal/adapter/httpapi/idempotency.go:40-95 | exactly when a request is refused, replayed and let through: no failing call and no failed or missing prior generation turns one away, and only a completed one is replayed |
| `Handlers.DecideIsReserveMove` | internal/adapter/httpapi/idempotency.go:40-58 | the handler's Reserve call and its outcome are the concurrent model's first move of a request |
| `Handlers.KeyAfterStreamIsSaveThenRelease` | internal/adapter/httpapi/generate.go:233-255 | the key `StreamSSE` leaves is the one the concurrent model leaves by saving the mapping and, unless that was saved, releasing |
| `Handlers.KeyAfterNothingIsRelease` | internal/adapter/httpapi/generate.go:80-84 | and with no event, or Execute refused, by the release alone |
| `Handlers.CheckIdempotency` | internal/adapter/httpapi/idempotency.go:40-95 | decision, response and key for every fault and every state of key and record |
| `Handlers.ReleaseReservation` | internal/adapter/httpapi/generate.go:349-359 | the key is freed unless the call never arrived; an empty key touches nothing |
| `Handlers.SaveMapping` | internal/adapter/httpapi/generate.go:372-384 | false exactly when a save was attempted and failed; nothing is saved for an empty key or a missing id |
| `Handlers.StreamSSE` | internal/adapter/httpapi/generate.go:210-265 | frames are those of the events in order, all of them unless a write failed; header, status and key afterwards for every fault |
| `Handlers.ReservationOutlivesStream` | internal/adapter/httpapi/generate.go:224-265 | exactly when a pending reservation is still there after the stream |
| `Handlers.FirstFrameHasId` | internal/usecase/generate_variations.go:91-94 | whatever a handler received of any run, its first frame has the generation's id |
| `Handlers.ImplicitKeysSeparate` | internal/adapter/httpapi/generate.go:61-75 | requests without a key of their own share one exactly when they ask for the same thing |
| `Handlers.RequestKeyCases` | internal/adapter/httpapi/generate.go:61-75 | the client's own key is used as it is; an empty one counts as none; without a store there is no key |
| `Handlers.GenerateVariations` | internal/adapter/httpapi/generate.go:76-88 | response and key of a whole request, for every decision, outcome of Execute and fault |
| `Handlers.Execute` | internal/usecase/generate_variations.go:51-72 | accepts exactly the valid inputs whose first save reports success, and then has stored the streaming record of the site, profile and time asked for |
| `Handlers.ExecutePrepares` | internal/usecase/generate_variations.go:58-72 | and that record meets what the fan-out's theorems assume |
| `Handlers.ServeGenerate` | internal/adapter/httpapi/generate.go:47-88 | rate limit, defaults, key and the rest in one: a denied request leaves the store alone; an admitted one is answered for the key its decoded body and header give |
| `ApiMapping.TierRoundTrip` | internal/adapter/httpapi/generate.go:491-526 | a tier is recovered from its API form, nil features read as empty |
| `ApiMapping.VariationRoundTrip` | internal/adapter/httpapi/generate.go:471-489 | a variation is recovered from its frame |
| `ApiMapping.ProfileRoundTrip` | internal/adapter/httpapi/generate.go:168-188 | a profile the service returned comes back from a request as it was, an empty keyword list read as none |
| `ApiMapping.ChunkRoundTrip` | internal/adapter/httpapi/generate.go:416-440 | a frame gives its event back except for the cause of an error, which it does not depend on |
| `ApiMapping.LeftOutIsEmpty` | internal/adapter/httpapi/generate.go:416-526 | an optional member is left out exactly when it is empty |
| `ApiMapping.ProfileIsTakenAsSent` | internal/adapter/httpapi/generate.go:168-188 | a profile a client sends is taken as sent, and goes back as it came |
| `ApiMapping.WriteReplayedGeneration` | internal/adapter/httpapi/idempotency.go:101-125 | one completed frame per stored variation in order, then done, all of them unless a write failed |
| `ReplayTheorems.CompletionsMatchRecord` | internal/usecase/generate_variations.go:197-201 | the completions delivered live are, as a multiset, those of the record |
| `ReplayTheorems.ReplayIsTheLiveRun` | internal/adapter/httpapi/idempotency.go:101-125 | for every run stored as completed, the replay's frames are the live completion frames put in requested order, and the live done frame |
| `ReplayTheorems.EveryReplayIsALiveRun` | internal/adapter/httpapi/idempotency.go:67-88 | in every run of the protocol, a replayed answer is the replay of some request's own live run |
| `ReplayTheorems.ImplicitReplayAnswersTheRequest` | internal/adapter/httpapi/generate.go:131-164 | with implicit keys only, a replay is of a record with the requester's very profile but for the analysis time, for its strategies in some order, and for its currency |
| `ContentKey.SortStrings` | internal/adapter/httpapi/generate.go:147 | the array is left as the one sorted arrangement of what it held |
| `ContentKey.ContentIdempotencyKey` | internal/adapter/httpapi/generate.go:142-164 | the key of the content; the caller's slice is not disturbed |
| `ContentKey.KeySeparates` | internal/adapter/httpapi/generate.go:131-164 | keys are equal if and only if every part of the profile but the analysis time, the strategies up to order, and the currency are |
| `ContentKey.OmittedStrategiesShareTheKey` | internal/adapter/httpapi/generate.go:110-129 | omitting the strategies is the same request as listing all three in any order |
| `ContentKey.DefaultsAreResolved` | internal/adapter/httpapi/generate.go:110-129 | omitted or empty strategies are all three, an omitted or empty currency is USD, whatever is given is kept, and a request with a URL and no strategies is acceptable |
| `RateLimiter.CeilSecondIsLeast` | internal/adapter/cache/redis_rate_limiter.go:90-95 | the least whole second not below the duration, exactly for non-negative or whole durations |
| `RateLimiter.HeaderCoversTtl` | internal/adapter/httpapi/ratelimit.go:54-57 | rounding twice is rounding once: the header is the least number of seconds covering the time left |
| `RateLimiter.ScriptKeepsCellOk` | internal/adapter/cache/redis_rate_limiter.go:23-36 | every counter keeps a count of at least 1 and a deadline within a window of the last call |
| `RateLimiter.DenialReportsTrueTtl` | internal/adapter/cache/redis_rate_limiter.go:28-34 | a denial reports the true remaining time; the repair of a negative TTL is never reached |
| `RateLimiter.NeverLockedOut` | internal/adapter/cache/redis_rate_limiter.go:23-36 | after any calls on a key a denial reports the true remaining time, and the next call is admitted exactly when the counter dies, so once Retry-After has passed |
| `RateLimiter.WindowAdmitsExactly` | internal/adapter/cache/redis_rate_limiter.go:23-36 | one window admits exactly its first calls up to the room left |
| `RateLimiter.AnyWindowSpan` | internal/adapter/cache/redis_rate_limiter.go:38-48 | any half-open interval as long as a counter lives holds at most 2*limit - 1 admitted calls |
| `RateLimiter.AnyWindowSpanIsReached` | internal/adapter/cache/redis_rate_limiter.go:38-48 | and that bound is reached, if the window has room for two calls at different times |
| `RateLimiter.AnyClosedWindowSpan` | internal/adapter/cache/redis_rate_limiter.go:38-48 | one millisecond more, and so any window with both end points, at most 2*limit |
| `RateLimiter.TwiceTheLimitIsReached` | internal/adapter/cache/redis_rate_limiter.go:38-48 | and that bound is reached, under either convention of expiry |
| `RateLimiter.LimitsIffWholeMillisecond` | internal/adapter/cache/redis_rate_limiter.go:63 | a positive window limits anything if and only if it is at least a millisecond |
| `RateLimiter.ConfiguredLimitHolds` | internal/adapter/cache/redis_rate_limiter.go:23-63 | from the configured limit and nanoseconds: an absent key gets a counter that lives exactly the window from its first call, and of the calls in that life exactly the first `limit` are admitted |
| `RateLimiter.LimitIsEnforced` | internal/adapter/cache/redis_rate_limiter.go:28-35 | a call that finds a live counter is admitted if and only if it stands below the configured limit |
| `RateLimiter.RedisRateLimiter.Allow` | internal/adapter/cache/redis_rate_limiter.go:62-85 | the script's effect and verdict on the key, faults included; no other key changes; counters stay ones that calls can have left |
| `Binary64.DoubleIsRepresentable` | internal/usecase/export_price.go:37 | the modelled quotient is a double |
| `Binary64.DoubleIsNearest` | internal/usecase/export_price.go:37 | and no double is nearer to the true value |
| `Binary64.SmallIntegersAreExact` | internal/usecase/export_price.go:37 | `float64` of a whole number below 2^53 is that number |
| `Decimals.ValueOfDecimal` | internal/usecase/export_price.go:35 | the digits printed for a whole number read back as it |
| `PriceFormat.QuotientErrorIsSmall` | internal/usecase/export_price.go:37 | below 100 * 2^46 the quotient is within 2^-8 of the true amount |
| `PriceFormat.FloatPathIsExact` | internal/usecase/export_price.go:36-38 | so the printed hundredths are exactly the minor units |
| `PriceFormat.AmountsPrintExactlyBelow` | internal/usecase/export_price.go:33-38 | all amounts below a bound print exactly if and only if the bound is at most 100 * 2^46 + 1 |
| `PriceFormat.PriceRoundTrip` | internal/usecase/export_price.go:23-48 | a reader recovers currency, amount and interval from the printed price, whatever the currency reads |
| `PriceFormat.PriceTextIdentifiesPrice` | internal/usecase/export_price.go:23-48 | two prices print alike only if they are equal; symbols, fallback, integer and float path never collide |
| `PriceFormat.LabelIsShown` | internal/usecase/export_price.go:24-26 | a labelled price prints its label |
| `PriceFormat.FractionIsRoundedTwice` | internal/usecase/export_price.go:36-38 | an amount with cents, of any size, prints as the hundredth nearest to the doubly rounded quotient |
| `PriceFormat.NegativeAmounts` | internal/usecase/export_price.go:33-38 | a negative amount prints as the positive one after a minus |
| `PriceFormat.DollarExamples` | internal/usecase/export_price_test.go:24-52 | the documented whole-dollar texts, to the character |
| `PriceFormat.CentsExample` | internal/usecase/export_price_test.go:29-33 | the documented text with cents |
| `PriceFormat.SymbolExamples` | internal/usecase/export_price.go:13-32 | each currency symbol and the fallback |
| `JsonString.LiteralRoundTrip` | internal/usecase/export_jsx.go:72-81 | a literal reads back as its string and ends where it was ended, whatever follows |
| `JsonString.EscapeIsInert` | internal/usecase/export_jsx.go:11-16 | it holds no line terminator, control character or character special in HTML |
| `JsonString.ShortForms` | internal/usecase/export_jsx.go:72-81 | the seven two-character escapes of `json.Marshal` |
| `JsonString.CodePointForms` | internal/usecase/export_jsx.go:72-81 | every other control, HTML or line separator character is a backslash, u and its code in four lower-case hex digits |
| `JsonString.PlainForms` | internal/usecase/export_jsx.go:72-81 | and everything else stands as it is |
| `Jsx.WriteTier` | internal/usecase/export_jsx.go:44-67 | appends exactly the tier's lines |
| `Jsx.RenderJSX` | internal/usecase/export_jsx.go:17-42 | the content is the document of the variation's page |
| `Jsx.ExportRoundTrip` | internal/usecase/export_jsx.go:17-67 | a reader recovers headline, subheadline and every tier in order with highlight, badge, name, price text, tagline, features and call to action |
| `Jsx.ExportIdentifiesPage` | internal/usecase/export_jsx.go:17-67 | two variations export alike exactly when they show the same page |
| `Jsx.ExportIdentifiesPrices` | internal/usecase/export_jsx.go:54 | and then tiers without a label have equal prices |
| `Jsx.PageShowsEverything` | internal/usecase/export_jsx.go:17-67 | the page read back shows the variation's own texts in order: each tier's name, tagline, features, call to action, badge, highlight, and exactly its label or a text that reads as its price |
| `Jsx.ExportIdentifiesLabels` | internal/usecase/export_jsx.go:54 | labelled tiers export alike only if their labels are equal |
| `Jsx.MarkupMatches` | internal/usecase/export_jsx.go:17-67 | every text stands between a tag, its attributes included, and the closing tag of the same name |
| `Jsx.FixedLines` | internal/usecase/export_jsx.go:17-67 | the lines without text, to the character |
| `Sse.FrameIsOneMessage` | internal/adapter/httpapi/generate.go:400-409 | a frame is read as exactly one message, its payload |
| `Sse.FramingRoundTrip` | internal/adapter/httpapi/generate.go:400-409 | a reader following section 9.2.6 of the WHATWG HTML Standard recovers exactly the payloads if and only if none holds a raw CR or LF |
| `Json.ValueRoundTrip` | internal/adapter/httpapi/generate.go:400-404 | a compact JSON value reads back as itself and ends where it was ended |
| `Json.PrintIsInert` | internal/adapter/httpapi/generate.go:400-404 | and holds no control character, so no line break, and nothing special in HTML |
| `FrameJson.PayloadRoundTrip` | internal/adapter/httpapi/generate.go:400-404 | a client that looks members up by name recovers the whole chunk from its payload |
| `FrameJson.MemberNames` | internal/api/server.gen.go:320-439 | members carry the names of the API contract, in the order they are written |
| `FrameJson.ContractNames` | internal/api/server.gen.go:108-239 | kinds of events and statuses are spelled as the API contract has them |
| `FrameJson.TokenPayload` | internal/adapter/httpapi/generate.go:400-409 | a token's payload, to the character |
| `Wire.PayloadsSurviveFraming` | internal/adapter/httpapi/generate.go:400-409 | no payload the service can produce breaks the framing |
| `Wire.BodyRoundTrip` | internal/adapter/httpapi/generate.go:400-409 | a client recovers every chunk from the bytes, in order |
| `Wire.TokenOnTheWire` | internal/adapter/httpapi/generate.go:400-409 | and its frame: `data: `, the payload, an empty line |
| `Wire.EventsReachTheClient` | internal/adapter/httpapi/generate.go:250-256 | and from them every event it was sent, whatever text the model put into it |
| `Wire.DoneOnTheWireIsStored` | internal/usecase/generate_variations.go:147-162 | in every run a client that reads done holds the record that was stored as completed |
| `Stripe.StripePriceFor` | internal/usecase/export_stripe.go:66-90 | the struct reached by setting fields in turn |
| `Stripe.RenderStripe` | internal/usecase/export_stripe.go:44-64 | the filled slice holds each tier's entry in order |
| `Stripe.EitherLabelOrAmount` | internal/usecase/export_stripe.go:23-31 | a custom label or an amount, never both or neither; currency and recurrence only with an amount |
| `Stripe.EntryRoundTrip` | internal/usecase/export_stripe.go:66-90 | the entry gives back name, tagline, features and offer of any tier the domain accepts, the currency up to its case |
| `Stripe.LowerThenUpper` | internal/usecase/export_stripe.go:82 | lower-casing loses nothing of an ISO code |
| `Stripe.IsoPriceRoundTrip` | internal/usecase/export_stripe.go:66-90 | so with an ISO code the entry gives back the very price |
| `Stripe.EntrySaysTheTier` | internal/usecase/export_stripe.go:44-90 | the entry read back says the tier's name, tagline and features, and its very label or its amount, interval and lower-case currency |
| `Stripe.EntryLeavesOut` | internal/usecase/export_stripe.go:13-31 | a member is left out exactly when there is nothing to say; an amount of 0 is said; month and year are the only recurrences |
| `Stripe.EntryIdentifiesListing` | internal/usecase/export_stripe.go:66-90 | two entries are equal exactly when the tiers offer the same |
| `Stripe.ExportsAgreeOnPrice` | internal/usecase/export_stripe.go:80-88 | the price shown on the page is the price in the Stripe entry |
| `Stripe.ExportsAgreeOnLabel` | internal/usecase/export_stripe.go:75-78 | and the label shown on the page is the label in the entry |

## Left out

- The goroutines, mutex, WaitGroup and channels are a transition system on values, not
  imperative code: Dafny methods do not interleave. Go's memory model is not part of it; every
  access the code guards with the mutex is one step.
- FanoutTheorems.NoDeadlock: that upstream reads and repository calls return is assumed, and fairness of the scheduler is not modelled beyond the bound on steps.
- Handlers.GenerateVariations: uses one instant for the whole request; expiry during a request is covered by the step `Expire` of `Sessions`.
- Handlers.CheckRateLimit: `retryAfter.Seconds()` is taken as exact, which it is for the whole seconds the limiter returns.
- SessionTheorems.AtMostOneExecute: is about one key; the stores' methods state that other keys and rows are untouched.
- PriceFormat.PriceRoundTrip: is about prices without a custom label, since a label may read like any price, with an interval the domain knows, and about amounts up to 100 * 2^46, past which it fails.
- JsonString.LiteralRoundTrip: its reader does not decode surrogate pairs, which the encoder never writes.
- Stripe.EntryRoundTrip: lower-casing is modelled for A to Z only, where Go's follows Unicode.
- Stripe.RenderStripe: the JSON text of the table is the record of its members; indentation and number syntax are not modelled.
- FrameJson.PayloadRoundTrip: its reader takes compact JSON, without white space between tokens and without fractions or exponents, which is all the service writes.
- The `retry` field of an event stream and the reader's reconnection: the service never writes them.
- SDK calls, prompts, schema maps and error-code mapping; `GenerateStructured`, which does not stream.
- Network scraping, browser control and the address guard; the `/v1/analyze` cache, a simpler
  instance of the store with a TTL.
- `renderHTML`, whose escaping is inside html/template; the lookup in `ExportVariation.Execute`.
- HTTP routing, request decoding, status-code tables, logging, telemetry and the write deadline.
- Panics and process crashes during a request, and the precision of timestamps in Postgres.
- Overflow of 64-bit integers and of `time.Duration`.
