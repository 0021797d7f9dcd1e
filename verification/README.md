# Alvus Core routing kernel: a verified model

Alvus Core is an inference gateway. It routes a chat request over an ordered list of candidate models, tries
the API keys of each candidate's provider in turn, keeps health facts about keys and models, caches whole
answers, and translates between the Anthropic and the OpenAI wire formats. This project models that kernel in
Dafny and proves what it promises, for every upstream behaviour, every clock and every interleaving of
concurrent requests.

## How the model is built

The parts that change state are classes with the source's fields, each method proved against a function of the
old state: the credential pool (`CredentialPool.dfy`), the circuit breaker and candidate selection
(`CircuitBreaker.dfy`), the response cache (`ResponseCache.dfy`), the running hash under a cache key
(`KeyFraming.dfy`), an upstream response with its body (`Completions.dfy`) and the fallback engine over all of
them (`Gateway.dfy`). The translators (`AnthropicStream.dfy`, `AnthropicResponse.dfy`, `AnthropicRequest.dfy`) are
methods with the source's loops. Every map the source ranges over is visited in an arbitrary order.

What the engine does is stated by a protocol. `GatewayState.dfy` gives the atomic actions on the shared state:
each call on a pool, the router, the cache or a counter is one action, as it is under its mutex. `Protocol.dfy`
gives what one request may do next, given what it has done. A run is any interleaving of actions of any number
of requests (`Runs.dfy`).

`Gateway.RouteRequest` is the source's nested loop. Between any two of its own actions an arbitrary batch of
other requests' calls happens (`Pause`), including calls no request of this gateway would make. Upstream is an
arbitrary function from the number of the attempt to what becomes of it, and all delays come from an arbitrary
script (`Scripts.dfy`). The method is proved to take only the steps the protocol allows, whatever that interference
does, and to meet exactly the answers, the delays and the company that upstream and the script have for it. So in any interleaving of such requests the common history is a legal run for
each of them on its own, and then it is a legal run for all of them together (`Runs.RequestsCompose`): the
theorems that hold of all runs, which follow every request at once, hold of the engine. A theorem that exhibits
a run needs more, since the engine might never make it: for that the protocol is proved to leave a request alone no
choice but what upstream answers (`Determinism.OneWayOn`), so the engine, met with the answers of the exhibited run,
comes by where that run ends (`Determinism.ComesBy`).

Time is an integer number of nanoseconds and a parameter of every call that reads a clock. A request's clock
moves while an attempt is out and while the request is held up; `overhead` is the time it was held up.

## What is proved

* **The engine follows its protocol** under arbitrary interference, returns what the protocol calls for, leaves
  no upstream body open but the one it hands on, and stays within its attempt and time bounds
  (`Gateway.RouteRequest`).
* **Every reply is accounted for**, in every interleaving: it is a hit, or the whole answer of one of the request's
  own exchanges, or an error cut at a mebibyte (`Replies.RepliesAreAccounted`).
* **Every attempt is sent as asked and as configured**, in every interleaving: to a model the client's name stands
  for, at that model's provider, under its upstream name, with the client's method, path and query, the client's
  fields and the model's parameters for the rest (`SentRequests.EveryAttemptIsSentOn`); and the models are tried one by
  one in the order of the route (`SentRequests.EverySelectionIsWhole`, `SentRequests.CandidatesAreTriedInTurn`).
* **Every fact has its cause and every exchange its effects**, in every interleaving: a key is disabled only after a
  401 with that key, and so on for cooling a key, blaming or praising a model, recording an attempt and storing an
  answer (`HealthCauses.EveryFactHasACause`); and none of these is left out where it is due
  (`HealthCauses.EveryExchangeHasItsEffects`). A failed key is not drawn again before its time
  (`KeySafety.FailedKeyIsNotRetried`).
* **The cache is coherent**: a hit replays the whole accepted answer upstream gave, less than one lifetime
  before, to the identical request; the one other possibility is an explicit digest collision
  (`CacheCoherence.HitReplaysTheSameRequest`). The cache is always a most recent part of an unbounded TTL map
  (`CacheRefinement.RunsKeepTheMostRecent`), in runs of the engine too (`Histories.CacheIsAsCalled`).
* **Metrics are conserved** in every interleaving (`Runs.MetricsAreConserved`), and each counter tells exactly how
  often its event happened (`Counters.CountersTell`).
* **Round robin is exactly fair** (`PoolTheorems.ExactShare`) and never starves a usable key
  (`PoolTheorems.BoundedWaiting`).
* **The breaker is a function of its history** (`BreakerHistory.HistoryExplainsHealth`), and in runs of the engine
  that history is what requests blamed and praised a model for (`Histories.RunsExplainHealth`).
* **The event stream is well formed, loses nothing, and agrees with the whole-response translation**
  (`StreamTheorems.StreamIsWellFormed`, `StreamFidelity.StreamLosesNothing`, `StreamFidelity.StreamingAgrees`).
* **Transcripts are told whole and in order** (`AnthropicRequest.ConversationIsTold`), with every tool call, and
  their pairing exactly (`AnthropicRequest.PairingIsKept`).
* **Only useful answers are accepted**: what makes a success useful is stated apart from how it is judged
  (`Completions.JudgementIsRight`).

## Where the code and its documentation disagree

* README.md line 73 calls `request_timeout` the total budget of a request. The code settles the attempt timeout once
  per candidate, before the key loop (internal/gateway/server.go lines 399-403), so every further key gets that
  whole timeout again. The true bound is the budget times the longest pool visited (`Runs.TimeBound`), and that
  factor is reached (`BudgetPromise.EveryKeyCanTakeItsTimeout`). The documented budget is kept if and only if
  the route fits: no candidate with two keys or more ends past the budget when it and the candidates before it
  give every key its whole timeout (`BudgetPromise.BudgetIsKeptIffRouteFits`). That is so of every route whose keys
  recover: no candidate with several keys, whose attempts fit the budget together but each end within ten seconds,
  is followed by another candidate of its provider. Of all routes, those that fit keep the budget
  (`BudgetPromise.RoutesThatFitKeepTheBudget`) and those that overshoot break it
  (`BudgetPromise.RoutesThatOvershootBreakTheBudget`); where keys do not recover a route can do neither, and one such
  route keeps the budget (`ReturningKeys.KeptWithoutFitting`).
* This is a matter of the engine and not of the protocol only: on a runtime just started, when the route does not
  fit, some upstream makes every run of `Gateway.RouteRequest` end past its deadline with nobody else at work
  (`EngineBudget.EngineKeepsBudgetOrNot`). Of the routes in config.example.json, with the two API keys README.md
  sets up, fast, auto and default keep the budget, and quality, coding, reasoning and vision do not
  (`ShippedRoutes.ShippedRoutesOnTheEngine`).
* What `routeRequest` returns is what upstream sent, except of an error: its body is cut at a mebibyte, and if it broke
  off the body returned ends as if complete (`Replies.TruthfulExceptForErrors`). The headers are upstream's all the
  same, so where they carry a Content-Length the client is sent fewer bytes than they announce.
* The half-open fallback of candidate selection (internal/router/router.go lines 56-73) never adds a candidate:
  `CircuitBreaker.Router.Candidates` is proved equal to the plain filter with that code in place.
* A circuit's open-until time is not monotone: a later trip can close it sooner (`BreakerHistory.OpenUntilCanShrink`).
* A tool slot of the stream can reserve a block index and never start (`StreamFidelity.ReservedBlockMayNeverStart`), so
  block indices are distinct but need not be contiguous.

## Model

| member | source | states |
|---|---|---|
| Gateway.Gateway.RouteRequest | internal/gateway/server.go:380-517 | The fallback engine, among arbitrary calls of other requests: every step it takes is one the protocol allows, and it meets exactly the answers, delays and company its upstream and script have for it; its result is the protocol's; a non-streaming request ends by start + held-up time + budget times the longest pool visited; it keeps its deadline, held-up time aside, when its route fits; attempts are at most the keys of the pools it came to; every attempt is recorded and every fallback charged on return; only the body being returned is left open |
| Gateway.Gateway.RouteAmong | internal/gateway/server.go:383-387 | No candidate at all is refused at once; otherwise each candidate is visited in order until one ends the request or all are exhausted |
| Gateway.Gateway.VisitCandidate | internal/gateway/server.go:387-396 | Coming to any candidate but the first counts one fallback and charges it to the candidate before |
| Gateway.Gateway.EnterCandidate | internal/gateway/server.go:398-416 | The visit is refused when no time is left or the request cannot be patched; otherwise timeout, patched body and cacheability are fixed for the whole visit |
| Gateway.Gateway.ConsultCache | internal/gateway/server.go:415-422 | A hit is counted and replayed as the result; a miss is counted and leads to the key loop |
| Gateway.Gateway.TryKeys | internal/gateway/server.go:424-514 | The key loop: at most one draw per key of the pool, ending the visit or the request |
| Gateway.Gateway.TryKey | internal/gateway/server.go:426-433 | One turn of the key loop: a failed draw leaves the candidate, a drawn key gets one counted attempt, whose outcome decides where the loop goes |
| Gateway.Gateway.Attempt | internal/gateway/server.go:638-700 | An attempt ends in a cancellation, its timeout, a connection failure or an answer, within the visit's timeout unless the request streams |
| Gateway.Gateway.OnNoAnswer | internal/gateway/server.go:434-450 | Cancellation ends the request; a timeout is recorded, blamed on the model and leaves it; a connection failure cools the key for five seconds and tries the next |
| Gateway.Gateway.OnSuccess | internal/gateway/server.go:451-482 | A non-streaming chat success is probed; an unusable one is recorded, blamed and left with its body closed; a useful one is returned |
| Gateway.Gateway.OnAccepted | internal/gateway/server.go:471-481 | An accepted success is recorded, praised, stored if it may be, and returned byte for byte |
| Gateway.Gateway.SnapshotAndStore | internal/gateway/server.go:473-480 | A cacheable answer is stored exactly when it arrived whole and within the limit; what the caller reads stays what upstream sent |
| Gateway.Gateway.OnRejection | internal/gateway/server.go:484-488 | An error status: its body is read up to the limit and closed, and the decision table is followed |
| Gateway.Gateway.OnDecision | internal/gateway/server.go:489-513 | Each decision has its own effect: disable the key, cool it, cool it and blame the model, skip the model, or return the error with the body read |
| Gateway.Gateway.RecordModelAttempt | internal/gateway/server.go:304-327 | The metrics after an attempt: one more attempt, split into success or failure, for this model only |
| Gateway.Gateway.RecordModelFallback | internal/gateway/server.go:329-344 | The metrics after a fallback: one more for this model, nothing for an empty alias |
| Gateway.Gateway.Pause | internal/gateway/server.go:380-517 | Between two steps of a request others may do anything to the shared state; the request stays where it was |
| Gateway.BuildState | internal/gateway/server.go:122-143 | A state is built exactly when the configuration is sound; each provider's pool opens with its nonblank keys, none disabled or cooled, at cursor zero; there is no health, nothing is cached and nothing counted |
| Gateway.BuildPools | internal/gateway/server.go:126-131 | Each provider gets its own pool, of its own keys |
| SessionFacts.AdvanceKeepsBalance | internal/gateway/server.go:387-516 | Every step keeps a request's own counters balanced: attempts against recorded attempts, fallbacks against charges, at most one success, no store without a miss |
| SessionFacts.AdvanceKeepsThrift | internal/gateway/server.go:424-433 | Every step keeps the attempts within the keys of the pools visited |
| SessionFacts.AdvanceKeepsOneEvent | internal/gateway/server.go:424-514 | Every step keeps it that a visit makes at most one breaker event |
| SessionFacts.AdvanceKeepsTidy | internal/gateway/server.go:451-513 | Every step keeps it that an upstream body is open only while its answer is being dealt with or handed on |
| SessionFacts.AdvanceKeepsTime | internal/gateway/server.go:399-403 | Every step keeps a non-streaming request within start + held-up time + max(1, longest pool) times the budget |
| SessionFacts.HealthHasSeparateCauses | internal/gateway/server.go:434-513 | A step disables, cools, blames or praises only for the kinds of outcome meant for it |
| SessionFacts.AdvanceKeepsFallbacks | internal/gateway/server.go:387-391 | Every step keeps it that each candidate come to but the first has counted one fallback |
| SessionFacts.EndingsHaveReasons | internal/gateway/server.go:383-517 | A request ends without an answer only because it found no candidate, is through with all of them, is out of time, has a body that is no object, or lost its client |
| SessionFacts.LeavingHasReasons | internal/gateway/server.go:424-505 | A candidate is left only on the way out, with each of its keys drawn for, or on a context limit |
| SessionFacts.WaysToLeave | internal/gateway/server.go:424-505 | And a request is on its way out only by a draw that failed or a blame |
| SentRequests.EveryAttemptIsSentOn | internal/gateway/server.go:398-432 | In every interleaving, each exchange of a request goes to a model its name stands for, at that model's provider and under its upstream name, with the client's method, path and query; if the body reads back as it was written, its fields are the model's upstream name, the client's other fields and the model's parameters for the rest and nothing more; and the attempt is given the model's own timeout, or what was left of the budget when the candidate was come to if that is shorter |
| SentRequests.EverySelectionIsWhole | internal/router/router.go:32-56 | In every interleaving, a request selects all the models its name stands for whose circuits are closed at that time, each as often as it stands in the route and in its order |
| SentRequests.CandidatesAreTriedInTurn | internal/gateway/server.go:387-398 | In every interleaving, the n-th candidate a request comes to is the n-th it selected, and a fallback is charged to the one tried before |
| SentRequests.HitsAnswerTheRequest | internal/gateway/server.go:409-420 | In every interleaving, a hit holds the whole answer upstream gave, less than a lifetime before, to what this request would have been sent on as; or two different preimages have the same digest |
| HealthCauses.EveryFactHasACause | internal/gateway/server.go:434-513 | In every interleaving, each disable, cooldown, blame, praise, record or store by a request follows an exchange of that same request with the configured candidate it concerns, and the exchange warrants it: the statuses for each, how long the key is cooled (5 s after a connection failure, the longer of Retry-After and 10 s after a server error, the shorter of a positive Retry-After and 10 s after 429), the reason and the delay the model is blamed for, the latency, status, success, timeout and reason recorded, and the key, value and lifetime of what is stored |
| HealthCauses.EveryExchangeHasItsEffects | internal/gateway/server.go:434-513 | In every interleaving, a request past an exchange has recorded it; disabled the key after 401; cooled it after a connection failure, a server error or 429; blamed the model after a timeout, a success of no use or a capacity error; praised it after any other success; and offered a whole answer worth keeping to the cache |
| Replies.RepliesAreAccounted | internal/gateway/server.go:415-512 | In every interleaving each reply is a value one of the request's own lookups hit, or the whole answer of one of its own exchanges, failing where upstream failed, or an error of one of them up to the limit |
| Replies.TruthfulExceptForErrors | internal/gateway/server.go:484-512 | What is passed on of an exchange is what upstream sent if and only if it was a success, or an error that was within the limit and unbroken |
| Runs.RequestsCompose | internal/gateway/server.go:281-302 | A history that is a legal run for each of a set of requests on its own is a legal run for all together, leaving each where it was: what is proved of one request among arbitrary others holds of them all |
| Determinism.OneWayOn | internal/gateway/server.go:380-517 | At each point of a request under way only one step is legal, but for waiting, for what upstream answers and for which equally early entries a store evicts |
| Determinism.ComesBy | internal/gateway/server.go:380-517 | Of two runs of a request alone that meet the same refusals from upstream, the one that is over has come by where the other stands |
| Runs.RequestsAreSound | internal/gateway/server.go:380-517 | In every interleaving every request, at every point, satisfies all the invariants above |
| Runs.TimeBound | internal/gateway/server.go:381-403 | In every interleaving a non-streaming request is within its bound at every point, and within its deadline plus held-up time when no pool it visited has a second key |
| Runs.MetricsAreConserved | internal/gateway/server.go:304-344 | In every interleaving: attempts = models' attempts + attempts in flight; fallbacks = models' fallbacks + those about to be charged or nameless; stores at most misses; per model attempts = successes + failures, timeouts among failures; at most one success per request |
| Counters.CountersTell | internal/gateway/server.go:304-344 | In every interleaving each counter, global or of one model, has grown by exactly the events it counts, and a model's latency by the latencies of its recorded attempts |
| Histories.RunsExplainHealth | internal/router/router.go:77-98 | In every interleaving a model's health is the stated function of what requests blamed it for since one last praised it |
| Histories.PoolsAreAsCalled | internal/credentials/pool.go:34-68 | In every interleaving each pool is as its calls have left it, and its draws got what those calls give: what is proved of runs of calls holds of runs of requests |
| Histories.EveryKeyHasItsTurn | internal/credentials/pool.go:34-49 | Whoever draws, a key usable at each of the first n draws from n keys is returned by one of them |
| Histories.CacheIsAsCalled | internal/responsecache/cache.go:47-92 | In every interleaving that calls the cache in the order of its clock, its calls make a legal run and leave the cache the requests see |
| Histories.LookupsFindTheLatest | internal/responsecache/cache.go:47-92 | Then a lookup finds the latest value any request has had accepted under the key, for its whole lifetime unless it was evicted |
| KeySafety.RunsRestrict | internal/credentials/pool.go:51-68 | Through any run pools keep their keys, no key is re-enabled and no cooldown shortened |
| KeySafety.BarsAreRespected | internal/gateway/server.go:447-498 | In every interleaving every bar a request has put on a key is still in force |
| KeySafety.FailedKeyIsNotRetried | internal/gateway/server.go:424-496 | Whatever others do, a request never draws a key again after a 401 on it, and draws it again only 5 s after a connection failure and 10 s after a server error |
| KeySafety.AttemptsAreBounded | internal/gateway/server.go:387-433 | In every interleaving a request's attempts are at most the sum of the pool sizes of the candidates it has come to |
| Spending.RequestsAreFrugal | internal/gateway/server.go:387-433 | In every interleaving a non-streaming request spends at most a whole attempt timeout for each key of the candidates it has come to, held-up time aside, and keeps to its deadline when its route fits |
| BudgetPromise.RoutesThatFitKeepTheBudget | internal/gateway/server.go:399-403 | A route that fits keeps the documented budget whatever upstream, the other requests and the state of its pools |
| BudgetPromise.EveryKeyCanTakeItsTimeout | internal/gateway/server.go:399-432 | The factor is tight: for any candidate there is a run that spends one whole attempt timeout on each key of its pool |
| BudgetPromise.RoutesThatOvershootBreakTheBudget | internal/gateway/server.go:399-432 | Whether or not its keys recover, a route breaks the documented budget when a candidate with several keys, giving each its whole timeout after what the candidates before it can surely take, ends past it |
| BudgetPromise.BudgetIsKeptIffRouteFits | README.md:73 | The documented total budget is kept, whatever upstream and the other requests do, if and only if the route fits: for every route whose keys recover, as they do when no candidate with several keys and attempts under ten seconds has its provider come again |
| BudgetPromise.BudgetIsKeptIffOneKey | README.md:73 | When no attempt timeout is shorter than the request's, the budget is kept if and only if every candidate's pool has at most one key |
| EngineBudget.SomeUpstreamOverruns | internal/gateway/server.go:380-517 | On every route on which a candidate overshoots some upstream makes every engine run of the request late with nobody else at work |
| EngineBudget.EngineKeepsBudgetOrNot | internal/gateway/server.go:380-517 | When the route fits no upstream and no company make an engine run late, held-up time aside; when it does not and its keys recover, some upstream makes every engine run of the request late with nobody else at work |
| EngineBudget.StartupIsReady | internal/gateway/server.go:122-143 | Every runtime just started is one the budget theorems speak of: all keys usable, nothing cached, every candidate with a provider |
| EngineBudget.RouteOne | internal/gateway/server.go:281-302 | One request on a runtime just started is routed by a run of the engine, with that run's outcome and end |
| EngineBudget.OverrunTheBudget | README.md:73 | Against an upstream under which the route overruns, the engine itself, left alone, ends the request later than start + budget |
| ShippedRoutes.ShippedRoutesThatFit | config.example.json:4-135 | With two keys the budget of 180 seconds fits exactly the routes fast, auto and default |
| ShippedRoutes.ShippedRoutesOnTheEngine | config.example.json:4-135 | With two keys the engine is never late on the routes fast, auto and default, held-up time aside; on quality, coding, reasoning and vision some upstream makes every run of it late |
| ReturningKeys.EarlyAttempts | internal/gateway/server.go:424-514 | In the first five seconds of its run a request makes fewer attempts than there are keys and candidates come to together, since every attempt but the last with a candidate bars its key |
| ReturningKeys.KeptWithoutFitting | README.md:73 | A concrete route whose keys do not recover: it does not fit, and keeps its budget all the same |
| ReturningKeys.BrokenWithoutRecovering | README.md:73 | The same route with attempts of eight seconds in a budget of twenty overshoots |
| CacheCoherence.CacheIsCoherent | internal/gateway/server.go:409-480 | In every reachable state each cached entry has a source: a complete, accepted answer upstream gave to a request with that key, stored whole, expiring one lifetime after it was stored; caching was enabled, and that request was a non-streaming chat completion without tools to an allowed kind of provider |
| CacheCoherence.HitReplaysTheSameRequest | internal/gateway/server.go:409-420 | A hit is such an answer, to such a request with the same provider, model, method, path, query and patched body, stored less than one lifetime ago; or two different preimages have the same digest |
| CacheCoherence.StoredIsDelivered | internal/gateway/server.go:473-481 | What was stored is exactly what the request that stored it delivered to its own client |
| ResponseCache.Memory.constructor | internal/responsecache/cache.go:39-45 | A new cache is empty and within its budgets |
| ResponseCache.Memory.Get | internal/responsecache/cache.go:47-60 | A lookup returns the unexpired value and drops an expired entry |
| ResponseCache.Memory.Set | internal/responsecache/cache.go:62-92 | A store succeeds exactly when lifetime and both budgets are positive and the body fits; a rejected one changes nothing; an accepted one drops expired entries, evicts only while over budget and always an earliest one, and keeps both budgets and the byte counter exact |
| ResponseCache.Memory.Len | internal/responsecache/cache.go:94-99 | The number of unexpired entries |
| ResponseCache.Memory.Bytes | internal/responsecache/cache.go:101-106 | The total body bytes of the unexpired entries |
| ResponseCache.Memory.PruneExpired | internal/responsecache/cache.go:108-114 | Exactly the unexpired entries remain |
| ResponseCache.Memory.EvictEarliest | internal/responsecache/cache.go:116-132 | An entry that expires no later than any other is removed, unless there is none |
| ResponseCache.Memory.EvictFor | internal/responsecache/cache.go:78-82 | Evicting until a body fits never runs out of victims, and each victim was over budget and earliest when it went |
| ResponseCache.EachVictimWasNeeded | internal/responsecache/cache.go:78-82 | Each victim, when it went, was still there, left too little room for the new body, and expired no later than anything else left |
| ResponseCache.Memory.Delete | internal/responsecache/cache.go:134-140 | The byte counter falls by the entry's size and never below zero, so the clamp never fires |
| CacheRefinement.VictimsExpireFirst | internal/responsecache/cache.go:78-82 | Everything evicted expires no later than everything kept |
| CacheRefinement.RunsKeepTheMostRecent | internal/responsecache/cache.go:47-140 | Over every run with one lifetime and a clock that does not run backwards, the cache is a part of the unbounded TTL map, and any live entry it lacks expires no later than all it keeps |
| CacheRefinement.LookupsAgreeWithTheIdealMap | internal/responsecache/cache.go:47-60 | A hit is the latest accepted unexpired value; a live value is missed exactly when it was evicted since its last store |
| CacheRefinement.HitsAreTheLatestAccepted | internal/responsecache/cache.go:47-92 | Over every run a hit is the value of the latest store of its key that was accepted, less than a lifetime ago: rejected stores since then neither replace nor hide it |
| CacheRefinement.LatestAcceptedIsAHit | internal/responsecache/cache.go:47-92 | And the latest accepted value is a hit for all its lifetime unless it was evicted since |
| KeyFraming.Key | internal/responsecache/cache.go:155-168 | The key is the digest of the framed parts |
| KeyFraming.BigEndianRoundTrip | internal/responsecache/cache.go:155-168 | A length below the range reads back from its bytes |
| KeyFraming.FramingRoundTrip | internal/responsecache/cache.go:155-168 | Reading a framed preimage gives back exactly its parts |
| KeyFraming.FramingIsInjective | internal/responsecache/cache.go:155-168 | Different identities never share a preimage |
| KeyFraming.PreimageInOrder | internal/responsecache/cache.go:155-168 | The preimage is provider, model, method, path, query and body in that order, each after its length |
| CredentialPool.Pool.constructor | internal/credentials/pool.go:22-30 | A pool holds the nonblank keys, in order, all usable |
| CredentialPool.Pool.Len | internal/credentials/pool.go:32-32 | The number of keys, barred or not |
| CredentialPool.Pool.Next | internal/credentials/pool.go:34-49 | A draw returns the nearest usable key at or after the cursor, with its value, and moves the cursor on by one even when it fails, unless the pool is empty |
| CredentialPool.Pool.Cooldown | internal/credentials/pool.go:51-60 | A cooldown only ever lengthens; an index out of range is ignored |
| CredentialPool.Pool.Disable | internal/credentials/pool.go:62-68 | A key is disabled for good; an index out of range is ignored |
| CredentialPool.Pool.Available | internal/credentials/pool.go:70-80 | The number of usable keys |
| CredentialPool.NearestIsNearest | internal/credentials/pool.go:39-48 | The key drawn is usable with no usable key nearer the cursor, and a draw fails only if no key is usable |
| CredentialPool.CooledUntil | internal/credentials/pool.go:34-60 | A cooled key is usable exactly when it was usable before and the cooldown is over; the other keys as before |
| CredentialPool.CountsUsable | internal/credentials/pool.go:70-80 | The available count is the number of places whose key is neither disabled nor still cooling |
| PoolTheorems.DrawFailsWhenNoneAvailable | internal/credentials/pool.go:34-80 | A draw fails if and only if the available count is zero |
| PoolTheorems.RunsOnlyRestrict | internal/credentials/pool.go:51-68 | Any run of calls keeps the keys, re-enables none and shortens no cooldown |
| PoolTheorems.NeverDrawnWhileBarred | internal/credentials/pool.go:34-68 | A disabled key is never drawn again, and a cooled one not before its time, after any calls by anyone |
| PoolTheorems.BoundedWaiting | internal/credentials/pool.go:34-49 | A key usable at each of n draws in a row from n keys is returned by one of them, whatever happens to the other keys in between |
| PoolTheorems.SelectedWithinGap | internal/credentials/pool.go:39-48 | A draw returns k exactly when it starts after the usable key before k |
| PoolTheorems.ExactShare | internal/credentials/pool.go:34-49 | Over m laps with the same keys usable, each usable key is returned exactly m times its distance from the previous usable one, and no other at all |
| PoolTheorems.EqualShares | internal/credentials/pool.go:34-49 | With every key usable that distance is one for each |
| CircuitBreaker.Router.Candidates | internal/router/router.go:32-75 | A name that is no route, no model and not the empty name with a default route is refused; otherwise the candidates are the aliases it stands for whose circuit is not open, each as often as in the route and in its order, each with its own model's provider and upstream name, for every health and time: sorting and the recover-first fallback add nothing |
| CircuitBreaker.Router.Success | internal/router/router.go:77-81 | A success resets the alias's health and no other |
| CircuitBreaker.Router.Failure | internal/router/router.go:83-98 | A failure counts against the alias, and trips at the threshold or on a Retry-After, for the longer of the two cooldowns |
| CircuitBreaker.Router.Snapshot | internal/router/router.go:100-113 | Every configured alias is reported, open exactly while its circuit is, with its open-until time and last reason |
| CircuitBreaker.SortByRecovery | internal/router/router.go:68-68 | Sorted by recovery time, a permutation of the input, and stable: those that recover at the same time keep their order |
| CircuitBreaker.ClosedMembers | internal/router/router.go:46-54 | An alias is a candidate if and only if it is routed to and its circuit is not open, the same test the snapshot reports |
| CircuitBreaker.ClosedInRouteOrder | internal/router/router.go:46-56 | The candidates are the places of the route whose circuit is not open, in increasing order, and nothing else |
| CircuitBreaker.RoutingIsClosed | internal/gateway/server.go:392-396 | With a sound configuration every candidate has a provider, so the branch that skips a candidate is dead |
| BreakerHistory.HistoryExplainsHealth | internal/router/router.go:77-98 | After any history the counter is the failures without Retry-After, in a row, since the last success or Retry-After, modulo the threshold, and the circuit is open until the last trip since a success plus the longer cooldown |
| BreakerHistory.BelowThreshold | internal/router/router.go:83-98 | The failure counter is always below the threshold |
| BreakerHistory.OthersDoNotMatter | internal/router/router.go:77-98 | An alias's health depends on its own events only |
| BreakerHistory.OpenUntilCanShrink | internal/router/router.go:83-98 | A concrete history in which a later trip ends sooner |
| AnthropicStream.TranslateStream | internal/gateway/anthropic_stream.go:12-117 | The events emitted for any lines, up to the end marker, with the stops in whatever order the map is visited; the stop reason is max_tokens if and only if the last finish reason was length, tool_use if and only if it was tool_calls, and end_turn otherwise |
| StreamTheorems.StreamIsWellFormed | internal/gateway/anthropic_stream.go:12-117 | For every chunk sequence and map order: one message_start; each delta in a started block of its own kind; distinct block indices; every started block stopped once, after all deltas; then message_delta and message_stop |
| StreamFidelity.StreamLosesNothing | internal/gateway/anthropic_stream.go:62-95 | The text deltas concatenate to the upstream content and each tool's block to that tool's arguments, up to the end marker; a tool with arguments has started a block no other tool has |
| StreamFidelity.StreamingAgreesIffNamesAreKept | internal/gateway/anthropic_response.go:29-61 | When each slot's first delta carries something, a client rebuilds from the events exactly the content of the whole-response translation if and only if each slot ends up with the id and name it was announced with |
| StreamFidelity.StreamingAgrees | internal/gateway/anthropic_response.go:29-61 | When each slot's first delta carries its id, and its name if it has one, and later ones repeat them or leave them out, a client rebuilds from the events exactly the content and stop reason of the whole-response translation of the accumulated completion |
| StreamFidelity.ReservedBlockMayNeverStart | internal/gateway/anthropic_stream.go:72-87 | A concrete stream whose tool slot reserves block 0 and never starts |
| AnthropicResponse.TranslateResponse | internal/gateway/anthropic_response.go:10-62 | No choice is an error; otherwise text, if any, then each tool call in order with its id, name and parsed arguments; the stop reason is max_tokens exactly for length, tool_use exactly for tool_calls and end_turn otherwise; the model and id with their fallbacks, and the token counts |
| AnthropicRequest.TranslateMessage | internal/gateway/anthropic_request.go:81-121 | Unreadable content is an error; plain content is one turn of the same role in its own words; blocks are a turn with their texts in order on a line each and their tool uses in order, unless there are only tool results, and then the tool results in order, each under its id |
| AnthropicRequest.TranslateMessages | internal/gateway/anthropic_request.go:9-20 | Fails exactly on an unreadable message; otherwise the system prompt leads if it is not empty, and each message is told in order, as for one message |
| AnthropicRequest.ConversationIsTold | internal/gateway/anthropic_request.go:9-20 | Over any conversation the output falls into a system turn, if there is a prompt, and one part for each message, in order, each telling that message's role, texts, calls and results |
| AnthropicRequest.ExtractText | internal/gateway/anthropic_request.go:123-144 | The system prompt: the words, or the blocks' texts in order on a line each, or nothing |
| AnthropicRequest.ToolsSurvive | internal/gateway/anthropic_request.go:81-121 | Over any conversation every tool_use and every tool_result appears in the output exactly once, each kind in order |
| AnthropicRequest.PairingIsKept | internal/gateway/anthropic_request.go:81-121 | Every output tool message follows a turn that carries its call, if and only if every tool_result had a tool_use in its own or an earlier message |
| Provider.FactsAreSeparate | internal/provider/adapter.go:49-83 | Each action is taken for exactly its statuses: disable for 401, retry for server errors, fallback for capacity errors, skip for context limits; a key is cooled with a fallback for 429 only |
| Provider.DelaysAndReasons | internal/provider/adapter.go:49-83 | A Retry-After is taken over for 401, 403, 429 and every status from 500 on, and dropped otherwise; each status has its own reason |
| Provider.ContextLimitIsMentioned | internal/provider/adapter.go:67-71 | A bad request is about the context limit exactly when one of three phrases stands in its body, in capitals or not |
| Completions.ReadLimited | internal/gateway/server.go:521-533 | A limited read followed by the rest of the reader is the whole body, and fails only if the body breaks off within the limit |
| Completions.Response.Probe | internal/gateway/server.go:519-569 | Whatever the body's length the caller reads exactly the upstream bytes afterwards; a body within the limit is judged rightly and its connection closed, a longer one is accepted unread, a broken one refused and closed |
| Completions.JudgementIsRight | internal/gateway/server.go:536-636 | A success body is useful if and only if its first choice was filtered, or makes a call where one is required, or where none is required has text, a refusal or a call; the three reasons for refusing it are exactly no choice, a required call missing, and nothing there |
| Completions.CacheIsForRequestsWithoutTools | internal/gateway/server.go:713-724 | A request may be answered from the cache exactly when it is an object with nothing in any of its four tool fields |
| Completions.Response.Snapshot | internal/gateway/server.go:735-760 | A copy is taken if and only if the body is whole and within the limit, and is then the whole body; the caller reads exactly the upstream bytes either way |
| Completions.ClientFieldsWin | internal/gateway/server.go:801-813 | Upstream reads its own model name, all else the client asked for as it was decoded, and the defaults for the rest and nothing more |
| Config.Validate | internal/config/config.go:192-278 | Validation passes exactly the sound configurations |
| Config.SoundConfigIs | internal/config/config.go:192-278 | What a sound configuration is, field by field |

## Left out

- Sockets, HTTP, TLS, header copying, SSE byte scanning and flushing: an attempt is an outcome with a duration, and the stream translator starts from parsed lines.
- JSON parsing and marshalling: functions given as parameters, the same ones on both sides of every comparison; a JSON null read as a string is the empty string, as the source's library has it.
- SHA-256: a parameter; nothing is assumed of it, and theorems that depend on it name an explicit collision as the other possibility.
- Cursor wrap-around past 2^63 draws, overflow of 64-bit counters and of durations: the cursor and the counters are natural numbers and times are integers.
- The text of a Retry-After header (section 10.2.3 of RFC 9110): a nonnegative duration here.
- Unicode case folding: provider kinds and error bodies are lowered letter by letter over ASCII.
- Aliasing between the cache and its callers (internal/responsecache/cache.go:142-153): responses are values, so the copies the source makes are not visible here.
- Streaming bodies after their headers: the source puts no limit on them, so time bounds are about non-streaming requests.
- An upstream body beyond the probe limit: the time the snapshot takes to read it is charged to the attempt, not to the snapshot.
- Reading the clock and taking the lock of a call are one step, so another request's call falls before or after both.
- A cache object is always there but consulted only when the configuration enables it; the source has none otherwise.
- BudgetPromise.BudgetIsKeptIffRouteFits: starts from usable keys and an empty cache. Where keys do not recover, routes that neither fit nor overshoot are left open: what decides there is which keys earlier visits leave cooled and for how long, and `ReturningKeys.KeptWithoutFitting` shows that fitting does not.
- StreamFidelity.StreamingAgreesIffNamesAreKept: a slot whose first delta carries nothing at all starts later than it appears, or never (`StreamFidelity.ReservedBlockMayNeverStart`); streams with such slots are not covered.
- Completions.ClientFieldsWin: numbers are decoded as floating point in the source, so an integer beyond 2^53 is sent on rounded; the theorem is about fields as decoded, of a request that reads back as it was written.
- SentRequests.EveryAttemptIsSentOn: what the body's fields are is said of bodies that read back as they were written, as for `Completions.ClientFieldsWin`; the request's headers and the URL they go to are not part of the model.
- Histories.CacheIsAsCalled: requests have clocks of their own in a run, so a run may call the cache out of the order of time, which one wall clock does not; such runs are not covered.
- AnthropicRequest.TranslateMessages: models, limits, tools and tool choice of the request are carried over field by field in the source and are not part of the model.
- Swapping the whole state on a reload: `Gateway.BuildState` builds the next one; requests under way keep the state they began with, as in the source.
- Authentication, configuration loading and environment overrides, the file watcher, the models, health and metrics pages, target URLs, token estimates and the scripts: easy, or outside the kernel.
