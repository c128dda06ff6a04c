# Verified models of the platform's protocol, streaming, caching and brief-normalisation cores

The platform is a signal-intelligence web application. Most of it is plumbing; these Dafny modules model the parts
that hold real protocol, streaming, caching and transformation logic, and prove what their documentation and tests
promise. Where a promise turns out not to hold, the modules prove exactly when it does.

| module | what it models |
|---|---|
| `KeyStore` | one key of the shared store: single-key atomic commands, and expiry |
| `Idempotency`, `IdempotentReplay` | the idempotency wrapper as an automaton, and any number of requests racing on one key; what it brings about |
| `SchedulerLease` | the singleton scheduler's lease with its two-command renewal and release |
| `Jwks` | the signing-key client: double-checked locking around one fetch |
| `AgentStream` | one streamed model response, its interleaved tool-call fragments |
| `AgentLoop`, `AgentRounds` | the chat agent's tool loop: event trace, transcript, saved message; one round told from its chunks |
| `SseWire` | the wire form of events, and the event-stream reader of section 9.2 of the WHATWG HTML Living Standard |
| `JsonReader` | a reader of JSON (RFC 8259) for the payloads on the wire |
| `ChatContext` | the conversation window with sliding expiry, and how a turn opens it |
| `Embeddings` | batch embedding over a cache that loses, gains and fails silently |
| `CostTracking`, `CostInterleaving` | cost counters with a sliding expiry; any number of overlapping calls |
| `DeadLetters` | the dead-letter records and their index |
| `EntityResolver` | two matching layers and the upsert of scored links |
| `Text`, `BriefJson` | string and JSON helpers |
| `BriefSchema`, `BriefProperties`, `BriefPasses` | brief normalisation, what it keeps, and exactly when it is a projection |
| `BriefOrigins`, `BriefLegacy` | where each part of a normalised brief comes from |
| `BriefCoercion`, `BriefStorage` | the reference backfilling that follows normalisation, and the second normalisation before storing |
| `CausalTrend` | trend, fit quality, projection, impact figures and daily aggregation over the reals |

Protocols (`Idempotency`, `SchedulerLease`, `Jwks`, `CostInterleaving`) are step systems: a state, events, the enabled
ones, and a step function; one event is one store command, one local decision or the passing of time, and runs
interleave them freely. `Feasible` runs are all of them; `Legal` ones also meet a premise on timing.
Code that changes things step by step is imperative: classes for the objects with fields, loops where the source
loops, each method proved against a reference function about which the properties are then proved.

What lies outside is a parameter: the model's replies and the tools (`AgentLoop.World`), the embedding model and the
cache key (`Embeddings.Model`), what the matching layers find, the served key sets, the square root, the least-squares
fit (only its normal equations are assumed), the printed form of identifiers that are not strings. Numbers are reals or integers,
time is an integer that never decreases.

## What turned out not to hold as documented

- Idempotency: the decorator's documentation promises 400 for a missing header; the code runs the handler as if it
  were undecorated and never answers 400 (`Idempotency.Endpoint`). A duplicate that finds the key gone at its first
  read ends in an uncaught `TypeError`, not in a 409; over all runs that is exactly when it happens
  (`KeyVanishedExactly`), and it does happen, after a release as well as after an expiry (`AReleasedKeyVanishes`,
  `AnExpiredKeyVanishes`). Mutual exclusion lasts exactly as long as the key does
  (`Idempotency.ExclusionLastsExactlyTheTtl`). Short of its expiry a key becomes free exactly when the DELETE of a
  failed run takes effect (`KeyIsFreedExactlyByARelease`): a cancelled handler or a lost DELETE blocks it until then
  (`UnownedKeyIsFrozen`). The DELETE of a failed run does not look at the value, so after an expiry it frees the key of
  its successor (`ALateReleaseFreesAnothersKey`), and two requests can succeed in one lifetime of the key
  (`TwoSuccessesInOneLifetime`). What remains without any premise on timing: successes and running handlers together
  are at most one more than the expiries (`SuccessesAreBoundedByExpiries`).
- Scheduler: token check and command are two steps. Acting on its own token at once, a process acts on its own key if
  and only if no other process's DELETE comes in between (`ActsOnItsOwnKeyExactly`, `ADeleteInBetween`). A release
  between whose steps the lease has run out deletes another process's lease, and exactly then two processes become
  active (`LateReleaseDeletesAnothersLease`, `TwoSchedulersAfterALateRelease`). Without any premise on timing there is
  at most one active process more than the lease has run out (`OverlapIsBoundedByExpiries`).
- Agent: a model stream that breaks off with an exception leaves a trace without `done` and without `error`, and so
  does a tool result that the citation extractor cannot handle, such as one whose `summary` is null
  (`backend/agent/agent.py:93`); `TraceClosesOnce` is the exact condition. The service stores the texts of all rounds
  and the agent saves those of the last one; they agree exactly if no round that went on to another one showed any
  text, or the turn broke off (`ServiceStoresWhatTheAgentSavesExactly`). The service stores the user's message as it
  came and the agent appends it filtered, so a rebuild gives back what was appended only if the filter changed nothing
  either (`RebuildsFromTheLogExactly`).
- Conversation window: the service stores the user's message before it runs the agent
  (`backend/services/chat_agent_service.py:205-212`), so after a cache miss the rebuilt window has the message and its
  filtered form (`MissRepeatsTheUserMessage`); an append or a metadata update that meets a missing entry drops the
  history (`WindowIsTheLastTenExactlyWithoutBlindWrites`).
- Wire form: an event with an empty name arrives as `message`; the round trip holds exactly for names that are not
  empty and have no line end, a carriage return included (`RoundTripExactlyForGoodNames`).
- Embeddings: the cache key folds case, and the blank at which a long text was cut, and the vector does not; a batch is
  the per-text map for every history of the cache exactly if no two prepared texts share a key and differ in their
  vectors (`BatchIsThePerTextMapExactlyIfKeysSeparate`).
- Cost counters: user and organisation are incremented in separate transactions. A reader in between can see the user
  ahead by the pending cost, without any expiry (`AFirstCallIsSeenHalfBooked`, `BetweenTheTransactions`). After a call
  whose transactions are apart the organisation covers its users again exactly if its counter had not expired
  meanwhile, or the charged user had spent nothing before, or that user's counter has expired too
  (`SplitCallIsCoveredExactly`). Calls that take one instant always keep the cover
  (`OrgCoversItsUsers`). Any number of overlapping calls keep it up to what is pending, as long as the organisation's
  counter does not expire under one of them (`OverlappingCallsAreCovered`); where it does, up to what is pending and
  what the users with pending calls then held beyond it (`OverlappingCallsAreCoveredUpToTheDebt`,
  `AnExpiryIsCoveredExactly`), until a later expiry sets that anew; one without a pending call clears it
  (`AQuietExpiryClearsTheDebt`).
- Briefs: normalisation is not idempotent for every payload it accepts. `BriefPasses.IdempotentExactly` is the exact
  condition over all payloads and arguments; for trimmed or absent texts and a confidence that is absent or in [0, 1]
  the only exception is a canonical payload whose `metadata.confidence_level` is a list or an object, with a confidence
  in the payload and none passed: it returns once and raises the second time. Two passes always settle
  (`TwoPassesSettle`). A percentage that stands in for an open confidence is kept as it is by the first pass; it is
  what coercion passes, so a coerced brief can hold such confidences and the catalogue's own is then never consulted
  (`CoercedConfidencesAreProportionsExactly`, `PassedConfidence`). The normalisation before storing brings them all
  into [0, 1] (`StoringKeepsTheCoercedBrief`).

## Model

| member | source | states |
|---|---|---|
| Idempotency.Wrapper | backend/middleware/idempotency.py:95-179 | the wrapper with its poll loop, any store command failing, computes what the automaton computes; at most 50 polls; exactly when it ends in "still processing", in the body conflict and in the uncaught error of a missing value; a replay exactly of the record it decides on, if that is for the same body |
| Idempotency.Endpoint | backend/middleware/idempotency.py:65-93 | without a request object or a key in the header the handler runs as if undecorated and the store is not asked; otherwise the wrapper |
| Idempotency.DriveHandling | backend/middleware/idempotency.py:143-179 | once in the handler a request ends with its own result, also if the store fails, or with its own exception, or that of a failing release |
| Idempotency.OwnersComeFromClaims | backend/middleware/idempotency.py:95-100 | in any reachable state a request starts owning the key only by claiming it while absent |
| Idempotency.OnlyTheOwnerWrites | backend/middleware/idempotency.py:139-177 | a taken key is changed by nobody but its owner, who thereby stops owning it |
| Idempotency.StepKeepsOwners | backend/middleware/idempotency.py:95-177 | every step keeps: at most one owner, and the key holds the sentinel while there is one |
| Idempotency.StepKeepsPcs | backend/middleware/idempotency.py:100-177 | every step keeps: what a request has read, is storing or has replayed is the record of the successful run it names, and nobody is in the corrupt-entry branch |
| Idempotency.StepKeepsCell | backend/middleware/idempotency.py:95-177 | every step keeps: the key holds the sentinel or the record of a run that succeeded in the key's present lifetime |
| Idempotency.StepKeepsEpochs | backend/middleware/idempotency.py:143-177 | every step keeps: once a run has succeeded no handler runs until the key expires, also if storing the result failed |
| Idempotency.StepKeepsInv | backend/middleware/idempotency.py:95-179 | the whole invariant is inductive under every event, failed commands, lost replies and cancellations included |
| Idempotency.OneHandlerAtATime | backend/middleware/idempotency.py:95-151 | over every interleaving of any number of requests: one handler at a time, the key absent or the sentinel or a record of a successful run, the corrupt-entry branch unreachable |
| Idempotency.AtMostOneSuccess | backend/middleware/idempotency.py:143-177 | at most one handler run ever succeeds while the key has not expired; at most one per lifetime of the key |
| Idempotency.RecordsAreOfTheLastSuccess | backend/middleware/idempotency.py:103-110 | over every run, what a read finds is the sentinel or the record of the last success, the only one in the key's present lifetime |
| Idempotency.ReplayIsFaithful | backend/middleware/idempotency.py:119-137 | a replay carries body and status of the very run whose record was read, and that run was for the same body hash; while the key has not expired there is no other |
| Idempotency.EveryRequestStops | backend/middleware/idempotency.py:105-117 | whatever the others do, a request makes at most 56 moves, 50 of them polls |
| Idempotency.MoveLowersRank | backend/middleware/idempotency.py:95-179 | each of a request's own moves, and no other event, brings it nearer its end |
| Idempotency.ReleaseMakesRoom | backend/middleware/idempotency.py:146-149 | after a failed run has released the key the next claim enters the handler |
| Idempotency.ExclusionLastsExactlyTheTtl | backend/middleware/idempotency.py:96-98 | a newcomer enters the handler beside a running one if and only if the key has expired by then |
| Idempotency.KeyVanishedExactly | backend/middleware/idempotency.py:100-141 | over every run, a request that was not cancelled ends in the uncaught error if and only if its first read found the key gone |
| Idempotency.ReleasedBetweenClaimAndRead | backend/middleware/idempotency.py:100-149 | from any state with a claim pending against a key about to be released, a run to that error |
| Idempotency.ExpiredBetweenClaimAndRead | backend/middleware/idempotency.py:100-124 | from any state with a claim pending against a finished key about to expire, a run to that error |
| Idempotency.AReleasedKeyVanishes | backend/middleware/idempotency.py:95-149 | such a run from the very start, for any bodies and any ttl: the first request fails and releases the key |
| Idempotency.AnExpiredKeyVanishes | backend/middleware/idempotency.py:95-174 | such a run from the very start: the first request succeeds and the key expires |
| Idempotency.KeyIsFreedExactlyByARelease | backend/middleware/idempotency.py:146-149 | over any run short of the expiry, a taken key becomes absent if and only if the DELETE of a failed run takes effect |
| Idempotency.UnownedKeyIsFrozen | backend/middleware/idempotency.py:143-177 | a taken key without an owner stays as it is until it expires: no handler runs, nothing is written |
| Idempotency.CancellationAbandonsTheKey | backend/middleware/idempotency.py:144-149 | a request cancelled while it owns the key leaves such a key, since only `Exception` is caught |
| Idempotency.StepKeepsBounded | backend/middleware/idempotency.py:95-177 | every step of the code, whatever the timing, keeps: successes, running handlers and an absent key together are at most one more than the expiries |
| Idempotency.SuccessesAreBoundedByExpiries | backend/middleware/idempotency.py:95-177 | over every run of the code, timely or not, successes and running handlers together are at most one more than the expiries; the corrupt-entry branch stays unreachable |
| Idempotency.ALateReleaseFreesAnothersKey | backend/middleware/idempotency.py:146-149 | after a failed run's DELETE the next request always enters the handler; it does so beside one that claimed the key in the same lifetime if and only if the key had expired before the DELETE |
| Idempotency.AReleaseAfterTheExpiryLetsTwoSucceed | backend/middleware/idempotency.py:146-177 | from any state in which a failed run is about to release an expired key, a run in which two more requests succeed in one lifetime of the key |
| Idempotency.TwoSuccessesInOneLifetime | backend/middleware/idempotency.py:95-177 | such a run from the very start, for any bodies, answers and ttl: one success per lifetime needs the premise on timing |
| IdempotentReplay.StepKeepsWinners | backend/middleware/idempotency.py:143-177 | every step, whatever the timing, keeps: a request that has succeeded is about to store the record of its own run, or has finished |
| IdempotentReplay.ASuccessIsStored | backend/middleware/idempotency.py:151-179 | over every run, whatever the timing: the next command of a request whose run has succeeded puts that run's body hash, response and status under the key for a full ttl, unless the command is lost; the caller gets the run's own result |
| IdempotentReplay.AClaimTakesAFreeKey | backend/middleware/idempotency.py:95-100 | a claim that takes effect on a free key holds it for a full ttl and the claimant runs the handler; on a taken one it changes nothing |
| IdempotentReplay.EveryReaderIsTold | backend/middleware/idempotency.py:100-137 | while the key holds the record of a success, every request that has not read yet, or comes later, can only end with that response and status for the same body, and with a conflict for another |
| IdempotentReplay.AStoredSuccessIsReplayed | backend/middleware/idempotency.py:95-179 | over every timely run from the start: once a success is stored, with or without the reply, every later or still reading request that finishes before the expiry, uncancelled and without a fault, is told that success |
| IdempotentReplay.ADuplicateIsToldAtOnce | backend/middleware/idempotency.py:95-137 | a duplicate that comes alone is told at its fourth step |
| IdempotentReplay.KeysLastUntilTheyExpire | backend/middleware/idempotency.py:96-98 | time adds up, and a key is there until its expiry and not after |
| IdempotentReplay.OnlyTimePasses | backend/middleware/idempotency.py:96-98 | no step but the passing of time takes time |
| SchedulerLease.StepKeepsInv | worker.py:103-153 | acquire, both halves of renewal and of release, crashes and time keep: the active process's token is in the key, with the expiry of its last renewal |
| SchedulerLease.MutualExclusion | worker.py:127-153 | for any number of processes and any timely interleaving at most one is between acquire and release, and the unexpired key holds its token |
| SchedulerLease.TimelyRenewalAndReleaseSucceed | worker.py:107-116 | a timely process never finds its lease lost, its renewal extends the key to a full ttl, and its release deletes its own key |
| SchedulerLease.ExclusionLastsExactlyTheTtl | worker.py:132-134 | if the holder lets time pass, a second process becomes active if and only if the lease has run out |
| SchedulerLease.PunctualRunsAreLegal | worker.py:107-113 | sleeping `max(1, ttl // 3)` with latency below the rest of the ttl meets the timing premise |
| SchedulerLease.SleepLeavesRoom | worker.py:108 | the sleep leaves room exactly for a ttl of 2 or more, and at least two thirds of the ttl from 3 on |
| SchedulerLease.PunctualSchedulersNeverOverlap | worker.py:103-153 | punctual schedulers never overlap, over whole runs |
| SchedulerLease.SleepIsAThird | worker.py:108 | the renewal sleeps a third of the ttl in whole seconds, and at least one |
| SchedulerLease.ATokenIsChecked | worker.py:110-153 | in any state, so over every run: a process that reads a missing key or another's token, in the renewal or in the release, has left; reading its own it goes on to act; the key is as it was |
| SchedulerLease.TheExitedStayAway | worker.py:112-116 | a process that has left changes nothing any more |
| SchedulerLease.ActsOnItsOwnKey | worker.py:113-153 | acting on a key that holds its own token, a process gives it a full ttl or frees it |
| SchedulerLease.ActsOnItsOwnKeyExactly | worker.py:110-153 | a process that has read its own token and acts without time passing, whatever the others do meanwhile, acts on a key that holds its token if and only if no other DELETE came in between |
| SchedulerLease.ADeleteInBetween | worker.py:152-153 | the input for which it does not: another's late DELETE and a third process in between |
| SchedulerLease.WhoEndsIsGone | worker.py:132-153 | a process that finds the lease taken, has released it or crashes is gone; only the release changes the key |
| SchedulerLease.AFreeLeaseIsTaken | worker.py:132 | a process that finds the key free holds it for a full ttl |
| SchedulerLease.TwoReleasesAtOnce | worker.py:103-153 | a run from the very start to such a state |
| SchedulerLease.LateReleaseDeletesAnothersLease | worker.py:152-153 | if a releasing process lets time pass between check and DELETE, a process that starts meanwhile becomes active, and a third one beside it, if and only if the lease had run out |
| SchedulerLease.TwoSchedulersAfterALateRelease | worker.py:103-153 | such a run from the very start, for any ttl |
| SchedulerLease.OnlyExpiriesMakePlaces | worker.py:103-153 | the active processes, and room for one more, grow only when the lease runs out, by one |
| SchedulerLease.OverlapIsBoundedByExpiries | worker.py:103-153 | over every run, timely or not, late renewals and releases included: at most one active process more than the lease has run out |
| Jwks.ParseKeys | backend/auth/jwks.py:89-112 | the loop keeps exactly the usable entries, later ones replacing earlier ones, and fails on none |
| Jwks.ParsedIsTheLastUsableEntry | backend/auth/jwks.py:95-112 | an id is in the result exactly if a usable entry has it, with the material of the last such entry |
| Jwks.StepKeepsInv | backend/auth/jwks.py:41-116 | every step of every caller keeps: one lock holder, and a cache that is the latest completed fetch or was cleared |
| Jwks.SingleFlight | backend/auth/jwks.py:59-68 | however callers interleave, at most one fetch is in flight |
| Jwks.FailedFetchLeavesTheCache | backend/auth/jwks.py:84-123 | a fetch that fails, by HTTP or for want of a usable key, leaves keys and fetch time as they were |
| Jwks.ReturnedKeyIsFromTheLatestFetch | backend/auth/jwks.py:54-75 | a key is returned only out of the latest completed fetch |
| Jwks.CachedKeysAreFresh | backend/auth/jwks.py:54-75 | without fetching, a caller gets a key if and only if the last completed fetch is less than half an hour old, is still cached and served the key |
| Jwks.GoodEntriesAreServed | backend/auth/jwks.py:95-112 | every entry with an id and a key is served, an empty id never |
| Jwks.TheLockIsGivenBack | backend/auth/jwks.py:59-75 | however callers interleave, fail or are cancelled: when nobody is about to check or fetching, the lock is free |
| Jwks.ACallerAloneGetsItsKey | backend/auth/jwks.py:54-116 | a caller that finds nothing usable fetches once: a served set with its key is cached and gives that key, and the lock is free again |
| Jwks.TheCancelledGiveBackTheLock | backend/auth/jwks.py:59-68 | a cancelled caller has failed and gives back the lock it held |
| Jwks.AClearedCacheHasNothing | backend/auth/jwks.py:54-68 | after the cache is cleared nobody gets a key without a fetch |
| Jwks.StepKeepsSpaced | backend/auth/jwks.py:54-68 | double-checked locking keeps completed fetches at least the ttl apart, if every served set has every requested id and nobody clears the cache |
| Jwks.FetchesOnlyAfterTheTtl | backend/auth/jwks.py:125-136 | then a fetch starts only when the ttl has passed since the last completed one; failed fetches are allowed in between |
| Jwks.FetchesAreRare | backend/auth/jwks.py:125-136 | then the number of completed fetches is bounded by the time the run takes |
| AgentStream.AddFragment | backend/agent/agent.py:350-366 | one fragment takes the accumulator of a fragment list to that of the longer list |
| AgentStream.ConsumeStream | backend/agent/agent.py:327-366 | the chunk loop yields the content events in order, their concatenation as the assistant's text, the last finish reason, and the accumulator of all fragments |
| AgentStream.InOrderIsCalls | backend/agent/agent.py:374-386 | the accumulator's values in insertion order are the calls of the reference definition |
| AgentStream.FirstSeenIsExact | backend/agent/agent.py:352-358 | the accumulator's keys are exactly the indices seen, each once |
| AgentStream.InterleavingIsIrrelevant | backend/agent/agent.py:350-366 | any two arrival orders in which each call's own fragments come in the same order build the same accumulator |
| AgentStream.NeighboursMaySwap | backend/agent/agent.py:350-366 | neighbouring fragments of different calls may change places |
| AgentStream.ArgumentsAreConcatenated | backend/agent/agent.py:363-366 | a call's arguments are its fragments' arguments concatenated in arrival order |
| AgentStream.FinishIsTheLastNonEmpty | backend/agent/agent.py:335-337 | the finish reason is that of the last chunk, by position, that has one |
| AgentStream.CallsNeedFragments | backend/agent/agent.py:350-358 | there is a call exactly if some chunk carries a fragment |
| AgentStream.StreamsConcatenate | backend/agent/agent.py:339-366 | texts and fragments of a longer stream are those of its parts, one after the other |
| AgentStream.OneChunk | backend/agent/agent.py:339-350 | a chunk gives its content, if it has any, and its fragments |
| AgentStream.CallsAreInFirstSeenOrder | backend/agent/agent.py:352-358 | an earlier call had a fragment before the later one's first |
| AgentStream.IdAndNameAreTheLastGiven | backend/agent/agent.py:359-363 | a call's id and name are the last that its fragments give, by position |
| AgentLoop.ChatAgent.ExecuteCall | backend/agent/agent.py:396-460 | one call shows its events, collects its citations and recommendations, and answers with exactly one tool message of the same id, also if the tool throws or the arguments do not parse; whether handling the result raises |
| AgentLoop.ChatAgent.ExecuteCalls | backend/agent/agent.py:396-460 | the calls of a round up to the first whose handling raises; without one, all of them and one reply each |
| AgentLoop.ChatAgent.BuildMessages | backend/agent/agent.py:499-518 | the first transcript is the system prompt followed by the window |
| AgentLoop.ChatAgent.Round | backend/agent/agent.py:303-464 | one model call: what it shows and the transcript it leads to are those of the reference round |
| AgentRounds.RoundGoesOnExactly | backend/agent/agent.py:303-372 | on the chunks alone: a round executes its tools and goes on if and only if its stream is whole, some chunk carries a fragment, the last finish reason is not "stop" and handling no result raises; when it answers, fails or breaks off |
| AgentRounds.RoundShowsItsCalls | backend/agent/agent.py:396-437 | a round that goes on shows one `tool_call` and one `tool_result` per call in first-seen order, one that breaks off at a result those up to it, any other none |
| AgentRounds.RoundFinds | backend/agent/agent.py:442-451 | it shows the citations of its calls, and the recommendations of the one tool that gives any, in their order |
| AgentRounds.RoundHandsOn | backend/agent/agent.py:374-460 | and hands on the transcript with the assistant's text and calls and one reply per call: its tool's result, or the error it threw |
| AgentLoop.ChatAgent.Reason | backend/agent/agent.py:300-464 | the loop computes the reference turn |
| AgentLoop.ChatAgent.Run | backend/agent/agent.py:215-495 | one user turn on the context manager: the window it opens on, the events emitted, the transcripts sent, the message saved and the context left behind are those of the reference turn; a blocked input shows one error and touches nothing else |
| AgentLoop.ChatAgent.Close | backend/agent/agent.py:466-495 | the round-limit notice, the message appended to the context and the closing event |
| AgentLoop.TraceClosesOnce | backend/agent/agent.py:303-460 | one to five model calls; exactly one `done` or `error`, as the last event, if and only if neither the last stream nor the handling of one of its tool results raised |
| AgentLoop.DoneTraceShowsTheSavedMessage | backend/agent/agent.py:466-480 | if the turn is done, the contents after the last `thinking` are exactly the saved message, round-limit notice included; nothing shown exactly if nothing saved |
| AgentLoop.DoneCountsEverythingEmitted | backend/agent/agent.py:485-495 | `total_citations` and `total_recommendations` count the events this agent object has ever emitted |
| AgentLoop.EveryOutcomeIsGood | backend/agent/agent.py:303-464 | whatever model and tools do, a round ends the turn cleanly or extends the transcript by one well-formed exchange |
| AgentLoop.ExchangeIsWellFormed | backend/agent/agent.py:388-460 | an assistant message with calls is followed by one tool message per call, same ids, same order |
| AgentLoop.RoundsSend | backend/agent/agent.py:303-317 | from a well-formed transcript, every transcript sent is well formed and extends the ones before |
| AgentLoop.TranscriptsAreWellFormed | backend/agent/agent.py:292-317 | every transcript passed to the model obeys the grammar and extends the previous one, whatever the tools do |
| AgentLoop.RoundsSay | backend/agent/agent.py:341-372 | over any rounds, what is shown after the last `thinking` concatenates to the final text |
| AgentLoop.RoundsShow | backend/agent/agent.py:341-372 | over any rounds, all texts shown concatenate to the final text if and only if no round that went on showed any |
| AgentLoop.ServiceStoresWhatTheAgentSavesExactly | backend/services/chat_agent_service.py:237-260 | the service stores what the agent saves if and only if the turn broke off or no round that went on to another one showed any text |
| AgentLoop.RebuildsFromTheLogExactly | backend/services/chat_agent_service.py:205-260 | a rebuild from the service's messages of a turn is a rebuild from what was appended if and only if the filter left the user's message as it was, and the turn broke off or no round that went on showed any text |
| SseWire.EscapeIsOneLine | backend/agent/agent.py:62-65 | string escaping (section 7 of RFC 8259) leaves no raw line end |
| SseWire.DumpsIsOneLine | backend/agent/agent.py:64 | the printed payload is one line, for all JSON values |
| SseWire.OneEvent | backend/agent/agent.py:62-65 | one event in front of any stream is read back as itself, then the rest is read |
| SseWire.RoundTrip | backend/agent/agent.py:55-65 | any list of events with non-empty one-line names comes back from the wire exactly |
| SseWire.DispatchedNamesAreGood | backend/agent/agent.py:62-65 | no stream whatever dispatches an event with an empty name or a line end in it |
| SseWire.RoundTripExactlyForGoodNames | backend/agent/agent.py:55-65 | the round trip holds if and only if every name is non-empty and free of line ends |
| SseWire.PrintableAsciiIsKept | backend/agent/agent.py:64 | printable ASCII is printed as it is, but for the quote and the backslash, and nothing else is printed |
| JsonReader.TextReadsBack | backend/agent/agent.py:64 | every string is read back from between its quotes, whatever follows |
| JsonReader.ValueReadsBack | backend/agent/agent.py:64 | every JSON value that is printed is read back, whatever follows: the reader is a left inverse of the printer |
| JsonReader.PayloadsReadBack | backend/agent/agent.py:55-65 | end to end: every event of every list arrives with its name, and its payload is read back as the value sent |
| ChatContext.ConversationContext.Load | backend/agent/context.py:42-63 | a hit refreshes the expiry, an entry that does not parse is deleted, a missing one stays missing |
| ChatContext.ConversationContext.SaveContext | backend/agent/context.py:65-93 | overwrites the entry with the last ten messages and a fresh expiry |
| ChatContext.ConversationContext.AppendMessage | backend/agent/context.py:95-128 | load, append, trim and save amount to the reference append; the trimmed window is returned |
| ChatContext.ConversationContext.SetMetadataField | backend/agent/context.py:130-149 | keeps the messages and sets one field |
| ChatContext.ConversationContext.BuildFromDb | backend/agent/context.py:181-205 | the entry becomes the last ten of the stored messages, with the metadata passed |
| ChatContext.ConversationContext.Perform | backend/agent/context.py:42-205 | any run of operations and passing time has the effect of the reference run |
| ChatContext.WindowIsKeptUnlessBlind | backend/agent/context.py:113-149 | one operation keeps the window equal to the last ten of the log exactly if it does not write into a missing or unreadable entry of a non-empty log |
| ChatContext.WindowIsTheLastTenExactlyWithoutBlindWrites | backend/agent/context.py:113-205 | over any run of appends, metadata updates, rebuilds and expiries the window is at all times the last ten of the log if and only if no write is blind |
| ChatContext.EntriesLastHalfAnHour | backend/agent/context.py:42-93 | after a write or a hit an entry that is not touched is there for exactly half an hour |
| ChatContext.AppendsKeepTheRest | backend/agent/context.py:95-128 | an append adds its line at the end, drops what is before the last ten and keeps the metadata |
| ChatContext.UpdatesKeepTheRest | backend/agent/context.py:130-149 | a metadata update sets its field and keeps the other fields and the messages |
| ChatContext.FieldsAreTheLastSet | backend/agent/context.py:95-149 | over any run in which the entry does not go missing a field is what its last update has set |
| ChatContext.OpeningKeepsTheMetadata | backend/agent/agent.py:258-276 | a turn keeps the metadata of an entry that is there and starts a missing one without any |
| ChatContext.OpenTurnOf | backend/agent/agent.py:255-277 | how a turn opens: load, rebuild on a miss, append |
| ChatContext.HitOpensOnTheLastTen | backend/agent/agent.py:258-277 | after a hit the window is the last ten of the log, the user's filtered message among them |
| ChatContext.MissRepeatsTheUserMessage | backend/services/chat_agent_service.py:205-240 | after a miss the stored message and its filtered form are both in the window; it is right only if the nine messages before are all the stored one |
| Embeddings.EmbeddingCache.Get | backend/ai/embedding_cache.py:50-77 | answers what the cache holds under the text's key at that moment, or nothing if it is disabled or the read fails |
| Embeddings.EmbeddingCache.Store | backend/ai/embedding_cache.py:79-101 | stores the prepared text's vector under its key |
| Embeddings.EmbeddingCache.Set | backend/ai/embedding_cache.py:79-101 | whatever happens meanwhile, and even if the write fails, the entries are those of a history of stores of prepared texts and evictions |
| Embeddings.PrepareKeepsTheText | backend/ai/embeddings.py:332-343 | preparing keeps every word and every non-blank character of a text whose normal form has at most 8000 characters; of a longer one the first 8000 |
| Text.WordsKeepTheCharacters | backend/ai/embeddings.py:332-343 | the words of any text, one after the other, are its characters without the white space |
| Text.SameWordExactly | backend/ai/embeddings.py:332-343 | two non-blank characters fall into one word if and only if no white space lies between them |
| Text.NormalKeepsTheCharacters | backend/ai/embeddings.py:332-343 | normalising keeps every non-blank character and every word |
| Text.AsciiWhiteSpace | backend/ai/embeddings.py:339 | which ASCII characters are white space |
| Embeddings.EmbeddingService.EmbedText | backend/ai/embeddings.py:66-98 | the per-text reference: what the probe answers, or else the text's own vector |
| Embeddings.EmbeddingService.Probe | backend/ai/embeddings.py:119-126 | every slot is what its probe answers at its moment, in the order of the moments; the misses are the empty slots |
| Embeddings.MissesAreExact | backend/ai/embeddings.py:119-126 | the misses are exactly the empty slots, in increasing order |
| Embeddings.EmbeddingService.Fetch | backend/ai/embeddings.py:134-161 | the calls partition the misses in order, full chunks but for the last, and the vectors are those of the texts |
| Embeddings.EmbeddingService.Merge | backend/ai/embeddings.py:173-177 | every miss slot gets its own text's vector, every hit slot stays |
| Embeddings.EmbeddingService.BatchEmbed | backend/ai/embeddings.py:100-179 | one vector per input in order: the batch is the plain per-text definition over what its probes met, under any evictions, stores by others and silent failures; the calls carry exactly the misses, in order, in full chunks but for the last |
| Embeddings.BatchServesItsTexts | backend/ai/embeddings.py:119-179 | slot i is the vector of some prepared text with the key of the prepared input i |
| Embeddings.EntriesAreServed | backend/ai/embedding_cache.py:79-101 | over every history of the cache, an entry is the vector of some prepared text with that key |
| Embeddings.ServedVectorsAreTheCachedOnes | backend/ai/embedding_cache.py:50-101 | a text can be given exactly the vectors of the prepared texts with its key: each of them by some history of the cache, and no other by any |
| Embeddings.NormalOfPrepared | backend/ai/embedding_cache.py:133-134 | normalising a prepared text for its key takes nothing from it but a blank at the cut |
| Embeddings.KeysFoldCaseAndTheCut | backend/ai/embedding_cache.py:133-138 | with a hash that keeps texts apart, two prepared texts share a key exactly if they agree up to case and a blank at the cut |
| Embeddings.ACutAfterABlankCollides | backend/ai/embedding_cache.py:133-138 | a text cut right after a blank shares its key with the prepared text one character shorter |
| Embeddings.CollidingTextIsServed | backend/ai/embedding_cache.py:50-101 | once a text has been embedded, a batch of another one with its key gets its vector |
| Embeddings.BatchIsThePerTextMapExactlyIfKeysSeparate | backend/ai/embeddings.py:100-179 | every run of a batch, over every history of the cache, returns the per-text map if and only if no two prepared texts share a key and differ in their vectors |
| CostTracking.CostTracker.IncrementCost | backend/middleware/cost_tracking.py:212-219 | adds to the live amount, restarts the expiry, returns the new total |
| CostTracking.CostTracker.TrackTokens | backend/middleware/cost_tracking.py:72-136 | the effect of the three transactions at their own times and of the endpoint's metrics, the totals and percentages reported, and in order a warning for each limit more than 80 percent used |
| CostTracking.CostTracker.CheckBudget | backend/middleware/cost_tracking.py:149-183 | within budget exactly if every live amount is below its limit; reading changes nothing |
| CostTracking.TrackOne | backend/middleware/cost_tracking.py:87-101 | what a counter reads at any later time after one call |
| CostTracking.CounterIsTheSumOfTheLongestUnbrokenSuffix | backend/middleware/cost_tracking.py:77-101 | after any run a counter is the sum of the costs in the longest suffix of its calls with no gap reaching the ttl |
| CostTracking.AmountsFall | backend/middleware/cost_tracking.py:212-219 | between calls a counter stays or drops, and is never negative |
| CostTracking.UserSumAfterCall | backend/middleware/cost_tracking.py:87-101 | one call adds its cost to at most one of an organisation's users |
| CostTracking.OrgCoversItsUsers | backend/middleware/cost_tracking.py:87-101 | after any run of calls that take one instant each, an organisation's daily counter is at all times at least the sum of its users' daily counters |
| CostTracking.DeadOrganisationsHaveDeadUsers | backend/middleware/cost_tracking.py:87-101 | no user has a live daily counter once the organisation's has expired |
| CostTracking.BetweenTheTransactions | backend/middleware/cost_tracking.py:87-98 | between a call's transactions the users are ahead by at most the pending cost while the organisation's counter lives; exactly what is read once it is gone |
| CostTracking.SplitCallIsCoveredExactly | backend/middleware/cost_tracking.py:87-101 | after any run and one call whose transactions are apart the cover holds if and only if the organisation's counter had not expired, or the charged user is none of these, had spent nothing, or has expired too |
| CostTracking.AFirstCallIsSeenHalfBooked | backend/middleware/cost_tracking.py:87-98 | without any expiry, a reader between the transactions of a first call sees the user's cost and nothing for the organisation |
| CostTracking.SplitTransactionsBreakTheCover | backend/middleware/cost_tracking.py:87-101 | an instance of the failing case: the second call of a user who has spent straddles the expiry of the organisation's counter |
| CostTracking.MetricsAreTheDaysSums | backend/middleware/cost_tracking.py:106-110 | an endpoint's metric of a day is the sum of the costs of its calls on that day, until the day's last call, of whatever endpoint, is a month old |
| CostTracking.PricesOfAMillion | backend/middleware/cost_tracking.py:22-25 | the prices of a million tokens, in and out |
| CostTracking.CostsAddUp | backend/middleware/cost_tracking.py:78-81 | the cost of two calls is that of one call with the tokens of both |
| CostInterleaving.StepKeepsInv | backend/middleware/cost_tracking.py:87-101 | every transaction and every passing of time, whatever the timing, keeps: a live counter of a user without a pending call expires no later than its organisation's live one |
| CostInterleaving.OnlyOpenUsersAreLeft | backend/middleware/cost_tracking.py:87-101 | once the organisation's counter is gone, only users with a pending call still hold anything |
| CostInterleaving.AnExpiryIsCoveredExactly | backend/middleware/cost_tracking.py:87-101 | the organisation's counter expires under any number of pending calls: the cover up to what is pending survives if and only if the users with pending calls hold no more than what is pending |
| CostInterleaving.AQuietExpiryClearsTheDebt | backend/middleware/cost_tracking.py:87-101 | an expiry while none of the organisation's calls is pending clears whatever earlier ones have left |
| CostInterleaving.OverlappingCallsAreCoveredUpToTheDebt | backend/middleware/cost_tracking.py:77-101 | over every interleaving of any number of calls, whatever expires under them: users are ahead of their organisation by at most what is pending and what the last expiry of its counter has left them |
| CostInterleaving.OverlappingCallsAreCovered | backend/middleware/cost_tracking.py:77-101 | if the organisation's counter never expires under one of its pending calls, its users are ahead of it by at most what is pending, and not at all when nothing is |
| CostInterleaving.ACallAloneIsTracked | backend/middleware/cost_tracking.py:87-101 | a call whose steps nobody comes between has the effect of its three transactions and leaves nothing pending |
| DeadLetters.DeadLetterQueue.AddJob | backend/jobs/retry_strategy.py:35-49 | files the record and the id, both for a week from now |
| DeadLetters.DeadLetterQueue.GetAll | backend/jobs/retry_strategy.py:54-73 | returns exactly the unexpired records, each once |
| DeadLetters.DeadLetterQueue.RetryJob | backend/jobs/retry_strategy.py:76-87 | removes the record and the id and returns nothing |
| DeadLetters.ApplyKeepsAgreement | backend/jobs/retry_strategy.py:45-49 | every operation and the passing of time keep: the id set lists every unexpired record and outlives it |
| DeadLetters.RunAgrees | backend/jobs/retry_strategy.py:27-87 | so after any sequence of whole operations |
| DeadLetters.RecordsFollowFilings | backend/jobs/retry_strategy.py:45-49 | what a record's key holds is determined by the job's last filing |
| DeadLetters.QueueFollowsItsHistory | backend/jobs/retry_strategy.py:54-87 | the queue holds exactly the jobs filed less than a week ago and not retried since |
| DeadLetters.RetryRemovesOnlyItsOwn | backend/jobs/retry_strategy.py:76-84 | a retry takes out its own record and id and no other |
| DeadLetters.RetryExactly | backend/jobs/retry_strategy.py:74-87 | a retry without a record changes nothing; otherwise record and id are gone, and the index with its last id |
| DeadLetters.LettersLastAWeek | backend/jobs/retry_strategy.py:45-49 | a filed job is in the queue for exactly a week, unless it is filed again or retried |
| EntityResolver.Resolver.Collect | backend/ml/entity_resolver.py:54-69 | one layer's matches are folded into the best score per entity |
| EntityResolver.Resolver.UpsertLink | backend/ml/entity_resolver.py:222-254 | at most one link per pair; the link's score becomes the greater of old and new, all others stay |
| EntityResolver.Resolver.ResolveSignal | backend/ml/entity_resolver.py:43-102 | every pair's score becomes the greater of what it was and what this call finds; the links returned are exactly those of the entities found |
| EntityResolver.Resolver.ResolveAll | backend/ml/entity_resolver.py:43-102 | after any run on any table each pair has at most one link, with the greater of its old score and the best of the run |
| EntityResolver.BestOfIsTheMaximum | backend/ml/entity_resolver.py:54-94 | that best is the maximum over all calls and both layers of the scores that reached the threshold |
| EntityResolver.HistoryIsMonotoneAndIdempotent | backend/ml/entity_resolver.py:54-94 | layer order is irrelevant, scores never fall, repeating a call changes nothing |
| BriefJson.AsStr | backend/briefs/schema.py:92-96 | a trimmed string or nothing; a neat string is kept |
| BriefJson.Texts | backend/briefs/schema.py:107-112 | only neat strings come out, and a list of them is kept |
| BriefJson.AsConfidence | backend/briefs/schema.py:115-120 | a number becomes a proportion, a percentage its hundredth, a proportion itself; the result is a proportion exactly if the value is a number or the fallback is one |
| Text.StripCutsBlanks | backend/briefs/schema.py:92-96 | stripping takes away white space at the two ends and nothing else |
| Text.FindIsTheFirst | backend/briefs/schema.py:123-129 | a search finds the first position, and nothing only where there is none |
| Text.LowerOfConcat | backend/briefs/schema.py:160 | lower-casing goes character by character |
| Text.LowerOfAscii | backend/briefs/schema.py:160 | of ASCII it takes the capitals to the small letters and keeps the rest |
| Text.NothingToTakeOut | backend/briefs/prompting.py:18 | without an occurrence a replacement by nothing changes nothing |
| Text.TheFirstIsTakenOut | backend/briefs/prompting.py:18 | the first occurrence is taken out, and then those in the rest |
| BriefJson.FalsyValues | backend/briefs/schema.py:92-131 | the values that count as false |
| BriefJson.NumbersOf | backend/briefs/schema.py:115-120 | a Boolean counts as 1 or 0 |
| BriefSchema.NormalizeClaim | backend/briefs/schema.py:201-229 | a claim that comes out has a non-blank text, at least one signal, tidy lists and no other member |
| BriefSchema.NormalizeEvidence | backend/briefs/schema.py:232-257 | exactly the objects become evidence, with non-blank reference, title and contribution |
| BriefSchema.LegacyToCanonical | backend/briefs/schema.py:260-404 | the conversion loop computes the reference conversion, and raises exactly where it does |
| BriefSchema.MergeIntoDefault | backend/briefs/schema.py:434-530 | the updates of the copied default compute the reference normalisation of a canonical payload |
| BriefSchema.NormalizeBriefBody | backend/briefs/schema.py:407-530 | both branches together |
| BriefOrigins.TextsOfOne | backend/briefs/schema.py:107-112 | of one item a list keeps a string that is not blank, trimmed |
| BriefOrigins.TextsOfConcat | backend/briefs/schema.py:107-112 | tidying a list goes item by item |
| BriefOrigins.SentencesFromTheFirst | backend/briefs/schema.py:132-136 | the sentences of a text are that up to its first end mark, if not blank, and those of the rest |
| BriefOrigins.SentencesOfOne | backend/briefs/schema.py:132-136 | a text without an end mark is its only sentence |
| BriefOrigins.FirstSentenceByPosition | backend/briefs/schema.py:123-129 | where the first sentence ends, by position |
| BriefOrigins.GradesByThreshold | backend/briefs/schema.py:139-156 | the two grades by their literal thresholds |
| BriefOrigins.NotesByGrade | backend/briefs/schema.py:174-190 | the note of each grade, which in the two upper ones tells whether there are three pieces of evidence |
| BriefOrigins.CategoryByWords | backend/briefs/schema.py:159-171 | the category by the literal words that occur in the lower-cased domain |
| BriefOrigins.ClaimTakesItsMembers | backend/briefs/schema.py:201-229 | a claim's text is the first text of three members, its lists and note are the item's own |
| BriefOrigins.TextIsAClaim | backend/briefs/schema.py:201-212 | a bare text is a claim of that text, referred to by its place |
| BriefOrigins.EvidenceTakesItsMembers | backend/briefs/schema.py:232-257 | from which members the reference, the title and the contribution of evidence are taken, in which order |
| BriefLegacy.LegacyIsReread | backend/briefs/schema.py:260-404 | of what the conversion of a legacy body makes, normalisation changes nothing but the spelling of confidences and three texts of the arguments |
| BriefLegacy.LegacyListsAreThePayloads | backend/briefs/schema.py:394-403 | limitations, tags, read time and author of a legacy body |
| BriefLegacy.LegacySummaryIsThePayloads | backend/briefs/schema.py:324-333 | bottom line, why it matters, recommended action, watchpoint and the decision |
| BriefLegacy.LegacyQuestionsAreThePayloads | backend/briefs/schema.py:334-345 | the four key questions and the overview |
| BriefLegacy.LegacyIndicatorsAreThePayloads | backend/briefs/schema.py:346-371 | leading indicators from `watch`, triggers from `confirms_if`, patterns from the rebuttals, all in order |
| BriefLegacy.ObjectsOfConcat | backend/briefs/schema.py:271-276 | the objects of a list, one after the other |
| BriefLegacy.ObjectsOfOne | backend/briefs/schema.py:271-276 | of one item, if it is an object |
| BriefLegacy.LegacyActionsAreTheDecisions | backend/briefs/schema.py:377-392 | the first two sentences of the decision are the immediate actions, the next two the strategic ones; the impact |
| BriefLegacy.LegacyGradesAreThePayloads | backend/briefs/schema.py:319-323 | confidence level, priority level, category and note from the payload's confidence, or else the one passed, or 0.75 |
| BriefLegacy.LegacyTextsAreThePayloads | backend/briefs/schema.py:395-398 | outlook, decision lens and domain, from the payload or else the arguments |
| BriefLegacy.FindingTakesItsMembers | backend/briefs/schema.py:286-316 | claim and evidence of a finding: text, signals, sources, note and title from its own members |
| BriefLegacy.FindingContributes | backend/briefs/schema.py:305-314 | the contribution is the first evidence point and the rebuttal, whichever are there |
| BriefLegacy.CanonicalTextsAreThePayloads | backend/briefs/schema.py:502-514 | texts, lists, read time and author of a canonical payload, with arguments and defaults where it has none |
| BriefLegacy.CanonicalNoteIsThePayloads | backend/briefs/schema.py:516-528 | a missing note is that of the payload's confidence, or else the one passed, or else the level's score |
| BriefLegacy.LevelsHaveScores | backend/briefs/schema.py:516-523 | the score of each level |
| BriefLegacy.CanonicalDefaults | backend/briefs/schema.py:434-443 | the defaults that are not empty |
| BriefLegacy.CanonicalBriefsAreComplete | backend/briefs/schema.py:434-457 | every question, every part of the overview and the summary and both horizons of the impact are there, Null where not given |
| BriefLegacy.CanonicalNeedsAllThree | backend/briefs/schema.py:193-198 | a payload is canonical exactly if it has an object under each of three names |
| BriefLegacy.CanonicalRaisesExactly | backend/briefs/schema.py:434-523 | exactly which canonical payloads are refused, by their members |
| BriefLegacy.LegacyRaisesExactly | backend/briefs/schema.py:260-404 | exactly which other payloads are refused, by their members and the arguments |
| BriefProperties.NormalClaimIsKept | backend/briefs/schema.py:201-229 | a normal claim is a fixed point |
| BriefProperties.NormalEvidenceIsKept | backend/briefs/schema.py:232-257 | normal evidence keeps everything but its confidence |
| BriefProperties.UsablePlacesAreExact | backend/briefs/schema.py:460-464 | the usable places are exactly those of the items that become claims, in increasing order |
| BriefProperties.AsManyClaimsAsUsableItems | backend/briefs/schema.py:460-464 | as many claims as usable places |
| BriefProperties.ClaimsAreThoseOfTheItems | backend/briefs/schema.py:460-464 | claim k is that of the item at the k-th usable place, numbered by that place among all items |
| BriefProperties.UnreferencedClaimsNameTheirPlace | backend/briefs/schema.py:206-226 | a claim keeps the signals its item gives; an item that gives none is referred to by its place |
| BriefProperties.AnalysisSettles | backend/briefs/schema.py:444-450 | the shallow merge of the analysis section is a projection where it does not raise |
| BriefProperties.NormalizedIsWellFormed | backend/briefs/schema.py:434-530 | the output always takes the canonical branch; claims, evidence, lists, note and author are well formed |
| BriefProperties.GivenMembersAreKept | backend/briefs/schema.py:434-530 | nothing a canonical payload gives is lost: members that are not normalised keep their value, tidy ones keep theirs |
| BriefProperties.EvidenceIsProportionalExactly | backend/briefs/schema.py:471-484 | every stored confidence is in [0, 1] exactly unless a canonical payload leaves one to a fallback that is not |
| BriefProperties.FindingsAreKept | backend/briefs/schema.py:286-316 | each finding of a legacy body becomes, in order, one claim and one piece of evidence that normalisation keeps; the first three claims are the key signals |
| BriefProperties.EvidenceMatchesItsClaim | backend/briefs/schema.py:286-316 | a finding's evidence names the claim's first signal, the same sources, and the claim's text down to its first sentence |
| BriefPasses.FirstPassIsStable | backend/briefs/schema.py:434-530 | whatever the payload, every part of the result but evidence confidences and three texts is one that a pass keeps |
| BriefPasses.StableBriefsFit | backend/briefs/schema.py:444-457 | a result never lacks a member that a later pass indexes; a later pass raises only at the score lookup |
| BriefPasses.NextPass | backend/briefs/schema.py:434-530 | a pass over a result, whatever confidence stands beside it, scores the evidence again, fills in or trims the three texts and keeps the rest |
| BriefPasses.SecondPass | backend/briefs/schema.py:417-530 | normalising a result again with the same arguments, for all of them: it raises exactly at that lookup, and otherwise only rescores the evidence and trims texts taken from the arguments |
| BriefPasses.IdempotentExactly | backend/briefs/schema.py:407-530 | for all payloads and all arguments: idempotent if and only if the lookup takes the level, no padded text and no unsteady confidence comes in from the arguments |
| BriefPasses.IdempotentExactlyWhereTheLevelIsAKey | backend/briefs/schema.py:407-530 | for the arguments it is promised for: idempotent, up to `1` and `1.0` being one number, if and only if the payload's confidence level is not a list or an object left to the lookup |
| BriefPasses.TwoPassesSettle | backend/briefs/schema.py:407-530 | for all payloads and all arguments a third pass changes nothing |
| BriefPasses.AListAsTheLevelRaisesTheSecondTime | backend/briefs/schema.py:516-523 | a concrete payload that returns once and raises the second time |
| BriefCoercion.Round | backend/briefs/prompting.py:35 | the nearest integer, from halfway between two the even one |
| BriefCoercion.SourceName | backend/briefs/prompting.py:15-24 | the host if there is one, or else the title if there is one; never blank |
| BriefCoercion.NamelessSourcesDiffer | backend/briefs/prompting.py:24 | signals with neither host nor title have the same name only at the same position |
| BriefCoercion.HostDropsWww | backend/briefs/prompting.py:16-20 | a leading "www." is dropped from the host; without a URL there is none |
| BriefCoercion.BuildSignalCatalog | backend/briefs/prompting.py:27-52 | one entry per signal, in order, with references numbered by position |
| BriefCoercion.EntryTakesTheSignalsMembers | backend/briefs/prompting.py:38-52 | an entry names its signal and source by the signal's place and carries the signal's own members |
| BriefCoercion.PercentageIsTheNearest | backend/briefs/prompting.py:32-38 | its percentage |
| BriefCoercion.NamedSignalIsFound | backend/briefs/prompting.py:218 | the catalogue by reference finds each signal under its own reference and nothing else |
| BriefCoercion.EvidenceIsCovered | backend/briefs/prompting.py:220-235 | backfilled evidence is normal, has a source exactly if it came with one or a signal stands at its position, and a number as confidence at such a position |
| BriefCoercion.ClaimIsCovered | backend/briefs/prompting.py:237-255 | a backfilled claim is normal, keeps text and signals, and has a source exactly if it came with one or its position lends one |
| BriefCoercion.NamedSignalIsMatched | backend/briefs/prompting.py:218-227 | evidence that names a signal of the list is matched with it, any other with the one at its place |
| BriefCoercion.EvidenceBorrowsAtItsPlace | backend/briefs/prompting.py:220-235 | evidence without a source gets that of the signal at its own place |
| BriefCoercion.ClaimBorrowsAtItsPlace | backend/briefs/prompting.py:237-255 | a claim without a source gets those of the evidence at its place, or else of the signal there; one without a note its contribution |
| BriefCoercion.KeySignalsAreKept | backend/briefs/prompting.py:257-260 | key signals that are there are kept; otherwise they are the texts of the first three claims |
| BriefCoercion.CoerceCanonicalBriefResult | backend/briefs/prompting.py:197-265 | the two mutating loops and the added members compute the reference coercion |
| BriefCoercion.BackfillingCovers | backend/briefs/prompting.py:218-260 | backfilling a well-formed brief covers it and keeps it well formed |
| BriefCoercion.CoercedBriefsAreCovered | backend/briefs/prompting.py:197-265 | for every signal list and answer on which it returns: which evidence and claims have a source, every claim a signal, key signals whenever there is an insight, the identifiers in order |
| BriefStorage.NormalizedConfidences | backend/briefs/schema.py:471-484 | exactly when normalisation leaves a confidence that is no number, or a number outside [0, 1] |
| BriefStorage.CatalogueConfidence | backend/briefs/prompting.py:228-235 | evidence takes the catalogue's confidence exactly where it has no number and a signal matches |
| BriefStorage.PassedConfidence | backend/briefs/prompting.py:206-216 | the catalogue is consulted only for an answer whose own confidence is there, true, and no number; without one the average passes, which is a proportion only for 0 and 1 |
| BriefStorage.CoercedTextsAreTheAnswers | backend/briefs/prompting.py:206-216 | an answer that is not canonical is coerced with its own bottom line, outlook, decision lens, domain and title, and the topic asked for |
| BriefStorage.CoercedConfidencesAreProportionsExactly | backend/briefs/prompting.py:197-235 | all coerced confidences are in [0, 1] if and only if the number passed for an open one is, and every other open one is replaced by a percentage from 0 to 100 |
| BriefStorage.BackfilledIsStable | backend/briefs/prompting.py:218-260 | coercion keeps everything that a later pass relies on |
| BriefStorage.StoringKeepsTheCoercedBrief | backend/briefs/generator.py:181-194 | the normalisation before storing returns the coerced brief with its confidences brought into [0, 1] and an empty decision lens dropped; it raises exactly for an average of 0 and a level that is a list or an object |
| CausalTrend.SumOfSquaresDecomposes | backend/ml/causal_inference.py:320-328 | the squared distance from any line splits at the fitted line, which is therefore nearest |
| CausalTrend.TheFitIsUnique | backend/ml/causal_inference.py:320 | two or more points have at most one line that meets the normal equations |
| CausalTrend.SharesAddUp | backend/ml/causal_inference.py:325-328 | total = residual + explained, R squared is the explained share and lies in [0, 1] |
| CausalTrend.FitQuality | backend/ml/causal_inference.py:325-329 | the loop's root mean squared residual and R squared, with their bounds |
| CausalTrend.Project | backend/ml/causal_inference.py:331-336 | the projection has the window's length and is non-negative |
| CausalTrend.ProjectionContinuesTheTrend | backend/ml/causal_inference.py:331-336 | day k is the value of the line k days after the window, zero where that is negative |
| CausalTrend.BuildSyntheticControl | backend/ml/causal_inference.py:313-349 | trend for more than three days, mean for one to three, not a number for none; length, fit quality and bounds |
| CausalTrend.EstimateImpact | backend/ml/causal_inference.py:207-251 | no observations on one side are an error; otherwise both series are cut to the shorter one, with average, cumulative and percentage effect; exactly when these are not numbers |
| CausalTrend.ImpactFiguresAgree | backend/ml/causal_inference.py:231-251 | the average is the difference of the means, the cumulative effect that many times over, and the percentage has the effect's sign over a positive baseline |
| CausalTrend.NothingToDivideBy | backend/ml/causal_inference.py:231-390 | no share for a series that does not vary, no percentage over zero, zero for a day without observations |
| CausalTrend.AggregateToDaily | backend/ml/causal_inference.py:352-365 | bucket j holds the sum of what is that many days old when it is looked at |
| CausalTrend.AggregationConserves | backend/ml/causal_inference.py:352-365 | the buckets together hold exactly the window's observations |
| CausalTrend.AgesAreWholeDays | backend/ml/causal_inference.py:358-361 | an observation is as many days old as whole days fit between it and the clock |
| CausalTrend.AggregateFromTuples | backend/ml/causal_inference.py:368-390 | entry k is the mean of the values on the k-th day from the earliest observation on, zero without any |
| CausalTrend.WeightedMeansAddUp | backend/ml/causal_inference.py:379-390 | the daily means weighted by their counts add up to the window's total, and to everything where the window reaches past the last observation |

## Left out

- Redis failures are modelled where the code reacts to them: any store command of the idempotency wrapper may fail before or after taking effect, and cache reads and writes of the embedding cache fail silently. Elsewhere a failing store raises, and nothing more is said.
- The interleaved protocols (idempotency, scheduler, signing keys) are step functions over values and not classes, because many requests act between any two awaits; the wrapper's poll loop and the key parsing loop are methods.
- SHA-256, the parsing of stored JSON and UUIDs are not part of the model: body equality is equality of hashes, the text under the key is the sentinel, a record or something that is not JSON.
- Idempotency.Wrapper: the reading of the body and the conversion of the response are left out, as is the scope in the key (all requests of the model share one key). A handler whose response cannot be stored is a failing store.
- Jwks: closing the HTTP client and the module-level singleton only add easy members.
- AgentLoop.ChatAgent.Run: the consumer abandoning the generator, the country lookup, the elapsed seconds, tool summaries and token limits are left out; what `_extract_citations` finds, and whether handling a result raises, are fields of the tool result.
- AgentLoop.ChatAgent.Run: the events carry the texts that matter to the trace, not their whole payload; tool arguments are the text that parsed, `{}` otherwise.
- JsonReader.ValueReadsBack: Python's names for what is no number (`NaN`, `Infinity`) are no JSON and are left out; a number is its printed form.
- ChatContext: `get_messages_for_llm` and `clear` are left out; an entry is valid JSON or it is not.
- Embeddings.EmbeddingService.BatchEmbed: semaphores, rate limiting and the logging validation of vectors are left out; lower-casing and hashing are arbitrary functions.
- Embeddings.EmbeddingCache.Set: does not promise that the entry is there afterwards, because the write may fail silently and other clients may evict it at once.
- CostTracking.CostTracker.TrackTokens: rounding for display is left out; so is reading the metrics back, which only copies a hash.
- DeadLetters: a concurrent add and retry of one id are not atomic in the store; the model has whole operations. Record contents are an opaque letter, enqueueing and backoff are left out.
- EntityResolver: the pgvector and fuzzy queries are arbitrary match lists; `resolve_batch` only repeats `resolve_signal`; concurrent upserts are left out.
- BriefSchema.NormalizeBriefBody: the payload's own `drivers`, `short_term` and other nested objects are shared with the result in the source and partly written in place; values are copied here, so that aliasing is not captured.
- BriefPasses.IdempotentExactly: `1` and `True` as a confidence are not equal to `1.0` in this lemma, as they are in Python; `SameBrief` of the lemma after it takes them as equal.
- BriefSchema.LegacyToCanonical: lower-casing of the domain is modelled as far as ASCII letters can result from it, which is all the category test looks at; which exception is raised is not distinguished.
- BriefCoercion.BuildSignalCatalog: URL parsing and `str` of an identifier that is no string are arbitrary functions; the prompt builders are left out.
- BriefStorage.StoringKeepsTheCoercedBrief: the other columns that the generator fills from the stored brief only copy its members.
- CausalTrend.BuildSyntheticControl: floating-point rounding and the rounding for display are left out; the square root is the library's and may be any function.
- The t-test, the interpretation text, Granger causality and difference-in-differences are library calls, display or plain formulas.
- Role tables, guards, data classification, the model router, guardrail patterns, webhooks, migrations and the front end: finite tables, regular expressions and plumbing.
