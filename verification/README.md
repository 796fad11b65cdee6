# Verification of the inference proxy

The proxy turns an upstream NDJSON event stream into OpenAI chat completion responses and
serves them from a pool of upstream keys.  This project models its stateful parts and
proves what they keep over every input, every event sequence and every interleaving.

| file | models |
|---|---|
| `Stream.dfy`, `StreamTheorems.dfy`, `Commandcode.dfy` | decoded events, finish-reason mapping, usage, the attributes of an upstream error |
| `Reader.dfy`, `ReaderTheorems.dfy` | the incremental NDJSON reader over a bounded buffer, and its round trip |
| `Chat.dfy`, `ChatTheorems.dfy`, `ServedTheorems.dfy` | the streaming and the aggregating chat handler, what they guarantee, and what a response says |
| `Keypool.dfy`, `KeypoolTheorems.dfy`, `SpillTheorems.dfy` | the key pool with circuit breakers, generation-stamped leases and half-open probes, and what each kind of failure does |
| `Cache.dfy`, `Catalog.dfy`, `CatalogTheorems.dfy` | the single-flight cache, and the bounded per-credential model catalog built on it |
| `ChatIdle.dfy` | the upstream idle watchdog and its read loop |
| `Reporter.dfy`, `ReporterTheorems.dfy` | the telemetry session reporter |
| `Stats.dfy`, `StatsTheorems.dfy` | the bounded accounting store and its ring of recent requests |
| `Convert.dfy`, `ConvertTheorems.dfy`, `ContentTheorems.dfy` | request conversion, the system prompt, the conversation root, replaying a response |
| `Wrappers.dfy` | Option and Result |

Objects the proxy updates in place are classes.  Each of their methods is proved equal to a
function of the old state, and the theorems are about those functions: what they compute is
stated over the inputs, the events or the run, without the functions themselves.  The concurrent parts
are step systems: one critical section is one step, any number of requests interleave, and
a `Run` theorem holds at the end of every legal sequence of steps.  The catalog's search for
a victim is one step per candidate, since it takes each candidate's own mutex in turn.

Where code and its comments differ, the model follows the code:

- A sectioned system prompt need not carry a cache mark: a marked but empty message still
  selects the sectioned form.  `UnmarkedSectionsExactly` gives the exact condition and
  `MarkIsLost` an input.
- `serveNonStream` alone turns a success with zero output tokens into a 429.
  `HandlersAgree` makes this its one exception.
- The catalog does not always evict the least recently used idle entry: fetches can finish
  while it searches.  `LeastRecentExactly` gives the exact condition on the entries a
  search begins with: it is certain to evict the least recently used entry idle at its end
  unless some unused entry is still fetching, is older than another unused one, and no idle
  entry is as old.  `OlderEntryCanBeMissed` with `OlderEntryIsMissed` is a run where it fails.
  `LongestUnlistedExactly` says the same in terms of when credentials were listed.
- In-band upstream errors are written even to a client that has gone; other failures are
  not.  `GoneClient` states which responses such a client still sees.

## Model

| member | source | states |
|---|---|---|
| `ChatTheorems.HandlersAgree` | proxy/internal/server/chat.go:254-519 | for a client that stays, both handlers report the same fault with the same error type, code and message, or the aggregated response is a completion whose message is the concatenation of the streamed deltas with tool indices 0..n-1 and the same reason and usage; the only exception is the zero-output 429 |
| `ChatTheorems.StreamSucceedsExactly` | proxy/internal/server/chat.go:254-402 | a stream is reported as a success exactly when it ends cleanly and its events follow the declared protocol (`Accepted`), and then under the reason its first finish froze |
| `ChatTheorems.BytesSucceedExactly` | proxy/internal/server/chat.go:254-402 | from the upstream's bytes: a response succeeds exactly when the body comes to a clean end, none of its lines is a malformed tool or terminal event, and the events on its lines follow the protocol |
| `ChatTheorems.RunningExactly` | proxy/internal/server/chat.go:130-202 | no event of a prefix is rejected exactly when the prefix satisfies the protocol, and the bookkeeping is then what can be read off the prefix |
| `ChatTheorems.CompletesExactly` | proxy/internal/server/chat.go:204-218 | the one-pass bookkeeping accepts the end of a stream exactly on the declaratively accepted traces |
| `ChatTheorems.FinishIsFinal` | proxy/internal/server/chat.go:130-202 | once a finish was accepted, the reason never changes and no tool call becomes pending |
| `ChatTheorems.StreamGrammar` | proxy/internal/server/chat.go:254-402 | every streamed response is deltas, finish chunk, DONE; or deltas, error, DONE; or one JSON error; only a client that has gone gets bare deltas; the role is on the first delta only |
| `ChatTheorems.GoneClient` | proxy/internal/server/chat.go:523-645 | any client sees the usual response or bare deltas; the latter exactly when the failure is not an in-band upstream error and the client has gone by the first check, or by the second for a malformed event |
| `ChatTheorems.SameProgress` | proxy/internal/server/chat.go:254-519 | after every event sequence the two handlers have both stopped with the same fault, or neither has and their shared bookkeeping is equal |
| `ChatTheorems.SameContent` | proxy/internal/server/chat.go:298-341 | the deltas written so far carry the text, reasoning and tool calls the aggregating handler has collected |
| `ChatTheorems.NothingIsLost` | proxy/internal/server/chat.go:405-461 | the collected text and reasoning are those of all deltas, and the k-th call has the id, the name and the input of the k-th tool-call event, with an empty object for an absent input |
| `ServedTheorems.DeltasAreTheEvents` | proxy/internal/server/chat.go:254-402 | every streamed response carries exactly the text, reasoning and tool calls, arguments included, of the events accepted before the first bad one; of all events in a success |
| `ServedTheorems.CompletionIsTheEvents` | proxy/internal/server/chat.go:405-519 | an aggregated completion is exactly the text, reasoning and tool calls, arguments included, of all events |
| `ServedTheorems.ServedUsage` | proxy/internal/server/chat.go:254-519 | both handlers show the counters reported last, each in its own place, and all zero for an empty output or none |
| `ServedTheorems.AccountedUsage` | proxy/internal/server/chat.go:219-232 | what is accounted is the usage reported last, its zero cache-write total filled by the count captured last |
| `ServedTheorems.CostIsLatest` | proxy/internal/server/chat.go:130-240 | the cost is the last positive one reported by a step or provider metadata; a cost counts as reported even when it is zero |
| `ServedTheorems.FaultExactly` | proxy/internal/server/chat.go:161-202 | after acceptable events the next one stops the stream with a fault exactly if its own fields and its place in the stream are what that fault stands for |
| `ServedTheorems.ReportedFaultExactly` | proxy/internal/server/chat.go:254-402 | a client that stays is told a fault exactly if the first bad event, the way reading ended, or what the finished stream lacks explains it |
| `ServedTheorems.AnswerIsRead` | proxy/internal/server/errors.go:28-125 | both handlers answer the fault that explains the failure with the status, type, code and Retry-After that fault, or its first applicable attribute, calls for |
| `ServedTheorems.FaultsAreToldApart` | proxy/internal/server/chat.go:161-218 | two faults the proxy finds itself never read the same |
| `ServedTheorems.TranscriptIsServed` | proxy/internal/server/chat.go:254-402 | a body of lines that carry events or nothing is served as these events, in order, and the way the body ends |
| `ServedTheorems.CorruptLineIsServed` | proxy/internal/server/chat.go:606-621 | a corrupt tool or terminal event fails the response as malformed, whatever follows it |
| `StreamTheorems.RefusalExactly` | proxy/internal/stream/stream.go:332-339 | a refusal is recognised in any capitalisation and padding of its three names, and nothing else is one |
| `StreamTheorems.FinishReasons` | proxy/internal/stream/stream.go:325-358 | which pairs of names give which reason; a name not listed gives none |
| `StreamTheorems.BlankExactly` | proxy/internal/server/chat.go:161-202 | a string is blank exactly if it has only the 25 white-space characters of Unicode |
| `ChatTheorems.UsageIsLatest` | proxy/internal/server/chat.go:130-157 | the usage is that of the last event reporting any, even after the finish; likewise the captured cache-write count |
| `ChatTheorems.RelayWritesDeltas` | proxy/internal/server/chat.go:298-341 | before its end a streamed response is deltas only, the role on the first, as many as chunkCount says |
| `Chat.ServeStream` | proxy/internal/server/chat.go:254-402 | the streaming loop, reading one event at a time, writes exactly `Streamed` of the events and the error its reader still had to return |
| `Chat.ServeNonStream` | proxy/internal/server/chat.go:405-519 | the aggregating loop, reading one event at a time, writes exactly `Aggregated` of the events and the error its reader still had to return |
| `Chat.StreamState.ProtocolFailure` | proxy/internal/server/chat.go:161-202 | rejects an event or records announced and completed tool calls; a rejected event changes nothing |
| `Chat.StreamState.Absorb` | proxy/internal/server/chat.go:130-157 | folds usage, reason, cost and cache-write counts, field by field |
| `Chat.StreamState.CompletionFailure` | proxy/internal/server/chat.go:204-218 | the fault, if any, of a stream that ended after its finish |
| `Chat.StreamState.FinalizeUsage` | proxy/internal/server/chat.go:219-232 | a captured cache-write count fills only a zero total |
| `Chat.ResponseWriter.HandleProtocolFailure` | proxy/internal/server/chat.go:523-539 | a failure found by the proxy is written as JSON or SSE, and not at all to a client that has gone |
| `Chat.ResponseWriter.HandleStreamReadError` | proxy/internal/server/chat.go:606-645 | which fault a read error becomes, and the second check of the client for a malformed event |
| `Reader.ReaderReturns` | proxy/internal/stream/stream.go:210-285 | draining a reader returns the typed events of the newline-split lines before the first malformed critical line and then that error, or all of them and then the I/O error |
| `ReaderTheorems.TranscriptIsRead` | proxy/internal/stream/stream.go:210-255 | everything on the lines is read, in order, and nothing else; an unfinished last line counts, and is blamed on the peer unless the read was interrupted inside it |
| `ReaderTheorems.EncodedIsRead` | proxy/internal/stream/stream.go:210-255 | round trip: what any encoder of one JSON object a line wrote is read back as exactly the events, then the error the input ends with |
| `ReaderTheorems.FillersAreInvisible` | proxy/internal/stream/stream.go:227-249 | blank lines, [DONE], comments and unimportant noise can be put anywhere without a difference |
| `ReaderTheorems.CorruptLineStops` | proxy/internal/stream/stream.go:232-240 | a corrupt tool or terminal event ends the reading, whatever follows it |
| `Reader.SplitLinesMeaning` | proxy/internal/stream/stream.go:210-230 | the lines make up the input, and all but the last are complete newline-terminated lines |
| `Reader.EventReader.Next` | proxy/internal/stream/stream.go:210-255 | returns the head of what remains, consumes input or ends, and repeats its error for ever; for any buffer capacity |
| `Reader.EventReader.HandleLine` | proxy/internal/stream/stream.go:226-253 | what one line yields and leaves as the reader's error |
| `Reader.EventReader.ReadLine` | proxy/internal/stream/stream.go:210-226 | the buffered and the buffer-full path return the same whole line |
| `KeypoolTheorems.ProbesAreUnique` | proxy/internal/keypool/keypool.go:202-322 | at every reachable state a key is probing exactly when one outstanding lease is its probe, that lease is the only one of its generation, and the deadline has passed |
| `KeypoolTheorems.ProbesAreNotLeaked` | proxy/internal/keypool/keypool.go:232-322 | at every reachable state, reporting a probe, whatever its outcome, ends the probe |
| `KeypoolTheorems.OpeningIsRespected` | proxy/internal/keypool/keypool.go:239-322 | whenever a current lease is reported with a verdict that opens the breaker, then in every later run that ends before the verdict's time to live is over the key is in a new generation, open until exactly then, and leased to nobody |
| `KeypoolTheorems.BreakerIsRespected` | proxy/internal/keypool/keypool.go:202-322 | in every run, once a breaker is open until T, no request is leased the key before T and no outstanding report shortens or extends T |
| `KeypoolTheorems.OpenBreakerHolds` | proxy/internal/keypool/keypool.go:202-322 | the same from any state that satisfies the invariant |
| `KeypoolTheorems.StaleReportsAreInvisible` | proxy/internal/keypool/keypool.go:285-322 | erasing every stale-generation report from a run keeps it legal and changes no pool state and no lease |
| `KeypoolTheorems.RunKeepsInv` | proxy/internal/keypool/keypool.go:202-322 | every run keeps the invariant; in particular an open breaker that is not probing has no lease of its generation |
| `KeypoolTheorems.RetryAfterIsExact` | proxy/internal/keypool/keypool.go:202-230 | when no key can be leased Retry-After is positive, and if some key cools down it is the exact first wait after which a lease succeeds |
| `KeypoolTheorems.RetryAfterSeconds` | proxy/internal/server/errors.go:93-102 | the header (section 10.2.3 of RFC 9110) never names an earlier time and less than a second later |
| `Keypool.Pool.WithKey` | proxy/internal/keypool/keypool.go:112-154 | under arbitrary interference the key loop ends; each call took the lease the pool as it then was gave for the lowest eligible untried slot, in a turn whose context was alive; the final pool is what one lease and one report of that same lease per call made of it; unavailable only when no call was made, else the context error or the last call's outcome (`Concluded`) |
| `SpillTheorems.RequestEnds` | proxy/internal/keypool/keypool.go:112-322 | a request that is alone: every key is left open for the time its own kind of failure calls for, or closed; while a failure spills the next key is called, until the context ends or no key is left; any other outcome is the request's |
| `SpillTheorems.KeysAreTriedInOrder` | proxy/internal/keypool/keypool.go:112-283 | if the first j keys are usable but spill and key j is usable, exactly these are called in order, each is left as its failure demands, and key j's outcome decides |
| `SpillTheorems.CooledKeyIsLeftAlone` | proxy/internal/keypool/keypool.go:232-322 | among any other requests: from the report of a rate limit, of exhausted credits or of a rejected key until its own time to live is over, no request is leased the key and nothing changes it |
| `KeypoolTheorems.LeasedGeneration` | proxy/internal/keypool/keypool.go:202-217 | a half-open probe's lease is of a new generation, any other of its key's |
| `KeypoolTheorems.RequestIsRun` | proxy/internal/keypool/keypool.go:127-154 | if the interference around a request's key loop is the work of other requests, its calls are the leases and reports of one legal run of the whole pool, which ends in the pool the loop leaves behind |
| `KeypoolTheorems.RequestRespectsBreaker` | proxy/internal/keypool/keypool.go:112-154 | in every reachable pool, no call of a request's key loop uses a key before its open breaker's deadline, whatever other requests do meanwhile |
| `Keypool.NoCallOnceCanceled` | proxy/internal/keypool/keypool.go:126-129 | no call is made in a turn whose context has ended; ended from the start, the context error is the result and the pool is untouched |
| `Keypool.LeasesAreSettled` | proxy/internal/keypool/keypool.go:112-154 | a request that runs alone leaves no probe on a key it called and changes no other key |
| `Keypool.AcquireFillsFirst` | proxy/internal/keypool/keypool.go:202-217 | a lease is always on the lowest slot that is untried, not probing and past its deadline, in the generation admission gives it |
| `Keypool.CallsAreDistinct` | proxy/internal/keypool/keypool.go:112-154 | the calls of a request use distinct slots, so there are at most as many as keys |
| `Keypool.FirstEligibleInRange` | proxy/internal/keypool/keypool.go:202-217 | selection finds the lowest slot that is untried, not probing and past its deadline, if there is one |
| `Keypool.ShortestCooldownMeaning` | proxy/internal/keypool/keypool.go:218-227 | the computed wait is the minimum positive remaining cooldown, zero exactly if no key cools down |
| `Keypool.RetryPositive` | proxy/internal/keypool/keypool.go:218-229 | the wait reported is positive |
| `Keypool.Pool.AcquireCandidate` | proxy/internal/keypool/keypool.go:202-230 | the search loop leases what `Acquire` says, starting a probe of an expired breaker, or reports the wait |
| `Keypool.Pool.ReportFailure` | proxy/internal/keypool/keypool.go:232-283 | each failure closes, opens or releases as classified, and says whether to try another key |
| `Keypool.Pool.Close` | proxy/internal/keypool/keypool.go:289-298 | closes the breaker for a lease of the current generation, else nothing |
| `Keypool.Pool.Release` | proxy/internal/keypool/keypool.go:300-306 | ends the probe without evidence for a lease of the current generation, else nothing |
| `Keypool.Pool.Open` | proxy/internal/keypool/keypool.go:308-322 | opens the breaker in a new generation for a lease of the current one, else nothing |
| `Keypool.Pool.Routing` | proxy/internal/keypool/keypool.go:171-190 | the preview names the slot the next lease would take, and each key's status |
| `Cache.FetchesAreSpaced` | proxy/internal/server/cache.go:35-86 | fetches never overlap and none starts before the previous completion plus its time to live |
| `Cache.AnswersAreFresh` | proxy/internal/server/cache.go:35-86 | without stale serving an answer is what some refresh fetched, and that refresh was within its time to live when the caller called |
| `Cache.CallsAreAnswered` | proxy/internal/server/cache.go:35-65 | in every run a live caller starts a fetch exactly if the last one's time to live is over and none is running, and waits only if it has to; a stale answer hides the errors since |
| `Cache.StaleValueSurvives` | proxy/internal/server/cache.go:50-86 | with stale serving the last successful value survives any failures and answers every later caller at once |
| `Cache.CancellationIsPrivate` | proxy/internal/server/cache.go:46-65 | since a fetch runs under a context detached from its caller, a caller's context can end at any moment after its call and the rest of any run stays possible with the same fetches and answers |
| `Cache.CancellationCanBeErased` | proxy/internal/server/cache.go:35-65 | conversely, removing one caller's cancellation from a run changes no fetch and no other caller's answer |
| `Cache.BoundFetchIsNotPrivate` | proxy/internal/server/cache.go:46-51 | without the detachment the property fails: of two waiting callers, the first one's cancellation leaves the second only errors |
| `Cache.CachedFetch.Get` | proxy/internal/server/cache.go:35-65 | answers from the cache, or joins the running flight, or starts the only one under a detached context |
| `Cache.CachedFetch.Refresh` | proxy/internal/server/cache.go:67-86 | publishes the same result to the cache and to the flight's waiters, keeping a stale value on failure |
| `Catalog.CatalogIsSound` | proxy/internal/server/models.go:110-170 | at every reachable state at most 128 entries exist, every held or fetching entry is still in the catalog, and no credential has two fetches in flight |
| `Catalog.EvictionSparesPinned` | proxy/internal/server/models.go:110-135 | in every run, with fetches starting and finishing while a listing searches candidate by candidate, the evicted entry has no users and no fetch, every entry idle when the search began still is, and none of them is older |
| `Catalog.LeastRecentExactly` | proxy/internal/server/models.go:102-140 | in every reachable state in which a search begins, whatever happens meanwhile it evicts the least recently used entry idle at its end if and only if every unused entry that is still fetching and older than another unused one has an idle entry as old as itself |
| `Catalog.SafeEvictsOldest` | proxy/internal/server/models.go:116-128 | from such entries every search, with any fetches interleaved, evicts the least recently used entry idle at its end |
| `Catalog.UnsafeCanMiss` | proxy/internal/server/models.go:116-128 | from any other reachable entries there is a legal search that evicts a younger entry than an idle one |
| `CatalogTheorems.UsedIsLastListed` | proxy/internal/server/models.go:110-135 | in every run an entry's use time is when its credential was last listed |
| `CatalogTheorems.LongestUnlistedExactly` | proxy/internal/server/models.go:102-140 | the same in terms of when credentials were listed: a search is sure to evict the entry listed longest ago, of those idle at its end, if and only if every unused entry still fetching and listed before another unused one has an idle entry not listed after it |
| `CatalogTheorems.EntriesShowTheirOwn` | proxy/internal/server/models.go:110-170 | in every run an entry shows exactly the models last fetched for it: never those of another credential or of an evicted entry |
| `Catalog.OlderEntryCanBeMissed` | proxy/internal/server/models.go:116-128 | an older entry already looked at and the last candidate both finish fetching: the younger one is evicted |
| `Catalog.OlderEntryIsMissed` | proxy/internal/server/models.go:110-135 | a run of the catalog, from its start, that reaches such a search |
| `Catalog.NothingElseEvicts` | proxy/internal/server/models.go:110-135 | an entry leaves the catalog only at the end of a search, as what it found |
| `Catalog.TurnedAwayOnlyWhenPinned` | proxy/internal/server/models.go:110-135 | in every run, a search that serves its listing nothing began with 128 entries, all in use or fetching |
| `Catalog.TurnedAwayExactly` | proxy/internal/server/models.go:116-126 | in every run, a search serves its listing nothing exactly if every candidate was in use or fetching when it was looked at |
| `Catalog.ModelCatalog.OldestIdle` | proxy/internal/server/models.go:116-127 | in any map order and with others' fetches going on, finds an idle entry no younger than any that was idle at the beginning, or nothing only if none was |
| `Catalog.ModelCatalog.OpenEntry` | proxy/internal/server/models.go:110-135 | joins or creates the credential's entry, evicting only what its search may |
| `Catalog.ModelCatalog.Release` | proxy/internal/server/models.go:137-143 | one user less on the entry, nothing else |
| `ChatIdle.IdleMeansIdle` | proxy/internal/server/chat_idle.go:32-85 | whatever stale callbacks run, an idle cancellation happens only by a callback while one window has been open for at least the idle duration |
| `ChatIdle.NoTimeoutIsMissed` | proxy/internal/server/chat_idle.go:32-74 | a wait past its deadline is canceled by the next callback, and a callback or a due timer always exists |
| `ChatIdle.RunKeepsInv` | proxy/internal/server/chat_idle.go:32-85 | while waiting, the deadline is the window's and a timer due by then or a callback is on its way |
| `ChatIdle.EmptyReadsDoNotRenew` | proxy/internal/server/chat_idle.go:93-116 | however many empty reads the body returns, one Read keeps its deadline, and until a callback runs at or after it only the end of the parent context can cancel it |
| `ChatIdle.CauseReplacesError` | proxy/internal/server/chat_idle.go:93-116 | if the context ended by the time Read returns, by a callback or with its parent, its cause is the error whatever the body returned, data included; otherwise Read returns the body's first non-empty result |
| `ChatIdle.CauseIsFinal` | proxy/internal/server/chat_idle.go:47-85 | the first cause of the watched context is never replaced |
| `ChatIdle.EndsExactly` | proxy/internal/server/chat_idle.go:32-85 | in every run a live context ends by closing, with its parent, or by a callback whose window was open for the idle duration, each with its own cause, and by nothing else |
| `ChatIdle.Watchdog.BeginWait` | proxy/internal/server/chat_idle.go:32-45 | arms the deadline unless closed or already ended |
| `ChatIdle.Watchdog.OnTimer` | proxy/internal/server/chat_idle.go:47-61 | rearms for the rest of a later deadline, cancels on a passed one, ignores a stale call |
| `ChatIdle.Watchdog.EndWait` | proxy/internal/server/chat_idle.go:63-74 | ends the window; the watched context's cause wins over the I/O error |
| `ChatIdle.Watchdog.CloseWatch` | proxy/internal/server/chat_idle.go:76-85 | closes for good, keeping an earlier cause |
| `ChatIdle.Watchdog.Read` | proxy/internal/server/chat_idle.go:93-116 | one window around a loop that skips empty reads until data, an error or a cause, with callbacks running and the parent context ending between and during reads |
| `Reporter.ReportedOnce` | proxy/internal/fingerprint/report.go:97-196 | in every run a session is queued, reported and announced at most once, the queue stays within 64 and the accounts within 4096, and inflight counts the unreleased handles |
| `ReporterTheorems.ResponseIsCounted` | proxy/internal/fingerprint/report.go:97-144 | in every run an accepted response counts on its account's session if that has its version and is alive, else on a new one; a session not seen before goes to the end of the queue unless 64 jobs wait; only a new account is turned away, by 4096 live ones |
| `ReporterTheorems.ResponseIsReported` | proxy/internal/fingerprint/report.go:97-196 | a session that a response queued can be taken, checked, reported and announced, and then was reported and announced once |
| `ReporterTheorems.LastIsActivity` | proxy/internal/fingerprint/report.go:133-151 | in every run a session's last activity is when a response on it last started or ended |
| `ReporterTheorems.WorkersCheckExactly` | proxy/internal/fingerprint/report.go:153-196 | in every run a worker reports, and later announces, a session exactly while the reporter is open and the session is alive and still its account's |
| `Reporter.RunKeepsInv` | proxy/internal/fingerprint/report.go:97-196 | every run of enabled steps keeps each queued session in exactly one place: the queue, a worker, dropped, or reported; and no table index ever dangles |
| `Reporter.InFlightSurvives` | proxy/internal/fingerprint/report.go:107-138 | from any state that satisfies the invariant, no step drops a session with responses in flight, except a request of the same account under another version |
| `Reporter.DroppedIsFinal` | proxy/internal/fingerprint/report.go:153-196 | from any state that satisfies the invariant, after a job is dropped as ineligible its session's handles only decrease between any two later moments and it is never reported |
| `Reporter.DroppedIsDead` | proxy/internal/fingerprint/report.go:153-160 | an ineligible job's session is canceled, replaced or expired |
| `Reporter.StepKeepsDead` | proxy/internal/fingerprint/report.go:97-151 | no step revives such a session |
| `Reporter.ClosedStaysEmpty` | proxy/internal/fingerprint/report.go:97-170 | from any state that satisfies the invariant, once Close has drained the queue it stays empty and no session gains a handle |
| `Reporter.SessionReporter.UseKey` | proxy/internal/fingerprint/report.go:97-144 | the table, map, queue and handle after a use are `Use` of those before; nothing changes for an empty key or a canceled reporter |
| `Reporter.SessionReporter.Reclaim` | proxy/internal/fingerprint/report.go:109-113 | the loop removes exactly the idle expired accounts |
| `Reporter.SessionReporter.Release` | proxy/internal/fingerprint/report.go:142-150 | the first call counts one response less in flight and notes the time; any later call of the same handle changes nothing |
| `Reporter.SessionReporter.CheckJob` | proxy/internal/fingerprint/report.go:153-159 | a job is eligible while its session is current and in use or not yet idle |
| `Reporter.SessionReporter.MarkAttempted` | proxy/internal/fingerprint/report.go:176-178 | marks the session as attempted and changes nothing else |
| `Reporter.SessionReporter.Drain` | proxy/internal/fingerprint/report.go:162-170 | empties the queue and nothing else |
| `StatsTheorems.Conservation` | proxy/internal/stats/stats.go:133-261 | over every interleaving: in flight is begun minus finished, requests are succeeded plus failed plus canceled, key attempts sum to total attempts, model rows sum to the totals, at most 257 models |
| `StatsTheorems.RowsAreExact` | proxy/internal/stats/stats.go:158-261 | a key's row is exactly its finished requests and its in-flight count the unfinished ones on it; a model's row is exactly its requests, the overflow row all others |
| `StatsTheorems.RowsAddUp` | proxy/internal/stats/stats.go:235-261 | every counter of a row is the sum of what its requests contribute to that counter |
| `StatsTheorems.AttemptsAreLeases` | proxy/internal/stats/stats.go:158-174 | over every interleaving a key's attempts are its leases, each counted once and for the key that was leased |
| `StatsTheorems.KnownKeys` | proxy/internal/stats/stats.go:101-122 | the keys a store knows are passthrough and key-1 to key-n, by their decimal numbers |
| `StatsTheorems.RecordsAreFaithful` | proxy/internal/stats/stats.go:158-181 | a record lists the request's first 32 leases in order, counts the rest and names the last key |
| `StatsTheorems.FailureMarksTheLastLease` | proxy/internal/stats/stats.go:183-187 | the attempt of the key the request holds is marked failed, if it is listed, and no other |
| `StatsTheorems.OutcomeExactly` | proxy/internal/stats/stats.go:195-209 | exactly when a finished request counts as canceled or as ok, when its own result stays, and that http_ is followed by the status's digits; nothing else of its record changes but status and latency |
| `StatsTheorems.PostModelOk` | proxy/internal/stats/stats.go:220-227 | finishing a request keeps the model table within 257 rows, exact and summing to the totals |
| `Stats.Store.TakeSnapshot` | proxy/internal/stats/stats.go:263-288 | the snapshot's recent list is exactly the last min(finished, capacity) records of the endpoint, newest first |
| `StatsTheorems.RecentArePicked` | proxy/internal/stats/stats.go:281-286 | the recent requests are exactly the endpoint's among the last n finished, newest first |
| `StatsTheorems.RingSize` | proxy/internal/stats/stats.go:101-107 | the ring is as large as asked for within 1 and 1000, or 100 if nothing was |
| `Stats.Store.Finish` | proxy/internal/stats/stats.go:195-232 | posts the resolved record to its bucket and appends it to the history the ring stands for |
| `Stats.Store.Begin` | proxy/internal/stats/stats.go:133-140 | a fresh numbered record and one more request in flight |
| `Stats.Store.SelectKey` | proxy/internal/stats/stats.go:158-181 | moves the request's in-flight count to the new key; an unknown key changes nothing |
| `Stats.RingPush` | proxy/internal/stats/stats.go:228-232 | writing at next keeps the ring equal to the end of the history |
| `Stats.BackIsModular` | proxy/internal/stats/stats.go:281-286 | the snapshot's index expression is the slot written that many finishes ago |
| `Stats.Store.constructor` | proxy/internal/stats/stats.go:101-120 | a capacity below 1 becomes 100, above 1000 becomes 1000; both buckets start with a zero row per key |
| `ConvertTheorems.PromptIsPreserved` | proxy/internal/convert/convert.go:226-262 | sectioned or not, the system text is the newline-join of all nonempty system and developer texts, or one space |
| `ConvertTheorems.ConvertedTexts` | proxy/internal/convert/convert.go:299-313 | the string form is built from the same texts |
| `ConvertTheorems.UnmarkedSectionsExactly` | proxy/internal/convert/convert.go:226-262 | the prompt is sent in sections without any cache mark exactly when some system text is marked, every marked message is empty, and some system message is not |
| `ConvertTheorems.MarkIsLost` | proxy/internal/convert/convert.go:226-262 | it happens: an empty marked system text and a plain system message are sent as one section without a mark |
| `ConvertTheorems.MarksSurviveExactly` | proxy/internal/convert/convert.go:226-262 | the sections carry a cache mark exactly when a marked message is not empty |
| `ConvertTheorems.ReplayKeepsTheMessage` | proxy/internal/convert/convert.go:105-128 | replaying a served message yields its reasoning, text and calls in order with the same ids, names and arguments |
| `ConvertTheorems.ReplayedCallsNameResults` | proxy/internal/convert/convert.go:344-375 | with distinct call ids a later nameless tool result resolves to the name the served message emitted |
| `ConvertTheorems.CollectedCallsAreNamed` | proxy/internal/server/chat.go:444-457 | every call a handler collects has an id and a name |
| `ConvertTheorems.ResultIsNamed` | proxy/internal/convert/convert.go:359-375 | a result keeps its name; a nameless one gets the name of the last preceding call with its id, "unknown" exactly if there is none or that call has no name |
| `ConvertTheorems.FailsExactly` | proxy/internal/convert/convert.go:299-381 | conversion fails exactly on an unknown role or a user's remote image |
| `ConvertTheorems.EarlierTurnsStay` | proxy/internal/convert/convert.go:299-381 | appending turns never rewrites what earlier turns were converted to |
| `ConvertTheorems.TextIsKept` | proxy/internal/convert/convert.go:105-128 | the text of user and assistant messages survives conversion unchanged |
| `ContentTheorems.TurnsAreSent` | proxy/internal/convert/convert.go:299-381 | every turn that is not a system message and says something is sent once, in order, under its own role |
| `ContentTheorems.UserPartsAreSent` | proxy/internal/convert/convert.go:315-342 | a user's texts and images are all sent, in order, images with their own URL and type |
| `ContentTheorems.AssistantIsSent` | proxy/internal/convert/convert.go:105-128 | an assistant's nonempty texts and reasoning are all sent, in order, after the reasoning field unless that is empty or repeats them |
| `ContentTheorems.MarksAreKept` | proxy/internal/convert/convert.go:226-262 | each section carries the cache mark of its own text part |
| `ContentTheorems.RefusedExactly` | proxy/internal/convert/convert.go:226-262 | a prompt is refused exactly if a part of a system message has a mark but is no text, or a mark of a type other than ephemeral |
| `ConvertTheorems.MimeOfDataUrl` | proxy/internal/convert/convert.go:430-441 | a data URL's nonempty type is what precedes its first semicolon, or its comma if it has none |
| `ConvertTheorems.MimeOfUntypedUrl` | proxy/internal/convert/convert.go:430-441 | with an empty type the parameters up to the comma are returned, and png where there are none |
| `ConvertTheorems.RootIsStable` | proxy/internal/convert/convert.go:264-295 | appending turns leaves the root's preimage unchanged exactly when there already is a non-system message |
| `ContentTheorems.RootExactly` | proxy/internal/convert/convert.go:264-295 | two conversations without NUL characters have the same root preimage exactly if they begin with the same system texts, under either system role, and the same first other message |
| `ContentTheorems.NulConfusesRoots` | proxy/internal/convert/convert.go:264-295 | with a NUL in a text, a system prompt alone can have the root of another prompt followed by a user's message |
| `Convert.ConvertMessages` | proxy/internal/convert/convert.go:299-381 | the loop computes `Convert` of the messages, its first error included |
| `Convert.ConvertSystem` | proxy/internal/convert/convert.go:226-262 | fails exactly on an unacceptable cache_control, else returns `SystemForm` |
| `Convert.ReadAssistantContent` | proxy/internal/convert/convert.go:105-128 | the parts in the caller's order, led by the reasoning field unless it repeats them |
| `Convert.ConversationRoot` | proxy/internal/convert/convert.go:264-295 | the bytes hashed are the leading system entries and the first other message's |

## Left out

- JSON parsing and rendering, byte trimming in the reader, and SSE framing: the reader takes trimming and decoding as parameters, events and messages are already decoded, frames are values.
- Hashes, random identifiers and timestamps in responses: digests are numbers, the conversation root is its preimage, and no collision freedom is claimed.
- Pointer identity of catalog entries and telemetry activities is a serial number or a table index, since the step systems are on values.
- The passthrough mode of `withKey`, which bypasses the pool, and the session and credential set-up around a call.
- Panics inside an upstream call, which would skip reporting a lease, and wrap-around of the 64-bit generation counter.
- Wrap-around of 64-bit token and latency sums; money in the accounting store, where only the number of priced requests is kept.
- The clock is read once per critical section and never shows the zero time.
- `ConvertTheorems.ReplayKeepsTheMessage`: the object parsed from a call's arguments is named by its text, so it does not cover arguments that are not a JSON object and become an empty one.
- `ContentTheorems.RootExactly`: is about roles and texts without NUL characters, the separator of the preimage; `NulConfusesRoots` is an input with one.
- The order of keys and models in a snapshot: rows are maps.
- The fallback model list, model JSON, HTTP transport, authentication, logging, diagnostics, metrics, the cost header and the dashboard.
- Sending telemetry reports: when and how often is modelled, their content and failures are not.
- Tool definitions, tool choice, max_tokens clamping and the constant fields of the wire request, which are direct field copies.
