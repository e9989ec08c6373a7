# Power-DNS in Dafny: the stateful core of the resolver

Power-DNS answers DNS queries from local records, a cache, a relay, and direct DoH, DoT and plain
upstreams. This project models the parts of it that keep state and make promises over time, and
proves those promises:

- the **answer cache**: a map and a recency list over shared entries, LRU eviction, TTL clamping,
  stale-while-revalidate, prefetch, background refreshes, flushing, persistence;
- **request coalescing** at the resolver and at the relay: callers that ask the same thing share one
  upstream call;
- the **health tracker**: a four-state machine per endpoint with lazy cooldown, a latency average, and
  the two orders computed from it;
- the **upstream clients and chain**, which walk through servers and transports and record every attempt;
- the **resolver**, which adapts its order, walks through its strategies and fills the cache;
- the relay's **rate limiter**, and the **incident detector** over the tracker.

Everything the program updates in place is a class whose methods are proved against functions on
values; the properties are then proved about those functions, over arbitrary runs, traces and
interleavings.

| component | in place | as functions | over whole runs |
|---|---|---|---|
| answer cache | `Cache.dfy` | `CacheSpec.dfy`, `Persist.dfy`, `Keys.dfy` | `CacheRuns.dfy`, `CacheRecency.dfy`, `CacheCounts.dfy`, `CacheReload.dfy`, `LruInclusion.dfy` |
| background refreshes | `Cache.dfy` | `RefreshSpec.dfy` | `RefreshRuns.dfy`, `CleanRuns.dfy` |
| coalescing | `Inflight.dfy` | `Coalescing.dfy` (step relation) | `Coalescing.dfy` |
| endpoint health | `Tracker.dfy` | `HealthSpec.dfy`, `TrackerSpec.dfy`, `Ranking.dfy` | `HealthRuns.dfy`, `TrackerRuns.dfy` |
| incidents | `Incidents.dfy` | `IncidentSpec.dfy` | `IncidentSpec.dfy` |
| upstream clients | `Upstream.dfy` | `UpstreamSpec.dfy` | `UpstreamSpec.dfy`, `ClientLaws.dfy` |
| resolver | `Resolver.dfy` | `ResolverSpec.dfy`, `ResolverLaws.dfy`, `StrategyLaws.dfy` | `CleanRuns.dfy`, `QuestionRuns.dfy`, `EndToEnd.dfy` |
| rate limiter | `RateLimit.dfy` | `RateLimit.dfy` | `RateLimit.dfy` |
| messages, ban list | `Messages.dfy` | `Messages.dfy` | |

Conventions: time is an `int` number of nanoseconds handed to each operation in place of the wall
clock; latencies and averages are exact reals; a DNS message is its Id, its questions and its three
sections; a packed answer is known only by what unpacking it yields; what the network brings is a
parameter (a function of server and attempt), so every statement holds for every behaviour of it.

## Where the program and its documentation differ

The model follows the program. For each difference one member shows it on an input the program can
receive, and another says exactly when the documented behaviour holds.

- The ban list is documented to keep poisoned answers out of the cache whichever strategy produced
  them (`internal/resolver/resolver.go:82-85`). True of what `Resolve` itself stores
  (`ResolveKeepsClean`). Refreshes, begun by a lookup or demanded through the admin interface
  (`internal/api/server.go:417-424`), store what `ResolveUpstreamOnly` returns without looking at the ban
  list. Over all interleavings of query turns, refreshes and removals the cache stays clean exactly if
  nothing is banned, or plain is the only upstream in use (in the order, with a client that has servers),
  or no refresh happens: none is demanded, and lookups are not made or cannot start one
  (`CacheStaysCleanIff`). In every other configuration `SomeRunPoisons` builds a poisoning run, under a
  clock that never runs back; the shipped cache settings are safe (`ShippedSettingsStayClean`). A banned
  entry is still never served (`ResolveSound`).
- Refreshes are documented as one per key at a time (`internal/cache/cache.go:113-118`). `Flush` forgets
  running refreshes, so after n flushes up to n + 1 of them can run for a key (`RunningBound`,
  `BoundIsMet`). A run keeps one at a time exactly if none of its triggers starts a refresh of the key
  while one begun before a flush is still running (`SingleFlightIff`); so it does without a flush
  (`SingleFlight`).
- `Order` is documented to list healthy and probing endpoints before degraded before unhealthy ones
  (`internal/upstream/health/health.go:281-284`). Latency is subtracted from a fixed base, so a class is
  worth a fixed number of milliseconds. `OrderIsByClassIff` gives the exact condition on the averages;
  below 1000 ms it always holds (`OrderIsByClass`), and `ClassDoesNotAlwaysDecide` is a run of three
  records after which a degraded endpoint is listed before a healthy one.
- Plain is documented to rise only when every encrypted path is unhealthy
  (`internal/upstream/health/health.go:420-424`). The exact condition is `EncryptedFirstIff`; it always
  holds below 3000 ms (`EncryptedFirst`), and after the three records of `EncryptedCanLose` the chain's
  own order puts plain before a DoH that is not down.
- Among encrypted transports healthier ones are documented to come first, then faster ones
  (`internal/upstream/health/health.go:424-425`). Within one class the averages always decide
  (`EncryptedByAverage`); between classes the exact condition is `EncryptedByClassIff`, and after the
  three records of `HealthierCanLose` a degraded DoH comes before a healthy DoT.
- Reads of the tracker create entries, as healthy ones, for endpoints never used. No endpoint ever
  notices a read (`ReadsNeverMatter`), but the state of its path can turn healthy through one, as after
  five failures in `ReadCanHidePathFailure`; exactly when it does not is `ReadKeepsPathHealthIff`.
- `MinHits` is documented as hits since the entry was last stored (`internal/cache/cache.go:61-65`). A
  refill keeps the count: it runs since the key was last absent (`HitsAreCounted`). The count is the
  documented one exactly if the last store carried no hits over (`CountsAsDocumentedIff`), prefetching is
  as documented exactly if those carried over make no difference (`PrefetchesAsDocumentedIff`), and
  `RefillKeepsCounting` is a run of four steps on which they do.
- `FlushName` is documented to remove the entries of one name (`internal/cache/cache.go:471-472`). Its
  prefix test also takes a longer name with a bar right behind the flushed one (`NameMatchesExactly`,
  `NameMatchesTooMuch`).
- Latency degradation is documented as a multiple of the best peer or a hard floor
  (`internal/upstream/health/incidents.go:23-25`); the program requires both. The two agree exactly where
  the average is above the floor and a multiple of the best average on its path, or neither
  (`LatencyAsDocumentedIff`; for two recorded times `TwoServersAgreeIff`); servers at 300 and 290 ms are a
  difference (`FloorAloneIsNoIncident`).
- The cache is documented as bounded (`internal/cache/cache.go:102-105`). Loading a snapshot file does not
  apply the bound (`LoadCanExceedBound`); it holds from the first store of a new key on, and always if the
  file respects it (`LengthBound`, `NeverTooLong`).
- A file in which a key occurs twice loads into a list with both entries and a map with one
  (`RepeatedKeyLoadsTwice`); map and list agree exactly when no key is repeated
  (`AnswerCache.Cache.Restore`), and saving never writes such a file (`AnswerCache.Restart`).
- Two fixed windows bound a sliding one by 2 * limit - 1 requests, one less than the obvious 2 * limit,
  and that is reached (`SlidingBound`, `SlidingBoundIsMet`).

## Model

| member | source | states |
|---|---|---|
| Keys.JoinInjective | internal/cache/cache.go:155-165 | two cache keys are equal exactly when name and type name are |
| Keys.JoinStrategyInjective | internal/resolver/resolver.go:279-281 | two in-flight keys are equal exactly when name, type and strategy are |
| Keys.StatsKeyInjective | internal/upstream/health/health.go:214 | two endpoints share a tracker key exactly when path and endpoint agree, for paths without a bar |
| Keys.IncidentKeyInjective | internal/upstream/health/incidents.go:63-65 | two incidents share a key exactly when kind, path and endpoint agree, for kinds and paths without a bar |
| Keys.NameMatchesExactly | internal/cache/cache.go:471-486 | the exact set of names whose entries a FlushName removes |
| Keys.NameMatchesTooMuch | internal/cache/cache.go:471-486 | a concrete other name that FlushName removes as well |
| Messages.ContainsIP | internal/filter/ban.go:63-75 | true exactly if some banned network contains the address |
| Messages.FirstBanned | internal/filter/ban.go:80-91 | finds the first banned address of a section, or none exactly if the section has none |
| Messages.ContainsAnswer | internal/filter/ban.go:77-96 | clean exactly if Answer and Additional hold no banned address; a nil or empty list bans nothing |
| CacheSpec.MinTTLIsMinimum | internal/cache/cache.go:538-548 | the lifetime source is the least TTL in the Answer section, present exactly if there is an answer |
| CacheSpec.ClampBounds | internal/cache/cache.go:391-402 | the lifetime is the least TTL among the answers, raised to MinTTL, then cut to MaxTTL, which wins; without answers it is the negative TTL |
| AnswerCache.Cache.constructor | internal/cache/cache.go:138-153 | a new cache is empty, with a bound of ten thousand when none is given |
| AnswerCache.Cache.Get | internal/cache/cache.go:181-292 | the whole effect of a lookup: outcome, re-stamped reply, recency, counters, removal, and which refresh it starts |
| AnswerCache.Cache.LookUp | internal/cache/cache.go:181-257 | missing, expired beyond the stale window, and servable entries, as the specification decides them |
| AnswerCache.Cache.Hit | internal/cache/cache.go:212-257 | fresh and stale hits, and a corrupted entry that is dropped and counted as a miss |
| AnswerCache.Cache.Touch | internal/cache/cache.go:212-215 | a hit counts on the entry and moves it to the front, nothing else |
| AnswerCache.Cache.TriggerRefresh | internal/cache/cache.go:311-333 | a refresh starts exactly if there is a refresh function, none is in flight for the key and its cooldown is over, and is booked |
| AnswerCache.Cache.StoreFetched | internal/cache/cache.go:363-375 | a finished refresh stores what it fetched, marked as prefetched only for that reason |
| AnswerCache.Cache.ClearFlag | internal/cache/cache.go:335-340 | the deferred end of a refresh frees its key and nothing else |
| AnswerCache.Cache.FinishRefresh | internal/cache/cache.go:334-375 | the two critical sections that end a refresh, one after the other: the store of what was fetched, if anything, then the flag |
| AnswerCache.Cache.MinAnswerTTL | internal/cache/cache.go:538-548 | the loop computes the minimum |
| AnswerCache.Cache.Lifetime | internal/cache/cache.go:391-402 | negative TTL without answers, otherwise the clamped minimum |
| AnswerCache.Cache.Store | internal/cache/cache.go:384-443 | a store is ignored for a non-positive lifetime or an unpackable answer, otherwise it puts the entry |
| AnswerCache.Cache.Put | internal/cache/cache.go:411-442 | refills an existing entry keeping its hits, or inserts and evicts |
| AnswerCache.Cache.Refill | internal/cache/cache.go:415-422 | new payload, expiry and origin, same hits, front of the list |
| AnswerCache.Cache.Insert | internal/cache/cache.go:424-442 | a new front entry, with the list cut back to MaxEntries |
| AnswerCache.Cache.Evict | internal/cache/cache.go:433-442 | the loop ends and leaves exactly the most recently used MaxEntries entries |
| AnswerCache.Cache.RemoveLocked | internal/cache/cache.go:532-536 | an entry leaves map and list together |
| AnswerCache.Cache.Delete | internal/cache/cache.go:446-452 | removes that key and no other |
| AnswerCache.Cache.Flush | internal/cache/cache.go:456-469 | empties cache and refresh bookkeeping and reports how many entries there were |
| AnswerCache.Cache.FlushName | internal/cache/cache.go:473-486 | removes exactly the matching keys, whatever order the map is visited in, and counts them |
| AnswerCache.Cache.UpdateRuntime | internal/cache/cache.go:511-530 | which settings a reload changes and which it leaves |
| AnswerCache.Cache.Len | internal/cache/cache.go:489-493 | the number of entries |
| AnswerCache.Cache.Snapshot | internal/cache/cache.go:565-579 | the unexpired entries in list order |
| AnswerCache.Cache.Restore | internal/cache/cache.go:606-621 | the list after loading, and that map and list agree exactly when no key is repeated |
| Persist.RoundTrip | internal/cache/cache.go:565-622 | saving at t and loading at t' gives exactly the entries unexpired at t', in order, with payload, expiry and hits |
| Persist.SurvivorsByKey | internal/cache/cache.go:565-622 | what a restarted cache holds under each key; its keys stay distinct |
| Persist.RestartTwice | internal/cache/cache.go:565-622 | two restarts lose no more than one |
| Persist.RepeatedKeyLoadsTwice | internal/cache/cache.go:611-620 | a file with a repeated key loads both entries |
| AnswerCache.Restart | internal/cache/cache.go:136-153 | a cache started from the file of another is coherent, holds exactly its unexpired entries in order, and is a start of the runs below |
| CacheRuns.AlwaysGood | internal/cache/cache.go:411-442 | in every state reachable from an empty or a loaded cache no key is listed twice |
| CacheRuns.LengthBound | internal/cache/cache.go:433-442 | at most MaxEntries entries from the first inserting store on, until then no more than were loaded |
| CacheRuns.NeverTooLong | internal/cache/cache.go:433-442 | never more than MaxEntries if no more were loaded |
| CacheRuns.LoadCanExceedBound | internal/cache/cache.go:611-620 | a loaded file that exceeds the bound |
| CacheRuns.FindAfter | internal/cache/cache.go:181-257 | how any step changes what is listed under any key, and why an entry can vanish |
| CacheRuns.LastStoreMeans | internal/cache/cache.go:391-486 | the reference map is the last effective store, or the loaded entry, with no store or removal since |
| CacheRuns.ListedIsLastStore | internal/cache/cache.go:391-443 | every listed entry carries payload, origin and expiry of the last effective store of its key, or of its loaded entry if nothing has stored or removed the key |
| CacheRuns.HitIsLastStore | internal/cache/cache.go:167-257 | a hit returns the last effective store of the key, or its loaded entry, fresh up to the stored expiry and stale for at most StaleMaxAge more |
| CacheRecency.LastUseMeans | internal/cache/cache.go:212-234 | what the last use of a key is |
| CacheRecency.UnusedRank | internal/cache/cache.go:614-619 | a loaded key not used yet ranks by its place in the file, below all uses |
| CacheRecency.RecencyOrder | internal/cache/cache.go:109-111 | in every reachable state the list is strictly ordered by last use, with loaded keys not used yet in file order at the back |
| CacheRecency.RivalsAreLaterUses | internal/cache/cache.go:433-442 | the keys ahead of a key are those used later |
| CacheRecency.PushedOut | internal/cache/cache.go:433-442 | a store drops another key only from the last place that the bound allows |
| CacheRecency.CrowdedOut | internal/cache/cache.go:433-442 | a store evicts a key only if at least MaxEntries other keys were used since its own last use |
| CacheRecency.InsertRestoresBound | internal/cache/cache.go:424-442 | from any list, a store of a new key keeps exactly the most recent entries the bound allows; a store of a listed key drops none |
| CacheRecency.WorkingSetStays | internal/cache/cache.go:100-104 | a stored or loaded key stays while fewer than MaxEntries other keys are used and its lookups hit |
| CacheRecency.LookupDecided | internal/cache/cache.go:167-180 | for a key in the working set, age alone decides between fresh, stale and expired |
| CacheRecency.InTimeNeverMisses | internal/cache/cache.go:181-257 | lookups of a stored or loaded key in time, each with fewer than MaxEntries other keys used since the last one, never miss |
| CacheRecency.WorkingSetHits | internal/cache/cache.go:100-104 | the working set without any talk of misses: for a key looked up in time until now, the next lookup hits exactly if it comes in time |
| CacheCounts.HitsAreCounted | internal/cache/cache.go:384-390 | an entry's hit count survives refills: hits since the key was last absent |
| CacheCounts.HitsSplit | internal/cache/cache.go:413-422 | the count is the hits since the last store plus what that store carried over |
| CacheCounts.CountsAsDocumentedIff | internal/cache/cache.go:61-65 | the count is the documented one exactly if the last store carried nothing over |
| CacheCounts.RefreshAsked | internal/cache/cache.go:283-292 | exactly when a lookup asks for a refresh: every stale hit; a fresh hit near expiry that is popular enough; no miss |
| CacheCounts.PrefetchesAsDocumentedIff | internal/cache/cache.go:57-66 | a fresh lookup prefetches whenever the documented count would, and otherwise exactly if the hits carried over reach MinHits on an entry about to expire |
| CacheCounts.RefillKeepsCounting | internal/cache/cache.go:384-390 | a store, a hit, a refill and a hit that prefetches although one hit since the store is not enough |
| CacheCounts.Accounting | internal/cache/cache.go:181-280 | the counters are the tally of the outcomes; every lookup is one hit, stale hit or miss; prefetch credit goes to entries last filled by prefetch |
| CacheReload.StoreAfterReload | internal/cache/cache.go:511-530 | the lifetime that a store has after a reload, from the reloaded and the kept settings |
| CacheReload.LookupAfterReload | internal/cache/cache.go:511-530 | what a lookup after a reload answers and asks for, by the reloaded stale window and prefetch settings; the reload drops nothing |
| LruInclusion.LruInclusion | internal/cache/cache.go:391-443 | on one trace two caches that differ in their bounds keep inclusion: the smaller list is a subsequence of the larger, which has at most n - m more entries |
| LruInclusion.StartsInside | internal/cache/cache.go:138-153 | two empty caches, or two that load the same file of at most m entries, start like that |
| LruInclusion.HitInclusion | internal/cache/cache.go:181-257 | whatever the smaller cache answers the larger answers alike |
| LruInclusion.IncludedTruncate | internal/cache/cache.go:433-442 | eviction keeps inclusion and the bound |
| LruInclusion.StepNested | internal/cache/cache.go:181-486 | every operation keeps inclusion and the bound |
| RefreshRuns.RunningBound | internal/cache/cache.go:311-376 | at most 1 + number of flushes refreshes of a key run at once |
| RefreshRuns.FlagHasStarter | internal/cache/cache.go:331-339 | a set in-flight flag always has its own starter still running |
| RefreshRuns.StartsSpaced | internal/cache/cache.go:325-333 | without a flush between them two starts are at least five seconds apart |
| RefreshRuns.StartsAgainIff | internal/cache/cache.go:311-333 | once its refreshes have ended, a key is refreshed again exactly if each start since the last flush lies five seconds back |
| RefreshRuns.SingleFlight | internal/cache/cache.go:113-118 | without a flush a refresh starts only when none is running for the key |
| RefreshRuns.SingleFlightIff | internal/cache/cache.go:113-118 | a run keeps one refresh of a key at a time exactly if no trigger starts one beside another begun before a flush |
| RefreshRuns.BoundIsMet | internal/cache/cache.go:456-469 | for every number of flushes a run in which the bound is reached |
| Coalescing.Reachable | internal/resolver/resolver.go:279-325 | the protocol invariant over every interleaving |
| Coalescing.OneRunning | internal/resolver/resolver.go:268-278 | at most one upstream call per key is running |
| Coalescing.EntryIsLeader | internal/resolver/resolver.go:302-313 | the map entry of a key is exactly the caller between insert and delete |
| Coalescing.RemovesOwnEntry | internal/resolver/resolver.go:307-313 | a leader deletes its own entry and no other |
| Coalescing.OutcomeStable | internal/resolver/resolver.go:131-137 | a call's outcome never changes once written, nor is a call forgotten |
| Coalescing.WaitersAreServed | internal/relay/server.go:220-246 | nobody waits on a call that is neither done nor still led by someone who will signal it |
| Coalescing.ReturnsFromJoined | internal/relay/server.go:220-229 | a caller that joined a call returns from that very call |
| Coalescing.Delivered | internal/resolver/resolver.go:286-338 | each caller gets the sections or the error of its call, under its own Id and first question |
| Coalescing.CountersReachable | internal/resolver/resolver.go:268-325 | at any time the counters are the numbers of calls that had a client and came to an outcome, and of callers served by the call of another |
| Coalescing.AtQuiescence | internal/resolver/resolver.go:268-300 | at rest the map is empty, and calls + coalesced = callers exactly when no call lacked a client |
| Coalescing.RunsEnd | internal/resolver/resolver.go:279-325 | every interleaving has at most four steps per caller |
| Coalescing.Progress | internal/resolver/resolver.go:279-325 | until everyone has returned some caller can step |
| InflightTable.Group.constructor | internal/resolver/resolver.go:283-285 | an empty table is the protocol's initial state |
| InflightTable.Group.Enter | internal/relay/server.go:216-234 | the first critical section is the protocol's arrival step: join or lead |
| InflightTable.Group.Write | internal/resolver/resolver.go:314-315 | writing the outcome is the completion step, counting the call as its site does |
| InflightTable.Group.Leave | internal/relay/server.go:237-241 | the second critical section removes the leader's entry |
| InflightTable.Group.Done | internal/relay/server.go:242-263 | signalling and answering the leader's own request |
| InflightTable.Group.Joined | internal/relay/server.go:222-229 | a released waiter counts itself and answers its own request |
| InflightTable.Group.ReplyFrom | internal/resolver/resolver.go:317-325 | what a caller gets from an outcome, including the relay's missing check for an absent answer |
| HealthSpec.RefreshTwice | internal/upstream/health/health.go:106-112 | applying a due promotion earlier changes nothing later |
| HealthRuns.ReadsAreInvisible | internal/upstream/health/health.go:106-112 | a run with its reads removed looks the same from its last moment on |
| HealthRuns.History | internal/upstream/health/health.go:117-152 | counters, streaks and last times are what the history says, and what each state says about the recent history |
| HealthRuns.Transition | internal/upstream/health/health.go:117-152 | every transition in terms of the streaks alone: second failure, fifth failure, failed or successful probe, third success; a recovery counts anew |
| HealthRuns.ProbingIff | internal/upstream/health/health.go:108-112 | probing exactly when down and without a failure for thirty seconds |
| HealthRuns.AverageIsEwma | internal/upstream/health/health.go:247-253 | the average is the moving average of the observed latencies and of nothing else |
| HealthRuns.EwmaInRange | internal/upstream/health/health.go:247-253 | the average stays between the least and the greatest observation |
| HealthRuns.WeightsAddUp | internal/upstream/health/health.go:247-253 | the weights are positive and add up to one |
| HealthRuns.AverageIsWeighted | internal/upstream/health/health.go:247-253 | the average is the weighted mean with those weights |
| HealthRuns.Contraction | internal/upstream/health/health.go:247-253 | k more samples v shrink the distance to v by exactly 0.8 to the k |
| HealthRuns.LatencyBound | internal/upstream/health/health.go:247-253 | if every recorded latency is below a bound so is the average |
| Tracking.EndpointStats.constructor | internal/upstream/health/health.go:216-226 | a new record is a fresh healthy one |
| Tracking.EndpointStats.RefreshState | internal/upstream/health/health.go:108-112 | the promotion, in place |
| Tracking.EndpointStats.OnSuccess | internal/upstream/health/health.go:117-129 | the success transition, in place |
| Tracking.EndpointStats.OnFailure | internal/upstream/health/health.go:134-152 | the failure transition, in place |
| Tracking.EndpointStats.RecordSuccess | internal/upstream/health/health.go:237-256 | a success record, in place |
| Tracking.EndpointStats.RecordFailure | internal/upstream/health/health.go:267-278 | a failure record, in place |
| Tracking.Tracker.Get | internal/upstream/health/health.go:216-226 | the entry, created healthy if it was not there; all others untouched |
| Tracking.Tracker.RecordSuccess | internal/upstream/health/health.go:232-256 | changes that endpoint only |
| Tracking.Tracker.RecordFailure | internal/upstream/health/health.go:263-279 | changes that endpoint only |
| Tracking.Tracker.State | internal/upstream/health/health.go:322-331 | the promoted state, and that the read may create the entry |
| Tracking.Tracker.Order | internal/upstream/health/health.go:293-317 | the loop yields the stable descending order by score and touches each endpoint |
| Tracking.Tracker.PathState | internal/upstream/health/health.go:349-375 | the best state on the path, healthy if none was seen, in any visiting order |
| Tracking.Tracker.PathEWMA | internal/upstream/health/health.go:379-404 | the least average on the path, or 0 |
| Tracking.Tracker.TransportScoreOf | internal/upstream/health/health.go:438-456 | the score of one transport |
| Tracking.Tracker.OrderTransports | internal/upstream/health/health.go:429-469 | the loop yields the stable descending order by transport score |
| Tracking.Tracker.Snapshot | internal/upstream/health/health.go:474-512 | every entry, refreshed |
| Ranking.SortSorted | internal/upstream/health/health.go:311 | the sort is descending with ties in place |
| Ranking.SortPermutes | internal/upstream/health/health.go:311 | the sort drops and invents nothing |
| Ranking.SortIsUnique | internal/upstream/health/health.go:457-462 | any stable descending sort gives the same list |
| Ranking.RankedIsStable | internal/upstream/health/health.go:281-292 | a ranked list rearranges the names into descending score, ties in configured order |
| Ranking.ClassGap | internal/upstream/health/health.go:160-175 | which of two endpoints of different classes scores higher and when they tie, exactly |
| Ranking.ClassDecides | internal/upstream/health/health.go:154-159 | below 1000 ms the class decides first and the average second |
| Ranking.EncryptedGap | internal/upstream/health/health.go:441-455 | when doh, dot or relay outscores plain, exactly |
| Ranking.EncryptedBeatsPlain | internal/upstream/health/health.go:420-424 | below 3000 ms doh, dot or relay, if not down, always does |
| Ranking.EncryptedPair | internal/upstream/health/health.go:441-455 | which of two among doh, dot and relay of different classes scores higher and when they tie, exactly |
| Ranking.OrdinaryPair | internal/upstream/health/health.go:438-456 | the same of any two other paths, for which not being down is worth nothing more |
| Ranking.SameClass | internal/upstream/health/health.go:438-456 | in one class the averages decide, among doh, dot and relay and among all others |
| TrackerSpec.OrderIsByClass | internal/upstream/health/health.go:281-292 | below 1000 ms: class first, then average, then configured order; nothing dropped |
| TrackerSpec.OrderIsByClassIff | internal/upstream/health/health.go:281-317 | for any latencies, Order lists better classes first exactly if no better endpoint lags behind a worse one by more than the classes are worth, ties by configured order |
| TrackerSpec.TouchAllIs | internal/upstream/health/health.go:302-310 | what Order's reads leave behind |
| TrackerSpec.OrderTransportsPermutes | internal/upstream/health/health.go:429-469 | reordering transports drops and invents nothing |
| TrackerSpec.EncryptedFirst | internal/upstream/health/health.go:420-469 | below 3000 ms neither doh nor dot nor relay, if not down, comes after plain, and plain leads only if all of them are down |
| TrackerSpec.DownComesLater | internal/upstream/health/health.go:420-469 | below 3000 ms nothing that is down comes before a doh, dot or relay that is not |
| TrackerSpec.EncryptedFirstIff | internal/upstream/health/health.go:420-469 | for any latencies, none of doh, dot and relay that is not down comes after plain exactly if each lags behind plain by no more than its bonus, ties by configured order |
| TrackerSpec.EncryptedByClassIff | internal/upstream/health/health.go:424-469 | for any latencies, healthier ones of doh, dot and relay come first exactly if none lags behind a less healthy one by more than the states are worth, ties by configured order |
| TrackerSpec.EncryptedByAverage | internal/upstream/health/health.go:424-469 | those of doh, dot and relay in one class always come in the order of their averages |
| TrackerSpec.OthersByClassIff | internal/upstream/health/health.go:424-469 | the same of all other paths, with the states worth less |
| TrackerSpec.OthersByAverage | internal/upstream/health/health.go:424-469 | other paths in one class always come in the order of their averages |
| TrackerSpec.ReadKeepsPathHealthIff | internal/upstream/health/health.go:216-226 | a read keeps the path state exactly if the endpoint was known or the path healthy |
| TrackerSpec.PathHealthIsBest | internal/upstream/health/health.go:349-375 | the state of a path is the best of its endpoints: healthy, probing, degraded, unhealthy, in this order |
| TrackerSpec.PathEwma | internal/upstream/health/health.go:377-404 | the least average exists and is meant |
| TrackerRuns.EndpointAlone | internal/upstream/health/health.go:204-226 | in any run each endpoint evolves as its own share of the run |
| TrackerRuns.ReadsNeverMatter | internal/upstream/health/health.go:293-331 | any mix of reads in a timed run of records is unobservable at every endpoint |
| TrackerRuns.RecordedBound | internal/upstream/health/health.go:247-253 | a bound on recorded latencies bounds every average |
| TrackerRuns.EncryptedFirstAfter | internal/upstream/health/health.go:420-469 | encrypted before plain after any run of latencies below 3000 ms |
| TrackerRuns.ClassDoesNotAlwaysDecide | internal/upstream/health/health.go:281-317 | a run after which Order lists a degraded endpoint before a healthy one |
| TrackerRuns.EncryptedCanLose | internal/upstream/health/health.go:420-469 | a run after which the chain's order puts plain before a DoH that is not down |
| TrackerRuns.HealthierCanLose | internal/upstream/health/health.go:424-469 | a run after which the chain's order puts a degraded DoH before a healthy DoT |
| TrackerRuns.ReadCanHidePathFailure | internal/upstream/health/health.go:346-375 | a run after which one Order call turns a transport that is down healthy |
| IncidentSpec.Exclusions | internal/upstream/health/incidents.go:121-158 | per path unavailable and degraded transport exclude each other and any provider incident; one of them shows exactly when nothing is up |
| IncidentSpec.PathReports | internal/upstream/health/incidents.go:121-140 | a path is reported as unavailable, critically, exactly if it has endpoints and all are unhealthy; as degraded, with a warning, exactly if none is healthy or probing and one is degraded |
| IncidentSpec.EndpointReports | internal/upstream/health/incidents.go:147-185 | exactly when an endpoint is reported, in terms of states, counters and averages, and at which severity |
| IncidentSpec.FiveFailuresAreCritical | internal/upstream/health/incidents.go:121-132 | five failures of the only server and the path is reported as unavailable |
| IncidentSpec.TwoFailuresAreAWarning | internal/upstream/health/incidents.go:133-140 | two failures and it is reported as degraded |
| IncidentSpec.LatencyAsDocumentedIff | internal/upstream/health/incidents.go:23-25 | the detector agrees with the documented latency condition exactly where the average is above the floor and a multiple of the best average on the path, or neither |
| IncidentSpec.TwoServersAgreeIff | internal/upstream/health/incidents.go:173-174 | for two servers with one recorded time each: when the detector finds an incident, and when the documentation has one |
| IncidentSpec.FloorAloneIsNoIncident | internal/upstream/health/incidents.go:173-174 | two recorded latencies that the documentation calls an incident and the detector does not |
| IncidentSpec.RunStart | internal/upstream/health/incidents.go:188-196 | an incident found by the last evaluation has a first evaluation of its unbroken run |
| IncidentSpec.SinceIsRunStart | internal/upstream/health/incidents.go:188-196 | Since is the first evaluation of the current unbroken run that found the incident |
| IncidentSpec.InsertAscends | internal/upstream/health/incidents.go:203-211 | the listing order is built up strictly |
| IncidentSpec.ListedInOrder | internal/upstream/health/incidents.go:203-211 | the listing goes by kind in a fixed order, then path, then endpoint |
| IncidentSpec.KeyLessTotal | internal/upstream/health/incidents.go:203-211 | kind, path, endpoint order any two different incidents |
| IncidentSpec.ListingUnique | internal/upstream/health/incidents.go:197-212 | the listing is determined by the active set |
| Incidents.Summarize | internal/upstream/health/incidents.go:102-146 | the pass over a path's endpoints: flags, least positive average, peers that are up |
| Incidents.Detector.constructor | internal/upstream/health/incidents.go:54-61 | the default thresholds and no active incident |
| Incidents.Detector.OfEndpoint | internal/upstream/health/incidents.go:147-185 | exactly the incidents of one endpoint |
| Incidents.Detector.OfPath | internal/upstream/health/incidents.go:98-186 | exactly the incidents of one path |
| Incidents.Detector.FindAll | internal/upstream/health/incidents.go:90-186 | exactly the incidents there are |
| Incidents.Detector.Evaluate | internal/upstream/health/incidents.go:84-213 | the next active set, its starting times and the sorted listing |
| Incidents.Detector.ActiveCount | internal/upstream/health/incidents.go:71-79 | the number of active incidents |
| Incidents.SlowAgainstBest | internal/upstream/health/incidents.go:173-174 | comparing with the best peer decides slowness against any peer |
| UpstreamSpec.AttemptsMeans | internal/upstream/upstream.go:79-91 | all attempts but the last were refused, and attempts stop only for a reason |
| UpstreamSpec.RepliesAreAcceptable | internal/upstream/upstream.go:223-285 | a client returns an attempt's own reply that its rules allow; plain never a banned one |
| UpstreamSpec.OneRecordPerAttempt | internal/upstream/upstream.go:79-91 | one health record per attempt: a success for the server that answered, a failure for each other attempt, nothing else |
| UpstreamSpec.WinnerIsMeasured | internal/upstream/upstream.go:79-91 | only the server that answered is measured, by how long that very attempt took |
| UpstreamSpec.ExhaustedTriesAll | internal/upstream/upstream.go:252-286 | a client not cut short fails only after trying every occurrence of every server once |
| UpstreamSpec.NoHealthierServerSkipped | internal/upstream/upstream.go:14-17 | below 1000 ms no server left unasked was in a better class than the one that answered |
| UpstreamSpec.AnswersIffSomeServerDoes | internal/upstream/health/health.go:288-292 | with steady servers health decides who answers, never whether |
| UpstreamSpec.ChainAnswersIff | internal/upstream/upstream.go:118-170 | the chain answers exactly when some configured server is acceptable, adaptive or not |
| ClientLaws.DoHAnswersIff | internal/upstream/upstream.go:70-92 | with steady servers DoH answers exactly if some configured server replies at all, and with such a reply |
| ClientLaws.DoTAnswersIff | internal/upstream/upstream.go:201-224 | DoT answers exactly if some server brings a reply that is not truncated |
| ClientLaws.PlainAnswersIff | internal/upstream/upstream.go:248-286 | plain answers exactly if some server brings a reply that is neither truncated nor holds a banned address in Answer or Additional |
| ClientLaws.DoHRecords | internal/upstream/upstream.go:79-91 | DoH records one success, of the server that answered, and failures only of servers without a reply |
| ClientLaws.DoTRecords | internal/upstream/upstream.go:206-222 | the same of DoT, where a truncated reply is a failure |
| ClientLaws.PlainRecords | internal/upstream/upstream.go:252-284 | the same of plain, where a banned address is one as well |
| ClientLaws.ChainInOrder | internal/upstream/upstream.go:132-165 | a chain that does not adapt hands on the reply of DoH, else of DoT, else of plain |
| ClientLaws.ChainAdapts | internal/upstream/upstream.go:132-165 | one that adapts hands on a reply of plain, or of a transport that is down, only after asking each encrypted one that is not, below 3000 ms |
| Upstream.OrderServers | internal/upstream/health/health.go:199-208 | the preferred order, and a nil tracker that leaves everything as it is |
| Upstream.DoHClient.Resolve | internal/upstream/upstream.go:70-92 | reply and recorded health of the DoH loop |
| Upstream.DoTClient.Resolve | internal/upstream/upstream.go:201-224 | reply and recorded health of the DoT loop |
| Upstream.PlainClient.Refuses | internal/upstream/upstream.go:259-282 | failed, truncated and banned replies are refused, and no others |
| Upstream.PlainClient.Ask | internal/upstream/upstream.go:257-284 | one server's turn and its one record |
| Upstream.PlainClient.Resolve | internal/upstream/upstream.go:248-286 | reply and recorded health of the plain loop, which stops when the caller gives up |
| Upstream.Chain.Try | internal/upstream/upstream.go:138-162 | a transport's turn; one that is not set up is skipped |
| Upstream.Chain.TryEach | internal/upstream/upstream.go:138-165 | the loop over the transports |
| Upstream.Chain.Resolve | internal/upstream/upstream.go:132-170 | the first transport in the adapted order that answers, and what it all leaves in the tracker |
| ResolverSpec.FillKeepsSlots | internal/resolver/resolver.go:468-475 | filling upstream slots moves nothing else |
| ResolverSpec.AdaptedKeepsSlots | internal/resolver/resolver.go:445-476 | the adapted order is a permutation, keeps every other slot, and reads OrderTransports of the upstreams in the upstream slots |
| ResolverSpec.WalkMeans | internal/resolver/resolver.go:170-230 | how the walk ends, slot by slot |
| ResolverSpec.ResolveSound | internal/resolver/resolver.go:145-235 | SERVFAIL exactly when every strategy refused; otherwise the ban-free reply of the first that did not, with the query's own Id and question; only upstream answers are stored |
| StrategyLaws.TurnGives | internal/resolver/resolver.go:171-190 | what each strategy has to give, in terms of local records, cached entries and upstreams alone |
| StrategyLaws.FirstToGive | internal/resolver/resolver.go:161-235 | the reply is that of the first slot with something ban-free to give; SERVFAIL exactly where none has |
| StrategyLaws.LookupBooks | internal/cache/cache.go:311-333 | a lookup that begins a refresh keeps later ones from beginning another for five seconds; one that begins none changes no bookkeeping |
| StrategyLaws.AdaptingMovesUpstreams | internal/resolver/resolver.go:445-476 | adapting exchanges relay, doh, dot and plain among their own slots and moves nothing else |
| StrategyLaws.FirstToFetch | internal/resolver/resolver.go:243-267 | a refresh fetches the reply of the first strategy among relay, doh, dot and plain that has one |
| ResolverLaws.AdaptingLosesNoAnswer | internal/resolver/resolver.go:445-476 | with steady upstreams the adapted order fails on a query exactly when the configured one does |
| ResolverLaws.ResolveKeepsClean | internal/resolver/resolver.go:201-218 | resolving never puts a banned answer into a clean cache |
| ResolverLaws.AnswerIsCached | internal/resolver/resolver.go:217-219 | an upstream's answer is served from the cache to the next query, under its own Id, while its lifetime lasts |
| ResolverLaws.OnlyPlainIsClean | internal/resolver/resolver.go:237-262 | if plain is the only upstream in the order with a client and servers, the refresh path brings nothing banned |
| ResolverLaws.OthersCanPoison | internal/resolver/resolver.go:243-262 | any other upstream with a client and servers can make it bring a banned answer |
| ResolverLaws.RefreshReplyCleanIff | internal/resolver/resolver.go:243-267 | exactly when the reply of the refresh path is never a banned one |
| ResolverLaws.UncheckedStoreCleanIff | internal/cache/cache.go:363-367 | the unchecked store keeps a clean cache clean exactly if the reply is clean or not kept |
| CleanRuns.HarmlessStaysClean | internal/cache/cache.go:334-375 | in the safe configurations every interleaving of query turns, refreshes and removals keeps a clean cache clean |
| CleanRuns.LoneQueryIsResolve | internal/resolver/resolver.go:161-235 | a query whose turns nothing interleaves with does to the cache and begins what Resolve does in one go |
| CleanRuns.OneRefreshStarts | internal/cache/cache.go:236-292 | wherever lookups are made and may refresh, a run of queries that starts one, by a stale or a popular hit |
| CleanRuns.SomeRunPoisons | internal/resolver/resolver.go:237-267 | in every other configuration a run from an empty cache, under a clock that never runs back, that stores a banned answer |
| CleanRuns.CacheStaysCleanIff | internal/resolver/resolver.go:82-85 | no run ever puts a banned answer into a clean cache exactly if nothing is banned, plain is the only upstream in the order with a client and servers, or no refresh happens |
| CleanRuns.ShippedSettingsStayClean | internal/config/config.go:257-271 | the shipped cache settings are safe as long as no refresh is demanded |
| QuestionRuns.ServedForItsQuestion | internal/cache/cache.go:155-165 | in every run, what a cache slot answers was handed to the cache for that very question, or loaded under its name and type |
| QuestionRuns.OtherQuestionsDeclined | internal/cache/cache.go:155-165 | so where nothing was handed over for its question the cache slot declines |
| EndToEnd.PlainIsFiltered | internal/upstream/upstream.go:271-282 | calls made by the plain client never bring a banned answer, as the resolver trusts |
| EndToEnd.ClientsFollowRules | internal/upstream/upstream.go:70-285 | what the clients' own calls refuse and under which path they are tracked |
| EndToEnd.OnlyEquippedReply | internal/upstream/upstream.go:70-92 | only upstreams with a client and servers for it to ask ever reply |
| EndToEnd.ClientReceives | internal/resolver/resolver.go:279-338 | the reply is what the settling slot's coalesced call handed over for this very request; earlier upstream slots were handed errors or banned answers |
| EndToEnd.ThroughTheProtocol | internal/resolver/resolver.go:279-325 | in any run of the coalescing protocol the caller that asked under the key of this question and strategy returns exactly that reply, from a call made under that key |
| EndToEnd.SharedCallSameQuestion | internal/resolver/resolver.go:268-300 | callers that return from one call asked the same question of the same strategy |
| EndToEnd.ClientCallsAreLegal | internal/resolver/resolver.go:342-385 | turns and refreshes whose calls the clients made are steps of the runs above |
| Resolver.Resolver.ApplyRuntime | internal/resolver/resolver.go:113-129 | which settings a reload replaces |
| Resolver.Resolver.AdaptOrder | internal/resolver/resolver.go:447-476 | the adapted order and the refreshed tracker |
| Resolver.CollectUpstream | internal/resolver/resolver.go:451-460 | the upstream strategies and their positions |
| Resolver.FillSlots | internal/resolver/resolver.go:468-475 | the loop over positions fills the slots left to right |
| Resolver.Resolver.FromRecords | internal/resolver/resolver.go:387-404 | no record declines, a malformed one fails, otherwise an answer to this query |
| Resolver.Resolver.FromCache | internal/resolver/resolver.go:414-429 | a cache hit answers, a miss or no cache declines, and which refresh the lookup starts |
| Resolver.Resolver.TakeTurn | internal/resolver/resolver.go:171-190 | the dispatch on the strategy, with unknown ones and an absent relay skipped |
| Resolver.Resolver.Settle | internal/resolver/resolver.go:191-230 | a banned answer is rejected; an accepted upstream answer is stored, others are not |
| Resolver.Resolver.TryAll | internal/resolver/resolver.go:170-235 | the loop over the strategies |
| Resolver.Resolver.Resolve | internal/resolver/resolver.go:161-235 | the reply, the strategy that gave it, the cache and its refresh bookkeeping afterwards, and the refreshes started |
| Resolver.Resolver.ResolveUpstreamOnly | internal/resolver/resolver.go:243-267 | the first upstream reply as it comes, without a look at the ban list |
| RateLimit.NewLimiter | internal/relay/server.go:352-357 | no limiter for a non-positive limit |
| RateLimit.Limiter.Allow | internal/relay/server.go:359-374 | the key's window after the request, all other keys untouched, and when it is allowed |
| RateLimit.CountIsMade | internal/relay/server.go:366-373 | a window's count is the number of requests since it began |
| RateLimit.RefusedIff | internal/relay/server.go:366-373 | a request is refused exactly if it exceeds the limit within its own window |
| RateLimit.SlidingBound | internal/relay/server.go:335-374 | any closed interval as long as the window holds at most 2 * limit - 1 allowed requests |
| RateLimit.SlidingBoundIsMet | internal/relay/server.go:359-374 | for every limit a run that reaches the bound |
| RateLimit.NeverRefused | internal/relay/server.go:359-374 | a key within the limit in every such interval is never refused |
| RateLimit.OthersDoNotMatter | internal/relay/server.go:359-374 | what a key is told depends on its own requests alone |

## Left out

- The network, HTTP and DNS listeners, TLS, contexts and timeouts: upstream behaviour is a parameter.
- DNS wire format, base64, CIDR parsing, gob and JSON: messages are abstract, packed answers are known by what they unpack to, the snapshot file returns what was written.
- The resolver's own error texts, which name the strategy: an absent client and an absent answer have one text each here.
- The response code: re-stamping keeps Answer, Ns and Extra around the library's SetReply, so nothing is claimed of it; SERVFAIL is told apart by the slot that answered.
- Fully qualifying names and naming types: keys are built from the question's own name and type name, as the wire yields them.
- Concurrency inside one lookup: the two critical sections of `Get` that drop a corrupted entry are one step here, as are a lookup and the start of the refresh it asks for; one lookup, store or evaluation reads the clock once. Lookups, stores and the ends of refreshes of different queries do interleave.
- Reads of the cache options during a reload are atomic here.
- Counters are unbounded, where the program has 64-bit ones; averages are exact, where it has floating point.
- Panics inside an upstream call, which run the deferred clean-up and then leave the waiters without an outcome.
- The chain's clients record in the chain's own tracker or in none, which is how the program sets them up; separate trackers per client are not modelled.
- AnswerCache.Cache.TriggerRefresh: the counters of skipped prefetches are not modelled.
- AnswerCache.Cache.UpdateRuntime: the refresh timeout is left out, as all timeouts are.
- AnswerCache.Cache.Restore: reading the file is left out, so a missing or malformed file (an empty cache) is not modelled.
- Tracking.Tracker.Snapshot: yields the refreshed entries as a map; the listing sorted by path and endpoint, and scores in it, are not modelled.
- Incidents.Detector.Evaluate: message texts are not modelled, and strings are compared by character where the program compares bytes.
- Resolver.Resolver.Resolve: an upstream call is a parameter of the method; `EndToEnd.dfy` puts the coalesced calls of the clients in its place on values, not as nested method calls, since the program interleaves them with other callers.
- Resolver.Resolver.ApplyRuntime: only the order, the presence of a relay and the adaptive switch; clients and timeout are parameters.
- Metrics other than the cache, coalescing and call counters, and all logging.
- Configuration parsing, hot-reload wiring, the admin API, the local record store, relay allow-lists and bearer tokens, the dashboard: simple lookups and field-by-field work with only easy members.
