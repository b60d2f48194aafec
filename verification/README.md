# Verified model of the arbitrage bot's engines

A Dafny model of the parts of the bot that decide what it does with a quoted route, and proofs of what
those parts promise over whole runs. `dafny verify dfyconfig.toml` checks everything.

* **The template store** keeps instructions Metis built for a route and serves them from RAM for other
  amounts. `TemplateStore` has the store as the source's object and as a value; `Generations`,
  `StoreRuns` and `StoreConcurrency` its runs; `Signature`, `RoutePlan`, `HopFields` and `Amounts` the
  hash, the hop ids, what both say about the JSON of a plan, and the byte patching; `Inserting` what an insert
  makes servable and for how long; `Persistence`, `HopPersistence` and `Restarts` its files and new processes;
  `Transparency`, `Tiers` and `ConcurrentServing` the main theorem: RAM serves exactly what it can, and what
  it serves is what Metis would have built, over whole runs and while tasks insert.
* **The dispatch pipeline** is a state machine in which every lock, push, pop, counter and permit operation
  is a step of its own and the limiters decide who gets a slot (`Pipeline`). `FunnelLaws`, `LifoQueue`,
  `Requeues` and `RequeueTrace` prove what every interleaving keeps; `WorkerLoop` and `ScanLoop` write a
  worker's turn, a push, a quote check, the scanner's turn and a swap-instruction task as the source does,
  tie each to a run of the machine, and say what every counter, the queue and the store come to.
* **The rate limiter** (`RateLimiting`) is safe in every window, refuses only when it must, and grants as
  much as any admissible policy.
* **Time and counters**: `Calendar` (epoch days to dates and ISO texts), `Atomics`, `QuoteChecks` and
  `TokenReports` (draining counters into reports), `TokenRefresh` (the access token's refresh loop).

Main results are about every input, run or interleaving. Where the code does not keep what its comments
or counters suggest, the model follows the code, a lemma gives the failing input, and another says exactly
when it does hold:

* `ROUTE_SEG_CAP`'s comment promises at most two generations of live routes. That holds for a process
  exactly when it loaded no more than one generation (`StoreRuns.DocumentedLimitExact`). Every flush and
  restart can add one generation: `(r + 2) * cap` after `r` restarts is a bound and is reached
  (`Restarts.GrowthBound`, `Restarts.GrowthIsTight`).
* `rate_requeued` counts an item at most once, yet can exceed `queue_in`: the queue is last in, first out, so
  a worker can take a pushed item on an older item's permit before the push is counted. With L the limits of
  both limiters together, once anything was requeued `rate_requeued + L` is at most `queue_in` plus the pushes
  not counted yet (`Requeues.RequeuedBound`), because L items got a slot before the first refusal. So it stays
  within `queue_in` over all runs with at most p uncounted pushes at a time exactly when p is at most L
  (`RequeueTrace.RequeuedWithinQueueInExact`). A pusher does not yield between push and count, so p is bounded
  by the threads that run pushers: with the shipped limit of 5, and 4 runtime threads besides the scanner's,
  it is not exceeded.
* A refresh loop whose iterations succeed within a minute of their sleep does not keep the token alive: its
  clock drops the milliseconds, and 59 seconds is the exact limit (`TokenRefresh.DeadlineExact`). For the
  same reason a refresh token is used with more than 119, not 120, seconds left
  (`TokenRefresh.RefreshTokenLeftExact`).
* ISO texts order as their moments exactly up to the year 9999 (`Calendar.IsoOrderExact`).
* A hop id names its hop exactly when no string of the hop holds a ':' (`RoutePlan.TemplateIdExact`), and
  reloading the hop files restores the hop map exactly when no two hops share file and id
  (`HopPersistence.HopReloadExact`).

* Inserting an amount a route already patches can change what that amount is served, when the new instruction
  is not the patched one (`Inserting.InsertChangesExactly`); under the assumptions below it never does
  (`Inserting.InsertKeepsServed`).

Two more facts about the signature. Its comment calls the hash FNV-1a, but the code multiplies by 2^32 + 0x1b3
where FNV-1a has the prime 2^40 + 0x1b3; the model uses the code's number, which is odd and so invertible. And
hop boundaries are not part of the hashed text, so some different plans share a signature
(`Signature.BoundaryNotHashed`).

Assumptions. Metis is an arbitrary function of plan and amount; `Transparency` assumes that its bytes for a
plan differ between amounts only in one 16-byte window holding the amount and its floor, and that equal
signatures mean equal instructions among the plans of the run (`Transparency.PlainBot` shows that both can
hold). Moments are integers; the limiter's requests do not go back in time where a lemma says so. `u64`
arithmetic wraps, as in a release build. The capacity of a generation is any number from 1.

## Model

| member | source | states |
|---|---|---|
| RateLimiting.RateLimiter.constructor | src/rate_limiter.rs:11-17 | a new limiter has granted nothing |
| RateLimiting.RateLimiter.TryAcquire | src/rate_limiter.rs:20-33 | the answer and the kept timestamps are those of the run of all requests so far, and no more timestamps are kept than the limit |
| RateLimiting.RateLimiter.Probe | src/rate_limiter.rs:20-33 | prunes what is one second old, then grants exactly when fewer than the limit are left |
| RateLimiting.GrantIffRoom | src/rate_limiter.rs:20-33 | a request is granted exactly when the grants of the last second leave room |
| RateLimiting.WindowSafety | src/rate_limiter.rs:20-33 | over any run, no window (t - 1s, t] holds more grants than the limit |
| RateLimiting.RefusalExact | src/rate_limiter.rs:20-33 | a request is refused only if the window ending now already holds exactly the limit |
| RateLimiting.GreedyAdmissible | src/rate_limiter.rs:20-33 | the limiter itself is one of the admissible policies |
| RateLimiting.GreedyGrantsMost | src/rate_limiter.rs:20-33 | no admissible policy grants more of the same requests |
| RateLimiting.GreedyOptimal | src/rate_limiter.rs:20-33 | its i-th grant comes no later than the i-th grant of any admissible policy |
| RateLimiting.AcquireSlot | src/arbitrage.rs:328-348 | a worker asks the REST limiter first and the gRPC one only when refused, and has a slot exactly when one of them granted |
| RateLimiting.CombinedBound | src/arbitrage.rs:328-348 | however the workers' probes interleave, both limiters together grant at most the sum of their limits in any window |
| Calendar.EpochDaysToYmd | src/token_metrics.rs:190-214 | the year and month loops end without underflow in the valid date with this day number |
| Calendar.DaysBeforeYearClosed | src/token_metrics.rs:190-218 | the days the year loop subtracts are those of the Gregorian leap-year rule in closed form |
| Calendar.DayNumberKeepsOrder | src/token_metrics.rs:190-214 | counting the days back to 1970-01-01 orders dates as the calendar does |
| Calendar.DayNumberInjective | src/token_metrics.rs:190-214 | different dates have different day numbers, so the date found is the only one |
| Calendar.DateExists | src/token_metrics.rs:190-214 | every day count is the day number of a valid date |
| Calendar.NowIso | src/token_metrics.rs:177-188 | the text is the date and the time of day of the moment |
| Calendar.IsoKeepsOrder | src/token_metrics.rs:177-188 | before the year 10000 the texts order lexicographically as the seconds do |
| Calendar.FiveDigitYearBreaksOrder | src/token_metrics.rs:177-188 | the first second of the year 10000 sorts before the last of 9999 |
| Calendar.IsoOrderExact | src/token_metrics.rs:177-188 | the texts of all moments below a bound are ordered exactly when the bound is within the year 9999 |
| Amounts.DiscoverOffsets | src/template_cache.rs:284-321 | returns (p, p + 8) exactly when the pair stands only at p, or nowhere and the amount only at p with room for another u64 |
| Amounts.PatchPointUnique | src/template_cache.rs:284-321 | there is at most one such p |
| Amounts.PatchAmounts | src/template_cache.rs:323-341 | the buffer is overwritten at both offsets, or left as it is when an offset does not fit |
| Amounts.PatchedAt | src/template_cache.rs:323-341 | patching changes the sixteen bytes at p and nothing else |
| Amounts.PatchedReadsBack | src/template_cache.rs:323-341 | the little-endian amounts read back are those written |
| Amounts.PatchTwice | src/template_cache.rs:323-341 | the last patch wins |
| Amounts.PatchBackExact | src/template_cache.rs:284-341 | patching the original pair back restores the data exactly when the first pass found the place |
| Amounts.RediscoveryStable | src/template_cache.rs:284-341 | discovery on patched data finds the same place or refuses, exactly when the new pair also stands elsewhere |
| RoutePlan.LowerLetters | src/template_cache.rs:79-162 | lower-casing maps letter by letter on text without the two other characters that become ASCII letters |
| RoutePlan.IdTellsRest | src/template_cache.rs:200-215 | whatever the strings hold, an id tells the direction, the account hash and the three strings joined |
| RoutePlan.TemplateIdInjective | src/template_cache.rs:200-215 | the id of a key without ':' is shared exactly by keys with the same pool, mints, direction and account hash |
| RoutePlan.MovedColon | src/template_cache.rs:200-215 | a key with a ':' shares its id with another hop |
| RoutePlan.TemplateIdExact | src/template_cache.rs:200-215 | a key's id names its hop exactly when none of its strings holds a ':' |
| RoutePlan.TemplateIdCollides | src/template_cache.rs:200-215 | with ':' two different hops can share an id |
| RoutePlan.FileStemInjective | src/template_cache.rs:112-125 | DEX kinds have different files |
| RoutePlan.FileAndIdInjective | src/template_cache.rs:112-215 | file and id of a key without ':' are no other key's |
| RoutePlan.KnownId | src/template_cache.rs:200-215 | a known id, which fixes the order of its parts |
| HopFields.LabelledExact | src/template_cache.rs:79-110 | a label test holds exactly when the lower case of the hop's label string holds the word somewhere |
| HopFields.DexExact | src/template_cache.rs:79-110 | the DEX of a hop for each combination of words in its label; the tests for the longer Whirlpool words change nothing |
| HopFields.KindExact | src/template_cache.rs:79-162 | which labels make the direction a boolean and which a side |
| HopFields.DirectionExact | src/template_cache.rs:141-162 | the direction is the first boolean of the four keys of a Whirlpool or AlphaQ hop, the side of an Aldrin hop, and none otherwise |
| HopFields.HopKeyExact | src/template_cache.rs:183-198 | a hop has a key exactly when ammKey, inputMint and outputMint are strings; the key holds these strings and the direction the JSON gives |
| HopFields.SameSwapExact | src/template_cache.rs:183-198 | two hops share all of their keys but the DEX exactly when their JSON names the same pool, mints and direction |
| HopFields.PairKeyed | src/template_cache.rs:487-531 | a plan has a pair key exactly when it is two hops with pools and mints |
| HopFields.SameHopsSameKey | src/template_cache.rs:487-531 | plans with the same pools, mints and directions in order have the same pair key |
| HopFields.PairKeyExact | src/template_cache.rs:487-531 | the pair key of a plan without separators is shared exactly by the plans with the same pools, mints and directions in the same order, whatever their strings hold |
| Signature.Fnv1aBijective | src/template_cache.rs:25-60 | hashing a fixed text is a bijection of the seed |
| Signature.FeedHop | src/template_cache.rs:36-57 | the loop over the sorted keys feeds each kept field once, in key order |
| Signature.ComputeFnv1a | src/template_cache.rs:25-60 | the loops compute the hash of the plan's text |
| Signature.ComputeRouteSig | src/template_cache.rs:19-23 | the two passes joined into one u128 |
| Signature.HalvesDiffer | src/template_cache.rs:19-23 | the two halves differ for every plan |
| Signature.BooleanFieldSeparates | src/template_cache.rs:14-60 | plans that differ in one boolean swapInfo field differ in both halves |
| Signature.StringFieldSeparates | src/template_cache.rs:36-57 | plans that differ in one byte of one string field of any hop, a pool, a mint or a label, differ in both halves |
| Signature.NumberFieldSeparates | src/template_cache.rs:36-57 | so do plans that differ in one digit of one number |
| Signature.HashedHopByHop | src/template_cache.rs:25-60 | the hash of a hop goes on where that of the hops before it ended |
| Signature.HashedFieldByField | src/template_cache.rs:36-57 | the last key of a hop is hashed after the rest of it, as key, equals sign, value and semicolon, for each type of value |
| Signature.NothingHashed | src/template_cache.rs:25-60 | no array, no hops, no swapInfo object or an empty one leave the seed as it is |
| Signature.KnownSignature | src/template_cache.rs:19-60 | a known signature, which fixes the seeds, the multiplier and the order of the halves |
| Signature.AmountsIgnored | src/template_cache.rs:14-60 | plans that differ only in inAmount, outAmount and feeAmount have equal signatures |
| Signature.BoundaryNotHashed | src/template_cache.rs:25-60 | two plans that split the same fields differently over hops have equal signatures |
| Generations.OccupancyBound | src/template_cache.rs:533-538 | sizes of the two generations over any run, before and after the second rotation |
| Generations.RecentlyTouchedIsLive | src/template_cache.rs:402-420 | a touched signature is kept while at most a capacity of others is touched |
| Generations.AtLeastLru | src/template_cache.rs:402-481 | the two generations keep whatever a true LRU list of one more than the capacity keeps |
| TemplateStore.TemplateStore.constructor | src/template_cache.rs:388-398 | a new store is empty |
| TemplateStore.TemplateStore.PushHotRoute | src/template_cache.rs:533-538 | the whole state after a push: a full hot generation becomes the cold one first |
| TemplateStore.TemplateStore.GetRouteRead | src/template_cache.rs:402-412 | the read-locked section answers, or asks for the write section |
| TemplateStore.TemplateStore.GetRouteWrite | src/template_cache.rs:412-420 | the write-locked section promotes what is still cold |
| TemplateStore.TemplateStore.GetRoute | src/template_cache.rs:402-420 | undisturbed, both sections are one lookup-and-promote |
| TemplateStore.TemplateStore.RecordRouteHit | src/template_cache.rs:423-432 | one more hit where the route is, nothing else |
| TemplateStore.TemplateStore.InsertRoute | src/template_cache.rs:436-504 | the whole state after an insert: a known route remembers the amount, a new one is pushed and its hop pair bound once |
| TemplateStore.TemplateStore.GetRouteForHops | src/template_cache.rs:510-531 | a bound pair looks its signature up, anything else finds nothing |
| TemplateStore.TemplateStore.CheckHops | src/template_cache.rs:543-560 | the number of hops of the plan, hop by hop, that have no key or an unrecorded one, and all hit exactly when every hop has a recorded key |
| TemplateStore.TemplateStore.RecordAllHops | src/template_cache.rs:563-586 | only the hop map changes: the key of each hop is counted as often as it occurs in the plan and last seen at the slot, a new one has its fields from its key, and no other hop changes |
| TemplateStore.TemplateStore.RouteCount | src/template_cache.rs:590-595 | the number of distinct live signatures when the generations are disjoint, as they always are |
| TemplateStore.BuildTemplate | src/template_cache.rs:436-481 | a new template has its own amount cached, and offsets exactly when its data decodes and has a patch point: that point and eight bytes on |
| TemplateStore.OffsetsAgree | src/template_cache.rs:284-321 | what the search loops return is the one patch point |
| TemplateStore.NoneMissing | src/template_cache.rs:543-560 | all hit exactly when every hop has a recorded key |
| TemplateStore.RecordedHopsKnown | src/template_cache.rs:563-586 | recording makes exactly the recorded keys known and forgets none |
| TemplateStore.MissingHops | src/template_cache.rs:543-560 | the count of unknown hops is the number of positions of the plan whose hop has no recorded key |
| TemplateStore.RecordedPlan | src/template_cache.rs:563-586 | the recorded hop map, stated for every hop of the plan |
| StoreRuns.ExecTouches | src/template_cache.rs:402-538 | every run of the store moves its generations as the run of its touches does |
| StoreRuns.StructuralStep | src/template_cache.rs:402-538 | no operation puts a signature in both generations or a template under another key, and lookups answer with their own route |
| StoreRuns.RouteCountDistinct | src/template_cache.rs:590-595 | the route count is the number of distinct live signatures in every reachable state |
| StoreRuns.Occupancy | src/template_cache.rs:9-11 | after loading N routes at most max(N, cap) + cap are live, and at most two generations from the second rotation on |
| StoreRuns.DocumentedLimitExact | src/template_cache.rs:9-11 | the documented two generations hold in every later state exactly when at most one was loaded |
| StoreRuns.RecentlyTouchedIsLive | src/template_cache.rs:402-420 | in every run a route stays retrievable while at most a capacity of other routes is touched |
| StoreRuns.RecencyIsTight | src/template_cache.rs:533-538 | one touch more can evict it |
| StoreRuns.AtLeastLru | src/template_cache.rs:402-481 | the store holds whatever an LRU cache of one more than the capacity holds |
| StoreRuns.IndexNeverChanges | src/template_cache.rs:487-503 | a bound hop-pair entry never changes in any run |
| StoreConcurrency.SectionIsAtomic | src/template_cache.rs:402-420 | each locked section acts as one whole operation or as nothing |
| StoreConcurrency.Linearizable | src/template_cache.rs:402-481 | every interleaving of the sections of lookups and inserts is a sequence of atomic operations with the same answers and the same final store |
| StoreConcurrency.SequentialIsExec | src/template_cache.rs:402-481 | so the final store of an interleaving is that of a run of whole operations |
| StoreConcurrency.PromotedIsHot | src/template_cache.rs:412-420 | a promoted route is hot, also through the rotation it causes |
| StoreConcurrency.PromotedOnce | src/template_cache.rs:412-420 | a racing reader finds it promoted and does not promote it again |
| Persistence.RecordRoundTrip | src/template_cache.rs:806-818 | a record gives back its signature and its template without the cached amounts |
| Persistence.FlushRoutes | src/template_cache.rs:706-724 | the file holds one record of every live route and the printed index |
| Persistence.ParseSignature | src/template_cache.rs:679-683 | the digits are read as a u128, with overflow and other text refused |
| Persistence.LoadRoutesFromDisk | src/template_cache.rs:670-704 | the whole state after loading a file, record by record, and the number of routes loaded |
| Persistence.LoadRecordsOf | src/template_cache.rs:679-697 | loading records of a store's routes in any order restores those routes and no others |
| Persistence.PairsRoundTrip | src/template_cache.rs:698-719 | the printed index loads as the same index |
| Persistence.RouteRoundTrip | src/template_cache.rs:670-733 | loading a flush into a new store restores every route without its cached amounts, and the index |
| HopPersistence.HopsRun | src/template_cache.rs:563-586 | in every reachable state of one process each hop template's fields are its key's, and the keys are the initial and the recorded ones |
| HopPersistence.GroupHops | src/template_cache.rs:742-750 | the files hold each hop once, under its DEX and id |
| HopPersistence.FlushHops | src/template_cache.rs:735-762 | each DEX with a hop gets a new file, the others stay |
| HopPersistence.LoadHops | src/template_cache.rs:626-658 | loading the files in any order adds their hops and replaces none |
| HopPersistence.HopRoundTrip | src/template_cache.rs:626-762 | loading what was flushed restores exactly the hop map, when no two hops share file and id |
| HopPersistence.HopReload | src/template_cache.rs:626-762 | so does loading only the files of this flush |
| HopPersistence.HopReloadExact | src/template_cache.rs:626-762 | the reload restores the hop map exactly when no two hops share file and id |
| HopPersistence.ColonFreeDistinct | src/template_cache.rs:200-215 | hops without ':' never do |
| HopPersistence.FieldsAlwaysMatch | src/template_cache.rs:563-658 | over any run of recording, flushes and restarts each template's fields stay its key's |
| HopPersistence.EveryRestartRestores | src/template_cache.rs:563-762 | over any such run every restart loads exactly the hops of the last flush |
| HopPersistence.LoadedFilesCovered | src/template_cache.rs:735-762 | a store that loaded the directory rewrites every file it loaded |
| Restarts.StartsFromFlush | src/template_cache.rs:670-733 | a flush determines what the next process starts with |
| Restarts.GrowthBound | src/template_cache.rs:9-11 | over any run with r restarts at most (r + 2) * cap routes are live |
| Restarts.GrowthIsTight | src/template_cache.rs:9-11 | for every r some run reaches that number |
| Transparency.PlainBot | src/template_cache.rs:343-369 | the assumptions on the builder can be met |
| Transparency.PatchIsBuild | src/template_cache.rs:323-369 | for a builder that differs between amounts only in the window, patching its instruction for one amount is building for the other |
| Transparency.GapIsFees | src/template_cache.rs:352-369 | the stored gap stays the fees, so the patched floor is the one asked for and ignored |
| Transparency.ServesFreshBuild | src/template_cache.rs:352-369 | a template made of a plan serves Metis's instruction for every amount it can serve |
| Transparency.NewTemplateOk | src/template_cache.rs:436-481 | a new template is made of every plan with its signature |
| Transparency.GoodStep | src/template_cache.rs:402-538 | every operation keeps all templates and index entries sound |
| Transparency.GoodRun | src/template_cache.rs:402-733 | so does every run with flushes and restarts |
| Transparency.RamEqualsMetis | src/template_cache.rs:343-369 | in any state of any run, what the signature serves is what Metis would build, and patchable routes always serve |
| Transparency.HopPairServesSameHops | src/template_cache.rs:505-531 | a template found by hops comes only from plans whose JSON has the same pools, mints and directions in order |
| Transparency.ReloadedServesBase | src/template_cache.rs:684-694 | after a reload a first-pass template serves its own amount byte for byte |
| Tiers.ServeFromRam | src/arbitrage.rs:555-601 | the store and the outcome after the two RAM tiers of a candidate |
| Tiers.FirstTierSound | src/arbitrage.rs:560-573 | tier 1 serves Metis's instruction for the plan and keeps the store good |
| Tiers.SecondTierSound | src/arbitrage.rs:578-601 | tier 2 serves Metis's instruction for an inserted plan whose JSON has the same pools, mints and directions |
| Tiers.ServedIsBuilt | src/arbitrage.rs:555-601 | whatever a candidate is served from RAM in any run, Metis would have built |
| Tiers.ServedExactly | src/arbitrage.rs:555-601 | in any state of any run RAM serves by signature exactly when the route is live with the amount cached or with offsets; failing that, by hops exactly when every hop is known and the pair bound to such a route; else it serves nothing and tells how many hops are unknown |
| Tiers.SecondTierServes | src/arbitrage.rs:578-601 | tier 2 serves exactly when every hop is known and the pair bound to a live route that can serve the amount |
| Tiers.ServeByHops | src/arbitrage.rs:578-601 | the store and the outcome after tier 2 |
| Tiers.HitCounted | src/arbitrage.rs:560-571 | a hit by signature leaves the route hot with its hits counted, its template else unchanged |
| Tiers.HopHitCounted | src/arbitrage.rs:583-597 | so does a hit by hops, for the route the pair is bound to |
| Tiers.ServingOff | src/arbitrage.rs:560-601 | with serving off nothing is served and the store stays as it is |
| Inserting.ServedAfterInsert | src/template_cache.rs:436-504 | right after an insert a lookup finds a template that serves the amount with the instruction first inserted for it; a known route keeps base and offsets and serves every other amount as before |
| Inserting.InsertChangesExactly | src/template_cache.rs:454-468 | an insert changes what a known route serves exactly at an amount that was not cached and was not served this instruction |
| Inserting.InsertKeepsServed | src/template_cache.rs:436-504 | what the bot inserts leaves every amount served before served with the same instruction |
| Inserting.OneAnswerServesAll | src/template_cache.rs:436-481 | after one insert of a new route every other amount is served, with what Metis would build, exactly when the pair of amounts occurs only once in the instruction |
| Inserting.OpKeeps | src/template_cache.rs:402-538 | no operation makes a live route forget a cached amount, its base or its offsets |
| Inserting.StaysServed | src/template_cache.rs:402-538 | over any run in which a route stays live it serves a cached amount with the same instruction |
| Inserting.InsertedStaysServed | src/template_cache.rs:402-538 | an inserted amount is served until more than a capacity of other routes is touched |
| Inserting.FoundByHops | src/template_cache.rs:487-531 | a new route of an unbound pair is found by every plan with the same pools, mints and directions |
| Inserting.BindsExactly | src/template_cache.rs:487-503 | an insert binds the pair of a new route if nothing was bound to it, and changes no other entry |
| ConcurrentServing.SoundRun | src/arbitrage.rs:560-677 | over every interleaving of locked sections each completed lookup answers with a sound template of the right route, and the store stays sound |
| ConcurrentServing.ServesWhileInserting | src/arbitrage.rs:560-677 | while tasks insert, what a lookup by signature serves is what Metis would build |
| ConcurrentServing.ServesHopsWhileInserting | src/arbitrage.rs:578-677 | and a lookup by hops serves what Metis would build for an inserted plan with the same hops |
| ConcurrentServing.ConcurrentProcess | src/template_cache.rs:402-733 | a process with interleaving threads ends as a run of whole operations does, so flushes and restarts may follow |
| Atomics.NothingLost | src/metrics.rs:129-166 | however additions and swaps interleave, the values read and the current one add up to all that was added |
| Atomics.Counters.ReportWindow | src/metrics.rs:129-166 | one report reads and resets each listed counter and changes no total |
| Pipeline.TakeValue | src/arbitrage.rs:305-448 | a step changes every linear quantity of counters, queue and agents by its local delta |
| Pipeline.ConservedRun | src/arbitrage.rs:305-448 | what every step conserves, every interleaving conserves |
| Pipeline.NeverGrowsRun | src/arbitrage.rs:305-448 | what no step increases, no interleaving increases |
| FunnelLaws.Funnel | src/arbitrage.rs:274-676 | every profitable pair was sent, dropped, is not taken yet, queued, or held by exactly one agent |
| FunnelLaws.Reasons | src/arbitrage.rs:322-422 | the nine reason counters add up to tx_dropped and the drops between their two counters |
| FunnelLaws.Sources | src/arbitrage.rs:562-650 | instructions from RAM and from Metis add up to swap_ix_ok, but for agents between two counters |
| FunnelLaws.FromRam | src/arbitrage.rs:563-597 | instructions from RAM are the template hits, but for agents between the two counters |
| FunnelLaws.FromMetis | src/arbitrage.rs:563-650 | swap_ix_ok is template hits and instructions from Metis, but for agents between |
| FunnelLaws.Errors | src/arbitrage.rs:624-645 | the four kinds add up to swap_ix_failed, but for tasks between |
| FunnelLaws.Entered | src/arbitrage.rs:565-674 | queue_in is swap_ix_ok less the instructions on their way, requeues not counted again |
| FunnelLaws.Calculated | src/arbitrage.rs:403-422 | every built transaction is sent or fails once |
| FunnelLaws.SettledFunnel | src/arbitrage.rs:274-676 | the funnel, the reasons and the sources close exactly whenever the agents have settled |
| LifoQueue.QueueInvariant | src/arbitrage.rs:311-347 | queue length is permits plus acquired and not popped plus pushed without permit; a worker with a permit always pops; the depth gauge is never negative |
| LifoQueue.QueueStep | src/arbitrage.rs:311-347 | every step of every agent keeps both balances |
| LifoQueue.SettledQueue | src/arbitrage.rs:432-448 | settled, queue, permits and gauge agree |
| Requeues.Waiters | src/arbitrage.rs:328-347 | rate_requeued counts an item at most once and never one that got a slot at its first try, up to the pushes not counted yet |
| Requeues.SlotsStep | src/arbitrage.rs:328-347 | in every state something waits only after both limiters gave all their slots to items that never waited |
| Requeues.RequeuedBound | src/arbitrage.rs:328-448 | once anything was requeued, rate_requeued is below queue_in by both limits, up to the pushes not counted yet |
| Requeues.RequeuedWithinQueueIn | src/arbitrage.rs:328-448 | it is within queue_in while no more pushes are uncounted than both limits together |
| RequeueTrace.RequeuedExceeds | src/arbitrage.rs:311-448 | with one uncounted push more an interleaving exceeds it, for all limits and any number of workers from 1 |
| RequeueTrace.RequeuedWithinQueueInExact | src/arbitrage.rs:311-448 | it stays within queue_in over all runs with at most p uncounted pushes exactly when p is at most both limits together |
| WorkerLoop.Handle.PushToQueue | src/arbitrage.rs:432-448 | undisturbed, a push is the four steps of the machine; the item is on top, and queue_in, the depth and the permits each grow by one and nothing else does |
| WorkerLoop.Handle.WorkerTurn | src/arbitrage.rs:310-422 | undisturbed, a turn is a run of the machine; every counter, the queue and the limiters afterwards for each outcome: jito_sent grows exactly for an item that is not stale, has a slot, is built with at most 64 locks and 1232 bytes, and is accepted, and each reason exactly for its own cause |
| WorkerLoop.Handle.Requeue | src/arbitrage.rs:337-347 | without a slot the item goes back on top, marked, and counted once |
| WorkerLoop.Handle.Acquire | src/arbitrage.rs:328-337 | the worker asks REST, then gRPC, and has a slot exactly when one has room |
| WorkerLoop.Handle.BuildAndSend | src/arbitrage.rs:350-422 | the drop or the send its outcomes select, the account-lock and size limits among them |
| WorkerLoop.RoomExact | src/rate_limiter.rs:20-33 | a limiter has room exactly when fewer of its timestamps than its limit are less than a second old |
| ScanLoop.TakePair | src/arbitrage.rs:523-620 | a turn of the scanner is a run of the machine; store, queue and every counter after it: dropped by the first reason that holds, served from RAM by the tiers, or Metis asked in a task |
| ScanLoop.ServeCandidate | src/arbitrage.rs:555-620 | the same from the tiers on |
| ScanLoop.Answer | src/arbitrage.rs:618-676 | a task's run: an answer is counted, remembered when save_new is on, and pushed; an error is counted as failed, dropped and under its own kind |
| ScanLoop.ServedNextTime | src/arbitrage.rs:555-666 | what a task remembered serves the next candidate of its route and amount by signature, with its hops known |
| ScanLoop.CheckQuotes | src/arbitrage.rs:186-280 | a quote check's metrics: two requests, and an answer and a pair when it is profitable |
| QuoteChecks.BalancedStep | src/arbitrage.rs:194-264 | every counter operation keeps a token's two balances |
| QuoteChecks.TokenBalance | src/arbitrage.rs:194-264 | q_sent is twice the routes found, missed and in flight; routes found are profitable, not profitable or not judged yet |
| QuoteChecks.TokenCounts | src/arbitrage.rs:194-264 | over every interleaving each total of a token is the number of its checks at that stage: profitable exactly those whose return is above the threshold with no forbidden DEX and no shared pool |
| QuoteChecks.IndexOf | src/token_metrics.rs:43-53 | every listed mint has its own row |
| TokenReports.Reporter.constructor | src/token_metrics.rs:65-78 | the reporter starts with an empty accumulator |
| TokenReports.Reporter.Tick | src/token_metrics.rs:82-121 | each window drains every counter into one five-minute report while checks go on counting; every sixth window also writes a summary of exactly its six windows |
| TokenReports.Snapshot | src/token_metrics.rs:88-99 | the rows of the report are what was drained, and nothing else was |
| TokenReports.Accumulate | src/token_metrics.rs:101-107 | the snapshot is added token by token |
| TokenReports.Reporter.EveryWindowOnce | src/token_metrics.rs:82-121 | summaries and accumulator hold every window once |
| TokenReports.Reporter.EverythingReported | src/token_metrics.rs:82-121 | all that was ever added to a token's counter is in the summaries, in the accumulator, or still in the counter |
| TokenRefresh.Region.Iteration | src/jito_grpc.rs:334-415 | the clock and the tokens after one turn: the sleep ends a minute before the expiry within 10 to 300 seconds; a refreshed token keeps its refresh token; without a refresh token good for two minutes, or when it is refused, the full authentication decides, and its failure costs 30 seconds |
| TokenRefresh.WakesInTime | src/jito_grpc.rs:335-348 | with 70 seconds left the loop wakes more than 59 seconds before the expiry, after 10 to 300 seconds |
| TokenRefresh.TokenStaysAlive | src/jito_grpc.rs:334-415 | iterations that succeed within 59 seconds keep the stored access token alive over any run |
| TokenRefresh.OneMillisecondMore | src/jito_grpc.rs:335-348 | one millisecond more and it can expire |
| TokenRefresh.DeadlineExact | src/jito_grpc.rs:334-415 | the token stays alive over every such run exactly when the limit is at most 59 seconds |
| TokenRefresh.RefreshTokenLeft | src/jito_grpc.rs:350-356 | a refresh token is only sent with 120 clock seconds, so more than 119 seconds, left |
| TokenRefresh.RefreshTokenLeftExact | src/jito_grpc.rs:350-356 | every use of a refresh token leaves more than b milliseconds exactly when b is at most 119 seconds |

## Left out

- Network and RPC code (Metis HTTP, Jito REST, bundle sending, the Yellowstone stream, the blockhash cache): foreign calls; their answers are parameters or nondeterministic choices.
- Files: temporary file and rename, JSON syntax and serde are not modelled; a file is a value, a failed write is a flush that did not happen.
- Base64: instruction data is a byte sequence or a text that does not decode.
- Transactions: compiling, signing, counting account locks, address lookup tables and simulation; a worker's turn takes their outcomes.
- Quotes: `merge_quotes` and the PMM test, and the forbidden-DEX and same-pool tests themselves, are not modelled; their outcomes are parameters.
- Which client sends a bundle, the one of the limiter that granted the slot, is not modelled.
- Poisoned locks: the early returns for a poisoned lock are not modelled.
- Strings are sequences of UTF-8 code units; `RoutePlan.Lower` lower-cases the characters that can become ASCII letters and leaves the others, which no comparison with the source's words can tell.
- `hit_count`, `seen_count` and the metrics are unbounded numbers; their wrap-around after 2^64 is not modelled.
- `metis_fetch_ms_total`, `metis_fetch_samples`, `metis_resp_total`, `dropped_same_pool` and `dropped_busy` are not cells of `Pipeline`; they take part in no balance.
- `Pipeline` lets every quote check, task and worker interleave at every counter operation, which allows more interleavings than the executor of the scanner's task does.
- Transparency.RamEqualsMetis: assumes collision-freeness of the signatures of the plans of one run, because it is false of all plans (`Signature.BoundaryNotHashed`).
- Transparency.HopPairServesSameHops: assumes that equal signatures keep hop ids and that the strings of the plan asked for hold no separator, because otherwise ids are shared (`RoutePlan.TemplateIdExact`).
- Report formatting: the sorted JSON text, percentages and averages.
- Configuration: SOL amounts as floats, the loop over amounts and tokens, CPU pinning and logging.
