# Slizen in Dafny

Slizen is a caching proxy in front of a Redis or Valkey origin. This project models its five hard parts and
proves what they promise.

**Coherence protocol** (`Service*.dfy`). Every goroutine of the service is a thread of a step system with
unboundedly many GETs, MGET positions, writes, key purges, full purges and fetches; every cache, tracker,
atomic, lock or upstream effect is one step. The stripe function is an arbitrary function into [0, 256), so all
hash collisions are covered. `ServiceState` and `ServiceSteps` are the model; `ServiceInvariant` is a
rely/guarantee invariant (what holds of the shared state, what each thread knows at its program counter, what a
step guarantees, what a thread relies on); `ServiceEffects`, `ServiceStable`, `ServiceLocal` and `ServiceRuns`
prove that it holds in every state of every run; the other modules draw the theorems: what reads may yield
(`ServiceTheorems`, `ServiceOrigins`), what invalidation leaves (`ServiceBarrier`), what a lookup may miss
(`ServiceHandoff`, `ServiceRefillGap`), what the critical sections do undisturbed (`ServiceAlone`), that nothing
deadlocks (`ServiceProgress`). Assumptions: an upstream write takes effect, if at all, before `Do` returns, and
changes only the keys it is given, because the proxy passes every key a command writes
(`internal/proxy/server.go:418-487`); `Forget` unregisters the current flight and a finishing flight unregisters
only itself; direct origin writes only raise versions; the clock does not go back; the tracker may answer
anything, except that a key that leaves HOT is reported in the same call, which
`HotnessTheorems.HotLeavesReported` proves of the tracker. The positions of an MGET are independent threads that
start together, each with its own fetch, which allows every interleaving the sequential code has and more.

**Hotness tracker** (`Hotness*.dfy`). `HotnessModel` is the reference: one window at a time. `HotnessAdvance` is
the tracker's closed-form catch-up, proved equal to it through `HotnessDecay` (the exact threshold counts) and
`HotnessCatchUp` (the three threshold segments). `HotnessPass` and `HotnessTracker` are the pass over all
entries, the admission ring and the tracker's methods; their invariant `Sound` carries the log of all
transitions ever reported and, per tracked key, the history of events since it got its slot. `HotnessCalls` says
what each call does to the tracker's fields and replies, without log or iteration order; the methods are proved
against it, and runs of calls are compared there. `HotnessStreak` says what the states mean, from the scores of
the windows alone. Scores are exact reals; the logarithm estimates are arbitrary integers; the iteration order
of the map is an arbitrary parameter.

**Drain protocol** (`DrainProtocol.dfy`, `DrainLives.dfy`, `DrainPending.dfy`). Handlers, connections and drain
starters as a step system; what each of them has done by the time it returns; and the intrusive list of pending
connections as linked objects, with connections closing between the rounds of the loop that wakes them.

**Bounded cache** (`LruModel.dfy`, `LruCache.dfy`, `CacheTiers.dfy`). Map, recency list and byte counter refined
to a sequence of entries; the split of one budget over two tiers.

**Fast forms** (`HotnessOrder.dfy`, `HotnessTopK.dfy`, `Audit.dfy`, `PolicyMatcher.dfy`). Heap-based top-K, the
audit's completeness flag, longest-prefix matching.

One promise turned out to be false as first stated: that a read never misses a key both tiers hand over between
them. A read that finds its key neither in probation nor under a raised promotion flag probes the protected tier
once more and takes nothing there for a miss. Promotions raise the flag while the value is in neither tier, but
a refill of a HOT key also deletes the candidate before it stores the protected copy, and raises nothing.
`ServiceHandoff.MissIffInGap` says exactly when the promise holds. With probation on, let a lookup begin while
its key is in a tier or on its way between them, and whoever moves it does so while it is HOT; let the key
neither expire nor be evicted, invalidated, purged or demoted from there on. Then the lookup misses if and only
if its last probe falls between a refill's removal of the candidate and that refill's store.
`ServiceHandoff.NoGap` is the case without such refills. `ServiceRefillGap.RefillGap` shows that the gap is
reached, under every service configuration that caches the key and every valid tracker configuration: a run of
reads and the clock only, without any write, purge or eviction, in which every answer of the tracker is the one
the tracker gives to the calls made so far (`ServiceTracked`). An MGET names the key twice and has fetched both
values; GETs observe the key until the next observation makes it HOT (`HotnessHeating.HeatingRun`: this always
happens, after enough requests in enough windows); the first position of the MGET stores its candidate; one more
GET makes the key HOT; the second position refills. The last five steps are the refill's removal and the four
probes of that GET, which misses.

## Model

| member | source | states |
|---|---|---|
| ServiceTheorems.ReadAfterWrite | internal/service/service.go:212-393 | In every run, a GET or MGET position that starts after an ExecuteWrite on its key returned yields no version older than that write, whether by protected hit, promotion, shared flight, own fetch or stale fallback |
| ServiceOrigins.AnswersAreReal | internal/service/service.go:212-365 | In every run, however a read is served, the version it yields was the origin's version of its key at some moment of the run |
| ServiceOrigins.FetchedDuringRead | internal/service/service.go:212-365 | A read that began after state i and answers directly, or from a flight that had not fetched by then, its own in particular, yields a version the origin held at or after state i |
| ServiceOrigins.MGetFetchesItself | internal/service/service.go:290-365 | A position of an MGET never waits for a flight that existed before it began, so what it fetches was current during the MGET |
| ServiceOrigins.TiersAreReal | internal/service/service.go:595-646 | In every run the tiers hold only keys in cache mode, and only versions the origin has held |
| ServiceOrigins.StaleOnlyIfAllowed | internal/service/service.go:268-276 | Once the upstream has failed a read is answered only if stale answers are allowed, and then with the protected version, which the grace period still covered when the read began |
| ServiceAlone.FailsOnlyForCause | internal/service/service.go:240-278 | A read fails only because the direct read failed, because the caller gave up on a flight that is not done, or because the upstream failed and no stale answer is allowed or left |
| ServiceAlone.FlightsAreShared | internal/service/service.go:245-263 | While a flight of its key is registered, a GET starts no other and waits for that one |
| ServiceAlone.HotReadAlone | internal/service/service.go:212-230 | From any state of any run, if nothing comes between its steps, a read of a HOT key in cache mode with an unexpired protected copy ends with that copy, with or without a probationary tier |
| ServiceAlone.WriteThroughAlone | internal/service/service.go:695-721 | From any state of any run, if nothing comes between its steps, writeThroughSet advances the stripe's epoch by one, removes the candidate and changes the protected tier in this key only: if the key is HOT, in cache mode and accepted, to the version just written, with its full lifetime; otherwise to nothing |
| ServiceAlone.RefillAlone | internal/service/service.go:627-646 | Likewise reconcileLocalIfCurrent: an outdated epoch changes nothing; a missing value removes both copies; of a HOT key the candidate goes and the fetched version is protected; of a tracked key the protected copy goes and the fetched version is the candidate; of an untracked one only the protected copy goes; nothing else changes |
| ServiceAlone.DemoteAlone | internal/service/service.go:835-864 | Likewise applyTransitions, for each key it owes: both copies go, unless the key is HOT again, when both stay |
| ServiceBarrier.EpochBarrier | internal/service/service.go:367-389 | Let an invalidation of k or a full purge not have started in state i, or still have to advance the epoch of k's stripe for the last time: for a write, all the time the command is at the origin and until its final pass comes to the stripe. Once it has finished, no entry of an epoch captured by state i is in either tier, then or later, and every refill that captured one is turned away, although a stripe shared by several keys is bumped once and released between keys |
| ServiceBarrier.BehindBar | internal/service/service.go:627-646 | In every reachable state, entries and storing flights of an epoch below the last finished barrier do not exist |
| ServiceHandoff.MissIffInGap | internal/service/service.go:507-646 | Over every calm stretch of every run, a lookup that began while its key was in a tier, or being carried between them, has missed if and only if it made its last probe while the key was in neither tier and a refill had removed the candidate and not yet stored it; the flag may be raised and lowered by promotions of other keys of the stripe |
| ServiceHandoff.MissesExactly | internal/service/service.go:507-646 | One calm step turns a safe lookup into a miss if and only if it is the lookup's own last probe in that gap; every other calm step, of whatever thread, leaves it safe |
| ServiceHandoff.NoGap | internal/service/service.go:507-576 | So a lookup that races promotions only never misses: it takes a refill between removal and store |
| ServiceRefillGap.RefillGap | internal/service/service.go:627-646 | Under every configuration that caches k and every valid tracker there is a run of reads and the clock, with the tracker's own answers, that ends in six given states: a GET is about to look into probation, where the HOT key's only copy is fresh; the refill removes it; the GET probes probation, hotness, flag and the protected tier and misses. Nobody else steps, nothing else changes, all five steps are calm, and the last probe is in the gap |
| ServiceTracked.AnswersAreTrackers | internal/service/service.go:212-228 | In a run whose tracker answers are those of a run of tracker calls, made one by one at the current time, the service's HOT and tracked keys are the tracker's in every state |
| ServiceTheorems.TiersAreExclusive | internal/service/service.go:540-574 | No reachable state has a key in both tiers |
| ServiceTheorems.ProtectedIsHotOrOwed | internal/service/service.go:835-864 | A protected copy belongs to a HOT key, or some thread still owes the side effect of that key's demotion |
| ServiceTheorems.QuiescentProtectedIsHot | internal/service/service.go:835-864 | When no side effect is pending, the protected keys are HOT |
| ServiceTheorems.StoreTTLIsSmallest | internal/service/service.go:793-808 | For every setting, a stored value lives for the smallest of global cap, policy cap, positive upstream TTL and, in probation, the hotness window, or 0 if the policy cap or the upstream TTL forbids it; the lifetime is positive exactly if both caps are and the upstream TTL is not 0 |
| ServiceTheorems.LocalHitIsInLifetime | internal/service/service.go:595-625 | A read served locally looked at the clock, after it began, before the value's original store time plus that lifetime; promotion does not restart it |
| ServiceProgress.NoDeadlock | internal/service/service.go:652-684 | In every reachable state with a lock or gate held, some holder can step; with an operation unfinished, some thread can step, for any key lists, purges, promotions and refills |
| ServiceProgress.MutexHolderReady | internal/service/service.go:757-778 | Whoever waits for a mutex while holding one is a purge waiting for a higher stripe, so the chain of waits ends in a holder that can step |
| ServiceProgress.GateHolderReady | internal/service/service.go:652-678 | The chain of writers waiting for gates ascends and ends in a holder that can step |
| ServiceProgress.FinishedHoldsNothing | internal/service/service.go:367-372 | Only an unfinished write whose keys need it holds a gate; a finished or cancelled operation holds no gate and no mutex |
| ServiceRuns.RunInv | internal/service/service.go:212-864 | The whole invariant holds in every state of every run |
| ServiceRuns.NextKeeps | internal/service/service.go:212-864 | Every step of every thread and of the environment keeps the invariant |
| HotnessDecay.DecayWindowsAtLeast | internal/hotness/tracker.go:461-482 | Whatever integer the logarithm estimate is, both correcting loops end and the result counts exactly the windows whose score reaches the threshold |
| HotnessDecay.CountIsUnique | internal/hotness/tracker.go:459-482 | The count is determined by what it counts |
| HotnessCatchUp.CatchUpIsIdle | internal/hotness/tracker.go:394-456 | The three closed-form segments give the score, state, cooling time and transition list of one empty window at a time; only the hot-window streak may differ, above the minimum |
| HotnessCatchUp.HighSegment | internal/hotness/tracker.go:401-422 | The same for the windows at or above the promotion threshold |
| HotnessCatchUp.MidSegment | internal/hotness/tracker.go:424-433 | The same for the windows between the thresholds |
| HotnessCatchUp.LowSegment | internal/hotness/tracker.go:435-454 | The same for the windows below the demotion threshold, including when cooling starts and ends |
| HotnessModel.IdleSame | internal/hotness/tracker.go:484-521 | No number of windows tells apart two entries that differ only in a streak above the minimum |
| HotnessAdvance.ApplyStateTo | internal/hotness/tracker.go:484-521 | The in-place state change is the reference transition, whose meaning `HotnessStreak` gives, and reports exactly the change |
| HotnessAdvance.CatchUpRest | internal/hotness/tracker.go:394-456 | The step-by-step catch-up computes the closed form for the segments the scores determine |
| HotnessAdvance.AdvanceEntry | internal/hotness/tracker.go:381-457 | Advancing an entry by n windows at once gives what n single windows give, entry and transitions |
| HotnessHistory.ExtraAdvance | internal/hotness/tracker.go:381-457 | Advancing in two goes with no request between gives the same entry and the same transitions |
| HotnessHistory.ExtraAdvanceInHistory | internal/hotness/tracker.go:360-379 | Splitting an advance changes no entry after any later history |
| HotnessCalls.ExtraAdvanceCall | internal/hotness/tracker.go:120-233 | For the whole tracker: put an extra Advance in front of any sequence of observations, admissions and advances. After the first of them and after every later one, all fields are equal but for streaks above the minimum, whatever was refused or evicted, and all replies are equal but for the order in which different keys are reported; only what the extra call reported is missing from the first reply |
| HotnessCalls.RunsAlike | internal/hotness/tracker.go:120-233 | Two trackers that differ only in streaks above the minimum stay so under the same calls, and give the same replies to each, refusals, evictions and counters included |
| HotnessCalls.CaughtTwice | internal/hotness/tracker.go:360-379 | Advancing the tracker to one time and then to a later one leaves the fields and reports, key by key, the transitions of advancing to the later one at once |
| HotnessCalls.PartsTold | internal/hotness/tracker.go:368-378 | Whatever the iteration order, what a pass reports of one key is what single windows make that key report |
| HotnessEarly.EarlyAgrees | internal/hotness/tracker.go:204-224 | Over every history of requests, windows and admissions, a tracker with early promotion differs from a boundary-only reference only by a promotion the reference is bound to make, and after every boundary not at all in state, score and cooling time |
| HotnessEarly.CommitIsKept | internal/hotness/tracker.go:209-224 | After an early promotion, however many requests follow, the next boundary keeps the key HOT and reports nothing |
| HotnessStreak.StateMeans | internal/hotness/tracker.go:120-224 | After every history, the state of a key is what the scores of its windows and its admissions say, without any counter: that of its last boundary, or HOT if a request since makes the missing window of the streak certain; score and rate are the moving average and the last rate of the counted requests |
| HotnessStreak.PromotedByStreak | internal/hotness/tracker.go:488-498 | A key that is neither HOT nor COOLING becomes HOT with a window if and only if the last `minWindows` windows all ended at or above the promotion threshold |
| HotnessStreak.StreakIsHot | internal/hotness/tracker.go:488-498 | Whatever came before, so many such windows in a row make a key HOT |
| HotnessStreak.PromotedByRequest | internal/hotness/tracker.go:204-224 | In the middle of a window, such a key becomes HOT with a request if and only if all other windows of the streak have ended so and the floor of the open one reaches the threshold |
| HotnessStreak.HotMeans | internal/hotness/tracker.go:484-521 | A key is HOT exactly when it was admitted, completed the streak or had a high window while it cooled, and no window has ended below the demotion threshold since |
| HotnessStreak.CoolingMeans | internal/hotness/tracker.go:499-513 | A key is COOLING exactly when a window ended low while it was HOT, and since then no admission came, no window ended high, and no low one ended a cooldown or more later |
| HotnessStreak.CoolingEnds | internal/hotness/tracker.go:499-513 | COOLING ends in COLD at the first low window that ends a cooldown or more after it began, and not before; in HOT with a high window or an admission; never in WARM |
| HotnessStreak.ColdOrWarm | internal/hotness/tracker.go:488-514 | A key that is COLD or WARM and completes no streak: a window at or above the demotion threshold makes it WARM, only a score of zero COLD, any other leaves it |
| HotnessPass.AdvanceOne | internal/hotness/tracker.go:370-376 | One entry is advanced, the counter adjusted and the transitions reported, keeping log, counter and histories in balance |
| HotnessPass.AdvanceAll | internal/hotness/tracker.go:368-378 | For every iteration order, every entry becomes what single windows make of it, and the transitions are the keys' single-window transitions, key after key |
| HotnessPass.AdjustHot | internal/hotness/tracker.go:523-530 | The counter moves with the HOT state |
| HotnessCalls.WindowsFit | internal/hotness/tracker.go:361-377 | Division counts the ended windows and multiplication finds the open one, as counting one at a time does |
| HotnessTracker.AdvanceTo | internal/hotness/tracker.go:360-379 | Elapsed windows are applied to every entry, in any order, or nothing happens before the boundary |
| HotnessTracker.AdvanceFields | internal/hotness/tracker.go:360-379 | The same for the whole tracker: window, entries and counter become those of the elapsed windows, each key reports its own transitions, ring, cursor and other counters stay |
| HotnessTracker.AppendEntry | internal/hotness/tracker.go:316-326 | A free slot is filled, ring and map staying in bijection |
| HotnessTracker.RefuseSlot | internal/hotness/tracker.go:331-339 | A HOT slot is passed over: one drop is counted, nothing else changes but the cursor |
| HotnessTracker.ReuseSlot | internal/hotness/tracker.go:341-357 | A non-HOT slot is taken over, the old key forgotten and reported unless it was COLD |
| HotnessTracker.GetOrCreate | internal/hotness/tracker.go:311-358 | Ring, cursor, entries and all counters become those of the tracked, free, refused or reused slot, and exactly an eviction out of WARM or COOLING is reported; a key is refused exactly when it is unseen, the ring is full and the slot under the cursor is HOT; otherwise it is tracked |
| HotnessTracker.CommitPromotion | internal/hotness/tracker.go:209-224 | The early promotion is the one the reference calls inevitable |
| HotnessTracker.CountRequest | internal/hotness/tracker.go:152-156 | A request adds one event to its key's history and touches no other key |
| HotnessTracker.ObserveNow | internal/hotness/tracker.go:127-163 | After the advance, an empty, oversized or refused key changes no entry, any other is admitted, counted and promoted as the histories say; fields and reply are those `HotnessCalls` compares runs by |
| HotnessTracker.Observe | internal/hotness/tracker.go:120-164 | An observation advances, then observes: every field and the whole reply are determined up to streaks above the minimum and the order of keys; a key is refused exactly when it is unseen, the ring is full and the slot under the cursor is HOT after the advance; what is reported extends the complete log |
| HotnessTracker.AdmitKey | internal/hotness/tracker.go:169-202 | An admission advances, then makes a tracked key HOT without request evidence, and nothing of an untracked one; fields and reply are determined as for an observation |
| HotnessModel.Normalized | internal/hotness/tracker.go:91-106 | Settings out of range are replaced, valid ones are kept; the result is valid exactly if the thresholds and the cooldown, which it takes as they are, were |
| HotnessTracker.Tracker.constructor | internal/hotness/tracker.go:91-114 | An empty tracker with normalised settings, sound exactly if thresholds and cooldown are usable |
| HotnessTracker.Tracker.ObserveWithState | internal/hotness/tracker.go:120-164 | The object's method keeps the invariant and is the observation above, with the window that is then open and the condition for a refusal |
| HotnessTracker.Tracker.Admit | internal/hotness/tracker.go:169-202 | The object's method keeps the invariant and is the admission above, with the window that is then open |
| HotnessTracker.Tracker.Advance | internal/hotness/tracker.go:226-233 | The object's method adds exactly the elapsed windows to every history, opens the current window and changes nothing else |
| HotnessTracker.Tracker.IsHot | internal/hotness/tracker.go:235-241 | The answer is what replaying all reported transitions gives |
| HotnessLog.CompleteUpdate | internal/hotness/tracker.go:370-376 | Reporting a key's path of transitions keeps the log complete: replaying it from all-COLD gives every key's state, and the counter is the number of HOT entries and promotions minus demotions |
| HotnessLog.CompleteRemove | internal/hotness/tracker.go:341-357 | So does evicting a key, if its way to COLD is reported |
| HotnessLog.ElapsePath | internal/hotness/tracker.go:381-457 | What a catch-up reports leads along edges of the state graph from the old state to the new one |
| HotnessTheorems.TrackedFollowsReference | internal/hotness/tracker.go:120-224 | In every sound state a tracked key has the score of the boundary-only reference, and its state up to an inevitable promotion; at boundaries exactly |
| HotnessTheorems.TrackedMeans | internal/hotness/tracker.go:120-224 | In every sound tracker, state, score, rate and count of every tracked key are those its history since it got its slot determines, as in `StateMeans` |
| HotnessTheorems.HotLeavesReported | internal/hotness/tracker.go:311-379 | A key that was HOT and no longer is, evicted or not, is reported as starting to cool in the same call; HOT entries are never evicted |
| HotnessTheorems.RefusalsAreBounded | internal/hotness/tracker.go:328-339 | Over any run of calls from a sound tracker, between any two of its states: if nothing is evicted and one slot is not HOT whenever a key is refused, at most capacity - 1 observations are refused, whatever other calls come between |
| HotnessRing.CursorApproaches | internal/hotness/tracker.go:328-339 | Over such a stretch, every refusal brings the cursor exactly one slot closer to that slot, and nothing else moves it |
| HotnessTheorems.CountersAreTrue | internal/hotness/tracker.go:120-358 | Over any run of calls from a sound tracker the counters are what happened: capacity drops are the refused observations, oversized drops the observations of keys over 1024 bytes, and every key that was given a slot is still tracked or was evicted and counted, within capacity |
| HotnessAccounts.BooksBalance | internal/hotness/tracker.go:120-358 | The same between any two states of the run whose ring holds the tracked keys, each once |
| HotnessAccounts.RepliesAreTrue | internal/hotness/tracker.go:120-164 | What an observation replies is so when it returns: counters, HOT count, the key's state if it has a slot, refused exactly if a key of 1 to 1024 bytes has none |
| HotnessHeating.HeatingRun | internal/hotness/tracker.go:120-224 | Whatever the settings, every trackable key becomes HOT: there is a run of observations of it on a new tracker, the first two at once and none back in time, that leaves it HOT after the last and not before |
| HotnessOrder.BetterTransitive | internal/hotness/scorer.go:35-46 | The snapshot order is transitive |
| HotnessOrder.BetterTotal | internal/hotness/scorer.go:35-46 | Two snapshots of different keys are ordered one way or the other |
| HotnessOrder.SortedIsUnique | internal/hotness/scorer.go:31-33 | Only one sorted sequence has given elements |
| HotnessOrder.PrefixLeads | internal/hotness/scorer.go:35-46 | What the order means, field by field: no HOT snapshot comes after, or is left out for, one that is not HOT; within a kind scores do not increase; with equal scores the earlier key is a proper prefix of the later or smaller at the first difference |
| HotnessTopK.Up | internal/hotness/scorer.go:62-62 | Pushing restores the heap order and keeps the elements |
| HotnessTopK.Down | internal/hotness/scorer.go:65-68 | Fixing a replaced root restores the heap order and keeps the elements |
| HotnessTopK.Consider | internal/hotness/scorer.go:59-69 | A full selection stays better than everything passed over |
| HotnessTopK.TopSnapshots | internal/hotness/scorer.go:48-73 | For every order and limit the heap selection returns exactly the first `limit` snapshots of the full ordering: as many as asked for, in rank order by state, score and key, none left out that ranks above one returned |
| HotnessTopK.OrderDoesNotMatter | internal/hotness/scorer.go:48-73 | The full ordering does not depend on the iteration order |
| Audit.MakeReport | internal/service/audit.go:59-91 | A report has 100 entries unless asked for fewer or more, never over 1000, or all tracked keys if these are fewer; each shows its key's state and rounded rate, in rank order, and no key left out ranks above one reported; counters are the tracker's, flags compare tracked with returned |
| Audit.RunAudit | internal/service/audit.go:56-91 | The same after an advance; and if the report calls its telemetry complete, it has exactly one entry for every non-empty key ever observed |
| LruModel.TrimIsLongest | internal/cache/cache.go:253-262 | Eviction leaves the longest most-recently-used prefix within both limits |
| LruModel.TrimKeepsFront | internal/cache/cache.go:112-149 | A stored entry that fits on its own is not evicted by its own insertion |
| LruModel.WithoutCuts | internal/cache/cache.go:264-278 | Removing or re-using an entry cuts it out and leaves the others in their order |
| LruCache.WithinLimits | internal/cache/cache.go:83-85 | In every state of a cache, map, list and counter agree, and key, value and 128 bytes of every entry together are within the byte limit, the entries within a positive entry limit |
| LruCache.StoredMeans | internal/cache/cache.go:112-149 | After a store the entry is first, followed by as many of the other entries, most recently used first and in their order, as fit beside it: one more would break a limit |
| LruCache.LinkedLength | internal/cache/cache.go:51-61 | Map and recency list have the same length |
| LruCache.Cache.constructor | internal/cache/cache.go:65-79 | An empty cache within its limits, a negative byte limit counting as zero |
| LruCache.Cache.RemoveElement | internal/cache/cache.go:273-278 | Removing an entry keeps map, list and byte counter in step |
| LruCache.Cache.EnforceLimits | internal/cache/cache.go:253-262 | The loop evicts exactly what trimming the sequence drops, and counts it |
| LruCache.Cache.Store | internal/cache/cache.go:124-145 | The entry is updated or added and becomes the most recently used |
| LruCache.Cache.PutEntry | internal/cache/cache.go:112-149 | It stores iff the cache is open, has room at all and key, value and 128 bytes fit; then the contents are the trimmed new sequence with the entry in front, and the evictions are counted; otherwise the key is forgotten |
| LruCache.Cache.Put | internal/cache/cache.go:88-95 | The same with a lifetime; a non-positive one or an empty key changes nothing |
| LruCache.Cache.PutUntil | internal/cache/cache.go:100-110 | The same with an absolute expiry, which is kept; an expired entry is forgotten |
| LruCache.Cache.Lookup | internal/cache/cache.go:162-190 | A hit exactly if the key is there and before its expiry, plus the grace period if stale reads are allowed; then it becomes the most recently used; a miss on an expired entry forgets it, except for a stale read without grace |
| LruCache.Cache.Delete | internal/cache/cache.go:193-197 | Exactly that key leaves |
| LruCache.Cache.Purge | internal/cache/cache.go:200-207 | Nothing stays |
| LruCache.Cache.Close | internal/cache/cache.go:210-218 | Nothing stays, and nothing can be stored any more |
| CacheTiers.SplitIsFair | internal/service/cache_tiers.go:15-50 | Two tiers exist iff the budget allows it; they share it without loss, probation getting an eighth of bytes and entries, rounded down but at least one; a positive entry limit never becomes the unlimited 0 |
| CacheTiers.SharedBudget | internal/service/cache_tiers.go:15-50 | Combined bytes and, when limited, entries of two caches with the split limits never exceed the configured totals |
| CacheTiers.CandidateFits | internal/service/cache_tiers.go:15-50 | Anything that is in probation fits the protected tier |
| CacheTiers.HandOver | internal/service/service.go:559-562 | Whatever storing under a key evicts, the tiers stay exclusive once the key has left probation |
| CacheTiers.Promote | internal/service/service.go:545-562 | The transfer stores iff the key is not empty, the candidate is there, unexpired at both clock readings, and the protected cache is open; it keeps the expiry, exclusivity and the shared budget |
| PolicyMatcher.NewMatcher | internal/cachepolicy/matcher.go:48-63 | The map holds the last rule of each prefix and the list its lengths, strictly descending |
| PolicyMatcher.Match | internal/cachepolicy/matcher.go:65-75 | The result is the decision of the longest rule prefix of the key, of its last repetition, or else the fallback |
| PolicyMatcher.MatchIsUnique | internal/cachepolicy/matcher.go:65-75 | There is one such decision |
| PolicyMatcher.OrderDoesNotMatter | internal/cachepolicy/matcher.go:48-63 | With distinct prefixes the order of the rules does not matter |
| PolicyMatcher.NewPolicyMatcher | internal/service/policy.go:8-36 | Rules and fallback are those of the configuration: the mode its text says, anything unknown denied, caps only in cache mode; under global observe mode caching becomes observing and no key resolves to cache mode |
| DrainProtocol.StepKeeps | internal/proxy/drain.go:46-158 | Every step keeps the accounting of reservations, owed signals and the mutex |
| DrainProtocol.DrainedIsFinal | internal/proxy/drain.go:216-226 | Once `drained` is closed, no admitted handler and no tracked connection exists, then or ever after; losing reservations may come and go |
| DrainProtocol.NoLostWakeUp | internal/proxy/drain.go:83-103 | If draining has begun and no connection, handler, reservation or unsignalled change remains, `drained` is closed |
| DrainProtocol.NoPanic | internal/proxy/drain.go:228-233 | No reachable step panics, `started` is closed at most once, the connection limit holds, and the counter is the number of reservations |
| DrainProtocol.DrainProgress | internal/proxy/drain.go:109-158 | While a thread is unfinished, it can step itself, or it waits for the mutex and the thread that holds it can step |
| DrainLives.StopStartsDrain | internal/proxy/drain.go:145-150 | Once stopAdmission has returned, the drain is on and was announced exactly once, then and ever after |
| DrainLives.DrainIsAskedFor | internal/proxy/drain.go:222-226 | No drain begins unless somebody started one |
| DrainLives.NoAdmissionInDrain | internal/proxy/drain.go:83-86 | A command that arrives once a drain is on never takes a reservation and is never admitted |
| DrainLives.RefusedOnlyInDrain | internal/proxy/drain.go:83-143 | A command that has ended was admitted unless a drain is on, and an admitted one had closed its connection first unless it finished while nothing drained |
| DrainLives.AcceptTracks | internal/proxy/drain.go:46-68 | An accepted connection was tracked; one is turned away only in a drain, at the limit or when its deadline cannot be set |
| DrainLives.CloseForgets | internal/proxy/drain.go:70-81 | Once connectionClosed has returned, the connection had stopped being tracked |
| DrainPending.PendingList.Push | internal/proxy/drain.go:61-66 | The new connection is linked in front |
| DrainPending.PendingList.Accept | internal/proxy/drain.go:61-67 | Map and list agree after a new connection: it is tracked, and first among the pending ones |
| DrainPending.PendingList.Remove | internal/proxy/drain.go:193-208 | A connection is unlinked from anywhere, the rest keeping its order; removing it again changes nothing |
| DrainPending.PendingList.ConnectionClosed | internal/proxy/drain.go:70-81 | A connection that closes leaves map and list, wherever it is, if it is there; the others keep their order |
| DrainPending.PendingList.TakeBatch | internal/proxy/drain.go:168-177 | At most 128 connections leave the front, in order |
| DrainPending.PendingList.WakePending | internal/proxy/drain.go:160-190 | Whatever connections close between the rounds, and whenever the drain completes, what the loop wakes and what it leaves pending is what the rounds say |
| DrainPending.WokenInOrder | internal/proxy/drain.go:160-190 | What is woken, followed by what is left, is what was pending with some taken out: in list order, and nothing else |
| DrainPending.ClosedIsNotWoken | internal/proxy/drain.go:160-190 | A connection that closes in a round is not woken in that round or later and not left pending; it has been woken only if it had been before |
| DrainPending.PendingList.PendingOnce | internal/proxy/drain.go:61-67 | No connection is in the list twice |
| DrainPending.NoneOverlooked | internal/proxy/drain.go:160-190 | A pending connection that does not close is woken or still pending |
| DrainPending.WakingEnds | internal/proxy/drain.go:160-190 | With one round more than the batches it takes the loop ends by itself, and unless the drain completed first, nothing is left pending |

## Left out

- HotnessTracker.Observe: entries are values held by the map, and the ring holds keys; in the source both refer to one shared record, so aliasing is not captured. Last-seen and creation times, which only snapshots show, are left out.
- Audit.RunAudit: policy mode, recommendation and reason codes of an entry, which are a lookup table.
- HotnessTopK.Up: `container/heap` and `sort` are the standard library's; the two sifting loops are modelled, sorting is a reference insertion sort.
- Floating-point rounding and underflow, and wrap-around of 64-bit epochs and counters.
- Upstream writes that take effect after `Do` returned an error.
- An MGET whose stale fallback covers only some of its missing keys fails as a whole in the source; here each position is judged on its own.
- Closing the service's caches while operations run.
- Metrics, logging, key identifiers, admin handlers, command parsing, sockets and timers; cancellation, deadlines and read errors are nondeterministic steps.
- The 32-bit FNV-1a hash behind the stripe function.
- Redis command classification, the compatibility catalogue, configuration loading, benchmarks and deployment files.
