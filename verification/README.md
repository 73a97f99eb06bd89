# magma-sidecar: a model of backrun pairing, reinjection and priority encoding

magma-sidecar watches a node's txpool, scores the transactions bound for one gateway contract, and sends them back
with a 256-bit priority so that top-of-block bids come first and each backrun bid lands right behind the
transaction it targets. This project models the three pieces that decide those priorities and proves what they
promise:

- the **pairing pool** (`src/backrun.rs`): a cache of candidate targets, bids parked until their target shows up, two
  queues that go stale and are cleaned lazily, a hand-kept counter and the set of targets already streamed;
- the **event loop** and its **sent cache** (`src/txpool_ipc.rs`): one step per txpool event, sends that may fail,
  state that survives reconnects;
- the **score** and the **priority word** (`src/policy.rs`).

## How it is laid out

| file | content |
|---|---|
| `Base.dfy`, `Bits.dfy` | integer widths, list helpers; `or`, `and` and shifts of a 256-bit word, bit by bit |
| `Policy.dfy` | scoring and the priority word |
| `PoolSpec.dfy`, `PendingPool.dfy` | the pool as a value, one function per operation; the pool as a mutable object proved to compute those functions |
| `PoolInvariant.dfy`, `PoolRuns.dfy` | the representation invariant; conservation, amplification, residency, pruning and eviction over whole runs |
| `Calls.dfy`, `CacheQueue.dfy` | what each observation and prune does in any state, in the transaction's own fields, in instants and in plain numbers |
| `PendingQueue.dfy` | what a queue slot stands for in any state, exactly what pruning and eviction take, the queue work of a run |
| `NaivePool.dfy`, `Refinement.dfy`, `RefinementRuns.dfy` | a reference made of two plain lists that shares no operation with the pool, and the proof that the pool answers exactly as it does |
| `Join.dfy` | pairing as a join, and exactly when it is independent of arrival order |
| `SentSpec.dfy`, `SentCache.dfy`, `SentRuns.dfy` | the sent cache as a value with its list reference, as a mutable object, and exactly when the two agree over a run |
| `LoopSpec.dfy`, `EventLoop.dfy` | the loop as a value, and as methods over the two objects, batch by batch |
| `LoopRuns.dfy`, `Placement.dfy` | at-most-once send, target before bid, send bounds; the layout of what was sent |
| `LoopPool.dfy` | the loop against its parts: echoes, the calls that reach the pool, what each step sends |
| `TargetSends.dfy` | exactly when a bid goes out although its target never did |
| `Forgetting.dfy` | exactly when the bid of a transaction that left can still be sent |
| `Counterexamples.dfy` | concrete runs for the readings of the design that fail |

Modelling choices. A transaction is a record of the fields scoring reads, with `call` standing for what its calldata
decodes to. Instants are natural numbers that come with each call or event; no theorem about the loop assumes they
grow. The forgetting scan visits a hash map's values in an order the source leaves open, so its first hit (`hit`) is
part of the call, constrained by `ScanHit`. A reinjection carries a tag (`Role`) saying why it is emitted, which the
source keeps only inside the priority word. Methods that the source says return a number of evicted entries return
or count those entries here. The pool's longer methods are split into one method per loop or branch.

## Which statements need what

Unconditional, for every run, however hashes are reused, sends fail or batches break off: the invariant, conservation,
both amplification bounds, one opportunity per residency, what pruning and eviction take, the queue work, at-most-once
send, exactly when a bid goes out without its target, what a failed send loses, the size of the sent cache. In the
loop, target before bid needs no freshness: a prune comes right before each observation, and right after a prune no
insertion can evict itself (`NoSelfEvictionAfterPrune`).

Needing that an observed hash has no slot left in either queue (`Unqueued`, which holds in particular when no hash is
observed twice, `FreshRunOk`): the refinement of the list reference, that a prune leaves nothing expired behind, and
that a forgotten hash is parked nowhere.

Needing that no stale slot of an inserted hash is queued in the sent cache (`SentRunOk`, which holds in particular
when the loop sends no hash twice, `LoopRefines`): that the sent cache is the list reference, and its queue bound. The
first holds over a run exactly then (`RunRefinesExactly`).

Needing only that a hash always comes with the same transaction (`Consistent`): the placement theorem, with the
separation hypotheses of `Separable`.

## Where the code differs from what is said about it

- *Matching is independent of arrival order* (`docs/ARCHITECTURE.md:106`). It is, exactly when no bid targets another
  gateway transaction of the batch: a gateway transaction never flushes the bids waiting for it. `OrderFreeExactly`.
- *The payload is clamped into 128 bits* (`src/policy.rs:279`). It is masked, so a larger scalar can rank lower.
  `NeverOvertaken` says for which scalars it cannot.
- *Any top-of-block bid outranks every group* (`src/policy.rs:261`). A bid of score zero takes the fallback instead.
  `TobOutranksGroups`.
- *Stale queue entries are compacted before they become unbounded* (`src/txpool_ipc.rs:68-70`). Compaction keeps every
  slot of a stored hash, so one hash sent and dropped over and over makes the queue as long as one likes:
  `QueueGrows`. `QueueBoundExactly` gives the condition under which an insertion stays within the bound,
  `SentRunRefines` one under which a whole run does.
- *Front not expired; the rest are newer* (`src/backrun.rs:233`). Re-observing a hash refreshes its age and not its slot:
  `PruneStopsEarly`, with the exact rule in `PruneCacheExact`.
- *A flushed target is streamed with its bids* (`src/backrun.rs:202-213`). Called without a prune, the pool can evict a
  target by its own stale slot: `BidWithoutTarget`, with the exact condition in `FlushLeadsWithTarget`.
- *A bid goes out behind its target.* A target counts as streamed before its send succeeds (`src/backrun.rs:301`):
  `FailedTargetIsNotRetried`. `TargetNeverSentExactly` says exactly when a bid goes out without its target,
  `TargetSentBeforeBid` that it does not while no send of the target was lost.
- *A forgotten transaction is dropped wherever it appears* (`src/backrun.rs:270-272`). The scan for a parked bid stops at
  its first hit: `ForgottenBidIsSent`. `ForgetComplete` and `ForgottenIsSilentExactly` give the exact condition, that
  at most one bid of that hash was parked outside its own key.

## Model

| member | source | states |
|---|---|---|
| Policy.FeeProductFits | src/policy.rs:186-188 | a 128-bit fee times a 64-bit gas limit stays below 2^192, so the saturating product is the product |
| Policy.ScoreIsTotalValue | src/policy.rs:185-199 | the score is min(tip, cap) * gas plus the bid amount of a gateway call as an unbounded number, cut at 2^256 - 1 only when the bid itself nearly fills the word |
| Policy.ScoreInFields | src/policy.rs:185-199 | the score in the transaction's own fields: fee product plus bid amount, clamped, for a gateway call; the fee product alone for any other recipient or without a call |
| Policy.ScoreMonotone | src/policy.rs:345-354 | raising the tip, the fee cap, the gas limit or the bid never lowers the score |
| Policy.MaskIsMod | src/policy.rs:279-282 | and-ing with the 128-bit mask, done bit by bit, keeps the scalar modulo 2^128 |
| Policy.EncodeTob | src/policy.rs:284-288 | the or of marker bit and masked scalar is 2^255 plus the scalar modulo 2^128 |
| Policy.BackrunId | src/policy.rs:290-295 | the shifted hash is the unique key below 2^126 whose block of 2^130 hashes contains the target |
| Policy.EncodeOpportunity | src/policy.rs:297-301 | the shifted key or-ed with bit 128 is key * 2^129 + 2^128, with no bit lost |
| Policy.EncodeBackrunBid | src/policy.rs:303-311 | the shifted key or-ed with the masked scalar is key * 2^129 plus the scalar modulo 2^128 |
| Policy.DecodeEncode | src/policy.rs:255-257 | kind, top 126 target bits and scalar modulo 2^128 are recovered from every encoded word |
| Policy.GroupInterval | src/policy.rs:261-268 | every opportunity and bid word lies below 2^255, in the interval of 2^129 words of its own target's key and in no other key's |
| Policy.IntervalsDisjoint | src/policy.rs:261-268 | the intervals of two keys share a word if and only if the keys are equal |
| Policy.EncodePreservesOrder | src/policy.rs:261-268 | numeric order of two encoded words is exactly: top-of-block above all, then by group key, target above its bids, bids by payload |
| Policy.TobOutranksGroups | src/backrun.rs:158-164 | a top-of-block bid outranks every group word if and only if its score is not zero or the fallback lies above all groups |
| Policy.NeverOvertaken | src/policy.rs:279-288 | a bid is never overtaken by a smaller one if and only if its scalar is below 2^128 or its low 128 bits are all ones |
| Policy.BidsOrderedByTotalValue | src/policy.rs:303-311 | below 2^128, both at the top and behind a target, one bid outranks another if and only if its total value, bid amount included, is larger |
| PairingPool.PendingPool.constructor | src/backrun.rs:107-127 | an empty pool with the given policy, fallback and time to live, and the given capacities, a zero counting as one |
| PairingPool.PendingPool.PendingLen | src/backrun.rs:130-132 | the hand-kept counter is the number of parked bids |
| PairingPool.PendingPool.ObserveAt | src/backrun.rs:145-220 | in place, result and new state are those of the observation function, and the invariant is kept |
| PairingPool.PendingPool.Prune | src/backrun.rs:224-268 | in place, state and expiry count are those of the prune function; no subtraction underflows |
| PairingPool.PendingPool.Forget | src/backrun.rs:273-288 | in place, the state is that of the forget function for the first hit of a scan in some order |
| PairingPool.PendingPool.EmitOpportunityOnce | src/backrun.rs:291-303 | the target is appended to the result and marked, only if cached and not marked before |
| PairingPool.PendingPool.InsertCache | src/backrun.rs:305-323 | storing and evicting in place gives the state of the insertion function |
| PairingPool.PendingPool.PushPending | src/backrun.rs:325-351 | parking and evicting in place gives the state and eviction count of the parking function |
| Calls.TobObserved | src/backrun.rs:155-167 | in any state a gateway call with target 0 is emitted alone, with the fallback if its score is zero and 2^255 plus the score modulo 2^128 otherwise |
| Calls.PairObserved | src/backrun.rs:169-181 | in any state a call on a cached target emits the target, unless streamed already, and then itself, with the target's key in both words |
| Calls.ParkObserved | src/backrun.rs:182-191 | in any state a call on any other target is parked behind those parked on it before, and the cap evicts what it must |
| Calls.InvalidObserved | src/backrun.rs:194-199 | in any state a gateway transaction without a call emits nothing and is counted as invalid |
| Calls.TargetObserved | src/backrun.rs:201-219 | in any state any other transaction flushes the bids parked on it in order, behind itself if it is still cached and not streamed, or is counted as skipped if there are none |
| CacheQueue.InsertCacheExact | src/backrun.rs:305-323 | in any state caching stores the transaction with its instant, queues its hash only if it was not cached, and drops the entries of the least number of oldest slots that restores the capacity |
| CacheQueue.PruneCachePrefix | src/backrun.rs:226-239 | in any state the cache half of a prune drops exactly the slots before the first with instant plus time to live still ahead, and their entries |
| Calls.PruneSplits | src/backrun.rs:224-268 | in any state a prune is that cut of the cache followed by the cut of the parked bids at the same instant |
| PoolInvariant.ApplyKeepsInv | src/backrun.rs:145-351 | every call keeps: counter = parked bids, no empty vector, each parked bid has its own queue slot, cached keys are queued, streamed targets are cached, both caps hold, no bid waits on a cached non-gateway target; and no parked bid is lost or duplicated |
| PoolInvariant.ReachableInv | src/backrun.rs:83-104 | that invariant holds after every run of calls |
| PoolInvariant.QueueNotEmpty | src/backrun.rs:333-336 | while bids are parked the queue is not empty, so the empty-queue exit is never taken over the cap |
| PoolInvariant.CacheQueueNotEmpty | src/backrun.rs:313-321 | the same for the cache queue |
| PoolRuns.ParkedBidsAreConserved | src/backrun.rs:145-351 | over any run, as multisets: bids parked = flushed + evicted + expired + forgotten + still parked |
| PoolRuns.BoundedAmplification | src/backrun.rs:155-213 | over any run, reinjections plus twice the parked bids are at most twice the valid gateway calls observed |
| PoolRuns.OpportunityOncePerResidency | src/backrun.rs:291-303 | between two opportunity emissions for one target it was out of the cache |
| PoolRuns.PruneCacheExact | src/backrun.rs:224-239 | in any state a cached transaction survives a prune if and only if its instant plus a positive time to live is still ahead, or a transaction of which that holds stands before all its slots |
| PoolRuns.PruneExpiresOnlyOld | src/backrun.rs:241-265 | in any state a prune expires no bid whose instant plus a positive time to live is still ahead |
| PendingQueue.PrunePendingExact | src/backrun.rs:241-265 | in any state a prune expires exactly the bids of the slots before the first one that stands for a bid with instant plus time to live still ahead, in queue order, where the n-th slot of a hash under a target stands for the n-th bid with that hash |
| PendingQueue.EvictPendingExact | src/backrun.rs:332-349 | the parked-bid cap takes the bids of the oldest slots, and the least number of slots that brings the count within the cap |
| PendingQueue.QueueWork | src/backrun.rs:226-349 | over any run, for each queue, pops made by the four loops plus final length equal the pushes, which are at most one per transaction observed; the queue is what the pops have left of the pushes, in order |
| PoolRuns.InsertSurvives | src/backrun.rs:305-323 | a transaction is evicted by its own insertion if and only if the cache is full and a stale slot of its hash leads the queue |
| PoolRuns.FlushLeadsWithTarget | src/backrun.rs:200-214 | a vanilla transaction with bids waiting emits exactly those bids in order, preceded by itself if and only if it survives its insertion |
| PoolRuns.NoSelfEvictionAfterPrune | src/txpool_ipc.rs:170-174 | right after a prune no insertion evicts itself |
| PoolRuns.ForgetFramed | src/backrun.rs:273-288 | the hash is gone from cache, streamed set and awaited targets; under every other target the bids of other hashes stay, in order; under the hit the first bid with the hash goes |
| PoolRuns.ForgetComplete | src/backrun.rs:280-286 | whatever order the scan takes, no bid with the hash stays parked if and only if at most one was parked outside its own key |
| Forgetting.ForgottenIsSilentExactly | src/backrun.rs:270-288 | after a forget, no run of calls that does not observe the hash again ever emits it, if and only if at most one bid with that hash was parked outside its own key |
| Forgetting.ForgetFresh | src/backrun.rs:280-286 | in every run that meets the refinement's condition, a forgotten hash is parked nowhere although the scan stops at its first hit |
| RefinementRuns.RunRefines | src/backrun.rs:145-351 | over every run that observes only hashes with no queue slot left, at non-decreasing instants, results, expiry counts and lengths equal those of two lists filtered by instant, trimmed from the oldest end and joined by scanning, with kinds, scores and words read off the transaction's fields |
| RefinementRuns.FreshRunOk | src/backrun.rs:305-312 | a run that observes no hash twice meets that condition |
| RefinementRuns.PruneExact | src/backrun.rs:224-268 | in such a run a prune keeps exactly the transactions and bids whose instant plus a positive time to live is still ahead, and counts the bids it drops |
| RefinementRuns.ForgetRefines | src/backrun.rs:273-288 | forgetting is filtering both lists, so the hash is parked nowhere although the scan stops at its first hit |
| Join.PairingIsAJoin | src/backrun.rs:155-214 | a batch within the caps emits exactly once each: all top-of-block bids, every bid whose target is in the batch, every targeted transaction of the batch; and nothing else |
| Join.OrderFreeExactly | src/backrun.rs:155-214 | every permutation of a batch emits the same multiset if and only if no bid targets another gateway transaction of the batch |
| SentHashes.SentCache.Insert | src/txpool_ipc.rs:63-87 | in place, state and evicted entries are those of the insertion function, and the capacity holds |
| SentHashes.SentCache.Remove | src/txpool_ipc.rs:89-91 | in place, the entry is removed and its slot left stale |
| SentSpec.InsertKeeps | src/txpool_ipc.rs:63-87 | however hashes are reused the size stays within capacity, exactly the reported entries leave, and one leaves exactly when a new hash meets a full cache |
| SentRuns.InsertExact | src/txpool_ipc.rs:63-87 | in any state an insertion stores the priority, queues the hash only if it was not stored, drops stale slots only past twice the capacity, and drops the entries of the least number of oldest slots that restores the capacity |
| SentSpec.InsertRefines | src/txpool_ipc.rs:63-87 | with no stale slot of the hash queued, insertion is updating or appending to a list of distinct hashes and trimming its oldest end |
| SentSpec.RemoveRefines | src/txpool_ipc.rs:89-91 | removal is filtering that list |
| SentSpec.FreshQueueBound | src/txpool_ipc.rs:68-76 | one insertion without a stale slot of its hash leaves the queue within twice the capacity |
| SentRuns.InsertRefinesExactly | src/txpool_ipc.rs:63-87 | one insertion equals insertion into the list if and only if no stale slot of the hash is queued |
| SentRuns.SentRunRefines | src/txpool_ipc.rs:48-95 | over any run of insertions and removals from the empty cache that inserts no hash while a stale slot of it is queued, the cache is the list reference and the queue stays within twice the capacity |
| SentRuns.RunRefinesExactly | src/txpool_ipc.rs:63-95 | cache and list agree after every prefix of a run if and only if no insertion of the run meets a stale slot of its hash |
| SentRuns.LoopRefines | src/txpool_ipc.rs:159-228 | in every run of the loop that sends no hash twice, the sent cache is the list read off the log of sends and departures, and its queue stays within twice the capacity |
| SentSpec.QueueBoundExactly | src/txpool_ipc.rs:68-76 | in any state the queue stays within twice the capacity if and only if it had room or the slots of stored hashes, repetitions counted, fit |
| SentSpec.QueueGrows | src/txpool_ipc.rs:68-76 | one hash sent and dropped n times leaves n slots, for every n and every capacity |
| EventLoop.SendReinjections | src/txpool_ipc.rs:197-221 | sends in order what was not sent before, records each send, and loses the rest at the first failure |
| EventLoop.HandleEvent | src/txpool_ipc.rs:159-231 | one event on the two objects gives the state, log and outcome of the event function |
| LoopPool.EchoIgnored | src/txpool_ipc.rs:162-174 | over every run, an insertion of a hash sent and neither pushed out nor gone since changes nothing and logs nothing; any other is cached at its instant |
| LoopPool.EchoesChangeNothing | src/txpool_ipc.rs:164-166 | erasing every such insertion from a run changes neither the final state nor the log |
| LoopPool.LoopRunsPool | src/txpool_ipc.rs:159-231 | the pool of a loop run is the pool after a prune and an observation for each insertion that is no echo and a forget for each departure, so every theorem on runs of calls holds in the loop |
| LoopPool.StepSends | src/txpool_ipc.rs:197-221 | over every run, what a step sends or loses is a subsequence of what its observation emits, in order; everything else of it was sent before and not released; a failure loses the rest |
| LoopPool.RunKeepsSettings | src/txpool_ipc.rs:111-120 | throughout a run pool and sent cache work with the given settings, a zero capacity counting as one |
| EventLoop.RunLoop | src/txpool_ipc.rs:98-236 | the log of the whole loop is that of the events handled: every batch up to its first failed send, with state kept across connections |
| LoopRuns.FailureDropsRest | src/txpool_ipc.rs:197-221 | a send fails only after as many successful sends as were allowed; then every reinjection from the failed one on is lost, and otherwise none is |
| LoopRuns.RunSendsApart | src/txpool_ipc.rs:164-166 | in every run the sent cache holds exactly the hashes sent and neither pushed out nor gone since, with the priority of that send |
| LoopRuns.AtMostOnceSend | src/txpool_ipc.rs:197-228 | two successful sends of one hash have its Commit/Drop/Evict or its capacity eviction between them |
| LoopRuns.SendsBounded | src/txpool_ipc.rs:170-217 | over any run, sends plus twice the parked bids are at most twice the valid gateway calls inserted |
| LoopRuns.GoneEverywhere | src/txpool_ipc.rs:223-228 | after Commit/Drop/Evict nothing keyed by the hash is left in the sent cache or the pool, the bids of other hashes stay under every other target, and a bid with the hash stays parked if and only if more than one was |
| Forgetting.GoneIsNotSent | src/txpool_ipc.rs:223-228 | after Commit/Drop/Evict of a hash with at most one bid of its own parked, no run sends it again before it is inserted again |
| Forgetting.InsertedOnceParkedOnce | src/txpool_ipc.rs:159-231 | in every run that inserts no hash twice, every hash is parked at most once in every state, whatever the clock |
| Placement.TargetBeforeBid | src/txpool_ipc.rs:197-218 | in every run a sent bid's target went out before it, as the opportunity if it is not a gateway transaction, or its own send had failed |
| TargetSends.TargetLeadsExactly | src/backrun.rs:291-303 | a step that emits a bid emits its target ahead of it if and only if the target is not streamed after the prune; for a target other than the inserted transaction, if and only if it was not streamed before the step |
| TargetSends.TargetNeverSentExactly | src/txpool_ipc.rs:170-218 | over every run, a bid goes out with its target never sent if and only if the target is streamed and no send of it ever succeeded; then one was lost |
| TargetSends.TargetSentBeforeBid | src/txpool_ipc.rs:197-218 | in every run a sent bid whose target never had a failed send comes after a successful send of the target, as the opportunity if it is not a gateway transaction |
| Placement.SentIsLaidOut | src/txpool_ipc.rs:43-47 | in every reachable state the sent hashes listed by priority put scored top-of-block bids first by score, and each target directly above its bids by score with nothing else in between |
| Counterexamples.PruneStopsEarly | src/backrun.rs:226-239 | after a re-observation a prune keeps an expired transaction |
| Counterexamples.BidWithoutTarget | src/backrun.rs:200-214 | after forget and re-observation behind a full cache a flush emits the bid and not its target |
| Counterexamples.FailedTargetIsNotRetried | src/backrun.rs:291-303 | after a failed send of the target the next bid goes out without it, for any target hash |
| Counterexamples.ForgottenBidIsSent | src/backrun.rs:280-286 | a bid inserted twice and then dropped is still sent when its target shows up |

## Left out

- PruneExact: stated for runs whose observed hashes have no queue slot left; what a prune takes in other states is `PruneCacheExact` and `PrunePendingExact`.
- TargetBeforeBid: a target whose send failed counts as mentioned, since the pool does not retry it; the exact rule is `TargetNeverSentExactly`.
- GoneIsNotSent: one direction at the level of the loop; the converse is stated for the pool, in `ForgottenIsSilentExactly`.
- LoopRefines: stated for runs that send no hash twice; the weaker condition on stale slots is `SentRunRefines`, over runs of the cache alone.
- InsertRefines: one insertion; over runs it is `SentRunRefines`.
- FreshQueueBound: one insertion; over runs it is `SentRunRefines`.
- Connecting, framing, the snapshot handshake, the shutdown watch, sleeping between connections: I/O. What is kept is that batches arrive, that a send succeeds or fails, and that state survives a reconnect.
- Transaction envelopes, signatures, RLP and the ABI decoder: libraries that are not part of this model; a transaction carries its decoded call.
- The wall clock: instants are arguments, and their difference saturates at zero.
- Metrics, health and HTTP routes, command line, packaging: thin wrappers with no state of their own.
- Gateway addresses, floors and the fallback value of a network: parameters here.
- The width of `usize`: lengths and twice the capacity of the sent cache are unbounded numbers here.
- How the node itself orders its pool: outside the repository; placement is stated over the priority numbers.
