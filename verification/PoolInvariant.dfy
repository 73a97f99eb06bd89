/** The representation invariant of the pairing pool, kept by every operation, and conservation of parked bids. */
module PoolInvariant {
  import opened Base
  import opened Policy
  import opened PoolSpec

  /** The bids parked under any of `targets`. */
  ghost function ParkedUnder(targets: set<Hash>, pending: map<Hash, seq<PendingBid>>): multiset<PendingBid>
    decreases targets
  {
    if targets == {} then multiset{}
    else
      var t := Pick(targets);
      multiset(Parked(pending, t)) + ParkedUnder(targets - {t}, pending)
  }

  ghost function Pick<T>(xs: set<T>): (x: T)
    requires xs != {}
    ensures x in xs
  {
    var x :| x in xs;
    x
  }

  /** Every parked bid, whatever its target. */
  ghost function AllParked(pending: map<Hash, seq<PendingBid>>): multiset<PendingBid> {
    ParkedUnder(pending.Keys, pending)
  }

  function CountOf(v: seq<PendingBid>, h: Hash): nat {
    if v == [] then 0 else (if v[0].hash == h then 1 else 0) + CountOf(v[1..], h)
  }

  ghost predicate PendingWellFormed(pending: map<Hash, seq<PendingBid>>) {
    forall t :: t in pending ==> pending[t] != [] && forall b :: b in pending[t] ==> b.target == t
  }

  /** Each parked bid has a queue slot of its own. */
  ghost predicate QueueCovers(pending: map<Hash, seq<PendingBid>>, order: seq<Slot>) {
    forall t, h :: CountOf(Parked(pending, t), h) <= multiset(order)[Slot(t, h)]
  }

  /** The counter is exact, no vector is empty and every parked bid is queued. */
  ghost predicate PendingRep(pending: map<Hash, seq<PendingBid>>, order: seq<Slot>, count: int) {
    && count == |AllParked(pending)|
    && PendingWellFormed(pending)
    && QueueCovers(pending, order)
  }

  /** Every cached transaction is queued, and only cached targets count as streamed. */
  ghost predicate CacheRep(cache: map<Hash, CachedTx>, order: seq<Hash>, streamed: set<Hash>) {
    && (forall k :: k in cache ==> k in order)
    && streamed <= cache.Keys
  }

  /** Holds between any two steps of any operation. */
  ghost predicate Rep(s: Pool) {
    && PendingRep(s.pending, s.pendingOrder, s.pendingCount)
    && CacheRep(s.cache, s.cacheOrder, s.streamed)
  }

  /** No bid waits on a cached target, unless that target is itself bound for the gateway. */
  ghost predicate NoMissedPairing(s: Pool) {
    forall t :: t in s.pending && t in s.cache ==> IsGateway(s.cache[t].tx, s.cfg.policy)
  }

  /** Holds between any two operations. */
  ghost predicate Inv(s: Pool) {
    && Rep(s)
    && |s.cache| <= s.cfg.maxCache
    && s.pendingCount <= s.cfg.maxPending
    && NoMissedPairing(s)
  }

  // ----- the multiset of parked bids -----

  lemma {:induction false} ParkedUnderSplit(targets: set<Hash>, pending: map<Hash, seq<PendingBid>>, k: Hash)
    requires k in targets
    ensures ParkedUnder(targets, pending) == multiset(Parked(pending, k)) + ParkedUnder(targets - {k}, pending)
    decreases targets
  {
    var t := Pick(targets);
    if t != k {
      ParkedUnderSplit(targets - {t}, pending, k);
      ParkedUnderSplit(targets - {k}, pending, t);
      assert targets - {t} - {k} == targets - {k} - {t};
    }
  }

  lemma {:induction false} ParkedUnderSame(targets: set<Hash>, p: map<Hash, seq<PendingBid>>,
                                             q: map<Hash, seq<PendingBid>>)
    requires forall t :: t in targets ==> Parked(p, t) == Parked(q, t)
    ensures ParkedUnder(targets, p) == ParkedUnder(targets, q)
    decreases targets
  {
    if targets != {} {
      ParkedUnderSame(targets - {Pick(targets)}, p, q);
    }
  }

  /** Replacing what is parked under one target changes the whole by exactly that. */
  lemma AllParkedChange(p: map<Hash, seq<PendingBid>>, q: map<Hash, seq<PendingBid>>, k: Hash)
    returns (others: multiset<PendingBid>)
    requires forall t :: t != k ==> (t in p <==> t in q) && Parked(p, t) == Parked(q, t)
    ensures AllParked(p) == multiset(Parked(p, k)) + others
    ensures AllParked(q) == multiset(Parked(q, k)) + others
  {
    others := ParkedUnder(p.Keys - {k}, p);
    assert q.Keys - {k} == p.Keys - {k};
    ParkedUnderSame(p.Keys - {k}, p, q);
    UnderWithout(p, k);
    UnderWithout(q, k);
  }

  lemma UnderWithout(p: map<Hash, seq<PendingBid>>, k: Hash)
    ensures AllParked(p) == multiset(Parked(p, k)) + ParkedUnder(p.Keys - {k}, p)
  {
    if k in p {
      ParkedUnderSplit(p.Keys, p, k);
    } else {
      assert p.Keys - {k} == p.Keys;
    }
  }

  lemma RemovedMultiset<T>(v: seq<T>, p: nat)
    requires p < |v|
    ensures multiset(v) == multiset(RemoveAt(v, p)) + multiset{v[p]}
  {
    assert v == v[..p] + [v[p]] + v[p + 1..];
  }

  // ----- counting a hash in a vector -----

  lemma {:induction false} CountConcat(v: seq<PendingBid>, w: seq<PendingBid>, h: Hash)
    ensures CountOf(v + w, h) == CountOf(v, h) + CountOf(w, h)
  {
    if v == [] {
      assert v + w == w;
    } else {
      assert (v + w)[1..] == v[1..] + w;
      CountConcat(v[1..], w, h);
    }
  }

  lemma CountRemoved(v: seq<PendingBid>, p: nat, h: Hash)
    requires p < |v|
    ensures CountOf(v, h) == CountOf(RemoveAt(v, p), h) + (if v[p].hash == h then 1 else 0)
  {
    assert v == v[..p] + ([v[p]] + v[p + 1..]);
    CountConcat(v[..p], [v[p]] + v[p + 1..], h);
    CountConcat([v[p]], v[p + 1..], h);
    CountConcat(v[..p], v[p + 1..], h);
  }

  lemma {:induction false} CountHas(v: seq<PendingBid>, h: Hash)
    ensures Has(v, h) <==> CountOf(v, h) > 0
    ensures Has(v, h) <==> exists i :: 0 <= i < |v| && v[i].hash == h
  {
    if v != [] && v[0].hash != h {
      CountHas(v[1..], h);
    }
  }

  // ----- one step at a time -----

  lemma MultisetFront<T>(xs: seq<T>)
    requires xs != []
    ensures multiset(xs) == multiset{xs[0]} + multiset(xs[1..])
  {
    assert xs == [xs[0]] + xs[1..];
  }

  /** Taking a bid out removes exactly that bid. */
  lemma RemoveBidStep(s: Pool, t: Hash, h: Hash)
    requires Has(Parked(s.pending, t), h)
    ensures AllParked(s.pending) == AllParked(RemoveBid(s, t, h).pending) + multiset{SlotBid(s, Slot(t, h))}
  {
    var v := Parked(s.pending, t);
    var w := RemoveAt(v, Position(v, h));
    var others := AllParkedChange(s.pending, RemoveBid(s, t, h).pending, t);
    assert Parked(RemoveBid(s, t, h).pending, t) == w;
    RemovedMultiset(v, Position(v, h));
    BagSwap(multiset(w), multiset{SlotBid(s, Slot(t, h))}, others);
  }

  lemma RemoveBidWellFormed(s: Pool, t: Hash, h: Hash)
    requires PendingWellFormed(s.pending)
    requires Has(Parked(s.pending, t), h)
    ensures PendingWellFormed(RemoveBid(s, t, h).pending)
  {
  }

  lemma RemoveBidCounts(s: Pool, t: Hash, h: Hash, t': Hash, h': Hash)
    requires Has(Parked(s.pending, t), h)
    ensures CountOf(Parked(s.pending, t'), h')
         == CountOf(Parked(RemoveBid(s, t, h).pending, t'), h') + (if t' == t && h' == h then 1 else 0)
  {
    CountRemoved(Parked(s.pending, t), Position(Parked(s.pending, t), h), h');
  }

  lemma PopKeepsQueued(s: Pool)
    requires QueueCovers(s.pending, s.pendingOrder) && s.pendingOrder != []
    ensures QueueCovers(PopPendingSlot(s).0.pending, s.pendingOrder[1..])
  {
    var slot := s.pendingOrder[0];
    MultisetFront(s.pendingOrder);
    CountHas(Parked(s.pending, slot.target), slot.bid);
    forall t, h
      ensures CountOf(Parked(PopPendingSlot(s).0.pending, t), h) <= multiset(s.pendingOrder[1..])[Slot(t, h)]
    {
      assert CountOf(Parked(s.pending, t), h) <= multiset(s.pendingOrder)[Slot(t, h)];
      if SlotLive(s, slot) {
        RemoveBidCounts(s, slot.target, slot.bid, t, h);
      }
    }
  }

  /** `s'` differs from `s` only by the bids in `gone` having left, and by popped slots. */
  ghost predicate PendingShrunk(s: Pool, s': Pool, gone: seq<PendingBid>) {
    && s' == s.(pending := s'.pending, pendingOrder := s'.pendingOrder, pendingCount := s'.pendingCount)
    && s'.pending.Keys <= s.pending.Keys
    && s'.pendingCount == s.pendingCount - |gone|
    && AllParked(s.pending) == AllParked(s'.pending) + multiset(gone)
  }

  lemma PopPendingStep(s: Pool)
    requires Rep(s) && s.pendingOrder != []
    ensures var (s', gone) := PopPendingSlot(s);
            Rep(s') && PendingShrunk(s, s', gone)
  {
    var slot := s.pendingOrder[0];
    PopKeepsQueued(s);
    if SlotLive(s, slot) {
      RemoveBidWellFormed(s, slot.target, slot.bid);
      RemoveBidStep(s, slot.target, slot.bid);
    }
  }

  lemma PendingShrunkTrans(s: Pool, s1: Pool, s2: Pool, a: seq<PendingBid>, b: seq<PendingBid>)
    requires PendingShrunk(s, s1, a) && PendingShrunk(s1, s2, b)
    ensures PendingShrunk(s, s2, a + b)
  {
    assert multiset(a + b) == multiset(a) + multiset(b);
  }

  /** While bids are parked the pending queue is not empty. */
  lemma QueueNotEmpty(s: Pool)
    requires Rep(s) && s.pendingCount > 0
    ensures s.pendingOrder != []
  {
    var b :| b in AllParked(s.pending);
    var t := ParkedSomewhere(s.pending.Keys, s.pending, b);
    CountHas(Parked(s.pending, t), b.hash);
    assert CountOf(Parked(s.pending, t), b.hash) > 0;
  }

  lemma {:induction false} ParkedSomewhere(targets: set<Hash>, pending: map<Hash, seq<PendingBid>>, b: PendingBid)
    returns (t: Hash)
    requires b in ParkedUnder(targets, pending)
    ensures b in Parked(pending, t)
    decreases targets
  {
    t := Pick(targets);
    if b !in Parked(pending, t) {
      t := ParkedSomewhere(targets - {t}, pending, b);
    }
  }

  lemma {:induction false} EvictPendingKeeps(s: Pool)
    requires Rep(s)
    ensures var (s', gone) := EvictPending(s);
            && Rep(s')
            && s'.pendingCount <= s.cfg.maxPending
            && PendingShrunk(s, s', gone)
    decreases |s.pendingOrder|
  {
    if s.pendingCount > s.cfg.maxPending {
      QueueNotEmpty(s);
      PopPendingStep(s);
      var (s1, gone) := PopPendingSlot(s);
      EvictPendingKeeps(s1);
      PendingShrunkTrans(s, s1, EvictPending(s1).0, gone, EvictPending(s1).1);
    }
  }

  lemma {:induction false} PrunePendingKeeps(s: Pool, now: nat)
    requires Rep(s)
    ensures var (s', gone) := PrunePending(s, now);
            Rep(s') && PendingShrunk(s, s', gone)
    decreases |s.pendingOrder|
  {
    if s.pendingOrder != [] && !FrontBidWaits(s, now) {
      PopPendingStep(s);
      var (s1, gone) := PopPendingSlot(s);
      PrunePendingKeeps(s1, now);
      PendingShrunkTrans(s, s1, PrunePending(s1, now).0, gone, PrunePending(s1, now).1);
    }
  }

  /** `s'` differs from `s` only by having fewer cache entries and slots. */
  ghost predicate CacheShrunk(s: Pool, s': Pool) {
    && s' == s.(cache := s'.cache, cacheOrder := s'.cacheOrder, streamed := s'.streamed)
    && s'.cache.Keys <= s.cache.Keys
    && (forall k :: k in s'.cache ==> s'.cache[k] == s.cache[k])
    && s'.streamed == s.streamed * s'.cache.Keys
  }

  lemma CacheShrunkTrans(s: Pool, s1: Pool, s2: Pool)
    requires CacheShrunk(s, s1) && CacheShrunk(s1, s2)
    ensures CacheShrunk(s, s2)
  {
  }

  lemma PopCacheStep(s: Pool)
    requires Rep(s) && s.cacheOrder != []
    ensures Rep(PopCacheSlot(s)) && CacheShrunk(s, PopCacheSlot(s))
  {
    assert s.cacheOrder == [s.cacheOrder[0]] + s.cacheOrder[1..];
  }

  lemma PopCacheCard(s: Pool)
    requires s.cacheOrder != []
    ensures |PopCacheSlot(s).cache| == |s.cache| - (if s.cacheOrder[0] in s.cache then 1 else 0)
  {
  }

  lemma CacheQueueNotEmpty(s: Pool)
    requires Rep(s) && |s.cache| > 0
    ensures s.cacheOrder != []
  {
    var k :| k in s.cache.Keys;
  }

  lemma {:induction false} EvictCacheKeeps(s: Pool)
    requires Rep(s)
    ensures Rep(EvictCache(s)) && CacheShrunk(s, EvictCache(s))
    ensures |EvictCache(s).cache| <= s.cfg.maxCache
    ensures |s.cache| <= s.cfg.maxCache + 1 ==> |EvictCache(s).cache| == Min(|s.cache|, s.cfg.maxCache)
    decreases |s.cacheOrder|
  {
    if |s.cache| > s.cfg.maxCache {
      CacheQueueNotEmpty(s);
      PopCacheStep(s);
      PopCacheCard(s);
      EvictCacheKeeps(PopCacheSlot(s));
      CacheShrunkTrans(s, PopCacheSlot(s), EvictCache(s));
    }
  }

  lemma {:induction false} PruneCacheKeeps(s: Pool, now: nat)
    requires Rep(s)
    ensures Rep(PruneCache(s, now)) && CacheShrunk(s, PruneCache(s, now))
    ensures |PruneCache(s, now).cache| <= |s.cache|
    ensures var s' := PruneCache(s, now); s'.cacheOrder == [] || s'.cacheOrder[0] in s'.cache
    decreases |s.cacheOrder|
  {
    if s.cacheOrder != [] && !(s.cacheOrder[0] in s.cache && !CacheExpired(s, s.cacheOrder[0], now)) {
      PopCacheStep(s);
      PopCacheCard(s);
      PruneCacheKeeps(PopCacheSlot(s), now);
      CacheShrunkTrans(s, PopCacheSlot(s), PruneCache(s, now));
    }
  }

  lemma InsertCacheKeeps(s: Pool, h: Hash, tx: Tx, now: nat)
    requires Rep(s)
    ensures var s1 := StoreCached(s, h, tx, now);
            var s' := InsertCache(s, h, tx, now);
            && Rep(s1) && Rep(s') && CacheShrunk(s1, s')
            && |s'.cache| <= s.cfg.maxCache
  {
    var s1 := StoreCached(s, h, tx, now);
    forall k | k in s1.cache
      ensures k in s1.cacheOrder
    {
    }
    EvictCacheKeeps(s1);
  }

  // ----- whole operations -----

  /** Parked bids are neither lost nor duplicated by an operation. */
  ghost predicate Conserved(s: Pool, e: Effect) {
    AllParked(s.pending) + multiset(e.parked)
    == AllParked(e.pool.pending) + multiset(e.flushed) + multiset(e.evicted) + multiset(e.expired)
        + multiset(e.forgotten)
  }

  lemma EmitKeeps(s: Pool, target: Hash)
    requires Rep(s)
    ensures var (s', rs) := EmitOpportunityOnce(s, target);
            && Rep(s')
            && s' == s.(streamed := s'.streamed)
            && (target in s.cache ==> target in s'.streamed)
  {
  }

  lemma StoreBidKeeps(s: Pool, bid: PendingBid)
    requires Rep(s)
    ensures Rep(StoreBid(s, bid))
    ensures AllParked(StoreBid(s, bid).pending) == AllParked(s.pending) + multiset{bid}
  {
    StoreBidAdds(s, bid);
    StoreBidQueued(s, bid);
    assert forall b :: b in Parked(s.pending, bid.target) + [bid] ==> b in Parked(s.pending, bid.target) || b == bid;
  }

  lemma StoreBidAdds(s: Pool, bid: PendingBid)
    ensures AllParked(StoreBid(s, bid).pending) == AllParked(s.pending) + multiset{bid}
  {
    var v := Parked(s.pending, bid.target);
    var others := AllParkedChange(s.pending, StoreBid(s, bid).pending, bid.target);
    assert multiset(v + [bid]) == multiset(v) + multiset{bid};
    BagSwap(multiset(v), multiset{bid}, others);
  }

  lemma StoreBidQueued(s: Pool, bid: PendingBid)
    requires QueueCovers(s.pending, s.pendingOrder)
    ensures QueueCovers(StoreBid(s, bid).pending, StoreBid(s, bid).pendingOrder)
  {
    var s' := StoreBid(s, bid);
    forall t, h
      ensures CountOf(Parked(s'.pending, t), h) <= multiset(s'.pendingOrder)[Slot(t, h)]
    {
      CountConcat(Parked(s.pending, bid.target), [bid], h);
      assert CountOf([bid], h) == if bid.hash == h then 1 else 0;
      assert CountOf(Parked(s.pending, t), h) <= multiset(s.pendingOrder)[Slot(t, h)];
    }
  }

  lemma PushPendingKeeps(s: Pool, bid: PendingBid)
    requires Rep(s)
    ensures var (s', evicted) := PushPending(s, bid);
            && Rep(s')
            && s'.pendingCount <= s.cfg.maxPending
            && s' == s.(pending := s'.pending, pendingOrder := s'.pendingOrder, pendingCount := s'.pendingCount)
            && s'.pending.Keys <= s.pending.Keys + {bid.target}
            && AllParked(s.pending) + multiset{bid} == AllParked(s'.pending) + multiset(evicted)
  {
    StoreBidKeeps(s, bid);
    EvictPendingKeeps(StoreBid(s, bid));
  }

  lemma ObserveBidKeeps(s: Pool, h: Hash, tx: Tx, target: Hash, now: nat)
    requires Rep(s) && s.pendingCount <= s.cfg.maxPending
    ensures var e := ObserveBid(s, h, tx, target, now);
            && Rep(e.pool) && e.pool.cache == s.cache && e.pool.cfg == s.cfg
            && e.pool.pendingCount <= s.cfg.maxPending
            && e.pool.pending.Keys <= s.pending.Keys + (if target in s.cache then {} else {target})
            && Conserved(s, e)
  {
    if target in s.cache {
      EmitKeeps(s, target);
    } else {
      PushPendingKeeps(s, PendingBid(h, tx, ComputePriority(tx, s.cfg.policy), target, now));
    }
  }

  lemma DropKeyKeeps(s: Pool, h: Hash)
    requires Rep(s)
    ensures var s' := s.(pending := s.pending - {h}, pendingCount := s.pendingCount - |Parked(s.pending, h)|);
            Rep(s') && AllParked(s.pending) == AllParked(s'.pending) + multiset(Parked(s.pending, h))
  {
    var s' := s.(pending := s.pending - {h}, pendingCount := s.pendingCount - |Parked(s.pending, h)|);
    var others := AllParkedChange(s.pending, s'.pending, h);
    forall t, h'
      ensures CountOf(Parked(s'.pending, t), h') <= CountOf(Parked(s.pending, t), h')
    {
    }
  }

  lemma KeyCounted(s: Pool, h: Hash)
    requires Rep(s)
    ensures |Parked(s.pending, h)| <= s.pendingCount
  {
    DropKeyKeeps(s, h);
  }

  lemma ObserveVanillaKeeps(s: Pool, h: Hash)
    requires Rep(s)
    ensures var e := ObserveVanilla(s, h);
            && Rep(e.pool) && e.pool.cache == s.cache && e.pool.cfg == s.cfg
            && e.pool.pendingCount <= s.pendingCount
            && e.pool.pending == s.pending - {h}
            && Conserved(s, e)
  {
    DropKeyKeeps(s, h);
    if h !in s.pending {
      assert s.pending - {h} == s.pending;
    }
  }

  /** The invariant in the middle of an observation: only `h` may be parked for and cached as non-gateway. */
  ghost predicate InvBut(s: Pool, h: Hash) {
    && Rep(s)
    && |s.cache| <= s.cfg.maxCache
    && s.pendingCount <= s.cfg.maxPending
    && forall t :: t in s.pending && t in s.cache && t != h ==> IsGateway(s.cache[t].tx, s.cfg.policy)
  }

  lemma InsertKeepsInvBut(s: Pool, h: Hash, tx: Tx, now: nat)
    requires Inv(s)
    ensures InvBut(InsertCache(s, h, tx, now), h)
    ensures h in InsertCache(s, h, tx, now).cache ==> InsertCache(s, h, tx, now).cache[h].tx == tx
  {
    InsertCacheKeeps(s, h, tx, now);
  }

  lemma ObserveBidInv(s: Pool, h: Hash, tx: Tx, target: Hash, now: nat)
    requires InvBut(s, h) && NoMissedPairing(s)
    ensures Inv(ObserveBid(s, h, tx, target, now).pool)
  {
    ObserveBidKeeps(s, h, tx, target, now);
  }

  lemma ObserveVanillaInv(s: Pool, h: Hash)
    requires InvBut(s, h)
    ensures Inv(ObserveVanilla(s, h).pool)
  {
    ObserveVanillaKeeps(s, h);
  }

  lemma ObserveKeepsInv(s: Pool, h: Hash, tx: Tx, now: nat)
    requires Inv(s)
    ensures Inv(Observe(s, h, tx, now).pool) && Observe(s, h, tx, now).pool.cfg == s.cfg
  {
    var s1 := InsertCache(s, h, tx, now);
    InsertCacheKeeps(s, h, tx, now);
    InsertKeepsInvBut(s, h, tx, now);
    match Classify(tx, s.cfg.policy)
    case TopOfBlock =>
    case Backrun(target) =>
      ObserveBidKeeps(s1, h, tx, target, now);
      ObserveBidInv(s1, h, tx, target, now);
    case InvalidGateway =>
    case Vanilla =>
      ObserveVanillaKeeps(s1, h);
      ObserveVanillaInv(s1, h);
  }

  lemma ObserveConserves(s: Pool, h: Hash, tx: Tx, now: nat)
    requires Inv(s)
    ensures Conserved(s, Observe(s, h, tx, now))
  {
    InsertCacheKeeps(s, h, tx, now);
    var s1 := InsertCache(s, h, tx, now);
    match Classify(tx, s.cfg.policy)
    case TopOfBlock =>
    case Backrun(target) => ObserveBidKeeps(s1, h, tx, target, now);
    case InvalidGateway =>
    case Vanilla => ObserveVanillaKeeps(s1, h);
  }

  lemma PruneKeepsInv(s: Pool, now: nat)
    requires Inv(s)
    ensures Inv(Prune(s, now).pool) && Prune(s, now).pool.cfg == s.cfg
    ensures Conserved(s, Prune(s, now))
  {
    PruneCacheKeeps(s, now);
    PrunePendingKeeps(PruneCache(s, now), now);
  }

  lemma ForgetKeysKeeps(s: Pool, h: Hash)
    requires Rep(s)
    ensures Rep(ForgetKeys(s, h))
    ensures AllParked(s.pending) == AllParked(ForgetKeys(s, h).pending) + multiset(Parked(s.pending, h))
    ensures |ForgetKeys(s, h).cache| <= |s.cache|
  {
    DropKeyKeeps(s, h);
    assert (s.cache - {h}).Keys == s.cache.Keys - {h};
  }

  lemma ForgetKeepsInv(s: Pool, h: Hash, hit: Hash)
    requires Inv(s)
    ensures Inv(Forget(s, h, hit).pool) && Forget(s, h, hit).pool.cfg == s.cfg
  {
    ForgetKeysKeeps(s, h);
    var s1 := ForgetKeys(s, h);
    if Has(Parked(s1.pending, hit), h) {
      RemoveBidKeepsInv(s1, hit, h);
    }
  }

  lemma ForgetConserves(s: Pool, h: Hash, hit: Hash)
    requires Inv(s)
    ensures Conserved(s, Forget(s, h, hit))
  {
    ForgetKeysKeeps(s, h);
    var s1 := ForgetKeys(s, h);
    var gone := Parked(s.pending, h);
    if Has(Parked(s1.pending, hit), h) {
      RemoveBidStep(s1, hit, h);
      var b := SlotBid(s1, Slot(hit, h));
      assert multiset(gone + [b]) == multiset(gone) + multiset{b};
      BagSwap(AllParked(RemoveBid(s1, hit, h).pending), multiset{b}, multiset(gone));
      BagAssoc(AllParked(RemoveBid(s1, hit, h).pending), multiset(gone), multiset{b});
    }
  }

  lemma RemoveBidKeepsInv(s: Pool, t: Hash, h: Hash)
    requires Inv(s) && Has(Parked(s.pending, t), h)
    ensures Inv(RemoveBid(s, t, h))
  {
    RemoveBidWellFormed(s, t, h);
    RemoveBidStep(s, t, h);
    var s' := RemoveBid(s, t, h);
    forall t', h'
      ensures CountOf(Parked(s'.pending, t'), h') <= multiset(s'.pendingOrder)[Slot(t', h')]
    {
      RemoveBidCounts(s, t, h, t', h');
      assert CountOf(Parked(s.pending, t'), h') <= multiset(s.pendingOrder)[Slot(t', h')];
    }
  }

  /** Every operation keeps the invariant and loses or duplicates no parked bid. */
  lemma ApplyKeepsInv(s: Pool, op: Op)
    requires Inv(s)
    ensures Inv(Apply(s, op).pool) && Apply(s, op).pool.cfg == s.cfg
    ensures Conserved(s, Apply(s, op))
  {
    match op
    case ObserveOp(h, tx, now) => ObserveKeepsInv(s, h, tx, now); ObserveConserves(s, h, tx, now);
    case PruneOp(now) => PruneKeepsInv(s, now);
    case ForgetOp(h, hit) => ForgetKeepsInv(s, h, hit); ForgetConserves(s, h, hit);
  }

  lemma InitInv(cfg: Config)
    ensures Inv(Init(cfg))
  {
  }

  /** Every state reachable by any run of calls satisfies the invariant. */
  lemma {:induction false} ReachableInv(cfg: Config, ops: seq<Op>)
    ensures Inv(After(Init(cfg), ops)) && After(Init(cfg), ops).cfg == cfg
  {
    if ops == [] {
      InitInv(cfg);
    } else {
      ReachableInv(cfg, ops[..|ops| - 1]);
      ApplyKeepsInv(After(Init(cfg), ops[..|ops| - 1]), ops[|ops| - 1]);
    }
  }
}
