/** What holds over whole runs of the pairing pool, without any assumption on how hashes are reused. */
module PoolRuns {
  import opened Base
  import opened Policy
  import opened PoolSpec
  import opened PoolInvariant

  // ----- conservation and amplification -----

  /** Totals over a run. */
  datatype Ledger = Ledger(
    parked: multiset<PendingBid>,
    flushed: multiset<PendingBid>,
    evicted: multiset<PendingBid>,
    expired: multiset<PendingBid>,
    forgotten: multiset<PendingBid>,
    emitted: nat,
    calls: nat)

  predicate IsValidCall(op: Op, policy: PolicyConfig) {
    op.ObserveOp? && IsCall(op.tx, policy)
  }

  function Enter(l: Ledger, e: Effect, call: bool): Ledger {
    Ledger(l.parked + multiset(e.parked),
           l.flushed + multiset(e.flushed),
           l.evicted + multiset(e.evicted),
           l.expired + multiset(e.expired),
           l.forgotten + multiset(e.forgotten),
           l.emitted + |e.res.reinjections|,
           l.calls + (if call then 1 else 0))
  }

  function Tally(s: Pool, ops: seq<Op>): Ledger {
    if ops == [] then Ledger(multiset{}, multiset{}, multiset{}, multiset{}, multiset{}, 0, 0)
    else
      var op := ops[|ops| - 1];
      var before := After(s, ops[..|ops| - 1]);
      Enter(Tally(s, ops[..|ops| - 1]), Apply(before, op), IsValidCall(op, s.cfg.policy))
  }

  lemma BagBalance<T>(p: multiset<T>, a: multiset<T>, f: multiset<T>, v: multiset<T>, x: multiset<T>, g: multiset<T>,
                      dp: multiset<T>, a': multiset<T>, df: multiset<T>, dv: multiset<T>, dx: multiset<T>,
                      dg: multiset<T>)
    requires p == f + v + x + g + a
    requires a + dp == a' + df + dv + dx + dg
    ensures p + dp == (f + df) + (v + dv) + (x + dx) + (g + dg) + a'
  {
    calc {
      p + dp;
      (f + v + x + g) + (a + dp);
      (f + v + x + g) + (a' + df + dv + dx + dg);
      (f + df) + (v + dv) + (x + dx) + (g + dg) + a';
    }
  }

  /** Every bid ever parked was flushed by its target, evicted, expired, forgotten, or is still parked. */
  lemma {:induction false} ParkedBidsAreConserved(cfg: Config, ops: seq<Op>)
    ensures var l, s := Tally(Init(cfg), ops), After(Init(cfg), ops);
            l.parked == l.flushed + l.evicted + l.expired + l.forgotten + AllParked(s.pending)
  {
    if ops != [] {
      var most := ops[..|ops| - 1];
      var l, s := Tally(Init(cfg), most), After(Init(cfg), most);
      var e := Apply(s, ops[|ops| - 1]);
      ParkedBidsAreConserved(cfg, most);
      ReachableInv(cfg, most);
      ApplyKeepsInv(s, ops[|ops| - 1]);
      BagBalance(l.parked, AllParked(s.pending), l.flushed, l.evicted, l.expired, l.forgotten,
                 multiset(e.parked), AllParked(e.pool.pending),
                 multiset(e.flushed), multiset(e.evicted), multiset(e.expired), multiset(e.forgotten));
    }
  }

  /** Each step pays for its reinjections with a valid call or with bids it unparks. */
  lemma StepAmplification(s: Pool, op: Op)
    requires Inv(s)
    ensures var e := Apply(s, op);
            |e.res.reinjections| + 2 * e.pool.pendingCount
            <= 2 * s.pendingCount + (if IsValidCall(op, s.cfg.policy) then 2 else 0)
  {
    match op
    case PruneOp(now) =>
      PruneCacheKeeps(s, now);
      PrunePendingKeeps(PruneCache(s, now), now);
    case ForgetOp(h, hit) =>
    case ObserveOp(h, tx, now) =>
      InsertCacheKeeps(s, h, tx, now);
      var s1 := InsertCache(s, h, tx, now);
      match Classify(tx, s.cfg.policy)
      case TopOfBlock =>
      case InvalidGateway =>
      case Vanilla =>
      case Backrun(target) => BidAmplification(s1, h, tx, target, now);
  }

  lemma BidAmplification(s: Pool, h: Hash, tx: Tx, target: Hash, now: nat)
    requires Rep(s)
    ensures var e := ObserveBid(s, h, tx, target, now);
            |e.res.reinjections| + 2 * e.pool.pendingCount <= 2 * s.pendingCount + 2
  {
    if target !in s.cache {
      var bid := PendingBid(h, tx, ComputePriority(tx, s.cfg.policy), target, now);
      StoreBidKeeps(s, bid);
      EvictPendingKeeps(StoreBid(s, bid));
    }
  }

  /** Over any run the pool emits at most two reinjections per valid gateway call it observed. */
  lemma {:induction false} BoundedAmplification(cfg: Config, ops: seq<Op>)
    ensures var l, s := Tally(Init(cfg), ops), After(Init(cfg), ops);
            l.emitted + 2 * s.pendingCount <= 2 * l.calls
  {
    if ops != [] {
      var most := ops[..|ops| - 1];
      BoundedAmplification(cfg, most);
      ReachableInv(cfg, most);
      StepAmplification(After(Init(cfg), most), ops[|ops| - 1]);
    }
  }

  // ----- one opportunity per residency -----

  predicate Emits(s: Pool, op: Op, target: Hash) {
    exists i :: 0 <= i < |Apply(s, op).res.reinjections|
             && Apply(s, op).res.reinjections[i].role == AsOpportunity
             && Apply(s, op).res.reinjections[i].hash == target
  }

  lemma AfterStep(s: Pool, ops: seq<Op>, k: nat)
    requires k < |ops|
    ensures After(s, ops[..k + 1]) == Apply(After(s, ops[..k]), ops[k]).pool
  {
    assert ops[..k + 1][..k] == ops[..k];
  }

  lemma VanillaEmission(s: Pool, h: Hash, i: nat)
    requires i < |ObserveVanilla(s, h).res.reinjections|
    requires ObserveVanilla(s, h).res.reinjections[i].role == AsOpportunity
    ensures ObserveVanilla(s, h).res.reinjections[i].hash == h
    ensures h !in s.streamed && h in s.cache && h in ObserveVanilla(s, h).pool.streamed
  {
  }

  lemma BidEmission(s: Pool, h: Hash, tx: Tx, target: Hash, now: nat, i: nat)
    requires i < |ObserveBid(s, h, tx, target, now).res.reinjections|
    requires ObserveBid(s, h, tx, target, now).res.reinjections[i].role == AsOpportunity
    ensures ObserveBid(s, h, tx, target, now).res.reinjections[i].hash == target
    ensures target !in s.streamed && target in s.cache && target in ObserveBid(s, h, tx, target, now).pool.streamed
  {
  }

  lemma EmissionMarks(s: Pool, op: Op, target: Hash)
    requires Inv(s) && Emits(s, op, target)
    ensures target !in s.streamed && target in Apply(s, op).pool.streamed
  {
    InsertCacheKeeps(s, op.hash, op.tx, op.now);
    var s1 := InsertCache(s, op.hash, op.tx, op.now);
    var i :| 0 <= i < |Apply(s, op).res.reinjections|
          && Apply(s, op).res.reinjections[i].role == AsOpportunity
          && Apply(s, op).res.reinjections[i].hash == target;
    match Classify(op.tx, s.cfg.policy)
    case Backrun(t) => BidEmission(s1, op.hash, op.tx, t, op.now, i);
    case Vanilla => VanillaEmission(s1, op.hash, i);
    case _ =>
  }

  lemma StreamedWhileCached(s: Pool, op: Op, target: Hash)
    requires Inv(s) && target in s.streamed && target in Apply(s, op).pool.cache
    ensures target in Apply(s, op).pool.streamed
  {
    match op
    case ForgetOp(h, hit) =>
    case PruneOp(now) =>
      PruneCacheKeeps(s, now);
      PrunePendingKeeps(PruneCache(s, now), now);
    case ObserveOp(h, tx, now) =>
      InsertCacheKeeps(s, h, tx, now);
      var s1 := InsertCache(s, h, tx, now);
      match Classify(tx, s.cfg.policy)
      case TopOfBlock =>
      case InvalidGateway =>
      case Vanilla =>
      case Backrun(t) => ObserveBidFrame(s1, h, tx, t, now);
  }

  lemma ObserveBidFrame(s: Pool, h: Hash, tx: Tx, target: Hash, now: nat)
    requires Rep(s)
    ensures var e := ObserveBid(s, h, tx, target, now);
            e.pool.cache == s.cache && s.streamed <= e.pool.streamed <= s.streamed + {target}
  {
    if target !in s.cache {
      PushPendingKeeps(s, PendingBid(h, tx, ComputePriority(tx, s.cfg.policy), target, now));
    }
  }

  /** Two opportunity emissions for one target are separated by a state in which it is not cached. */
  lemma OpportunityOncePerResidency(cfg: Config, ops: seq<Op>, i: nat, j: nat, target: Hash)
    requires i < j < |ops|
    requires Emits(After(Init(cfg), ops[..i]), ops[i], target)
    requires Emits(After(Init(cfg), ops[..j]), ops[j], target)
    ensures exists k :: i < k <= j && target !in After(Init(cfg), ops[..k]).cache
  {
    ReachableInv(cfg, ops[..i]);
    EmissionMarks(After(Init(cfg), ops[..i]), ops[i], target);
    AfterStep(Init(cfg), ops, i);
    if forall k :: i < k <= j ==> target in After(Init(cfg), ops[..k]).cache {
      StillStreamed(cfg, ops, i + 1, j, target);
      ReachableInv(cfg, ops[..j]);
      EmissionMarks(After(Init(cfg), ops[..j]), ops[j], target);
      assert false;
    }
  }

  lemma {:induction false} StillStreamed(cfg: Config, ops: seq<Op>, i: nat, j: nat, target: Hash)
    requires i <= j <= |ops|
    requires target in After(Init(cfg), ops[..i]).streamed
    requires forall k :: i < k <= j ==> target in After(Init(cfg), ops[..k]).cache
    ensures target in After(Init(cfg), ops[..j]).streamed
    decreases j
  {
    if i < j {
      StillStreamed(cfg, ops, i, j - 1, target);
      ReachableInv(cfg, ops[..j - 1]);
      AfterStep(Init(cfg), ops, j - 1);
      StreamedWhileCached(After(Init(cfg), ops[..j - 1]), ops[j - 1], target);
    }
  }

  // ----- pruning -----

  /** `k` is cached and its time to live is not over. */
  ghost predicate Young(s: Pool, k: Hash, now: nat) {
    k in s.cache && s.cfg.ttl > 0 && now < s.cache[k].seenAt + s.cfg.ttl
  }

  lemma YoungIsNotExpired(s: Pool, k: Hash, now: nat)
    requires k in s.cache
    ensures Young(s, k, now) <==> !CacheExpired(s, k, now)
  {
    AgeBelow(now, s.cache[k].seenAt, s.cfg.ttl);
  }

  /** A young slot stands in the queue before every slot of `k`. */
  ghost predicate Shielded(s: Pool, k: Hash, now: nat) {
    exists j :: 0 <= j < |s.cacheOrder|
             && Young(s, s.cacheOrder[j], now) && forall i :: 0 <= i <= j ==> s.cacheOrder[i] != k
  }

  /** Exactly which cached transactions survive a prune: the unexpired ones, and the expired ones that an
      unexpired one shields because the scan stops there. */
  lemma {:induction false} PruneCacheExact(s: Pool, now: nat, k: Hash)
    requires Rep(s) && k in s.cache
    ensures k in PruneCache(s, now).cache
            <==> (s.cfg.ttl > 0 && now < s.cache[k].seenAt + s.cfg.ttl) || Shielded(s, k, now)
    decreases |s.cacheOrder|
  {
    assert k in s.cacheOrder;
    var front := s.cacheOrder[0];
    YoungIsNotExpired(s, k, now);
    if front in s.cache {
      YoungIsNotExpired(s, front, now);
    }
    if front in s.cache && !CacheExpired(s, front, now) {
      if k != front {
        assert Shielded(s, k, now);
      }
    } else {
      var s1 := PopCacheSlot(s);
      PopCacheStep(s);
      if k == front {
        PruneCacheKeeps(s1, now);
      } else {
        PruneCacheExact(s1, now, k);
        ShieldedAfterPop(s, k, now);
      }
    }
  }

  lemma ShieldedAfterPop(s: Pool, k: Hash, now: nat)
    requires s.cacheOrder != [] && s.cacheOrder[0] != k
    requires !Young(s, s.cacheOrder[0], now)
    ensures Shielded(PopCacheSlot(s), k, now) <==> Shielded(s, k, now)
  {
  }

  /** A prune expires no bid younger than the time to live. */
  lemma {:induction false} PruneExpiresOnlyOld(s: Pool, now: nat)
    ensures forall b :: b in PrunePending(s, now).1 ==> s.cfg.ttl == 0 || b.seenAt + s.cfg.ttl <= now
    decreases |s.pendingOrder|
  {
    if s.pendingOrder != [] && !FrontBidWaits(s, now) {
      if SlotLive(s, s.pendingOrder[0]) {
        AgeBelow(now, SlotBid(s, s.pendingOrder[0]).seenAt, s.cfg.ttl);
      }
      PruneExpiresOnlyOld(PopPendingSlot(s).0, now);
    }
  }

  // ----- capacity eviction -----

  /** A stale slot of `h` stands before the slot of every cached transaction, and the cache is full. */
  ghost predicate SelfEvicts(s: Pool, h: Hash) {
    && h !in s.cache
    && |s.cache| >= s.cfg.maxCache
    && exists j :: 0 <= j < |s.cacheOrder| && s.cacheOrder[j] == h
          && forall i :: 0 <= i < j ==> s.cacheOrder[i] !in s.cache
  }

  /** `h` has the first slot that stands for a cached transaction. */
  ghost predicate LeadsQueue(s: Pool, h: Hash) {
    exists j :: 0 <= j < |s.cacheOrder| && s.cacheOrder[j] == h
          && forall i :: 0 <= i < j ==> s.cacheOrder[i] !in s.cache
  }

  lemma {:induction false} EvictOneExact(s: Pool, h: Hash)
    requires Rep(s) && h in s.cache && |s.cache| == s.cfg.maxCache + 1
    ensures h in EvictCache(s).cache <==> !LeadsQueue(s, h)
    decreases |s.cacheOrder|
  {
    CacheQueueNotEmpty(s);
    var front := s.cacheOrder[0];
    var s1 := PopCacheSlot(s);
    PopCacheStep(s);
    PopCacheCard(s);
    if front in s.cache {
      assert EvictCache(s) == s1;
      LeadsFront(s, h);
    } else {
      EvictOneExact(s1, h);
      LeadsAfterPop(s, h);
    }
  }

  lemma LeadsFront(s: Pool, h: Hash)
    requires s.cacheOrder != [] && s.cacheOrder[0] in s.cache
    ensures LeadsQueue(s, h) <==> s.cacheOrder[0] == h
  {
  }

  lemma LeadsAfterPop(s: Pool, h: Hash)
    requires s.cacheOrder != [] && s.cacheOrder[0] !in s.cache && h in s.cache
    ensures LeadsQueue(PopCacheSlot(s), h) <==> LeadsQueue(s, h)
  {
  }

  lemma StoredCard(s: Pool, h: Hash, tx: Tx, now: nat)
    ensures |StoreCached(s, h, tx, now).cache| == |s.cache| + (if h in s.cache then 0 else 1)
  {
  }

  /** Caching a transaction evicts that very transaction exactly when a stale slot of its hash leads the queue. */
  lemma InsertSurvives(s: Pool, h: Hash, tx: Tx, now: nat)
    requires Inv(s)
    ensures h in InsertCache(s, h, tx, now).cache <==> !SelfEvicts(s, h)
  {
    var s1 := StoreCached(s, h, tx, now);
    StoredCard(s, h, tx, now);
    if |s1.cache| == s.cfg.maxCache + 1 {
      assert Rep(s1) by {
        InsertCacheKeeps(s, h, tx, now);
      }
      EvictOneExact(s1, h);
      StaleLeads(s, h, tx, now);
      LeaderIsStale(s, h, tx, now);
    } else {
      assert InsertCache(s, h, tx, now) == s1;
    }
  }

  lemma StaleLeads(s: Pool, h: Hash, tx: Tx, now: nat)
    ensures SelfEvicts(s, h) ==> LeadsQueue(StoreCached(s, h, tx, now), h)
  {
    if SelfEvicts(s, h) {
      var j :| 0 <= j < |s.cacheOrder| && s.cacheOrder[j] == h
          && forall i :: 0 <= i < j ==> s.cacheOrder[i] !in s.cache;
      FirstOf(s.cacheOrder, h, j, s.cache.Keys);
      var m :| 0 <= m <= j && s.cacheOrder[m] == h
          && forall i :: 0 <= i < m ==> s.cacheOrder[i] !in s.cache.Keys && s.cacheOrder[i] != h;
      var s1 := StoreCached(s, h, tx, now);
      assert forall i :: 0 <= i <= m ==> s1.cacheOrder[i] == s.cacheOrder[i];
      assert s1.cacheOrder[m] == h;
    }
  }

  lemma LeaderIsStale(s: Pool, h: Hash, tx: Tx, now: nat)
    requires Rep(s) && h !in s.cache && |s.cache| >= s.cfg.maxCache
    ensures LeadsQueue(StoreCached(s, h, tx, now), h) ==> SelfEvicts(s, h)
  {
    var s1 := StoreCached(s, h, tx, now);
    var n := |s.cacheOrder|;
    assert forall i :: 0 <= i < n ==> s1.cacheOrder[i] == s.cacheOrder[i];
    if LeadsQueue(s1, h) {
      var j :| 0 <= j < |s1.cacheOrder| && s1.cacheOrder[j] == h
          && forall i :: 0 <= i < j ==> s1.cacheOrder[i] !in s1.cache;
      SomeLiveSlot(s);
      var i :| 0 <= i < n && s.cacheOrder[i] in s.cache;
      assert s1.cacheOrder[i] in s1.cache;
      assert s.cacheOrder[j] == h;
      forall i | 0 <= i < j
        ensures s.cacheOrder[i] !in s.cache
      {
        assert s1.cacheOrder[i] !in s1.cache;
      }
    }
  }

  lemma SomeLiveSlot(s: Pool)
    requires Rep(s) && |s.cache| > 0
    ensures exists i :: 0 <= i < |s.cacheOrder| && s.cacheOrder[i] in s.cache
  {
  }

  lemma {:induction false} FirstOf(xs: seq<Hash>, h: Hash, j: nat, live: set<Hash>)
    requires j < |xs| && xs[j] == h
    requires forall i :: 0 <= i < j ==> xs[i] !in live
    ensures exists m :: 0 <= m <= j && xs[m] == h && forall i :: 0 <= i < m ==> xs[i] !in live && xs[i] != h
  {
    if k :| 0 <= k < j && xs[k] == h {
      FirstOf(xs, h, k, live);
    }
  }

  /** A vanilla transaction with bids waiting streams them; it streams itself first exactly when it survives
      its own insertion. */
  lemma FlushLeadsWithTarget(s: Pool, h: Hash, tx: Tx, now: nat)
    requires Inv(s) && h in s.pending && h !in s.streamed && Classify(tx, s.cfg.policy).Vanilla?
    ensures var rs := Observe(s, h, tx, now).res.reinjections;
            && rs == (if SelfEvicts(s, h) then [] else [OpportunityFor(h, tx)]) + BidsFor(h, s.pending[h])
            && ((rs[0] == OpportunityFor(h, tx)) <==> !SelfEvicts(s, h))
  {
    InsertCacheKeeps(s, h, tx, now);
    InsertSurvives(s, h, tx, now);
    InsertKeepsInvBut(s, h, tx, now);
    assert BidsFor(h, s.pending[h])[0].role == AsBackrun(h);
  }

  /** Right after a prune no insertion can evict itself: the queue then starts with a cached transaction. */
  lemma NoSelfEvictionAfterPrune(s: Pool, now: nat, h: Hash)
    requires Inv(s)
    ensures !SelfEvicts(Prune(s, now).pool, h)
  {
    PruneCacheKeeps(s, now);
    PrunePendingKeeps(PruneCache(s, now), now);
    var s' := Prune(s, now).pool;
    assert s'.cacheOrder != [] ==> s'.cacheOrder[0] in s'.cache;
  }

  // ----- forgetting -----

  lemma FilterRemoved(v: seq<PendingBid>, p: nat, keep: PendingBid -> bool)
    requires p < |v| && !keep(v[p])
    ensures Filter(RemoveAt(v, p), keep) == Filter(v, keep)
  {
    FilterConcat(v[..p], v[p + 1..], keep);
    FilterConcat(v[..p], v[p..], keep);
    FilterDrop(v[p..], keep);
    assert v == v[..p] + v[p..];
  }

  /** Forgetting `h` removes it as a cached, streamed and awaited target, and takes no other bid: under every other
      target what is not a bid with hash `h` stays, in order, and under the hit the first bid with hash `h` goes. */
  lemma ForgetFramed(s: Pool, h: Hash, hit: Hash)
    ensures var s' := Forget(s, h, hit).pool;
            && s'.cache == s.cache - {h}
            && s'.streamed == s.streamed - {h}
            && h !in s'.pending
            && s'.cacheOrder == s.cacheOrder && s'.pendingOrder == s.pendingOrder
            && (forall t :: t != h ==>
                  Filter(Parked(s'.pending, t), NotBid(h)) == Filter(Parked(s.pending, t), NotBid(h)))
            && (forall t :: t != h && t != hit ==> Parked(s'.pending, t) == Parked(s.pending, t))
    ensures var v, v' := Parked(s.pending, hit), Parked(Forget(s, h, hit).pool.pending, hit);
            hit != h ==>
              && ((forall i :: 0 <= i < |v| ==> v[i].hash != h) ==> v' == v)
              && (forall p :: 0 <= p < |v| && v[p].hash == h && (forall i :: 0 <= i < p ==> v[i].hash != h) ==>
                    v' == v[..p] + v[p + 1..])
  {
    ForgetTakesFirst(s, h, hit);
    forall t | t != h
      ensures Filter(Parked(Forget(s, h, hit).pool.pending, t), NotBid(h)) == Filter(Parked(s.pending, t), NotBid(h))
    {
      ForgetKeepsOthers(s, h, hit, t);
    }
  }

  lemma ForgetTakesFirst(s: Pool, h: Hash, hit: Hash)
    ensures var v, v' := Parked(s.pending, hit), Parked(Forget(s, h, hit).pool.pending, hit);
            hit != h ==>
              && ((forall i :: 0 <= i < |v| ==> v[i].hash != h) ==> v' == v)
              && (forall p :: 0 <= p < |v| && v[p].hash == h && (forall i :: 0 <= i < p ==> v[i].hash != h) ==>
                    v' == v[..p] + v[p + 1..])
  {
    var v := Parked(s.pending, hit);
    forall p | 0 <= p < |v| && v[p].hash == h && forall i :: 0 <= i < p ==> v[i].hash != h
      ensures Position(v, h) == p
    {
    }
  }

  lemma ForgetKeepsOthers(s: Pool, h: Hash, hit: Hash, t: Hash)
    requires t != h
    ensures Filter(Parked(Forget(s, h, hit).pool.pending, t), NotBid(h)) == Filter(Parked(s.pending, t), NotBid(h))
  {
    var v := Parked(s.pending, t);
    if t == hit && Has(v, h) {
      FilterRemoved(v, Position(v, h), NotBid(h));
    }
  }

  /** At most one bid with hash `h` is parked under targets other than `h`. */
  ghost predicate ParkedOnce(s: Pool, h: Hash) {
    && (forall t :: t != h ==> CountOf(Parked(s.pending, t), h) <= 1)
    && (forall t, t' :: t != h && t' != h && Has(Parked(s.pending, t), h) && Has(Parked(s.pending, t'), h) ==> t == t')
  }

  ghost predicate ParkedNowhere(s: Pool, h: Hash) {
    forall t :: !Has(Parked(s.pending, t), h)
  }

  lemma ForgetUnder(s: Pool, h: Hash, hit: Hash, t: Hash)
    requires Inv(s)
    ensures Has(Parked(Forget(s, h, hit).pool.pending, t), h)
            <==> t != h && CountOf(Parked(s.pending, t), h) > (if t == hit then 1 else 0)
  {
    var s1 := ForgetKeys(s, h);
    CountHas(Parked(Forget(s, h, hit).pool.pending, t), h);
    CountHas(Parked(s1.pending, t), h);
    CountHas(Parked(s1.pending, hit), h);
    if Has(Parked(s1.pending, hit), h) {
      RemoveBidCounts(s1, hit, h, t, h);
    }
    assert t != h ==> Parked(s1.pending, t) == Parked(s.pending, t);
  }

  lemma HitWhenParked(s: Pool, h: Hash, hit: Hash, t: Hash)
    requires ScanHit(ForgetKeys(s, h), h, hit) && t != h && Has(Parked(s.pending, t), h)
    ensures hit != h && Has(Parked(s.pending, hit), h)
  {
    var s1 := ForgetKeys(s, h);
    assert t in s1.pending && Has(s1.pending[t], h);
  }

  /** The scan stops at its first hit: whatever order it takes, no bid with the forgotten hash stays parked exactly
      when there was at most one. */
  lemma ForgetComplete(s: Pool, h: Hash, hit: Hash)
    requires Inv(s) && ScanHit(ForgetKeys(s, h), h, hit)
    ensures ParkedNowhere(Forget(s, h, hit).pool, h) <==> ParkedOnce(s, h)
  {
    if ParkedOnce(s, h) {
      forall t
        ensures !Has(Parked(Forget(s, h, hit).pool.pending, t), h)
      {
        ForgetUnder(s, h, hit, t);
        CountHas(Parked(s.pending, t), h);
        if t != h && Has(Parked(s.pending, t), h) {
          HitWhenParked(s, h, hit, t);
        }
      }
    }
    if ParkedNowhere(Forget(s, h, hit).pool, h) {
      NowhereMeansOnce(s, h, hit);
    }
  }

  lemma NowhereMeansOnce(s: Pool, h: Hash, hit: Hash)
    requires Inv(s) && ParkedNowhere(Forget(s, h, hit).pool, h)
    ensures ParkedOnce(s, h)
  {
    forall t | t != h
      ensures CountOf(Parked(s.pending, t), h) <= 1
      ensures Has(Parked(s.pending, t), h) ==> t == hit
    {
      ForgetUnder(s, h, hit, t);
      CountHas(Parked(s.pending, t), h);
    }
  }
}
