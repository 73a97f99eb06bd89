/** Operation by operation and run by run: the pool answers exactly as the naive reference does. */
module RefinementRuns {
  import opened Base
  import opened Bits
  import opened Policy
  import opened PoolSpec
  import opened NaivePool
  import opened Refinement
  import opened PoolInvariant

  // ----- observing -----

  lemma StoreSeen(s: Pool, seen: seq<Entry>, h: Hash, tx: Tx, now: nat)
    requires SeenRep(s.cacheOrder, s.cache, seen) && h !in s.cacheOrder
    ensures h !in s.cache
    ensures var s1 := StoreCached(s, h, tx, now);
            SeenRep(s1.cacheOrder, s1.cache, seen + [Entry(h, tx, now)])
  {
    if h in Hashes(seen) {
      SubMember(s.cacheOrder, Hashes(seen), h);
    }
    var e := Entry(h, tx, now);
    HashesConcat(seen, [e]);
    assert Hashes([e]) == [h];
    SubAppend(s.cacheOrder, Hashes(seen), h);
    HashesAt(seen);
    forall x | x in seen + [e]
      ensures x == e || (x in seen && x.hash != h)
    {
      if x in seen {
        var i :| 0 <= i < |seen| && seen[i] == x;
        assert Hashes(seen)[i] == x.hash;
      }
    }
  }

  lemma NewestEntriesInOrder(seen: seq<Entry>, e: Entry, n: nat, clock: nat)
    requires EntriesInOrder(seen, clock) && clock <= e.seenAt
    ensures EntriesInOrder(Newest(seen + [e], n), e.seenAt)
  {
  }

  lemma NewestBidsInOrder(waiting: seq<PendingBid>, b: PendingBid, n: nat, clock: nat)
    requires BidsInOrder(waiting, clock) && clock <= b.seenAt
    ensures BidsInOrder(Newest(waiting + [b], n), b.seenAt)
  {
  }

  lemma OfferedIsStreamed(s: Pool, seen: seq<Entry>, n: Naive, streamed: set<Hash>)
    requires SeenRep(s.cacheOrder, s.cache, seen)
    requires n.offered == streamed && s.streamed == streamed * s.cache.Keys
    ensures WithSeen(n, seen).offered == s.streamed
  {
  }

  lemma SeeRefines(s: Pool, n: Naive, h: Hash, tx: Tx, now: nat, clock: nat)
    requires Refines(s, n, clock) && Unqueued(s, h) && clock <= now
    ensures Refines(InsertCache(s, h, tx, now), See(n, h, tx, now), now)
    ensures InsertCache(s, h, tx, now).pendingOrder == s.pendingOrder
  {
    var s1 := StoreCached(s, h, tx, now);
    var e := Entry(h, tx, now);
    StoreSeen(s, n.seen, h, tx, now);
    EvictCacheRefines(s1, n.seen + [e]);
    EvictOnlyCache(s1);
    NewestEntriesInOrder(n.seen, e, n.cfg.maxCache, clock);
    OfferedIsStreamed(InsertCache(s, h, tx, now), Newest(n.seen + [e], n.cfg.maxCache), n, s.streamed);
  }

  lemma {:induction false} TxOfSeen(seen: seq<Entry>, h: Hash, cache: map<Hash, CachedTx>)
    requires h in Hashes(seen)
    requires forall e :: e in seen ==> e.hash in cache && cache[e.hash] == CachedTx(e.tx, e.seenAt)
    ensures h in cache && TxOf(seen, h) == cache[h].tx
  {
    assert seen[0] in seen;
    if seen[0].hash != h {
      TxOfSeen(seen[1..], h, cache);
    }
  }

  lemma WorthIsScore(tx: Tx, policy: PolicyConfig)
    ensures ComputePriority(tx, policy) == Worth(tx, policy)
  {
    ScoreIsTotalValue(tx, policy);
  }

  lemma TobAgrees(cfg: Config, h: Hash, tx: Tx)
    ensures TobFor(cfg, h, tx) == Reinjection(h, tx, TobWord(Worth(tx, cfg.policy), cfg.fallback), AsTob)
  {
    WorthIsScore(tx, cfg.policy);
  }

  lemma WordsAgree(target: Hash, worth: U256)
    ensures EncodeOpportunity(target) == TargetWord(target) && EncodeBackrunBid(target, worth) == BidWord(target, worth)
  {
    ModUnique(target, P130, BackrunId(target), target - BackrunId(target) * P130);
  }

  lemma {:induction false} BidsAgree(target: Hash, bids: seq<PendingBid>)
    ensures BidsFor(target, bids) == BidOffers(target, bids)
  {
    if bids != [] {
      WordsAgree(target, bids[0].scalar);
      BidsAgree(target, bids[1..]);
    }
  }

  lemma OfferRefines(s: Pool, n: Naive, target: Hash, clock: nat)
    requires Refines(s, n, clock)
    ensures Refines(EmitOpportunityOnce(s, target).0, Offer(n, target).0, clock)
    ensures EmitOpportunityOnce(s, target).1 == Offer(n, target).1
    ensures Offer(n, target).0.seen == n.seen && Offer(n, target).0.waiting == n.waiting
  {
    WordsAgree(target, 0);
    if target in Hashes(n.seen) {
      TxOfSeen(n.seen, target, s.cache);
    }
  }

  lemma StoreWaiting(s: Pool, waiting: seq<PendingBid>, bid: PendingBid)
    requires WaitRep(s.pendingOrder, s.pending, s.pendingCount, waiting)
    requires forall i :: 0 <= i < |s.pendingOrder| ==> s.pendingOrder[i].bid != bid.hash
    ensures var s1 := StoreBid(s, bid);
            WaitRep(s1.pendingOrder, s1.pending, s1.pendingCount, waiting + [bid])
  {
    var s1 := StoreBid(s, bid);
    SlotsConcat(waiting, [bid]);
    assert Slots([bid]) == [Slot(bid.target, bid.hash)];
    SubAppend(s.pendingOrder, Slots(waiting), Slot(bid.target, bid.hash));
    forall t
      ensures Parked(s1.pending, t) == Filter(waiting + [bid], For(t))
    {
      FilterConcat(waiting, [bid], For(t));
      assert Parked(s.pending, t) == Filter(waiting, For(t));
      if t == bid.target {
        FilterAll([bid], For(t));
      } else {
        FilterNone([bid], For(t));
      }
    }
  }

  lemma ParkRefines(s: Pool, n: Naive, bid: PendingBid, clock: nat)
    requires Refines(s, n, clock) && clock <= bid.seenAt
    requires forall i :: 0 <= i < |s.pendingOrder| ==> s.pendingOrder[i].bid != bid.hash
    ensures var (s', evicted) := PushPending(s, bid);
            var kept := Newest(n.waiting + [bid], n.cfg.maxPending);
            && Refines(s', n.(waiting := kept), bid.seenAt)
            && |evicted| == |n.waiting| + 1 - |kept|
  {
    StoreWaiting(s, n.waiting, bid);
    EvictPendingRefines(StoreBid(s, bid), n.waiting + [bid]);
    NewestBidsInOrder(n.waiting, bid, n.cfg.maxPending, clock);
  }

  lemma {:induction false} FilterSplit(waiting: seq<PendingBid>, h: Hash)
    ensures |Filter(waiting, For(h))| + |Filter(waiting, NotFor(h))| == |waiting|
  {
    if waiting != [] {
      FilterSplit(waiting[1..], h);
    }
  }

  lemma {:induction false} FilterBidsInOrder(waiting: seq<PendingBid>, keep: PendingBid -> bool, clock: nat)
    requires BidsInOrder(waiting, clock)
    ensures BidsInOrder(Filter(waiting, keep), clock)
  {
    if waiting != [] {
      FilterBidsInOrder(waiting[1..], keep, clock);
      var rest := Filter(waiting[1..], keep);
      if keep(waiting[0]) {
        forall i | 0 <= i < |rest|
          ensures waiting[0].seenAt <= rest[i].seenAt
        {
          FilterMembers(waiting[1..], keep, rest[i]);
        }
        assert Filter(waiting, keep) == [waiting[0]] + rest;
      } else {
        FilterDrop(waiting, keep);
      }
    }
  }

  lemma {:induction false} FilterEntriesInOrder(seen: seq<Entry>, keep: Entry -> bool, clock: nat)
    requires EntriesInOrder(seen, clock)
    ensures EntriesInOrder(Filter(seen, keep), clock)
  {
    if seen != [] {
      FilterEntriesInOrder(seen[1..], keep, clock);
      var rest := Filter(seen[1..], keep);
      if keep(seen[0]) {
        forall i | 0 <= i < |rest|
          ensures seen[0].seenAt <= rest[i].seenAt
        {
          FilterMembers(seen[1..], keep, rest[i]);
        }
        assert Filter(seen, keep) == [seen[0]] + rest;
      } else {
        FilterDrop(seen, keep);
      }
    }
  }

  lemma SubFilteredSlots(order: seq<Slot>, waiting: seq<PendingBid>, keep: PendingBid -> bool)
    requires Sub(order, Slots(waiting)) && BidsDistinct(order)
    ensures Sub(order, Slots(Filter(waiting, keep)))
  {
    WaitingDistinct(order, waiting);
    SlotsFilter(waiting, keep);
    SubTrans(order, Slots(waiting), Slots(Filter(waiting, keep)));
  }

  /** Dropping what waits on `h` from the map is filtering it out of the list. */
  lemma DropWaiting(s: Pool, waiting: seq<PendingBid>, h: Hash)
    requires WaitRep(s.pendingOrder, s.pending, s.pendingCount, waiting)
    ensures WaitRep(s.pendingOrder, s.pending - {h}, s.pendingCount - |Parked(s.pending, h)|,
                    Filter(waiting, NotFor(h)))
  {
    SubFilteredSlots(s.pendingOrder, waiting, NotFor(h));
    FilterSplit(waiting, h);
    forall t
      ensures Parked(s.pending - {h}, t) == Filter(Filter(waiting, NotFor(h)), For(t))
    {
      assert Parked(s.pending, t) == Filter(waiting, For(t));
      if t == h {
        forall b | b in Filter(waiting, NotFor(h))
          ensures !For(t)(b)
        {
          FilterMembers(waiting, NotFor(h), b);
        }
        FilterNone(Filter(waiting, NotFor(h)), For(t));
      } else {
        FilterTwice(waiting, NotFor(h), For(t), For(t));
      }
    }
  }

  lemma FlushRefines(s: Pool, n: Naive, h: Hash, clock: nat)
    requires Refines(s, n, clock)
    ensures Refines(s.(pending := s.pending - {h}, pendingCount := s.pendingCount - |Parked(s.pending, h)|),
                    n.(waiting := Filter(n.waiting, NotFor(h))), clock)
  {
    DropWaiting(s, n.waiting, h);
    FilterBidsInOrder(n.waiting, NotFor(h), clock);
    FilterLength(n.waiting, NotFor(h));
  }

  lemma ObserveBidRefines(s: Pool, n: Naive, h: Hash, tx: Tx, target: Hash, now: nat)
    requires Refines(s, n, now)
    requires forall i :: 0 <= i < |s.pendingOrder| ==> s.pendingOrder[i].bid != h
    ensures var e := ObserveBid(s, h, tx, target, now);
            Refines(e.pool, NaiveBid(n, h, tx, target, now).0, now) && e.res == NaiveBid(n, h, tx, target, now).1
  {
    WorthIsScore(tx, n.cfg.policy);
    if target in s.cache {
      OfferRefines(s, n, target, now);
      WordsAgree(target, Worth(tx, n.cfg.policy));
    } else {
      ParkRefines(s, n, PendingBid(h, tx, Worth(tx, n.cfg.policy), target, now), now);
    }
  }

  lemma ObserveVanillaRefines(s: Pool, n: Naive, h: Hash, clock: nat)
    requires Refines(s, n, clock)
    ensures Refines(ObserveVanilla(s, h).pool, NaiveTarget(n, h).0, clock)
    ensures ObserveVanilla(s, h).res == NaiveTarget(n, h).1
  {
    assert Parked(s.pending, h) == Filter(n.waiting, For(h));
    if h in s.pending {
      FlushRefines(s, n, h, clock);
      OfferRefines(s.(pending := s.pending - {h}, pendingCount := s.pendingCount - |Parked(s.pending, h)|),
                   n.(waiting := Filter(n.waiting, NotFor(h))), h, clock);
      BidsAgree(h, s.pending[h]);
    }
  }

  lemma ObserveRefines(s: Pool, n: Naive, h: Hash, tx: Tx, now: nat, clock: nat)
    requires Refines(s, n, clock) && Unqueued(s, h) && clock <= now
    ensures Refines(Observe(s, h, tx, now).pool, NaiveObserve(n, h, tx, now).0, now)
    ensures Observe(s, h, tx, now).res == NaiveObserve(n, h, tx, now).1
  {
    SeeRefines(s, n, h, tx, now, clock);
    var s1 := InsertCache(s, h, tx, now);
    var n1 := See(n, h, tx, now);
    CaseBranches(s, n, h, tx, now);
    match Classify(tx, n.cfg.policy)
    case TopOfBlock =>
    case InvalidGateway =>
    case Backrun(target) => ObserveBidRefines(s1, n1, h, tx, target, now);
    case Vanilla => ObserveVanillaRefines(s1, n1, h, now);
  }

  /** Pool and reference branch alike once the transaction is cached and seen. */
  lemma CaseBranches(s0: Pool, n0: Naive, h: Hash, tx: Tx, now: nat)
    requires s0.cfg == n0.cfg && InsertCache(s0, h, tx, now).cfg == n0.cfg
    ensures var s, e := InsertCache(s0, h, tx, now), Observe(s0, h, tx, now);
            var n, r := See(n0, h, tx, now), NaiveObserve(n0, h, tx, now);
            match Classify(tx, n0.cfg.policy)
            case TopOfBlock => e.pool == s && r == (n, e.res)
            case InvalidGateway => e.pool == s && r == (n, e.res)
            case Backrun(target) => e == ObserveBid(s, h, tx, target, now) && r == NaiveBid(n, h, tx, target, now)
            case Vanilla => e == ObserveVanilla(s, h) && r == NaiveTarget(n, h)
  {
    if Classify(tx, n0.cfg.policy).TopOfBlock? || Classify(tx, n0.cfg.policy).InvalidGateway? {
      QuietRefines(s0, n0, h, tx, now);
    }
  }

  lemma QuietRefines(s0: Pool, n0: Naive, h: Hash, tx: Tx, now: nat)
    requires s0.cfg == n0.cfg && InsertCache(s0, h, tx, now).cfg == n0.cfg
    requires Classify(tx, n0.cfg.policy).TopOfBlock? || Classify(tx, n0.cfg.policy).InvalidGateway?
    ensures Observe(s0, h, tx, now).pool == InsertCache(s0, h, tx, now)
    ensures NaiveObserve(n0, h, tx, now) == (See(n0, h, tx, now), Observe(s0, h, tx, now).res)
  {
    TobAgrees(n0.cfg, h, tx);
  }

  // ----- pruning -----

  lemma PruneRefines(s: Pool, n: Naive, now: nat, clock: nat)
    requires Refines(s, n, clock)
    ensures Refines(Prune(s, now).pool, NaivePrune(n, now).0, clock)
    ensures |Prune(s, now).expired| == NaivePrune(n, now).1
  {
    var s1 := PruneCache(s, now);
    PruneCacheRefines(s, n.seen, now, clock);
    PruneOnlyCache(s, now);
    PrunePendingRefines(s1, n.waiting, now, clock);
    FilterEntriesInOrder(n.seen, YoungEntry(now, n.cfg.ttl), clock);
    FilterBidsInOrder(n.waiting, YoungBid(now, n.cfg.ttl), clock);
    FilterLength(n.seen, YoungEntry(now, n.cfg.ttl));
    FilterLength(n.waiting, YoungBid(now, n.cfg.ttl));
    OfferedIsStreamed(s1, Filter(n.seen, YoungEntry(now, n.cfg.ttl)), n, s.streamed);
  }

  // ----- forgetting -----

  /** Removing the first bid with a hash nobody shares is filtering that hash out. */
  lemma {:induction false} RemoveIsFilter(v: seq<PendingBid>, h: Hash)
    requires HashesDiffer(v) && Has(v, h)
    ensures RemoveAt(v, Position(v, h)) == Filter(v, NotBid(h))
  {
    if v[0].hash == h {
      FilterDrop(v, NotBid(h));
      forall b | b in v[1..]
        ensures NotBid(h)(b)
      {
        var j :| 0 <= j < |v[1..]| && v[1..][j] == b;
        assert v[j + 1] == b;
      }
      FilterAll(v[1..], NotBid(h));
    } else {
      assert HashesDiffer(v[1..]);
      RemoveIsFilter(v[1..], h);
      var p := Position(v[1..], h);
      assert RemoveAt(v, p + 1) == [v[0]] + RemoveAt(v[1..], p);
    }
  }

  lemma HasMember(v: seq<PendingBid>, b: PendingBid)
    requires b in v
    ensures Has(v, b.hash)
  {
    var i :| 0 <= i < |v| && v[i] == b;
  }

  lemma NoneParked(v: seq<PendingBid>, h: Hash)
    requires !Has(v, h)
    ensures Filter(v, NotBid(h)) == v
  {
  }

  lemma RemoveWaiting(s: Pool, waiting: seq<PendingBid>, h: Hash, hit: Hash)
    requires WaitRep(s.pendingOrder, s.pending, s.pendingCount, waiting)
    requires Has(Parked(s.pending, hit), h)
    ensures var s' := RemoveBid(s, hit, h);
            WaitRep(s'.pendingOrder, s'.pending, s'.pendingCount, Filter(waiting, NotBid(h)))
  {
    var s' := RemoveBid(s, hit, h);
    WaitingDistinct(s.pendingOrder, waiting);
    SubFilteredSlots(s.pendingOrder, waiting, NotBid(h));
    var b := SlotBid(s, Slot(hit, h));
    assert Parked(s.pending, hit) == Filter(waiting, For(hit));
    FilterMembers(waiting, For(hit), b);
    HasMember(waiting, b);
    RemoveIsFilter(waiting, h);
    forall t
      ensures Parked(s'.pending, t) == Filter(Filter(waiting, NotBid(h)), For(t))
    {
      assert Parked(s.pending, t) == Filter(waiting, For(t));
      FilterSwap(waiting, h, t);
      VectorHashesDiffer(waiting, For(t));
      if t == hit {
        RemoveIsFilter(Parked(s.pending, t), h);
      } else {
        OneTargetPerBid(waiting, b, t);
        NoneParked(Parked(s.pending, t), h);
      }
    }
  }

  lemma FilterSwap(waiting: seq<PendingBid>, h: Hash, t: Hash)
    ensures Filter(Filter(waiting, NotBid(h)), For(t)) == Filter(Filter(waiting, For(t)), NotBid(h))
  {
    var both := (b: PendingBid) => b.hash != h && b.target == t;
    FilterTwice(waiting, NotBid(h), For(t), both);
    FilterTwice(waiting, For(t), NotBid(h), both);
  }

  lemma {:induction false} VectorHashesDiffer(waiting: seq<PendingBid>, keep: PendingBid -> bool)
    requires HashesDiffer(waiting)
    ensures HashesDiffer(Filter(waiting, keep))
  {
    if waiting != [] {
      assert HashesDiffer(waiting[1..]);
      VectorHashesDiffer(waiting[1..], keep);
      var rest := Filter(waiting[1..], keep);
      forall i | 0 <= i < |rest|
        ensures rest[i].hash != waiting[0].hash
      {
        FilterMembers(waiting[1..], keep, rest[i]);
      }
    }
  }

  lemma OneTargetPerBid(waiting: seq<PendingBid>, b: PendingBid, t: Hash)
    requires HashesDiffer(waiting) && b in waiting && b.target != t
    ensures !Has(Filter(waiting, For(t)), b.hash)
  {
    var v := Filter(waiting, For(t));
    if Has(v, b.hash) {
      var x := v[Position(v, b.hash)];
      FilterMembers(waiting, For(t), x);
      SameHashSameBid(waiting, x, b);
    }
  }

  lemma SameHashSameBid(waiting: seq<PendingBid>, x: PendingBid, y: PendingBid)
    requires HashesDiffer(waiting) && x in waiting && y in waiting && x.hash == y.hash
    ensures x == y
  {
  }

  lemma ForgetWaiting(s: Pool, waiting: seq<PendingBid>, h: Hash, hit: Hash)
    requires WaitRep(s.pendingOrder, s.pending, s.pendingCount, waiting)
    requires ScanHit(ForgetKeys(s, h), h, hit)
    ensures var s' := Forget(s, h, hit).pool;
            WaitRep(s'.pendingOrder, s'.pending, s'.pendingCount, Filter(waiting, Unrelated(h)))
  {
    var s1 := ForgetKeys(s, h);
    var kept := Filter(waiting, NotFor(h));
    DropWaiting(s, waiting, h);
    FilterTwice(waiting, NotFor(h), NotBid(h), Unrelated(h));
    if Has(Parked(s1.pending, hit), h) {
      RemoveWaiting(s1, kept, h, hit);
    } else {
      if Has(kept, h) {
        var b := kept[Position(kept, h)];
        assert Parked(s1.pending, b.target) == Filter(kept, For(b.target));
        FilterMembers(kept, For(b.target), b);
        HasMember(Parked(s1.pending, b.target), b);
      }
      NoneParked(kept, h);
    }
  }

  lemma {:induction false} HashesWithout(seen: seq<Entry>, h: Hash, k: Hash)
    ensures k in Hashes(Filter(seen, NotHash(h))) <==> k in Hashes(seen) && k != h
  {
    if seen != [] {
      HashesWithout(seen[1..], h, k);
      var kept := Filter(seen[1..], NotHash(h));
      if seen[0].hash == h {
        FilterDrop(seen, NotHash(h));
      } else {
        assert ([seen[0]] + kept)[1..] == kept;
      }
    }
  }

  lemma ForgetSeen(s: Pool, seen: seq<Entry>, h: Hash)
    requires SeenRep(s.cacheOrder, s.cache, seen)
    ensures SeenRep(s.cacheOrder, s.cache - {h}, Filter(seen, NotHash(h)))
  {
    SubDistinct(s.cacheOrder, Hashes(seen));
    HashesFilter(seen, NotHash(h));
    SubTrans(s.cacheOrder, Hashes(seen), Hashes(Filter(seen, NotHash(h))));
    forall e
      ensures e in Filter(seen, NotHash(h)) <==> e in seen && e.hash != h
    {
      FilterMembers(seen, NotHash(h), e);
    }
    forall k
      ensures k in s.cache - {h} <==> k in Hashes(Filter(seen, NotHash(h)))
    {
      HashesWithout(seen, h, k);
    }
  }

  lemma ForgetOnlyCache(s: Pool, h: Hash, hit: Hash)
    requires s.streamed <= s.cache.Keys
    ensures var s' := Forget(s, h, hit).pool;
            && s'.cfg == s.cfg && s'.cacheOrder == s.cacheOrder && s'.pendingOrder == s.pendingOrder
            && s'.cache == s.cache - {h}
            && s'.streamed == s.streamed * s'.cache.Keys
  {
    assert s.streamed - {h} == s.streamed * (s.cache - {h}).Keys;
  }

  lemma ForgetRefines(s: Pool, n: Naive, h: Hash, hit: Hash, clock: nat)
    requires Refines(s, n, clock) && ScanHit(ForgetKeys(s, h), h, hit)
    ensures Refines(Forget(s, h, hit).pool, NaiveForget(n, h), clock)
  {
    var s' := Forget(s, h, hit).pool;
    ForgetWaiting(s, n.waiting, h, hit);
    ForgetSeen(s, n.seen, h);
    ForgetOnlyCache(s, h, hit);
    FilterEntriesInOrder(n.seen, NotHash(h), clock);
    FilterBidsInOrder(n.waiting, Unrelated(h), clock);
    FilterLength(n.seen, NotHash(h));
    FilterLength(n.waiting, Unrelated(h));
    OfferedIsStreamed(s', Filter(n.seen, NotHash(h)), n, s.streamed);
  }

  // ----- runs -----

  /** What a caller sees of one call: its result, the expiry count and the two lengths. */
  datatype Output = Output(res: ObserveResult, expired: nat, pendingLen: int, cacheLen: nat)

  function OutputOf(s: Pool, op: Op): Output {
    var e := Apply(s, op);
    Output(e.res, |e.expired|, e.pool.pendingCount, |e.pool.cache|)
  }

  function NaiveApply(n: Naive, op: Op): (Naive, Output) {
    match op
    case ObserveOp(h, tx, now) =>
      var (n', res) := NaiveObserve(n, h, tx, now);
      (n', Output(res, 0, |n'.waiting|, |n'.seen|))
    case PruneOp(now) =>
      var (n', expired) := NaivePrune(n, now);
      (n', Output(NOTHING_OBSERVED, expired, |n'.waiting|, |n'.seen|))
    case ForgetOp(h, _) =>
      var n' := NaiveForget(n, h);
      (n', Output(NOTHING_OBSERVED, 0, |n'.waiting|, |n'.seen|))
  }

  function Outputs(s: Pool, ops: seq<Op>): seq<Output> {
    if ops == [] then []
    else Outputs(s, ops[..|ops| - 1]) + [OutputOf(After(s, ops[..|ops| - 1]), ops[|ops| - 1])]
  }

  function NaiveAfter(n: Naive, ops: seq<Op>): Naive {
    if ops == [] then n else NaiveApply(NaiveAfter(n, ops[..|ops| - 1]), ops[|ops| - 1]).0
  }

  function NaiveOutputs(n: Naive, ops: seq<Op>): seq<Output> {
    if ops == [] then []
    else NaiveOutputs(n, ops[..|ops| - 1]) + [NaiveApply(NaiveAfter(n, ops[..|ops| - 1]), ops[|ops| - 1]).1]
  }

  /** What one call of a run must meet: an observed hash has no slot left, and a scan reports its first hit. */
  ghost predicate CallOk(s: Pool, op: Op) {
    match op
    case ObserveOp(h, _, _) => Unqueued(s, h)
    case PruneOp(_) => true
    case ForgetOp(h, hit) => ScanHit(ForgetKeys(s, h), h, hit)
  }

  ghost predicate RunOk(cfg: Config, ops: seq<Op>) {
    forall i :: 0 <= i < |ops| ==> CallOk(After(Init(cfg), ops[..i]), ops[i])
  }

  /** Observations are made at non-decreasing instants. */
  ghost predicate Clocked(ops: seq<Op>) {
    forall i, j :: 0 <= i < j < |ops| && ops[i].ObserveOp? && ops[j].ObserveOp? ==> ops[i].now <= ops[j].now
  }

  /** The instant of the last observation. */
  function Clock(ops: seq<Op>): nat {
    if ops == [] then 0
    else if ops[|ops| - 1].ObserveOp? then ops[|ops| - 1].now
    else Clock(ops[..|ops| - 1])
  }

  lemma {:induction false} ClockBound(ops: seq<Op>, now: nat)
    requires forall i :: 0 <= i < |ops| && ops[i].ObserveOp? ==> ops[i].now <= now
    ensures Clock(ops) <= now
  {
    if ops != [] {
      ClockBound(ops[..|ops| - 1], now);
    }
  }

  lemma LengthsAgree(s: Pool, n: Naive, clock: nat)
    requires Refines(s, n, clock)
    ensures s.pendingCount == |n.waiting| && |s.cache| == |n.seen|
  {
    SeenCard(s.cacheOrder, s.cache, n.seen);
  }

  lemma ObserveExpiresNothing(s: Pool, h: Hash, tx: Tx, now: nat)
    ensures Observe(s, h, tx, now).expired == []
  {
  }

  lemma ApplyRefines(s: Pool, n: Naive, op: Op, clock: nat)
    requires Refines(s, n, clock) && CallOk(s, op)
    requires op.ObserveOp? ==> clock <= op.now
    ensures Refines(Apply(s, op).pool, NaiveApply(n, op).0, if op.ObserveOp? then op.now else clock)
    ensures OutputOf(s, op) == NaiveApply(n, op).1
  {
    match op {
      case ObserveOp(h, tx, now) =>
        ObserveRefines(s, n, h, tx, now, clock);
        LengthsAgree(Observe(s, h, tx, now).pool, NaiveObserve(n, h, tx, now).0, now);
        ObserveExpiresNothing(s, h, tx, now);
      case PruneOp(now) =>
        PruneRefines(s, n, now, clock);
        LengthsAgree(Prune(s, now).pool, NaivePrune(n, now).0, clock);
      case ForgetOp(h, hit) =>
        ForgetRefines(s, n, h, hit, clock);
        LengthsAgree(Forget(s, h, hit).pool, NaiveForget(n, h), clock);
    }
  }

  lemma {:induction false} RunRefines(cfg: Config, ops: seq<Op>)
    requires RunOk(cfg, ops) && Clocked(ops)
    ensures Refines(After(Init(cfg), ops), NaiveAfter(Empty(cfg), ops), Clock(ops))
    ensures Outputs(Init(cfg), ops) == NaiveOutputs(Empty(cfg), ops)
  {
    if ops != [] {
      var most := ops[..|ops| - 1];
      var op := ops[|ops| - 1];
      forall i | 0 <= i < |most|
        ensures CallOk(After(Init(cfg), most[..i]), most[i])
      {
        assert most[..i] == ops[..i];
      }
      RunRefines(cfg, most);
      if op.ObserveOp? {
        ClockBound(most, op.now);
      }
      ApplyRefines(After(Init(cfg), most), NaiveAfter(Empty(cfg), most), op, Clock(most));
    }
  }

  // ----- fresh runs -----

  /** No hash is observed twice. */
  ghost predicate Fresh(ops: seq<Op>) {
    forall i, j :: 0 <= i < j < |ops| && ops[i].ObserveOp? && ops[j].ObserveOp? ==> ops[i].hash != ops[j].hash
  }

  ghost predicate Observed(ops: seq<Op>, h: Hash) {
    exists i :: 0 <= i < |ops| && ops[i].ObserveOp? && ops[i].hash == h
  }

  lemma {:induction false} EvictCacheUnqueued(s: Pool, h: Hash)
    requires Unqueued(s, h)
    ensures Unqueued(EvictCache(s), h)
    decreases |s.cacheOrder|
  {
    if |s.cache| > s.cfg.maxCache && s.cacheOrder != [] {
      EvictCacheUnqueued(PopCacheSlot(s), h);
    }
  }

  lemma {:induction false} PruneCacheUnqueued(s: Pool, now: nat, h: Hash)
    requires Unqueued(s, h)
    ensures Unqueued(PruneCache(s, now), h)
    decreases |s.cacheOrder|
  {
    if s.cacheOrder != [] && !(s.cacheOrder[0] in s.cache && !CacheExpired(s, s.cacheOrder[0], now)) {
      PruneCacheUnqueued(PopCacheSlot(s), now, h);
    }
  }

  lemma {:induction false} EvictPendingUnqueued(s: Pool, h: Hash)
    requires Unqueued(s, h)
    ensures Unqueued(EvictPending(s).0, h)
    decreases |s.pendingOrder|
  {
    if s.pendingCount > s.cfg.maxPending && s.pendingOrder != [] {
      EvictPendingUnqueued(PopPendingSlot(s).0, h);
    }
  }

  lemma {:induction false} PrunePendingUnqueued(s: Pool, now: nat, h: Hash)
    requires Unqueued(s, h)
    ensures Unqueued(PrunePending(s, now).0, h)
    decreases |s.pendingOrder|
  {
    if s.pendingOrder != [] && !FrontBidWaits(s, now) {
      PrunePendingUnqueued(PopPendingSlot(s).0, now, h);
    }
  }

  lemma ObserveUnqueued(s: Pool, k: Hash, tx: Tx, now: nat, h: Hash)
    requires Unqueued(s, h) && k != h
    ensures Unqueued(Observe(s, k, tx, now).pool, h)
  {
    EvictCacheUnqueued(StoreCached(s, k, tx, now), h);
    var s1 := InsertCache(s, k, tx, now);
    match Classify(tx, s1.cfg.policy)
    case TopOfBlock =>
    case InvalidGateway =>
    case Vanilla =>
    case Backrun(target) =>
      if target !in s1.cache {
        EvictPendingUnqueued(StoreBid(s1, PendingBid(k, tx, ComputePriority(tx, s1.cfg.policy), target, now)), h);
      }
  }

  lemma {:induction false} NeverObservedUnqueued(s: Pool, ops: seq<Op>, h: Hash)
    requires Unqueued(s, h) && !Observed(ops, h)
    ensures Unqueued(After(s, ops), h)
  {
    if ops != [] {
      var most, op := ops[..|ops| - 1], ops[|ops| - 1];
      assert forall i :: 0 <= i < |most| ==> most[i] == ops[i];
      NeverObservedUnqueued(s, most, h);
      var before := After(s, most);
      match op
      case ObserveOp(k, tx, now) =>
        ObserveUnqueued(before, k, tx, now, h);
      case PruneOp(now) =>
        PruneCacheUnqueued(before, now, h);
        PrunePendingUnqueued(PruneCache(before, now), now, h);
      case ForgetOp(k, hit) =>
    }
  }

  /** A run in which no hash is observed twice meets the condition of the refinement. */
  lemma FreshRunOk(cfg: Config, ops: seq<Op>)
    requires Fresh(ops)
    requires forall i :: 0 <= i < |ops| && ops[i].ForgetOp? ==> CallOk(After(Init(cfg), ops[..i]), ops[i])
    ensures RunOk(cfg, ops)
  {
    forall i | 0 <= i < |ops|
      ensures CallOk(After(Init(cfg), ops[..i]), ops[i])
    {
      if ops[i].ObserveOp? {
        NeverObservedUnqueued(Init(cfg), ops[..i], ops[i].hash);
      }
    }
  }

  /** In such a run a prune keeps exactly the unexpired transactions and bids, and counts the bids it drops. */
  lemma PruneExact(cfg: Config, ops: seq<Op>, now: nat)
    requires RunOk(cfg, ops) && Clocked(ops)
    ensures var s, e := After(Init(cfg), ops), Prune(After(Init(cfg), ops), now);
            && (forall k :: k in e.pool.cache <==> k in s.cache && cfg.ttl > 0 && now < s.cache[k].seenAt + cfg.ttl)
            && (forall t :: Parked(e.pool.pending, t) == Filter(Parked(s.pending, t), YoungBid(now, cfg.ttl)))
            && (forall t, b :: b in Parked(e.pool.pending, t)
                               <==> b in Parked(s.pending, t) && cfg.ttl > 0 && now < b.seenAt + cfg.ttl)
            && |e.expired| == s.pendingCount - e.pool.pendingCount
  {
    var s, n := After(Init(cfg), ops), NaiveAfter(Empty(cfg), ops);
    var e := Prune(s, now);
    RunRefines(cfg, ops);
    PruneRefines(s, n, now, Clock(ops));
    ConfigKept(cfg, ops);
    forall k
      ensures k in e.pool.cache <==> k in s.cache && cfg.ttl > 0 && now < s.cache[k].seenAt + cfg.ttl
    {
      YoungHashes(n.seen, YoungEntry(now, cfg.ttl), s.cache, k);
    }
    forall t
      ensures Parked(e.pool.pending, t) == Filter(Parked(s.pending, t), YoungBid(now, cfg.ttl))
    {
      assert Parked(s.pending, t) == Filter(n.waiting, For(t));
      var both := (b: PendingBid) => b.target == t && cfg.ttl > 0 && now < b.seenAt + cfg.ttl;
      FilterTwice(n.waiting, For(t), YoungBid(now, cfg.ttl), both);
      FilterTwice(n.waiting, YoungBid(now, cfg.ttl), For(t), both);
    }
    forall t, b
      ensures b in Parked(e.pool.pending, t) <==> b in Parked(s.pending, t) && cfg.ttl > 0 && now < b.seenAt + cfg.ttl
    {
      FilterMembers(Parked(s.pending, t), YoungBid(now, cfg.ttl), b);
    }
  }

  lemma {:induction false} ConfigKept(cfg: Config, ops: seq<Op>)
    ensures After(Init(cfg), ops).cfg == cfg
  {
    ReachableInv(cfg, ops);
  }

  lemma {:induction false} YoungHashes(seen: seq<Entry>, keep: Entry -> bool, cache: map<Hash, CachedTx>, k: Hash)
    requires forall e :: e in seen ==> e.hash in cache && cache[e.hash] == CachedTx(e.tx, e.seenAt)
    ensures k in Hashes(Filter(seen, keep))
            <==> k in Hashes(seen) && k in cache && keep(Entry(k, cache[k].tx, cache[k].seenAt))
  {
    if seen != [] {
      assert seen[0] in seen && seen[0] == Entry(seen[0].hash, cache[seen[0].hash].tx, cache[seen[0].hash].seenAt);
      YoungHashes(seen[1..], keep, cache, k);
      if keep(seen[0]) {
        var kept := Filter(seen[1..], keep);
        assert ([seen[0]] + kept)[1..] == kept;
      } else {
        FilterDrop(seen, keep);
      }
    }
  }
}
