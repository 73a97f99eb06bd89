/** What one observation and one prune do, in the transaction's own fields, in instants and in plain numbers, for any
    state, hash and instant. */
module Calls {
  import opened Base
  import opened Bits
  import opened Policy
  import opened PoolSpec
  import opened PoolInvariant
  import opened CacheQueue
  import opened NaivePool
  import opened PendingQueue
  import opened RefinementRuns

  lemma {:induction false} EvictKeepsRest(s: Pool)
    ensures var s1 := EvictCache(s);
            s1 == s.(cache := s1.cache, cacheOrder := s1.cacheOrder, streamed := s1.streamed)
    decreases |s.cacheOrder|
  {
    if |s.cache| > s.cfg.maxCache && s.cacheOrder != [] {
      EvictKeepsRest(PopCacheSlot(s));
    }
  }

  lemma InsertKeepsRest(s: Pool, h: Hash, tx: Tx, now: nat)
    ensures var s1 := InsertCache(s, h, tx, now);
            s1 == s.(cache := s1.cache, cacheOrder := s1.cacheOrder, streamed := s1.streamed)
  {
    EvictKeepsRest(StoreCached(s, h, tx, now));
  }

  /** A gateway call without a target goes out at once, above bit 255, or with the fallback if it scores nothing. */
  lemma TobObserved(s: Pool, h: Hash, tx: Tx, now: nat)
    requires tx.to == Some(s.cfg.policy.gateway) && tx.call.Some? && tx.call.value.target == 0
    ensures var e, score := Observe(s, h, tx, now), ComputePriority(tx, s.cfg.policy);
            var word := if score == 0 then s.cfg.fallback else P255 + score % P128;
            e == Quiet(InsertCache(s, h, tx, now),
                       ObserveResult([Reinjection(h, tx, word, AsTob)], 0, 0, 0, false, false))
  {
    InsertKeepsRest(s, h, tx, now);
  }

  /** A gateway transaction without a call emits nothing. */
  lemma InvalidObserved(s: Pool, h: Hash, tx: Tx, now: nat)
    requires tx.to == Some(s.cfg.policy.gateway) && tx.call.None?
    ensures Observe(s, h, tx, now) == Quiet(InsertCache(s, h, tx, now), ObserveResult([], 0, 0, 0, false, true))
  {
    InsertKeepsRest(s, h, tx, now);
  }

  lemma CallBranch(s: Pool, h: Hash, tx: Tx, now: nat)
    requires tx.to == Some(s.cfg.policy.gateway) && tx.call.Some? && tx.call.value.target != 0
    ensures var s1 := InsertCache(s, h, tx, now);
            s1.cfg == s.cfg && Observe(s, h, tx, now) == ObserveBid(s1, h, tx, tx.call.value.target, now)
  {
    InsertKeepsRest(s, h, tx, now);
  }

  /** The target leads unless it was streamed already; then comes the bid. Both words lie in the block of the
      target's top 126 bits. */
  ghost predicate Pairs(s: Pool, h: Hash, tx: Tx, t: Hash, e: Effect)
    requires t in s.cache
  {
    var lead := if t in s.streamed then [] else [Reinjection(t, s.cache[t].tx, TargetWord(t), AsOpportunity)];
    var bid := Reinjection(h, tx, BidWord(t, ComputePriority(tx, s.cfg.policy)), AsBackrun(t));
    e == Quiet(s.(streamed := s.streamed + {t}), ObserveResult(lead + [bid], 1, 0, 0, false, false))
  }

  /** A call on a cached target is paired with it. */
  lemma PairObserved(s: Pool, h: Hash, tx: Tx, now: nat)
    requires tx.to == Some(s.cfg.policy.gateway) && tx.call.Some? && tx.call.value.target != 0
    requires tx.call.value.target in InsertCache(s, h, tx, now).cache
    ensures Pairs(InsertCache(s, h, tx, now), h, tx, tx.call.value.target, Observe(s, h, tx, now))
  {
    CallBranch(s, h, tx, now);
    WordsAgree(tx.call.value.target, ComputePriority(tx, s.cfg.policy));
    var s1, t := InsertCache(s, h, tx, now), tx.call.value.target;
    assert t in s1.streamed ==> s1.streamed + {t} == s1.streamed;
  }

  /** `s` with `bid` parked behind those parked on its target before, and queued. */
  function WithBid(s: Pool, bid: PendingBid): Pool {
    s.(pending := s.pending[bid.target := (if bid.target in s.pending then s.pending[bid.target] else []) + [bid]],
       pendingOrder := s.pendingOrder + [Slot(bid.target, bid.hash)],
       pendingCount := s.pendingCount + 1)
  }

  /** The bid is parked last, and what the cap then demands is evicted. */
  ghost predicate ParksBid(s: Pool, bid: PendingBid, e: Effect) {
    && e.parked == [bid] && e.flushed == [] && e.expired == [] && e.forgotten == []
    && e.res == ObserveResult([], 0, 1, |e.evicted|, false, false)
    && (e.pool, e.evicted) == EvictPending(WithBid(s, bid))
    && exists n: nat :: EvictedTo(WithBid(s, bid), n)
  }

  lemma ParkInFields(s: Pool, h: Hash, tx: Tx, t: Hash, now: nat)
    requires Rep(s) && t !in s.cache
    ensures ParksBid(s, PendingBid(h, tx, ComputePriority(tx, s.cfg.policy), t, now), ObserveBid(s, h, tx, t, now))
  {
    var bid := PendingBid(h, tx, ComputePriority(tx, s.cfg.policy), t, now);
    StoreBidKeeps(s, bid);
    assert StoreBid(s, bid) == WithBid(s, bid);
    EvictPendingExact(WithBid(s, bid));
  }

  /** A call on any other target is parked behind those parked on it before, and the cap is enforced. */
  lemma ParkObserved(s: Pool, h: Hash, tx: Tx, now: nat)
    requires Rep(s) && tx.to == Some(s.cfg.policy.gateway) && tx.call.Some? && tx.call.value.target != 0
    requires tx.call.value.target !in InsertCache(s, h, tx, now).cache
    ensures ParksBid(InsertCache(s, h, tx, now),
                     PendingBid(h, tx, ComputePriority(tx, s.cfg.policy), tx.call.value.target, now),
                     Observe(s, h, tx, now))
  {
    CallBranch(s, h, tx, now);
    InsertCacheKeeps(s, h, tx, now);
    ParkInFields(InsertCache(s, h, tx, now), h, tx, tx.call.value.target, now);
  }

  /** What flushing `bids` after `h` emits, in the order of parking. */
  function Flushed(h: Hash, bids: seq<PendingBid>): seq<Reinjection> {
    seq(|bids|, i requires 0 <= i < |bids| =>
          Reinjection(bids[i].hash, bids[i].tx, BidWord(h, bids[i].scalar), AsBackrun(h)))
  }

  lemma FlushedInFields(h: Hash, bids: seq<PendingBid>)
    ensures BidsFor(h, bids) == Flushed(h, bids)
  {
    forall i | 0 <= i < |bids|
      ensures BidsFor(h, bids)[i] == Flushed(h, bids)[i]
    {
      WordsAgree(h, bids[i].scalar);
    }
  }

  /** The bids on `h` go, behind `h` itself if it is still cached and was not streamed. */
  ghost predicate Flushes(s: Pool, h: Hash, e: Effect)
    requires h in s.pending
  {
    var bids, leads := s.pending[h], h in s.cache && h !in s.streamed;
    var lead := if leads then [Reinjection(h, s.cache[h].tx, TargetWord(h), AsOpportunity)] else [];
    && e.pool == s.(pending := s.pending - {h}, pendingCount := s.pendingCount - |bids|,
                    streamed := if leads then s.streamed + {h} else s.streamed)
    && e.res == ObserveResult(lead + Flushed(h, bids), |bids|, 0, 0, false, false)
    && e.flushed == bids && e.parked == [] && e.evicted == [] && e.expired == [] && e.forgotten == []
  }

  /** Any other transaction flushes the bids that wait for it, if there are any. */
  lemma TargetObserved(s: Pool, h: Hash, tx: Tx, now: nat)
    requires tx.to != Some(s.cfg.policy.gateway)
    ensures h !in s.pending ==>
              Observe(s, h, tx, now) == Quiet(InsertCache(s, h, tx, now), ObserveResult([], 0, 0, 0, true, false))
    ensures h in s.pending ==>
              && InsertCache(s, h, tx, now).pending == s.pending
              && Flushes(InsertCache(s, h, tx, now), h, Observe(s, h, tx, now))
  {
    InsertKeepsRest(s, h, tx, now);
    if h in s.pending {
      WordsAgree(h, 0);
      FlushedInFields(h, s.pending[h]);
    }
  }

  /** In any state a prune drops the cache slots before the first that stands for a young transaction, and the parked
      bids whose slots stand before the first that stands for a young bid. */
  lemma PruneSplits(s: Pool, now: nat)
    requires Rep(s)
    ensures exists n: nat, m: nat ::
              && FirstYoung(s, now, n) && PrunedTo(CutCache(s, n), now, m)
              && Prune(s, now) == ExpiredFrom(CutCache(s, n), now)
  {
    PruneCachePrefix(s, now);
    var n: nat :| FirstYoung(s, now, n) && PruneCache(s, now) == CutCache(s, n);
    PrunePendingExact(CutCache(s, n), now);
    var m: nat :| PrunedTo(CutCache(s, n), now, m);
    assert FirstYoung(s, now, n) && PrunedTo(CutCache(s, n), now, m)
           && Prune(s, now) == ExpiredFrom(CutCache(s, n), now);
  }

  ghost function ExpiredFrom(s: Pool, now: nat): Effect {
    var (s', gone) := PrunePending(s, now);
    Effect(s', ObserveResult([], 0, 0, 0, false, false), [], [], [], gone, [])
  }
}
