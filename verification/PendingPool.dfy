/** The pairing pool as the source has it: an object whose methods update its fields in place. Each method is
    proved to compute the matching function of `PoolSpec`, so what is proved about those functions holds of it. */
module PairingPool {
  import opened Base
  import opened Policy
  import opened PoolSpec
  import opened PoolInvariant

  class PendingPool {
    const cfg: Config

    var cache: map<Hash, CachedTx>
    var cacheOrder: seq<Hash>
    var pending: map<Hash, seq<PendingBid>>
    var pendingOrder: seq<Slot>
    var pendingCount: nat
    var streamed: set<Hash>

    ghost function State(): Pool
      reads this
    {
      Pool(cfg, cache, cacheOrder, pending, pendingOrder, pendingCount, streamed)
    }

    ghost predicate Valid()
      reads this
    {
      Inv(State())
    }

    constructor (settings: Settings)
      ensures Valid()
      ensures State() == Init(Normalized(settings))
      ensures cfg.policy == settings.policy && cfg.fallback == settings.fallback && cfg.ttl == settings.ttl
      ensures cfg.maxCache == if settings.maxCache == 0 then 1 else settings.maxCache
      ensures cfg.maxPending == if settings.maxPending == 0 then 1 else settings.maxPending
      ensures cache == map[] && cacheOrder == [] && pending == map[] && pendingOrder == [] && streamed == {}
    {
      cfg := Normalized(settings);
      cache, cacheOrder := map[], [];
      pending, pendingOrder, pendingCount := map[], [], 0;
      streamed := {};
      new;
      InitInv(cfg);
    }

    method PendingLen() returns (n: nat)
      requires Valid()
      ensures n == |AllParked(pending)|
    {
      n := pendingCount;
    }

    method CacheLen() returns (n: nat)
      ensures n == |cache|
    {
      n := |cache|;
    }

    method EmitOpportunityOnce(target: Hash, res: ObserveResult) returns (res': ObserveResult)
      modifies this`streamed
      ensures State() == PoolSpec.EmitOpportunityOnce(old(State()), target).0
      ensures res' == res.(reinjections := res.reinjections + PoolSpec.EmitOpportunityOnce(old(State()), target).1)
    {
      res' := res;
      assert res.reinjections + [] == res.reinjections;
      if target in streamed {
        return;
      }
      if target in cache {
        res' := res.(reinjections := res.reinjections + [OpportunityFor(target, cache[target].tx)]);
        streamed := streamed + {target};
      }
    }

    /** Pops the oldest cache slot, with its entry if that is still cached. */
    method DropCacheFront()
      requires cacheOrder != []
      modifies this`cache, this`cacheOrder, this`streamed
      ensures State() == PopCacheSlot(old(State()))
    {
      var front := cacheOrder[0];
      cacheOrder := cacheOrder[1..];
      if front in cache {
        cache := cache - {front};
        streamed := streamed - {front};
      }
    }

    method InsertCache(h: Hash, tx: Tx, now: nat)
      modifies this`cache, this`cacheOrder, this`streamed
      ensures State() == PoolSpec.InsertCache(old(State()), h, tx, now)
    {
      if h !in cache {
        cacheOrder := cacheOrder + [h];
      }
      cache := cache[h := CachedTx(tx, now)];
      while |cache| > cfg.maxCache
        invariant EvictCache(State()) == PoolSpec.InsertCache(old(State()), h, tx, now)
        decreases |cacheOrder|
      {
        if cacheOrder == [] {
          break;
        }
        DropCacheFront();
      }
    }

    /** Pops the oldest pending slot, with its bid if that is still parked. */
    method DropPendingFront() returns (gone: nat)
      requires Rep(State()) && pendingOrder != []
      modifies this`pending, this`pendingOrder, this`pendingCount
      ensures Rep(State())
      ensures State() == PopPendingSlot(old(State())).0
      ensures gone == |PopPendingSlot(old(State())).1|
    {
      PopPendingStep(State());
      var slot := pendingOrder[0];
      ghost var live := SlotLive(State(), slot);
      pendingOrder := pendingOrder[1..];
      gone := 0;
      if slot.target in pending {
        var bids := pending[slot.target];
        var pos := Position(bids, slot.bid);
        if pos < |bids| {
          pending := SetParked(pending, slot.target, RemoveAt(bids, pos));
          pendingCount := pendingCount - 1;
          gone := 1;
        }
      }
      assert gone == if live then 1 else 0;
    }

    /** Drops the oldest parked bids until the cap holds. */
    method EvictPending() returns (evicted: nat)
      requires Rep(State())
      modifies this`pending, this`pendingOrder, this`pendingCount
      ensures State() == PoolSpec.EvictPending(old(State())).0
      ensures evicted == |PoolSpec.EvictPending(old(State())).1|
    {
      evicted := 0;
      while pendingCount > cfg.maxPending
        invariant Rep(State())
        invariant PoolSpec.EvictPending(State()).0 == PoolSpec.EvictPending(old(State())).0
        invariant evicted + |PoolSpec.EvictPending(State()).1| == |PoolSpec.EvictPending(old(State())).1|
        decreases |pendingOrder|
      {
        QueueNotEmpty(State());
        var gone := DropPendingFront();
        evicted := evicted + gone;
      }
    }

    method PushPending(bid: PendingBid) returns (evicted: nat)
      requires Rep(State())
      modifies this`pending, this`pendingOrder, this`pendingCount
      ensures State() == PoolSpec.PushPending(old(State()), bid).0
      ensures evicted == |PoolSpec.PushPending(old(State()), bid).1|
    {
      assert Rep(StoreBid(State(), bid)) by {
        StoreBidKeeps(State(), bid);
      }
      pending := pending[bid.target := Parked(pending, bid.target) + [bid]];
      pendingOrder := pendingOrder + [Slot(bid.target, bid.hash)];
      pendingCount := pendingCount + 1;
      evicted := EvictPending();
    }

    /** Streams every bid of a flushed target. */
    method FlushBids(target: Hash, bids: seq<PendingBid>, res: ObserveResult) returns (res': ObserveResult)
      requires pendingCount >= |bids|
      modifies this`pendingCount
      ensures pendingCount == old(pendingCount) - |bids|
      ensures res' == res.(reinjections := res.reinjections + BidsFor(target, bids),
                              pairsMatched := res.pairsMatched + |bids|)
    {
      res' := res;
      ghost var streams := BidsFor(target, bids);
      assert res.reinjections == res.reinjections + streams[..0];
      for i := 0 to |bids|
        invariant pendingCount == old(pendingCount) - i
        invariant res'.reinjections == res.reinjections + streams[..i]
        invariant res' == res.(reinjections := res'.reinjections, pairsMatched := res.pairsMatched + i)
      {
        var b := bids[i];
        pendingCount := pendingCount - 1;
        var bid := Reinjection(b.hash, b.tx, EncodeBackrunBid(target, b.scalar), AsBackrun(target));
        TakeNext(res.reinjections, streams, i);
        res' := res'.(reinjections := res'.reinjections + [bid], pairsMatched := res'.pairsMatched + 1);
      }
      assert streams[..|bids|] == streams;
    }

    method ObserveBid(h: Hash, tx: Tx, target: Hash, now: nat) returns (res: ObserveResult)
      requires Rep(State())
      modifies this
      ensures State() == PoolSpec.ObserveBid(old(State()), h, tx, target, now).pool
      ensures res == PoolSpec.ObserveBid(old(State()), h, tx, target, now).res
    {
      res := NOTHING_OBSERVED;
      var scalar := ComputePriority(tx, cfg.policy);
      if target in cache {
        res := EmitOpportunityOnce(target, res);
        var bid := Reinjection(h, tx, EncodeBackrunBid(target, scalar), AsBackrun(target));
        res := res.(reinjections := res.reinjections + [bid], pairsMatched := res.pairsMatched + 1);
        assert res.reinjections == PoolSpec.EmitOpportunityOnce(old(State()), target).1 + [bid];
      } else {
        var evicted := PushPending(PendingBid(h, tx, scalar, target, now));
        res := res.(bidsEvicted := res.bidsEvicted + evicted, bidsPended := res.bidsPended + 1);
      }
    }

    method ObserveVanilla(h: Hash) returns (res: ObserveResult)
      requires pendingCount >= |Parked(pending, h)|
      modifies this
      ensures State() == PoolSpec.ObserveVanilla(old(State()), h).pool
      ensures res == PoolSpec.ObserveVanilla(old(State()), h).res
    {
      res := NOTHING_OBSERVED;
      if h in pending {
        var bids := pending[h];
        pending := pending - {h};
        res := EmitOpportunityOnce(h, res);
        ghost var (_, opportunity) := PoolSpec.EmitOpportunityOnce(old(State()).(pending := old(pending) - {h}), h);
        assert res.reinjections == opportunity;
        res := FlushBids(h, bids, res);
      } else {
        res := res.(skippedNonGateway := true);
      }
    }

    method ObserveAt(h: Hash, tx: Tx, now: nat) returns (res: ObserveResult)
      requires Valid()
      modifies this
      ensures Valid()
      ensures State() == PoolSpec.Observe(old(State()), h, tx, now).pool
      ensures res == PoolSpec.Observe(old(State()), h, tx, now).res
    {
      ObserveKeepsInv(State(), h, tx, now);
      InsertCacheKeeps(State(), h, tx, now);
      InsertCache(h, tx, now);
      if IsGateway(tx, cfg.policy) {
        if tx.call.Some? {
          var call := tx.call.value;
          if call.IsTob() {
            res := NOTHING_OBSERVED.(reinjections := [TobFor(cfg, h, tx)]);
          } else {
            res := ObserveBid(h, tx, call.target, now);
          }
        } else {
          res := NOTHING_OBSERVED.(skippedInvalidGateway := true);
        }
      } else {
        KeyCounted(State(), h);
        res := ObserveVanilla(h);
      }
    }

    /** Cache half of `Prune`: expired and stale slots go, up to the first live unexpired one. */
    method PruneCache(now: nat)
      modifies this`cache, this`cacheOrder, this`streamed
      ensures State() == PoolSpec.PruneCache(old(State()), now)
    {
      while cacheOrder != []
        invariant PoolSpec.PruneCache(State(), now) == PoolSpec.PruneCache(old(State()), now)
        decreases |cacheOrder|
      {
        var front := cacheOrder[0];
        if front in cache && Age(now, cache[front].seenAt) < cfg.ttl {
          break;
        }
        DropCacheFront();
      }
    }

    /** Parked-bid half of `Prune`: same discipline, counting the bids that expired. */
    method PrunePending(now: nat) returns (expired: nat)
      requires Rep(State())
      modifies this`pending, this`pendingOrder, this`pendingCount
      ensures State() == PoolSpec.PrunePending(old(State()), now).0
      ensures expired == |PoolSpec.PrunePending(old(State()), now).1|
    {
      expired := 0;
      while pendingOrder != []
        invariant Rep(State())
        invariant PoolSpec.PrunePending(State(), now).0 == PoolSpec.PrunePending(old(State()), now).0
        invariant expired + |PoolSpec.PrunePending(State(), now).1| == |PoolSpec.PrunePending(old(State()), now).1|
        decreases |pendingOrder|
      {
        var slot := pendingOrder[0];
        var bids := Parked(pending, slot.target);
        var pos := Position(bids, slot.bid);
        if pos < |bids| && Age(now, bids[pos].seenAt) < cfg.ttl {
          break;
        }
        var gone := DropPendingFront();
        expired := expired + gone;
      }
    }

    method Prune(now: nat) returns (expired: nat)
      requires Valid()
      modifies this
      ensures Valid()
      ensures State() == PoolSpec.Prune(old(State()), now).pool
      ensures expired == |PoolSpec.Prune(old(State()), now).expired|
    {
      PruneKeepsInv(State(), now);
      PruneCacheKeeps(State(), now);
      PruneCache(now);
      expired := PrunePending(now);
    }

    /** Removes the first bid with hash `h` the scan meets. The map's values are visited in an order this method
        does not control; `hit` reports the target under which the bid was met. */
    method ForgetBid(h: Hash) returns (ghost hit: Hash)
      requires Rep(State())
      modifies this`pending, this`pendingCount
      ensures ScanHit(old(State()), h, hit)
      ensures State() == if Has(Parked(old(pending), hit), h) then RemoveBid(old(State()), hit, h) else old(State())
    {
      hit := h;
      var todo := pending.Keys;
      while todo != {}
        invariant todo <= pending.Keys
        invariant State() == old(State())
        invariant forall t :: t in pending && t !in todo ==> !Has(pending[t], h)
        decreases |todo|
      {
        var t :| t in todo;
        var pos := Position(pending[t], h);
        if pos < |pending[t]| {
          hit := t;
          RemoveBidStep(State(), t, h);
          RetainAfterRemoval(pending, t, RemoveAt(pending[t], pos));
          pending := RetainNonEmpty(pending[t := RemoveAt(pending[t], pos)]);
          pendingCount := pendingCount - 1;
          return;
        }
        todo := todo - {t};
      }
      RetainAll(pending);
      pending := RetainNonEmpty(pending);
    }

    /** Removes `h` as a cached, streamed and awaited target. */
    method DropKey(h: Hash)
      requires pendingCount >= |Parked(pending, h)|
      modifies this
      ensures State() == ForgetKeys(old(State()), h)
    {
      cache := cache - {h};
      streamed := streamed - {h};
      pendingCount := pendingCount - |Parked(pending, h)|;
      pending := pending - {h};
    }

    method Forget(h: Hash) returns (ghost hit: Hash)
      requires Valid()
      modifies this
      ensures Valid()
      ensures ScanHit(ForgetKeys(old(State()), h), h, hit)
      ensures State() == PoolSpec.Forget(old(State()), h, hit).pool
    {
      ForgetKeysKeeps(State(), h);
      DropKey(h);
      hit := ForgetBid(h);
      ForgetKeepsInv(old(State()), h, hit);
    }
  }

  lemma TakeNext<T>(prefix: seq<T>, xs: seq<T>, i: nat)
    requires i < |xs|
    ensures prefix + xs[..i] + [xs[i]] == prefix + xs[..i + 1]
  {
  }

  function RetainNonEmpty(pending: map<Hash, seq<PendingBid>>): map<Hash, seq<PendingBid>> {
    map t | t in pending && pending[t] != [] :: pending[t]
  }

  lemma RetainAll(pending: map<Hash, seq<PendingBid>>)
    requires PendingWellFormed(pending)
    ensures RetainNonEmpty(pending) == pending
  {
  }

  lemma RetainAfterRemoval(pending: map<Hash, seq<PendingBid>>, t: Hash, v: seq<PendingBid>)
    requires PendingWellFormed(pending) && t in pending
    ensures RetainNonEmpty(pending[t := v]) == SetParked(pending, t, v)
  {
    assert RetainNonEmpty(pending[t := v]) == SetParked(pending, t, v);
  }
}
