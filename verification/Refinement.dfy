/** The pairing pool refines the naive reference, as long as no observed hash still has a slot in a queue. */
module Refinement {
  import opened Base
  import opened PoolSpec
  import opened NaivePool

  // ----- subsequences -----

  /** `live` is `order` with some elements left out. */
  ghost predicate Sub<T(!new)>(order: seq<T>, live: seq<T>) {
    if live == [] then true
    else order != [] && (if order[0] == live[0] then Sub(order[1..], live[1..]) else Sub(order[1..], live))
  }

  lemma {:induction false} SubMember<T(!new)>(order: seq<T>, live: seq<T>, x: T)
    requires Sub(order, live) && x in live
    ensures x in order
  {
    if order[0] == live[0] {
      if x != live[0] {
        SubMember(order[1..], live[1..], x);
      }
    } else {
      SubMember(order[1..], live, x);
    }
  }

  lemma {:induction false} SubAppend<T(!new)>(order: seq<T>, live: seq<T>, x: T)
    requires Sub(order, live) && x !in order
    ensures Sub(order + [x], live + [x])
  {
    if order == [] {
      assert live == [];
    } else {
      assert (order + [x])[1..] == order[1..] + [x];
      if live == [] {
        SubAppend(order[1..], live, x);
      } else if order[0] == live[0] {
        SubAppend(order[1..], live[1..], x);
        assert (live + [x])[1..] == live[1..] + [x];
      } else {
        SubAppend(order[1..], live, x);
      }
    }
  }

  lemma {:induction false} SubTrans<T(!new)>(a: seq<T>, b: seq<T>, c: seq<T>)
    requires Sub(a, b) && Sub(b, c) && Distinct(a)
    ensures Sub(a, c)
  {
    if c != [] {
      if a[0] == b[0] {
        if b[0] == c[0] {
          SubTrans(a[1..], b[1..], c[1..]);
        } else {
          SubTrans(a[1..], b[1..], c);
        }
      } else {
        SubMember(b, c, c[0]);
        SubMember(a[1..], b, c[0]);
        SubTrans(a[1..], b, c);
      }
    }
  }

  /** The front of the order is either the front of the live part or stale. */
  lemma SubPop<T(!new)>(order: seq<T>, live: seq<T>)
    requires Sub(order, live) && Distinct(order) && order != []
    ensures if order[0] in live then live[0] == order[0] && Sub(order[1..], live[1..]) else Sub(order[1..], live)
  {
    if live == [] || live[0] != order[0] {
      if order[0] in live {
        SubMember(order[1..], live, order[0]);
      }
    }
  }

  lemma {:induction false} SubDistinct<T(!new)>(order: seq<T>, live: seq<T>)
    requires Sub(order, live) && Distinct(order)
    ensures Distinct(live)
  {
    if live != [] {
      if order[0] == live[0] {
        SubDistinct(order[1..], live[1..]);
        forall j | 1 <= j < |live|
          ensures live[j] != live[0]
        {
          SubMember(order[1..], live[1..], live[1..][j - 1]);
        }
        forall i, j | 0 <= i < j < |live|
          ensures live[i] != live[j]
        {
          if i > 0 {
            assert live[1..][i - 1] != live[1..][j - 1];
          }
        }
      } else {
        SubDistinct(order[1..], live);
      }
    }
  }

  // ----- lists of entries and of bids -----

  lemma {:induction false} HashesConcat(xs: seq<Entry>, ys: seq<Entry>)
    ensures Hashes(xs + ys) == Hashes(xs) + Hashes(ys)
  {
    if xs == [] {
      assert xs + ys == ys;
    } else {
      assert (xs + ys)[1..] == xs[1..] + ys;
      HashesConcat(xs[1..], ys);
    }
  }

  lemma {:induction false} SlotsConcat(xs: seq<PendingBid>, ys: seq<PendingBid>)
    ensures Slots(xs + ys) == Slots(xs) + Slots(ys)
  {
    if xs == [] {
      assert xs + ys == ys;
    } else {
      assert (xs + ys)[1..] == xs[1..] + ys;
      SlotsConcat(xs[1..], ys);
    }
  }

  lemma {:induction false} HashesAt(xs: seq<Entry>)
    ensures |Hashes(xs)| == |xs|
    ensures forall i :: 0 <= i < |xs| ==> Hashes(xs)[i] == xs[i].hash
  {
    if xs != [] {
      HashesAt(xs[1..]);
    }
  }

  lemma {:induction false} SlotsAt(xs: seq<PendingBid>)
    ensures |Slots(xs)| == |xs|
    ensures forall i :: 0 <= i < |xs| ==> Slots(xs)[i] == Slot(xs[i].target, xs[i].hash)
  {
    if xs != [] {
      SlotsAt(xs[1..]);
    }
  }

  lemma {:induction false} HashesFilter(xs: seq<Entry>, keep: Entry -> bool)
    requires Distinct(Hashes(xs))
    ensures Sub(Hashes(xs), Hashes(Filter(xs, keep)))
  {
    if xs != [] {
      var hs := Hashes(xs);
      assert hs[1..] == Hashes(xs[1..]);
      assert Distinct(hs[1..]);
      HashesFilter(xs[1..], keep);
      var kept := Filter(xs[1..], keep);
      if keep(xs[0]) {
        assert ([xs[0]] + kept)[1..] == kept;
      } else if kept != [] {
        assert [] + kept == kept;
        SubMember(hs[1..], Hashes(kept), Hashes(kept)[0]);
      }
    }
  }

  lemma {:induction false} SlotsFilter(xs: seq<PendingBid>, keep: PendingBid -> bool)
    requires Distinct(Slots(xs))
    ensures Sub(Slots(xs), Slots(Filter(xs, keep)))
  {
    if xs != [] {
      var ss := Slots(xs);
      assert ss[1..] == Slots(xs[1..]);
      assert Distinct(ss[1..]);
      SlotsFilter(xs[1..], keep);
      var kept := Filter(xs[1..], keep);
      if keep(xs[0]) {
        assert ([xs[0]] + kept)[1..] == kept;
      } else if kept != [] {
        assert [] + kept == kept;
        SubMember(ss[1..], Slots(kept), Slots(kept)[0]);
      }
    }
  }

  // ----- the relation -----

  /** The cache holds exactly the seen entries, whose slots are in order in a queue without repetition. */
  ghost predicate SeenRep(order: seq<Hash>, cache: map<Hash, CachedTx>, seen: seq<Entry>) {
    && Distinct(order)
    && Sub(order, Hashes(seen))
    && (forall k :: k in cache <==> k in Hashes(seen))
    && (forall e :: e in seen ==> e.hash in cache && cache[e.hash] == CachedTx(e.tx, e.seenAt))
  }

  ghost predicate BidsDistinct(order: seq<Slot>) {
    forall i, j :: 0 <= i < j < |order| ==> order[i].bid != order[j].bid
  }

  /** The vectors hold exactly the waiting bids, whose slots are in order in a queue without repetition. */
  ghost predicate WaitRep(order: seq<Slot>, pending: map<Hash, seq<PendingBid>>, count: int, waiting: seq<PendingBid>) {
    && BidsDistinct(order)
    && Sub(order, Slots(waiting))
    && (forall t :: Parked(pending, t) == Filter(waiting, For(t)))
    && (forall t :: t in pending ==> pending[t] != [])
    && count == |waiting|
  }

  ghost predicate EntriesInOrder(seen: seq<Entry>, clock: nat) {
    && (forall i, j :: 0 <= i < j < |seen| ==> seen[i].seenAt <= seen[j].seenAt)
    && (forall i :: 0 <= i < |seen| ==> seen[i].seenAt <= clock)
  }

  ghost predicate BidsInOrder(waiting: seq<PendingBid>, clock: nat) {
    && (forall i, j :: 0 <= i < j < |waiting| ==> waiting[i].seenAt <= waiting[j].seenAt)
    && (forall i :: 0 <= i < |waiting| ==> waiting[i].seenAt <= clock)
  }

  ghost predicate Refines(s: Pool, n: Naive, clock: nat) {
    && s.cfg == n.cfg
    && SeenRep(s.cacheOrder, s.cache, n.seen)
    && WaitRep(s.pendingOrder, s.pending, s.pendingCount, n.waiting)
    && s.streamed == n.offered && s.streamed <= s.cache.Keys
    && EntriesInOrder(n.seen, clock) && BidsInOrder(n.waiting, clock)
    && |n.seen| <= s.cfg.maxCache && |n.waiting| <= s.cfg.maxPending
  }

  /** `h` has no slot, live or stale, in either queue. */
  ghost predicate Unqueued(s: Pool, h: Hash) {
    && h !in s.cacheOrder
    && forall i :: 0 <= i < |s.pendingOrder| ==> s.pendingOrder[i].bid != h
  }

  // ----- cache -----

  lemma SeenCard(order: seq<Hash>, cache: map<Hash, CachedTx>, seen: seq<Entry>)
    requires SeenRep(order, cache, seen)
    ensures |cache| == |seen|
  {
    SubDistinct(order, Hashes(seen));
    HashesAt(seen);
    DistinctCard(Hashes(seen), cache.Keys);
  }

  lemma PopSeen(s: Pool, seen: seq<Entry>)
    requires SeenRep(s.cacheOrder, s.cache, seen) && s.cacheOrder != []
    ensures var s' := PopCacheSlot(s);
            if s.cacheOrder[0] in s.cache
            then seen != [] && seen[0].hash == s.cacheOrder[0] && SeenRep(s'.cacheOrder, s'.cache, seen[1..])
            else SeenRep(s'.cacheOrder, s'.cache, seen)
  {
    SubPop(s.cacheOrder, Hashes(seen));
    if s.cacheOrder[0] in s.cache {
      var hs := Hashes(seen);
      SubDistinct(s.cacheOrder, hs);
      assert hs[1..] == Hashes(seen[1..]);
      HashesAt(seen);
      assert forall e :: e in seen[1..] ==> e in seen && e.hash != hs[0];
      assert forall k :: k in hs <==> k == hs[0] || k in hs[1..];
    }
  }

  /** `s'` differs from `s` in the cache alone, and keeps as streamed what it keeps cached. */
  ghost predicate OnlyCache(s: Pool, s': Pool) {
    && s' == s.(cache := s'.cache, cacheOrder := s'.cacheOrder, streamed := s'.streamed)
    && s'.cache.Keys <= s.cache.Keys
    && s'.streamed == s.streamed * s'.cache.Keys
  }

  lemma PopOnlyCache(s: Pool)
    requires s.streamed <= s.cache.Keys && s.cacheOrder != []
    ensures OnlyCache(s, PopCacheSlot(s))
  {
  }

  lemma OnlyCacheTrans(s: Pool, s1: Pool, s2: Pool)
    requires OnlyCache(s, s1) && OnlyCache(s1, s2)
    ensures OnlyCache(s, s2)
  {
  }

  lemma {:induction false} EvictOnlyCache(s: Pool)
    requires s.streamed <= s.cache.Keys
    ensures OnlyCache(s, EvictCache(s))
    decreases |s.cacheOrder|
  {
    if |s.cache| > s.cfg.maxCache && s.cacheOrder != [] {
      PopOnlyCache(s);
      EvictOnlyCache(PopCacheSlot(s));
      OnlyCacheTrans(s, PopCacheSlot(s), EvictCache(s));
    }
  }

  lemma {:induction false} PruneOnlyCache(s: Pool, now: nat)
    requires s.streamed <= s.cache.Keys
    ensures OnlyCache(s, PruneCache(s, now))
    decreases |s.cacheOrder|
  {
    if s.cacheOrder != [] && !(s.cacheOrder[0] in s.cache && !CacheExpired(s, s.cacheOrder[0], now)) {
      PopOnlyCache(s);
      PruneOnlyCache(PopCacheSlot(s), now);
      OnlyCacheTrans(s, PopCacheSlot(s), PruneCache(s, now));
    }
  }

  lemma {:induction false} EvictCacheRefines(s: Pool, seen: seq<Entry>)
    requires SeenRep(s.cacheOrder, s.cache, seen)
    ensures var s' := EvictCache(s);
            SeenRep(s'.cacheOrder, s'.cache, Newest(seen, s.cfg.maxCache))
    decreases |s.cacheOrder|
  {
    SeenCard(s.cacheOrder, s.cache, seen);
    if |s.cache| > s.cfg.maxCache {
      SubMember(s.cacheOrder, Hashes(seen), Hashes(seen)[0]);
      PopSeen(s, seen);
      NewestDrop(seen, s.cfg.maxCache);
      if s.cacheOrder[0] in s.cache {
        EvictCacheRefines(PopCacheSlot(s), seen[1..]);
      } else {
        EvictCacheRefines(PopCacheSlot(s), seen);
      }
    }
  }

  /** In order, the first entry is young exactly when all are. */
  lemma YoungFromFront(s: Pool, seen: seq<Entry>, now: nat, clock: nat)
    requires SeenRep(s.cacheOrder, s.cache, seen) && EntriesInOrder(seen, clock)
    requires seen != [] && s.cacheOrder != [] && seen[0].hash == s.cacheOrder[0]
    ensures seen[0] in seen
    ensures CacheExpired(s, s.cacheOrder[0], now) ==> !YoungEntry(now, s.cfg.ttl)(seen[0])
    ensures !CacheExpired(s, s.cacheOrder[0], now) ==> Filter(seen, YoungEntry(now, s.cfg.ttl)) == seen
  {
    assert seen[0] in seen;
    AgeBelow(now, seen[0].seenAt, s.cfg.ttl);
    if !CacheExpired(s, s.cacheOrder[0], now) {
      FilterAll(seen, YoungEntry(now, s.cfg.ttl));
    }
  }

  lemma {:induction false} PruneCacheRefines(s: Pool, seen: seq<Entry>, now: nat, clock: nat)
    requires SeenRep(s.cacheOrder, s.cache, seen) && EntriesInOrder(seen, clock)
    ensures var s' := PruneCache(s, now);
            SeenRep(s'.cacheOrder, s'.cache, Filter(seen, YoungEntry(now, s.cfg.ttl)))
    decreases |s.cacheOrder|
  {
    if s.cacheOrder == [] {
      HashesAt(seen);
      assert seen == [];
    } else {
      PopSeen(s, seen);
      var s1 := PopCacheSlot(s);
      var front := s.cacheOrder[0];
      if front !in s.cache {
        PruneCacheRefines(s1, seen, now, clock);
      } else {
        YoungFromFront(s, seen, now, clock);
        if CacheExpired(s, front, now) {
          FilterDrop(seen, YoungEntry(now, s.cfg.ttl));
          PruneCacheRefines(s1, seen[1..], now, clock);
        }
      }
    }
  }

  // ----- parked bids -----

  lemma {:induction false} SubBids(order: seq<Slot>, live: seq<Slot>)
    requires Sub(order, live) && BidsDistinct(order)
    ensures BidsDistinct(live)
  {
    if live != [] {
      if order[0] == live[0] {
        SubBids(order[1..], live[1..]);
        forall j | 1 <= j < |live|
          ensures live[j].bid != live[0].bid
        {
          SubMember(order[1..], live[1..], live[1..][j - 1]);
        }
        forall i, j | 0 <= i < j < |live|
          ensures live[i].bid != live[j].bid
        {
          if i > 0 {
            assert live[1..][i - 1].bid != live[1..][j - 1].bid;
          }
        }
      } else {
        SubBids(order[1..], live);
      }
    }
  }

  lemma WaitingDistinct(order: seq<Slot>, waiting: seq<PendingBid>)
    requires Sub(order, Slots(waiting)) && BidsDistinct(order)
    ensures forall i, j :: 0 <= i < j < |waiting| ==> waiting[i].hash != waiting[j].hash
    ensures Distinct(order) && Distinct(Slots(waiting))
  {
  }

  lemma SlotIsLive(s: Pool, waiting: seq<PendingBid>, slot: Slot)
    requires WaitRep(s.pendingOrder, s.pending, s.pendingCount, waiting)
    ensures SlotLive(s, slot) <==> slot in Slots(waiting)
  {
    SlotsAt(waiting);
    var v := Parked(s.pending, slot.target);
    if SlotLive(s, slot) {
      var b := SlotBid(s, slot);
      FilterMembers(waiting, For(slot.target), b);
      var i :| 0 <= i < |waiting| && waiting[i] == b;
      assert Slots(waiting)[i] == slot;
    }
    if slot in Slots(waiting) {
      var i :| 0 <= i < |waiting| && Slots(waiting)[i] == slot;
      FilterMembers(waiting, For(slot.target), waiting[i]);
      var j :| 0 <= j < |v| && v[j] == waiting[i];
      assert v[j].hash == slot.bid;
    }
  }

  lemma PopStale(s: Pool, waiting: seq<PendingBid>)
    requires WaitRep(s.pendingOrder, s.pending, s.pendingCount, waiting) && s.pendingOrder != []
    requires !SlotLive(s, s.pendingOrder[0])
    ensures var s' := PopPendingSlot(s).0;
            WaitRep(s'.pendingOrder, s'.pending, s'.pendingCount, waiting)
  {
  }

  lemma LiveFront(s: Pool, waiting: seq<PendingBid>)
    requires WaitRep(s.pendingOrder, s.pending, s.pendingCount, waiting) && s.pendingOrder != []
    requires SlotLive(s, s.pendingOrder[0])
    ensures waiting != [] && s.pendingOrder[0] == Slot(waiting[0].target, waiting[0].hash)
    ensures Sub(s.pendingOrder[1..], Slots(waiting[1..]))
    ensures Parked(s.pending, waiting[0].target) == [waiting[0]] + Filter(waiting[1..], For(waiting[0].target))
    ensures SlotBid(s, s.pendingOrder[0]) == waiting[0]
  {
    WaitingDistinct(s.pendingOrder, waiting);
    SubPop(s.pendingOrder, Slots(waiting));
    SlotIsLive(s, waiting, s.pendingOrder[0]);
    assert Slots(waiting)[1..] == Slots(waiting[1..]);
    assert Parked(s.pending, waiting[0].target) == Filter(waiting, For(waiting[0].target));
  }

  lemma PopLive(s: Pool, waiting: seq<PendingBid>)
    requires WaitRep(s.pendingOrder, s.pending, s.pendingCount, waiting) && s.pendingOrder != []
    requires SlotLive(s, s.pendingOrder[0])
    ensures waiting != []
    ensures var s' := PopPendingSlot(s).0;
            WaitRep(s'.pendingOrder, s'.pending, s'.pendingCount, waiting[1..])
  {
    LiveFront(s, waiting);
    var b := waiting[0];
    var rest := Filter(waiting[1..], For(b.target));
    assert RemoveAt([b] + rest, 0) == rest;
    var s' := PopPendingSlot(s).0;
    assert s'.pending == SetParked(s.pending, b.target, rest);
    forall t
      ensures Parked(s'.pending, t) == Filter(waiting[1..], For(t))
    {
      if t != b.target {
        FilterDrop(waiting, For(t));
        assert Parked(s.pending, t) == Filter(waiting, For(t));
      }
    }
  }

  lemma PopWaiting(s: Pool, waiting: seq<PendingBid>)
    requires WaitRep(s.pendingOrder, s.pending, s.pendingCount, waiting) && s.pendingOrder != []
    ensures var (s', gone) := PopPendingSlot(s);
            && s' == s.(pending := s'.pending, pendingOrder := s'.pendingOrder, pendingCount := s'.pendingCount)
            && if SlotLive(s, s.pendingOrder[0])
               then waiting != [] && gone == [waiting[0]] && SlotBid(s, s.pendingOrder[0]) == waiting[0]
                    && WaitRep(s'.pendingOrder, s'.pending, s'.pendingCount, waiting[1..])
               else gone == [] && WaitRep(s'.pendingOrder, s'.pending, s'.pendingCount, waiting)
  {
    if SlotLive(s, s.pendingOrder[0]) {
      LiveFront(s, waiting);
      PopLive(s, waiting);
    } else {
      PopStale(s, waiting);
    }
  }

  lemma {:induction false} EvictPendingRefines(s: Pool, waiting: seq<PendingBid>)
    requires WaitRep(s.pendingOrder, s.pending, s.pendingCount, waiting)
    ensures var (s', gone) := EvictPending(s);
            var kept := Newest(waiting, s.cfg.maxPending);
            && WaitRep(s'.pendingOrder, s'.pending, s'.pendingCount, kept)
            && s' == s.(pending := s'.pending, pendingOrder := s'.pendingOrder, pendingCount := s'.pendingCount)
            && |gone| == |waiting| - |kept|
    decreases |s.pendingOrder|
  {
    if s.pendingCount > s.cfg.maxPending {
      SubMember(s.pendingOrder, Slots(waiting), Slots(waiting)[0]);
      PopWaiting(s, waiting);
      NewestDrop(waiting, s.cfg.maxPending);
      if SlotLive(s, s.pendingOrder[0]) {
        EvictPendingRefines(PopPendingSlot(s).0, waiting[1..]);
      } else {
        EvictPendingRefines(PopPendingSlot(s).0, waiting);
      }
    }
  }

  lemma {:induction false} PrunePendingRefines(s: Pool, waiting: seq<PendingBid>, now: nat, clock: nat)
    requires WaitRep(s.pendingOrder, s.pending, s.pendingCount, waiting) && BidsInOrder(waiting, clock)
    ensures var (s', gone) := PrunePending(s, now);
            var kept := Filter(waiting, YoungBid(now, s.cfg.ttl));
            && WaitRep(s'.pendingOrder, s'.pending, s'.pendingCount, kept)
            && s' == s.(pending := s'.pending, pendingOrder := s'.pendingOrder, pendingCount := s'.pendingCount)
            && |gone| == |waiting| - |kept|
    decreases |s.pendingOrder|
  {
    if s.pendingOrder == [] {
      SlotsAt(waiting);
      assert waiting == [];
    } else {
      PopWaiting(s, waiting);
      if SlotLive(s, s.pendingOrder[0]) {
        AgeBelow(now, waiting[0].seenAt, s.cfg.ttl);
      }
      if FrontBidWaits(s, now) {
        FilterAll(waiting, YoungBid(now, s.cfg.ttl));
      } else if SlotLive(s, s.pendingOrder[0]) {
        FilterDrop(waiting, YoungBid(now, s.cfg.ttl));
        PrunePendingRefines(PopPendingSlot(s).0, waiting[1..], now, clock);
      } else {
        PrunePendingRefines(PopPendingSlot(s).0, waiting, now, clock);
      }
    }
  }
}
