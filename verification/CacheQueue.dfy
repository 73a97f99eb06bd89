/** What the two loops over the cache queue take, in any state, stated on the fields before the call. */
module CacheQueue {
  import opened Base
  import opened Policy
  import opened PoolSpec
  import opened PoolInvariant
  import opened PoolRuns

  function Members<T(==)>(xs: seq<T>): set<T> {
    set x | x in xs
  }

  /** `s` once its first `n` slots and the entries of their hashes are gone. */
  ghost function CutCache(s: Pool, n: nat): Pool
    requires n <= |s.cacheOrder|
  {
    var gone := Members(s.cacheOrder[..n]);
    s.(cache := s.cache - gone, cacheOrder := s.cacheOrder[n..], streamed := s.streamed - gone)
  }

  lemma CutNone(s: Pool)
    ensures CutCache(s, 0) == s
  {
    assert Members(s.cacheOrder[..0]) == {};
  }

  lemma MembersFront<T>(xs: seq<T>, n: nat)
    requires n < |xs|
    ensures Members(xs[..n + 1]) == {xs[0]} + Members(xs[1..][..n])
  {
    assert xs[..n + 1] == [xs[0]] + xs[1..][..n];
  }

  lemma CutMore(s: Pool, n: nat)
    requires CacheRep(s.cache, s.cacheOrder, s.streamed) && n < |s.cacheOrder|
    ensures CutCache(s, n + 1) == CutCache(PopCacheSlot(s), n)
  {
    MembersFront(s.cacheOrder, n);
    var s1, gone := PopCacheSlot(s), Members(s.cacheOrder[1..][..n]);
    assert s1.cache == s.cache - {s.cacheOrder[0]} && s1.streamed == s.streamed - {s.cacheOrder[0]};
    assert s1.cache - gone == s.cache - ({s.cacheOrder[0]} + gone);
    assert s1.streamed - gone == s.streamed - ({s.cacheOrder[0]} + gone);
  }

  // ----- capacity -----

  /** `n` is the least number of slots whose entries have to go for the capacity to hold. */
  ghost predicate LeastCut(s: Pool, n: nat) {
    && n <= |s.cacheOrder|
    && |CutCache(s, n).cache| <= s.cfg.maxCache
    && forall i :: 0 <= i < n ==> |CutCache(s, i).cache| > s.cfg.maxCache
  }

  lemma LeastMore(s: Pool, n: nat)
    requires CacheRep(s.cache, s.cacheOrder, s.streamed) && s.cacheOrder != [] && |s.cache| > s.cfg.maxCache
    requires LeastCut(PopCacheSlot(s), n)
    ensures LeastCut(s, n + 1) && CutCache(s, n + 1) == CutCache(PopCacheSlot(s), n)
  {
    CutMore(s, n);
    forall i | 0 <= i < n + 1
      ensures |CutCache(s, i).cache| > s.cfg.maxCache
    {
      if i == 0 {
        CutNone(s);
      } else {
        CutMore(s, i - 1);
      }
    }
  }

  lemma {:induction false} EvictCacheExact(s: Pool)
    requires Rep(s)
    ensures exists n: nat :: LeastCut(s, n) && EvictCache(s) == CutCache(s, n)
    decreases |s.cacheOrder|
  {
    if |s.cache| <= s.cfg.maxCache {
      CutNone(s);
      assert LeastCut(s, 0);
    } else {
      CacheQueueNotEmpty(s);
      PopCacheStep(s);
      EvictCacheExact(PopCacheSlot(s));
      var n: nat :| LeastCut(PopCacheSlot(s), n) && EvictCache(PopCacheSlot(s)) == CutCache(PopCacheSlot(s), n);
      LeastMore(s, n);
    }
  }

  /** Caching a transaction stores it with its instant, queues its hash unless it was cached already, and drops the
      entries of the oldest slots, no more of them than the capacity demands. */
  lemma InsertCacheExact(s: Pool, h: Hash, tx: Tx, now: nat)
    requires Rep(s)
    ensures var stored := s.(cache := s.cache[h := CachedTx(tx, now)],
                             cacheOrder := s.cacheOrder + if h in s.cache then [] else [h]);
            exists n: nat :: LeastCut(stored, n) && InsertCache(s, h, tx, now) == CutCache(stored, n)
  {
    var stored := s.(cache := s.cache[h := CachedTx(tx, now)],
                     cacheOrder := s.cacheOrder + if h in s.cache then [] else [h]);
    assert s.cacheOrder + [] == s.cacheOrder;
    assert StoreCached(s, h, tx, now) == stored;
    InsertCacheKeeps(s, h, tx, now);
    EvictCacheExact(stored);
  }

  // ----- age -----

  /** Slot `n` is the first that stands for a young transaction. */
  ghost predicate FirstYoung(s: Pool, now: nat, n: nat) {
    && n <= |s.cacheOrder|
    && (forall i :: 0 <= i < n ==> !Young(s, s.cacheOrder[i], now))
    && (n < |s.cacheOrder| ==> Young(s, s.cacheOrder[n], now))
  }

  lemma FirstMore(s: Pool, now: nat, n: nat)
    requires s.cacheOrder != [] && !Young(s, s.cacheOrder[0], now) && FirstYoung(PopCacheSlot(s), now, n)
    ensures FirstYoung(s, now, n + 1)
  {
    var s1 := PopCacheSlot(s);
    forall i | 0 < i < |s.cacheOrder|
      ensures Young(s, s.cacheOrder[i], now) == Young(s1, s1.cacheOrder[i - 1], now)
    {
      assert s1.cacheOrder[i - 1] == s.cacheOrder[i];
    }
  }

  /** In any state the cache half of a prune drops the slots before the first that stands for a young transaction,
      with the entries of their hashes. */
  lemma {:induction false} PruneCachePrefix(s: Pool, now: nat)
    requires Rep(s)
    ensures exists n: nat :: FirstYoung(s, now, n) && PruneCache(s, now) == CutCache(s, n)
    decreases |s.cacheOrder|
  {
    if s.cacheOrder == [] {
      CutNone(s);
      assert FirstYoung(s, now, 0);
    } else {
      var front := s.cacheOrder[0];
      if front in s.cache {
        YoungIsNotExpired(s, front, now);
      }
      if Young(s, front, now) {
        CutNone(s);
        assert FirstYoung(s, now, 0);
      } else {
        PopCacheStep(s);
        PruneCachePrefix(PopCacheSlot(s), now);
        var s1 := PopCacheSlot(s);
        var n: nat :| FirstYoung(s1, now, n) && PruneCache(s1, now) == CutCache(s1, n);
        FirstMore(s, now, n);
        CutMore(s, n);
      }
    }
  }
}
