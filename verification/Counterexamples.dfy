/** Concrete runs in which a blunt reading of the design fails. */
module Counterexamples {
  import opened Base
  import opened Policy
  import opened PoolSpec
  import opened PoolInvariant
  import opened PoolRuns
  import opened SentSpec
  import opened LoopSpec

  const GATEWAY: Address := 7

  function Vanilla(): Tx {
    Tx(Some(8), 21000, 5, 100, None)
  }

  function BidOn(target: Hash): Tx {
    Tx(Some(GATEWAY), 21000, 5, 100, Some(GatewayCall(9, target)))
  }

  function Small(capacity: nat): Config
    requires capacity >= 1
  {
    Settings(PolicyConfig(GATEWAY, 0), 0xFFFF, 2500, capacity, 16)
  }

  lemma Kinds(target: Hash, capacity: nat)
    requires target != 0 && capacity >= 1
    ensures Classify(Vanilla(), Small(capacity).policy) == Kind.Vanilla
    ensures Classify(BidOn(target), Small(capacity).policy) == Backrun(target)
  {
  }

  /** Re-observing hash 1 refreshes its age but not its slot, so a prune stops there and keeps the expired 2. */
  lemma PruneStopsEarly()
    ensures var ops := [ObserveOp(1, Vanilla(), 0), ObserveOp(2, Vanilla(), 1), ObserveOp(1, Vanilla(), 1000)];
            var s := After(Init(Small(16)), ops);
            CacheExpired(s, 2, 2501) && 2 in Prune(s, 2501).pool.cache
  {
    var cfg := Small(16);
    var o1, o2, o3 := ObserveOp(1, Vanilla(), 0), ObserveOp(2, Vanilla(), 1), ObserveOp(1, Vanilla(), 1000);
    Kinds(1, 16);
    assert [o1][..0] == [] && [o1, o2][..1] == [o1] && [o1, o2, o3][..2] == [o1, o2];
    var a := CachedTx(Vanilla(), 0);
    var b := CachedTx(Vanilla(), 1);
    var c := CachedTx(Vanilla(), 1000);
    assert After(Init(cfg), []) == Init(cfg);
    var s1 := Init(cfg).(cache := map[1 := a], cacheOrder := [1]);
    assert StoreCached(Init(cfg), 1, Vanilla(), 0) == s1;
    assert After(Init(cfg), [o1]) == s1;
    var s2 := s1.(cache := map[1 := a, 2 := b], cacheOrder := [1, 2]);
    assert StoreCached(s1, 2, Vanilla(), 1) == s2;
    assert After(Init(cfg), [o1, o2]) == s2;
    var s3 := s2.(cache := map[1 := c, 2 := b]);
    assert StoreCached(s2, 1, Vanilla(), 1000) == s3;
    assert After(Init(cfg), [o1, o2, o3]) == s3;
    assert PruneCache(s3, 2501) == s3;
    assert PrunePending(s3, 2501) == (s3, []);
  }

  function ParkedBid(h: Hash, target: Hash): PendingBid {
    PendingBid(h, BidOn(target), ComputePriority(BidOn(target), PolicyConfig(GATEWAY, 0)), target, 0)
  }

  function Reuse(): seq<Op> {
    [ObserveOp(1, Vanilla(), 0), ForgetOp(1, 1), ObserveOp(3, BidOn(1), 0), ObserveOp(4, Vanilla(), 0)]
  }

  lemma StepTo(s: Pool, ops: seq<Op>, k: nat, before: Pool)
    requires k < |ops| && After(s, ops[..k]) == before
    ensures After(s, ops[..k + 1]) == Apply(before, ops[k]).pool
  {
    AfterStep(s, ops, k);
  }

  function Parked1(): Pool {
    Init(Small(2)).(cache := map[3 := CachedTx(BidOn(1), 0)], cacheOrder := [1, 3],
                    pending := map[1 := [ParkedBid(3, 1)]], pendingOrder := [Slot(1, 3)], pendingCount := 1)
  }

  function FullCache(): Pool {
    Parked1().(cache := map[3 := CachedTx(BidOn(1), 0), 4 := CachedTx(Vanilla(), 0)], cacheOrder := [1, 3, 4])
  }

  function Seen1(): Pool {
    Init(Small(2)).(cache := map[1 := CachedTx(Vanilla(), 0)], cacheOrder := [1])
  }

  lemma Sees1()
    ensures Observe(Init(Small(2)), 1, Vanilla(), 0).pool == Seen1()
  {
    Kinds(1, 2);
    assert StoreCached(Init(Small(2)), 1, Vanilla(), 0) == Seen1();
  }

  lemma Forgets1()
    ensures Forget(Seen1(), 1, 1).pool == Init(Small(2)).(cacheOrder := [1])
  {
    assert ForgetKeys(Seen1(), 1) == Init(Small(2)).(cacheOrder := [1]);
  }

  lemma StaleSlot()
    ensures After(Init(Small(2)), Reuse()[..2]) == Init(Small(2)).(cacheOrder := [1])
  {
    assert Reuse()[..0] == [];
    Sees1();
    StepTo(Init(Small(2)), Reuse(), 0, Init(Small(2)));
    Forgets1();
    StepTo(Init(Small(2)), Reuse(), 1, Seen1());
  }

  lemma FullWithStaleFront()
    ensures After(Init(Small(2)), Reuse()[..4]) == FullCache()
  {
    var s0 := Init(Small(2));
    StaleSlot();
    AfterPark(s0.(cacheOrder := [1]), Parked1());
    StepTo(s0, Reuse(), 2, s0.(cacheOrder := [1]));
    ThenOther();
    StepTo(s0, Reuse(), 3, Parked1());
  }

  lemma ThenOther()
    ensures Observe(Parked1(), 4, Vanilla(), 0).pool == FullCache()
  {
  }

  lemma FullCacheSelfEvicts()
    ensures SelfEvicts(FullCache(), 1) && 1 in FullCache().pending && 1 !in FullCache().streamed
  {
    assert |FullCache().cache.Keys| == |{3, 4}|;
    assert FullCache().cacheOrder[0] == 1;
  }

  /** Observed, forgotten and observed again behind a full cache, hash 1 is evicted by its own insertion through its
      stale slot: the bid that waited for it goes out alone. */
  lemma BidWithoutTarget()
    ensures Observe(After(Init(Small(2)), Reuse()), 1, Vanilla(), 0).res.reinjections == BidsFor(1, [ParkedBid(3, 1)])
  {
    FullWithStaleFront();
    assert Reuse()[..4] == Reuse();
    ReachableInv(Small(2), Reuse());
    FullCacheSelfEvicts();
    Kinds(1, 2);
    FlushLeadsWithTarget(FullCache(), 1, Vanilla(), 0);
    assert [] + BidsFor(1, [ParkedBid(3, 1)]) == BidsFor(1, [ParkedBid(3, 1)]);
  }

  lemma AfterPark(s: Pool, s': Pool)
    requires s == Init(Small(2)).(cacheOrder := [1])
    requires s' == Init(Small(2)).(cache := map[3 := CachedTx(BidOn(1), 0)], cacheOrder := [1, 3],
                                   pending := map[1 := [ParkedBid(3, 1)]], pendingOrder := [Slot(1, 3)],
                                   pendingCount := 1)
    ensures Observe(s, 3, BidOn(1), 0).pool == s'
  {
    Kinds(1, 2);
    var s1 := s.(cache := map[3 := CachedTx(BidOn(1), 0)], cacheOrder := [1, 3]);
    assert StoreCached(s, 3, BidOn(1), 0) == s1;
    var b := ParkedBid(3, 1);
    assert Parked(s1.pending, 1) + [b] == [b];
    assert StoreBid(s1, b).pending == map[1 := [b]];
    assert StoreBid(s1, b).pendingOrder == [Slot(1, 3)];
    assert StoreBid(s1, b) == s';
  }

  // ----- a failed send -----

  function SeenTarget(t: Hash): Pool {
    Init(Small(16)).(cache := map[t := CachedTx(Vanilla(), 0)], cacheOrder := [t])
  }

  function SeenFirstBid(t: Hash): Pool {
    SeenTarget(t).(cache := map[t := CachedTx(Vanilla(), 0), 2 := CachedTx(BidOn(t), 0)], cacheOrder := [t, 2],
                   streamed := {t})
  }

  function Streamed(t: Hash, h: Hash): Reinjection {
    BidFor(t, h, BidOn(t), ComputePriority(BidOn(t), PolicyConfig(GATEWAY, 0)))
  }

  lemma TargetArrives(t: Hash)
    requires t > 3
    ensures Handle(Start(Small(16), 16), Inserted(t, Vanilla(), 0, 0, 9))
            == (Loop(SeenTarget(t), NewSent(16)), [], false)
  {
    var s := Init(Small(16));
    Kinds(t, 16);
    assert Normalized(Small(16)) == Small(16);
    assert Prune(s, 0).pool == s;
    assert StoreCached(s, t, Vanilla(), 0) == SeenTarget(t);
    assert Observe(s, t, Vanilla(), 0).pool == SeenTarget(t);
  }

  lemma FirstBidArrives(t: Hash)
    requires t > 3
    ensures var e := Observe(Prune(SeenTarget(t), 0).pool, 2, BidOn(t), 0);
            e.pool == SeenFirstBid(t) && e.res.reinjections == [OpportunityFor(t, Vanilla()), Streamed(t, 2)]
  {
    var s := SeenTarget(t);
    Kinds(t, 16);
    assert Prune(s, 0).pool == s;
    var s1 := SeenFirstBid(t).(streamed := {});
    assert StoreCached(s, 2, BidOn(t), 0) == s1;
    assert InsertCache(s, 2, BidOn(t), 0) == s1;
  }

  lemma SecondBidArrives(t: Hash)
    requires t > 3
    ensures Observe(Prune(SeenFirstBid(t), 0).pool, 3, BidOn(t), 0).res.reinjections == [Streamed(t, 3)]
  {
    var s := SeenFirstBid(t);
    Kinds(t, 16);
    assert Prune(s, 0).pool == s;
    var s1 := StoreCached(s, 3, BidOn(t), 0);
    assert s1.cache == map[t := CachedTx(Vanilla(), 0), 2 := CachedTx(BidOn(t), 0), 3 := CachedTx(BidOn(t), 0)];
    assert |s1.cache.Keys| == |{t, 2, 3}|;
    assert InsertCache(s, 3, BidOn(t), 0) == s1;
  }

  function Arrivals(t: Hash): seq<Event> {
    [Inserted(t, Vanilla(), 0, 0, 9), Inserted(2, BidOn(t), 0, 0, 0), Inserted(3, BidOn(t), 0, 0, 9)]
  }

  function LostPairLog(t: Hash): seq<LogEntry> {
    [LostOut(OpportunityFor(t, Vanilla())), LostOut(Streamed(t, 2))]
  }

  lemma RunNext(start: Loop, events: seq<Event>, ev: Event, l: Loop, log: seq<LogEntry>, l': Loop, more: seq<LogEntry>)
    requires RunEvents(start, events) == (l, log) && Handle(l, ev).0 == l' && Handle(l, ev).1 == more
    ensures RunEvents(start, events + [ev]) == (l', log + more)
  {
    RunSnoc(start, events, ev);
  }

  lemma RunOn(start: Loop, events: seq<Event>, k: nat, l: Loop, log: seq<LogEntry>, l': Loop, more: seq<LogEntry>)
    requires k < |events| && RunEvents(start, events[..k]) == (l, log)
    requires Handle(l, events[k]).0 == l' && Handle(l, events[k]).1 == more
    ensures RunEvents(start, events[..k + 1]) == (l', log + more)
  {
    RunNext(start, events[..k], events[k], l, log, l', more);
    assert events[..k + 1] == events[..k] + [events[k]];
  }

  /** The first two events of a run, of which the first logs nothing. */
  lemma TwoSteps(start: Loop, events: seq<Event>, l1: Loop, l2: Loop, log: seq<LogEntry>)
    requires |events| >= 2
    requires Handle(start, events[0]).0 == l1 && Handle(start, events[0]).1 == []
    requires Handle(l1, events[1]).0 == l2 && Handle(l1, events[1]).1 == log
    ensures RunEvents(start, events[..2]) == (l2, log)
  {
    RunNext(start, [], events[0], start, [], l1, []);
    RunNext(start, [] + [events[0]], events[1], l1, [] + [], l2, log);
    assert events[..2] == [] + [events[0]] + [events[1]];
    assert [] + [] + log == log;
  }

  lemma AfterTwo(t: Hash)
    requires t > 3
    ensures RunEvents(Start(Small(16), 16), Arrivals(t)[..2]) == (Loop(SeenFirstBid(t), NewSent(16)), LostPairLog(t))
  {
    TargetArrives(t);
    FirstBidFails(t);
    TwoSteps(Start(Small(16), 16), Arrivals(t), Loop(SeenTarget(t), NewSent(16)),
             Loop(SeenFirstBid(t), NewSent(16)), LostPairLog(t));
  }

  /** The target's send fails; the pool counts it as streamed all the same, so the next bid goes out without it. */
  lemma FailedTargetIsNotRetried(t: Hash)
    requires t > 3
    ensures |Arrivals(t)| == 3
    ensures RunEvents(Start(Small(16), 16), Arrivals(t)[..3]).1
         == [LostOut(OpportunityFor(t, Vanilla())), LostOut(Streamed(t, 2))] + [SentOut(Streamed(t, 3))]
  {
    AfterTwo(t);
    SecondBidSends(t);
    RunOn(Start(Small(16), 16), Arrivals(t), 2, Loop(SeenFirstBid(t), NewSent(16)), LostPairLog(t),
          Handle(Loop(SeenFirstBid(t), NewSent(16)), Arrivals(t)[2]).0, [SentOut(Streamed(t, 3))]);
  }

  lemma FirstBidFails(t: Hash)
    requires t > 3
    ensures Handle(Loop(SeenTarget(t), NewSent(16)), Inserted(2, BidOn(t), 0, 0, 0))
         == (Loop(SeenFirstBid(t), NewSent(16)), LostPairLog(t), true)
  {
    FirstBidArrives(t);
    LostPair(OpportunityFor(t, Vanilla()), Streamed(t, 2));
  }

  lemma SecondBidSends(t: Hash)
    requires t > 3
    ensures Handle(Loop(SeenFirstBid(t), NewSent(16)), Inserted(3, BidOn(t), 0, 0, 9)).1 == [SentOut(Streamed(t, 3))]
  {
    SecondBidArrives(t);
    OneSent(Streamed(t, 3));
  }

  lemma LostPair(a: Reinjection, b: Reinjection)
    ensures SendAll(NewSent(16), [a, b], 0) == (NewSent(16), [LostOut(a), LostOut(b)], true)
  {
    assert [a, b][1..] == [b] && [b][1..] == [];
    assert LostAll([]) == [] && LostAll([b]) == [LostOut(b)];
    assert LostAll([a, b]) == [LostOut(a)] + LostAll([b]) == [LostOut(a), LostOut(b)];
  }

  lemma OneSent(r: Reinjection)
    ensures SendAll(NewSent(16), [r], 9).1 == [SentOut(r)]
  {
    LastSend(NewSent(16), r, 9);
  }

  // ----- a forgotten bid -----

  function ReinsertedBid(t: Hash): seq<Event> {
    [Inserted(2, BidOn(t), 0, 0, 9), Inserted(2, BidOn(t), 0, 0, 9), Gone(2, t), Inserted(t, Vanilla(), 0, 0, 9)]
  }

  function ParkedOne(t: Hash): Pool {
    Init(Small(16)).(cache := map[2 := CachedTx(BidOn(t), 0)], cacheOrder := [2],
                     pending := map[t := [ParkedBid(2, t)]], pendingOrder := [Slot(t, 2)], pendingCount := 1)
  }

  function ParkedTwo(t: Hash): Pool {
    ParkedOne(t).(pending := map[t := [ParkedBid(2, t), ParkedBid(2, t)]],
                 pendingOrder := [Slot(t, 2), Slot(t, 2)], pendingCount := 2)
  }

  function LeftOver(t: Hash): Pool {
    Init(Small(16)).(cacheOrder := [2], pending := map[t := [ParkedBid(2, t)]],
                     pendingOrder := [Slot(t, 2), Slot(t, 2)], pendingCount := 1)
  }

  lemma FirstParks(t: Hash)
    requires t > 3
    ensures Handle(Start(Small(16), 16), ReinsertedBid(t)[0]) == (Loop(ParkedOne(t), NewSent(16)), [], false)
  {
    var s, b := Init(Small(16)), ParkedBid(2, t);
    Kinds(t, 16);
    assert Prune(s, 0).pool == s;
    var s1 := s.(cache := map[2 := CachedTx(BidOn(t), 0)], cacheOrder := [2]);
    assert StoreCached(s, 2, BidOn(t), 0) == s1;
    assert [] + [b] == [b] && s1.pendingOrder + [Slot(t, 2)] == [Slot(t, 2)];
    ParksOn(t, s1, ParkedOne(t), []);
    assert Normalized(Small(16)) == Small(16);
  }

  /** Parking bid 2 on hash 1 after the bids `before`. */
  lemma ParksOn(t: Hash, s: Pool, s': Pool, before: seq<PendingBid>)
    requires t > 3
    requires s.cfg == Small(16) && s.cache == map[2 := CachedTx(BidOn(t), 0)] && s.pendingCount <= 1
    requires Parked(s.pending, t) == before
    requires s' == s.(pending := s.pending[t := before + [ParkedBid(2, t)]],
                      pendingOrder := s.pendingOrder + [Slot(t, 2)], pendingCount := s.pendingCount + 1)
    ensures ObserveBid(s, 2, BidOn(t), t, 0).pool == s' && ObserveBid(s, 2, BidOn(t), t, 0).res.reinjections == []
  {
    assert StoreBid(s, ParkedBid(2, t)) == s';
  }

  lemma SecondParks(t: Hash)
    requires t > 3
    ensures Handle(Loop(ParkedOne(t), NewSent(16)), ReinsertedBid(t)[1]) == (Loop(ParkedTwo(t), NewSent(16)), [], false)
  {
    var s, b := ParkedOne(t), ParkedBid(2, t);
    Kinds(t, 16);
    assert Prune(s, 0).pool == s;
    assert StoreCached(s, 2, BidOn(t), 0) == s;
    assert [b] + [b] == [b, b] && s.pending[t := [b, b]] == map[t := [b, b]];
    assert s.pendingOrder + [Slot(t, 2)] == [Slot(t, 2), Slot(t, 2)];
    ParksOn(t, s, ParkedTwo(t), [b]);
  }

  lemma OneIsForgotten(t: Hash)
    requires t > 3
    ensures ScanHit(ForgetKeys(ParkedTwo(t), 2), 2, t) && !ParkedOnce(ParkedTwo(t), 2)
    ensures Handle(Loop(ParkedTwo(t), NewSent(16)), ReinsertedBid(t)[2])
            == (Loop(LeftOver(t), NewSent(16)), [LeftPool(2)], false)
  {
    var s, b := ParkedTwo(t), ParkedBid(2, t);
    assert CountOf([b, b], 2) == 1 + CountOf([b], 2) && [b, b][1..] == [b];
    assert RemoveAt([b, b], 0) == [b];
    assert ForgetKeys(s, 2) == s.(cache := map[]);
    assert Forget(s, 2, t).pool == LeftOver(t);
    assert Remove(NewSent(16), 2) == NewSent(16);
  }

  lemma TargetFlushes(t: Hash)
    requires t > 3
    ensures Observe(Prune(LeftOver(t), 0).pool, t, Vanilla(), 0).res.reinjections
            == [OpportunityFor(t, Vanilla()), Streamed(t, 2)]
  {
    var s, b := LeftOver(t), ParkedBid(2, t);
    Kinds(t, 16);
    var p := s.(cacheOrder := []);
    assert PruneCache(s, 0) == p;
    assert Prune(s, 0).pool == p;
    var s1 := p.(cache := map[t := CachedTx(Vanilla(), 0)], cacheOrder := [t]);
    assert InsertCache(p, t, Vanilla(), 0) == s1;
    FlushesOne(t, s1, b);
    assert Observe(p, t, Vanilla(), 0) == ObserveVanilla(s1, t);
  }

  lemma FlushesOne(t: Hash, s: Pool, b: PendingBid)
    requires t > 3
    requires s.pending == map[t := [b]] && s.cache == map[t := CachedTx(Vanilla(), 0)] && s.streamed == {}
    ensures ObserveVanilla(s, t).res.reinjections == [OpportunityFor(t, Vanilla()), BidFor(t, b.hash, b.tx, b.scalar)]
  {
    assert BidsFor(t, [b]) == [BidFor(t, b.hash, b.tx, b.scalar)];
  }

  lemma TwoSent(a: Reinjection, b: Reinjection)
    requires a.hash != b.hash
    ensures SendAll(NewSent(16), [a, b], 9).1 == [SentOut(a), SentOut(b)]
  {
    var s1 := NewSent(16).(priorities := map[a.hash := a.priority], order := [a.hash]);
    assert [a, b][1..] == [b];
    StoreCard(NewSent(16), a.hash, a.priority);
    assert Store(NewSent(16), a.hash, a.priority) == s1;
    assert Insert(NewSent(16), a.hash, a.priority) == (s1, []);
    LastSend(s1, b, 8);
  }

  /** One reinjection sent with room to spare. */
  lemma LastSend(s: Sent, r: Reinjection, failAt: nat)
    requires r.hash !in s.priorities && |s.priorities| < s.maxEntries && |s.order| < s.maxEntries && failAt > 0
    ensures SendAll(s, [r], failAt).1 == [SentOut(r)]
  {
    StoreCard(s, r.hash, r.priority);
    assert Insert(s, r.hash, r.priority).1 == [];
    assert [r][1..] == [];
  }

  lemma AfterTwoParks(t: Hash)
    requires t > 3
    ensures RunEvents(Start(Small(16), 16), ReinsertedBid(t)[..2]) == (Loop(ParkedTwo(t), NewSent(16)), [])
  {
    FirstParks(t);
    SecondParks(t);
    TwoSteps(Start(Small(16), 16), ReinsertedBid(t), Loop(ParkedOne(t), NewSent(16)),
             Loop(ParkedTwo(t), NewSent(16)), []);
  }

  lemma AfterGone(t: Hash)
    requires t > 3
    ensures RunEvents(Start(Small(16), 16), ReinsertedBid(t)[..3]) == (Loop(LeftOver(t), NewSent(16)), [LeftPool(2)])
  {
    AfterTwoParks(t);
    OneIsForgotten(t);
    RunOn(Start(Small(16), 16), ReinsertedBid(t), 2, Loop(ParkedTwo(t), NewSent(16)), [],
          Loop(LeftOver(t), NewSent(16)), [LeftPool(2)]);
    assert [] + [LeftPool(2)] == [LeftPool(2)];
  }

  function FlushLog(t: Hash): seq<LogEntry> {
    [SentOut(OpportunityFor(t, Vanilla())), SentOut(Streamed(t, 2))]
  }

  lemma TargetSends(t: Hash)
    requires t > 3
    ensures Handle(Loop(LeftOver(t), NewSent(16)), ReinsertedBid(t)[3]).1 == FlushLog(t)
  {
    TargetFlushes(t);
    TwoSent(OpportunityFor(t, Vanilla()), Streamed(t, 2));
  }

  /** Inserted twice, bid 2 is parked twice; when it leaves, one copy stays, and the target still sends it. */
  lemma ForgottenBidIsSent(t: Hash)
    requires t > 3
    ensures |ReinsertedBid(t)| == 4
    ensures RunEvents(Start(Small(16), 16), ReinsertedBid(t)[..4]).1
         == [LeftPool(2)] + [SentOut(OpportunityFor(t, Vanilla())), SentOut(Streamed(t, 2))]
  {
    AfterGone(t);
    TargetSends(t);
    RunOn(Start(Small(16), 16), ReinsertedBid(t), 3, Loop(LeftOver(t), NewSent(16)), [LeftPool(2)],
          Handle(Loop(LeftOver(t), NewSent(16)), ReinsertedBid(t)[3]).0, FlushLog(t));
  }
}
