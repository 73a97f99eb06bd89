/** The queues of the pairing pool: which bid a slot stands for in any state, however hashes are reused, what pruning
    and eviction take from the front, and how much work that is over a run. */
module PendingQueue {
  import opened Base
  import opened Policy
  import opened PoolSpec
  import opened PoolInvariant

  // ----- which bid a slot stands for -----

  /** The bid with hash `h` that has `n` others with that hash before it. */
  function Nth(v: seq<PendingBid>, h: Hash, n: nat): Option<PendingBid> {
    if v == [] then None
    else if v[0].hash != h then Nth(v[1..], h, n)
    else if n == 0 then Some(v[0])
    else Nth(v[1..], h, n - 1)
  }

  /** The bid that slot `j` removes if every slot before it is popped first: one equal slot takes one bid. */
  ghost function StandsFor(s: Pool, j: nat): Option<PendingBid>
    requires j < |s.pendingOrder|
  {
    var slot := s.pendingOrder[j];
    Nth(Parked(s.pending, slot.target), slot.bid, multiset(s.pendingOrder[..j])[slot])
  }

  /** The bids the first `n` slots stand for. */
  ghost function StoodFor(s: Pool, n: nat): seq<PendingBid>
    requires n <= |s.pendingOrder|
  {
    if n == 0 then []
    else StoodFor(s, n - 1) + AsList(StandsFor(s, n - 1))
  }

  function AsList<T>(x: Option<T>): seq<T> {
    match x
    case None => []
    case Some(v) => [v]
  }

  lemma {:induction false} NthFirst(v: seq<PendingBid>, h: Hash)
    ensures Nth(v, h, 0) == if Has(v, h) then Some(v[Position(v, h)]) else None
  {
    if v != [] && v[0].hash != h {
      NthFirst(v[1..], h);
    }
  }

  /** The vector once a slot for hash `h` was popped. */
  function Popped(v: seq<PendingBid>, h: Hash): seq<PendingBid> {
    if Has(v, h) then RemoveAt(v, Position(v, h)) else v
  }

  lemma PoppedTail(v: seq<PendingBid>, h: Hash)
    requires v != []
    ensures Popped(v, h) == if v[0].hash == h then v[1..] else [v[0]] + Popped(v[1..], h)
  {
  }

  lemma NthHead(b: PendingBid, v: seq<PendingBid>, k: Hash, n: nat)
    ensures Nth([b] + v, k, n) == if b.hash != k then Nth(v, k, n) else if n == 0 then Some(b) else Nth(v, k, n - 1)
  {
    assert ([b] + v)[1..] == v;
  }

  /** Taking out the first bid with hash `h`, if there is one, moves every later bid with that hash up by one. */
  lemma {:induction false} NthPopped(v: seq<PendingBid>, h: Hash, k: Hash, n: nat)
    ensures Nth(Popped(v, h), k, n) == Nth(v, k, if k == h then n + 1 else n)
  {
    if v != [] {
      PoppedTail(v, h);
      if v[0].hash != h {
        NthHead(v[0], Popped(v[1..], h), k, n);
        NthPopped(v[1..], h, k, if k == v[0].hash && n > 0 then n - 1 else n);
      }
    }
  }

  lemma PoppedParked(s: Pool, t: Hash)
    requires s.pendingOrder != []
    ensures var slot := s.pendingOrder[0];
            Parked(PopPendingSlot(s).0.pending, t)
            == if t == slot.target then Popped(Parked(s.pending, t), slot.bid) else Parked(s.pending, t)
  {
  }

  lemma CountFront<T>(xs: seq<T>, j: nat, x: T)
    requires j < |xs|
    ensures multiset(xs[..j + 1])[x] == (if xs[0] == x then 1 else 0) + multiset(xs[1..][..j])[x]
  {
    assert xs[..j + 1] == [xs[0]] + xs[1..][..j];
  }

  lemma SlotShifts(s: Pool, j: nat)
    requires j + 1 < |s.pendingOrder|
    ensures StandsFor(PopPendingSlot(s).0, j) == StandsFor(s, j + 1)
  {
    var order := s.pendingOrder;
    var front, slot := order[0], order[j + 1];
    CountFront(order, j, slot);
    PoppedParked(s, slot.target);
    NthPopped(Parked(s.pending, slot.target), front.bid, slot.bid, multiset(order[1..][..j])[slot]);
  }

  /** `s1` lacks the front slot of `s`, and every other slot stands for the same bid in both. */
  ghost predicate Shifted(s: Pool, s1: Pool) {
    && s1.cfg == s.cfg
    && |s1.pendingOrder| + 1 == |s.pendingOrder|
    && s1.pendingOrder == s.pendingOrder[1..]
    && forall j :: 0 <= j < |s1.pendingOrder| ==> StandsFor(s1, j) == StandsFor(s, j + 1)
  }

  /** Popping the front slot takes the bid it stands for and leaves every later slot standing for what it did. */
  lemma PopShifts(s: Pool)
    requires s.pendingOrder != []
    ensures PopPendingSlot(s).1 == AsList(StandsFor(s, 0))
    ensures PopPendingSlot(s).0.pendingCount == s.pendingCount - |AsList(StandsFor(s, 0))|
    ensures Shifted(s, PopPendingSlot(s).0)
  {
    var slot := s.pendingOrder[0];
    NthFirst(Parked(s.pending, slot.target), slot.bid);
    forall j | 0 <= j < |s.pendingOrder| - 1
      ensures StandsFor(PopPendingSlot(s).0, j) == StandsFor(s, j + 1)
    {
      SlotShifts(s, j);
    }
  }

  lemma {:induction false} StoodShifts(s: Pool, s1: Pool, n: nat)
    requires n < |s.pendingOrder| && Shifted(s, s1)
    ensures StoodFor(s, n + 1) == AsList(StandsFor(s, 0)) + StoodFor(s1, n)
  {
    if n == 0 {
      assert StoodFor(s, 0) == [] && StoodFor(s1, 0) == [];
    } else {
      StoodShifts(s, s1, n - 1);
      ConcatAssoc(AsList(StandsFor(s, 0)), StoodFor(s1, n - 1), AsList(StandsFor(s1, n - 1)));
    }
  }

  // ----- what a prune takes -----

  ghost predicate Waits(s: Pool, j: nat, now: nat)
    requires j < |s.pendingOrder|
  {
    StandsFor(s, j).Some? && s.cfg.ttl > 0 && now < StandsFor(s, j).value.seenAt + s.cfg.ttl
  }

  /** The first `n` slots go, and the bids they stand for; slot `n` is the first that stands for an unexpired bid. */
  ghost predicate PrunedTo(s: Pool, now: nat, n: nat) {
    && n <= |s.pendingOrder|
    && PrunePending(s, now).0.pendingOrder == s.pendingOrder[n..]
    && PrunePending(s, now).1 == StoodFor(s, n)
    && (forall i :: 0 <= i < n ==> !Waits(s, i, now))
    && (n < |s.pendingOrder| ==> Waits(s, n, now))
  }

  lemma WaitsShifts(s: Pool, s1: Pool, now: nat, n: nat)
    requires Shifted(s, s1) && !Waits(s, 0, now) && PrunedTo(s1, now, n)
    ensures forall i :: 0 <= i < n + 1 ==> !Waits(s, i, now)
    ensures n + 1 < |s.pendingOrder| ==> Waits(s, n + 1, now)
  {
    forall i | 0 < i < |s.pendingOrder|
      ensures Waits(s, i, now) == Waits(s1, i - 1, now)
    {
      assert StandsFor(s1, i - 1) == StandsFor(s, i);
    }
  }

  lemma FrontWaits(s: Pool, now: nat)
    requires s.pendingOrder != []
    ensures FrontBidWaits(s, now) <==> Waits(s, 0, now)
  {
    var slot := s.pendingOrder[0];
    NthFirst(Parked(s.pending, slot.target), slot.bid);
    if SlotLive(s, slot) {
      AgeBelow(now, SlotBid(s, slot).seenAt, s.cfg.ttl);
    }
  }

  /** In any state a prune expires exactly the bids of the slots before the first one that stands for an unexpired
      bid, oldest slot first. */
  lemma {:induction false} PrunePendingExact(s: Pool, now: nat)
    ensures exists n: nat :: PrunedTo(s, now, n)
    decreases |s.pendingOrder|
  {
    if s.pendingOrder == [] {
      assert PrunedTo(s, now, 0);
    } else {
      PopShifts(s);
      FrontWaits(s, now);
      if FrontBidWaits(s, now) {
        assert PrunedTo(s, now, 0);
      } else {
        var s1 := PopPendingSlot(s).0;
        PrunePendingExact(s1, now);
        var n: nat :| PrunedTo(s1, now, n);
        WaitsShifts(s, s1, now, n);
        StoodShifts(s, s1, n);
        assert PrunedTo(s, now, n + 1);
      }
    }
  }

  // ----- what the cap takes -----

  /** The count left once the first `n` slots and their bids are gone. */
  ghost function CountAfter(s: Pool, n: nat): int
    requires n <= |s.pendingOrder|
  {
    s.pendingCount - |StoodFor(s, n)|
  }

  /** The first `n` slots go, and the bids they stand for; `n` is the least that brings the count within the cap. */
  ghost predicate EvictedTo(s: Pool, n: nat) {
    && n <= |s.pendingOrder|
    && EvictPending(s).0.pendingOrder == s.pendingOrder[n..]
    && EvictPending(s).1 == StoodFor(s, n)
    && CountAfter(s, n) <= s.cfg.maxPending
    && forall i :: 0 <= i < n ==> CountAfter(s, i) > s.cfg.maxPending
  }

  lemma CountsShift(s: Pool, s1: Pool)
    requires Shifted(s, s1) && s1.pendingCount == s.pendingCount - |AsList(StandsFor(s, 0))|
    ensures forall i :: 0 < i <= |s.pendingOrder| ==> CountAfter(s, i) == CountAfter(s1, i - 1)
  {
    forall i | 0 < i <= |s.pendingOrder|
      ensures CountAfter(s, i) == CountAfter(s1, i - 1)
    {
      StoodShifts(s, s1, i - 1);
    }
  }

  lemma EvictedMore(s: Pool, n: nat)
    requires s.pendingOrder != [] && s.pendingCount > s.cfg.maxPending
    requires EvictedTo(PopPendingSlot(s).0, n)
    ensures EvictedTo(s, n + 1)
  {
    var (s1, gone) := PopPendingSlot(s);
    PopShifts(s);
    StoodShifts(s, s1, n);
    CountsShift(s, s1);
    assert EvictPending(s) == (EvictPending(s1).0, gone + EvictPending(s1).1);
    forall i | 0 <= i < n + 1
      ensures CountAfter(s, i) > s.cfg.maxPending
    {
      assert i > 0 ==> CountAfter(s1, i - 1) > s.cfg.maxPending;
    }
  }

  /** The cap takes the bids of the oldest slots, and no more of them than it must. */
  lemma {:induction false} EvictPendingExact(s: Pool)
    requires Rep(s)
    ensures exists n: nat :: EvictedTo(s, n)
    decreases |s.pendingOrder|
  {
    if s.pendingCount <= s.cfg.maxPending {
      assert EvictedTo(s, 0);
    } else {
      QueueNotEmpty(s);
      PopPendingStep(s);
      EvictPendingExact(PopPendingSlot(s).0);
      var n: nat :| EvictedTo(PopPendingSlot(s).0, n);
      EvictedMore(s, n);
    }
  }

  // ----- queue work over a run -----

  /** `xs` is what is left of `ys` after `n` pops from the front. */
  ghost predicate LeftOf<T>(xs: seq<T>, ys: seq<T>, n: nat) {
    n <= |ys| && xs == ys[n..]
  }

  /** Pops made by each of the four loops. */
  function EvictCachePops(s: Pool): nat
    decreases |s.cacheOrder|
  {
    if |s.cache| <= s.cfg.maxCache || s.cacheOrder == [] then 0 else 1 + EvictCachePops(PopCacheSlot(s))
  }

  function PruneCachePops(s: Pool, now: nat): nat
    decreases |s.cacheOrder|
  {
    if s.cacheOrder == [] then 0
    else if s.cacheOrder[0] in s.cache && !CacheExpired(s, s.cacheOrder[0], now) then 0
    else 1 + PruneCachePops(PopCacheSlot(s), now)
  }

  function EvictPendingPops(s: Pool): nat
    decreases |s.pendingOrder|
  {
    if s.pendingCount <= s.cfg.maxPending || s.pendingOrder == [] then 0 else 1 + EvictPendingPops(PopPendingSlot(s).0)
  }

  function PrunePendingPops(s: Pool, now: nat): nat
    decreases |s.pendingOrder|
  {
    if s.pendingOrder == [] || FrontBidWaits(s, now) then 0 else 1 + PrunePendingPops(PopPendingSlot(s).0, now)
  }

  lemma {:induction false} EvictCacheLeft(s: Pool)
    ensures LeftOf(EvictCache(s).cacheOrder, s.cacheOrder, EvictCachePops(s))
    ensures EvictCache(s).pendingOrder == s.pendingOrder
    decreases |s.cacheOrder|
  {
    if |s.cache| > s.cfg.maxCache && s.cacheOrder != [] {
      EvictCacheLeft(PopCacheSlot(s));
    }
  }

  lemma {:induction false} PruneCacheLeft(s: Pool, now: nat)
    ensures LeftOf(PruneCache(s, now).cacheOrder, s.cacheOrder, PruneCachePops(s, now))
    ensures PruneCache(s, now).pendingOrder == s.pendingOrder
    decreases |s.cacheOrder|
  {
    if s.cacheOrder != [] && !(s.cacheOrder[0] in s.cache && !CacheExpired(s, s.cacheOrder[0], now)) {
      PruneCacheLeft(PopCacheSlot(s), now);
    }
  }

  lemma {:induction false} EvictPendingLeft(s: Pool)
    ensures LeftOf(EvictPending(s).0.pendingOrder, s.pendingOrder, EvictPendingPops(s))
    ensures EvictPending(s).0.cacheOrder == s.cacheOrder
    decreases |s.pendingOrder|
  {
    if s.pendingCount > s.cfg.maxPending && s.pendingOrder != [] {
      EvictPendingLeft(PopPendingSlot(s).0);
    }
  }

  lemma {:induction false} PrunePendingLeft(s: Pool, now: nat)
    ensures LeftOf(PrunePending(s, now).0.pendingOrder, s.pendingOrder, PrunePendingPops(s, now))
    ensures PrunePending(s, now).0.cacheOrder == s.cacheOrder
    decreases |s.pendingOrder|
  {
    if s.pendingOrder != [] && !FrontBidWaits(s, now) {
      PrunePendingLeft(PopPendingSlot(s).0, now);
    }
  }

  /** What one call does to the two queues: its pushes at the back, then its pops from the front. */
  datatype Work = Work(cached: seq<Hash>, parked: seq<Slot>, cachePops: nat, slotPops: nat)

  const NO_WORK := Work([], [], 0, 0)

  function BidWork(s: Pool, h: Hash, tx: Tx, target: Hash, now: nat): (seq<Slot>, nat) {
    if target in s.cache then ([], 0)
    else
      var bid := PendingBid(h, tx, ComputePriority(tx, s.cfg.policy), target, now);
      ([Slot(target, h)], EvictPendingPops(StoreBid(s, bid)))
  }

  /** Slots pushed and popped once the transaction is cached. */
  function MatchWork(s: Pool, h: Hash, tx: Tx, now: nat): (seq<Slot>, nat) {
    match Classify(tx, s.cfg.policy)
    case Backrun(target) => BidWork(s, h, tx, target, now)
    case _ => ([], 0)
  }

  function ObserveWork(s: Pool, h: Hash, tx: Tx, now: nat): Work {
    var (parked, slotPops) := MatchWork(InsertCache(s, h, tx, now), h, tx, now);
    Work(if h in s.cache then [] else [h], parked, EvictCachePops(StoreCached(s, h, tx, now)), slotPops)
  }

  function WorkOf(s: Pool, op: Op): Work {
    match op
    case ObserveOp(h, tx, now) => ObserveWork(s, h, tx, now)
    case PruneOp(now) => Work([], [], PruneCachePops(s, now), PrunePendingPops(PruneCache(s, now), now))
    case ForgetOp(_, _) => NO_WORK
  }

  ghost predicate Worked(s: Pool, s': Pool, w: Work) {
    && LeftOf(s'.cacheOrder, s.cacheOrder + w.cached, w.cachePops)
    && LeftOf(s'.pendingOrder, s.pendingOrder + w.parked, w.slotPops)
  }

  lemma BidWorks(s: Pool, h: Hash, tx: Tx, target: Hash, now: nat)
    ensures var (parked, pops) := BidWork(s, h, tx, target, now);
            LeftOf(ObserveBid(s, h, tx, target, now).pool.pendingOrder, s.pendingOrder + parked, pops)
    ensures ObserveBid(s, h, tx, target, now).pool.cacheOrder == s.cacheOrder
  {
    if target in s.cache {
      assert s.pendingOrder + [] == s.pendingOrder;
    } else {
      EvictPendingLeft(StoreBid(s, PendingBid(h, tx, ComputePriority(tx, s.cfg.policy), target, now)));
    }
  }

  lemma MatchWorks(s0: Pool, h: Hash, tx: Tx, now: nat)
    ensures var s, s' := InsertCache(s0, h, tx, now), Observe(s0, h, tx, now).pool;
            var (parked, pops) := MatchWork(s, h, tx, now);
            LeftOf(s'.pendingOrder, s.pendingOrder + parked, pops) && s'.cacheOrder == s.cacheOrder
  {
    var s := InsertCache(s0, h, tx, now);
    match Classify(tx, s.cfg.policy)
    case Backrun(target) => BidWorks(s, h, tx, target, now);
    case _ => assert s.pendingOrder + [] == s.pendingOrder;
  }

  lemma ObserveWorks(s: Pool, h: Hash, tx: Tx, now: nat)
    ensures Worked(s, Observe(s, h, tx, now).pool, ObserveWork(s, h, tx, now))
  {
    EvictCacheLeft(StoreCached(s, h, tx, now));
    MatchWorks(s, h, tx, now);
    assert s.cacheOrder + [] == s.cacheOrder;
  }

  lemma PruneWorks(s: Pool, now: nat)
    ensures Worked(s, Prune(s, now).pool, WorkOf(s, PruneOp(now)))
  {
    PruneCacheLeft(s, now);
    PrunePendingLeft(PruneCache(s, now), now);
    assert s.cacheOrder + [] == s.cacheOrder && s.pendingOrder + [] == s.pendingOrder;
  }

  lemma ApplyWorks(s: Pool, op: Op)
    ensures Worked(s, Apply(s, op).pool, WorkOf(s, op))
  {
    match op
    case ForgetOp(h, hit) =>
    case PruneOp(now) => PruneWorks(s, now);
    case ObserveOp(h, tx, now) => ObserveWorks(s, h, tx, now);
  }

  lemma LeftGrows<T>(xs': seq<T>, xs: seq<T>, ys: seq<T>, n: nat, pushed: seq<T>, m: nat)
    requires LeftOf(xs, ys, n) && LeftOf(xs', xs + pushed, m)
    ensures LeftOf(xs', ys + pushed, n + m)
  {
    assert ys[n..] + pushed == (ys + pushed)[n..];
  }

  function Plus(w: Work, more: Work): Work {
    Work(w.cached + more.cached, w.parked + more.parked, w.cachePops + more.cachePops, w.slotPops + more.slotPops)
  }

  /** The queues of `s` are what the pops of `w` have left of its pushes. */
  ghost predicate LeftBy(s: Pool, w: Work) {
    LeftOf(s.cacheOrder, w.cached, w.cachePops) && LeftOf(s.pendingOrder, w.parked, w.slotPops)
  }

  lemma ApplyLeftBy(s: Pool, w: Work, op: Op)
    requires LeftBy(s, w)
    ensures LeftBy(Apply(s, op).pool, Plus(w, WorkOf(s, op)))
  {
    var s', more := Apply(s, op).pool, WorkOf(s, op);
    ApplyWorks(s, op);
    LeftGrows(s'.cacheOrder, s.cacheOrder, w.cached, w.cachePops, more.cached, more.cachePops);
    LeftGrows(s'.pendingOrder, s.pendingOrder, w.parked, w.slotPops, more.parked, more.slotPops);
  }

  lemma PushesFew(s: Pool, op: Op)
    ensures |WorkOf(s, op).cached| <= CountObserved([op]) && |WorkOf(s, op).parked| <= CountObserved([op])
  {
    assert [op][..0] == [];
  }

  /** All pushes and the number of pops of a run. */
  function TotalWork(s: Pool, ops: seq<Op>): Work {
    if ops == [] then NO_WORK
    else Plus(TotalWork(s, ops[..|ops| - 1]), WorkOf(After(s, ops[..|ops| - 1]), ops[|ops| - 1]))
  }

  /** The observations in a run. */
  function CountObserved(ops: seq<Op>): nat {
    if ops == [] then 0
    else CountObserved(ops[..|ops| - 1]) + (if ops[|ops| - 1].ObserveOp? then 1 else 0)
  }

  /** Each queue is always what its pops have left of its pushes, and an observation pushes at most once on each; so
      over any run the pops number at most two per transaction observed. */
  lemma {:induction false} QueueWork(cfg: Config, ops: seq<Op>)
    ensures var s, w := After(Init(cfg), ops), TotalWork(Init(cfg), ops);
            && LeftBy(s, w)
            && w.cachePops + |s.cacheOrder| == |w.cached| <= CountObserved(ops)
            && w.slotPops + |s.pendingOrder| == |w.parked| <= CountObserved(ops)
  {
    if ops != [] {
      var most, op := ops[..|ops| - 1], ops[|ops| - 1];
      QueueWork(cfg, most);
      ApplyLeftBy(After(Init(cfg), most), TotalWork(Init(cfg), most), op);
      PushesFew(After(Init(cfg), most), op);
    }
  }
}
