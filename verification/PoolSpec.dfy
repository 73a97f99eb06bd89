/** The pairing pool as a value, and one function per operation of `src/backrun.rs`. */
module PoolSpec {
  import opened Base
  import opened Policy

  datatype Settings = Settings(policy: PolicyConfig, fallback: U256, ttl: nat, maxCache: nat, maxPending: nat)

  /** What a pool runs with: both capacities are at least one. */
  type Config = c: Settings | c.maxCache >= 1 && c.maxPending >= 1
    witness Settings(PolicyConfig(0, 0), 0, 0, 1, 1)

  /** The constructor raises a zero capacity to one. */
  function Normalized(c: Settings): Config {
    c.(maxCache := Max(c.maxCache, 1), maxPending := Max(c.maxPending, 1))
  }

  /** Why a transaction is re-injected. The priority word already says it; the tag spares decoding. */
  datatype Role = AsTob | AsOpportunity | AsBackrun(target: Hash)

  datatype Reinjection = Reinjection(hash: Hash, tx: Tx, priority: U256, role: Role)

  datatype ObserveResult = ObserveResult(
    reinjections: seq<Reinjection>,
    pairsMatched: nat,
    bidsPended: nat,
    bidsEvicted: nat,
    skippedNonGateway: bool,
    skippedInvalidGateway: bool)

  const NOTHING_OBSERVED := ObserveResult([], 0, 0, 0, false, false)

  datatype CachedTx = CachedTx(tx: Tx, seenAt: nat)

  datatype PendingBid = PendingBid(hash: Hash, tx: Tx, scalar: U256, target: Hash, seenAt: nat)

  /** An entry of the pending queue: which bid is parked under which target. */
  datatype Slot = Slot(target: Hash, bid: Hash)

  datatype Pool = Pool(
    cfg: Config,
    cache: map<Hash, CachedTx>,
    cacheOrder: seq<Hash>,
    pending: map<Hash, seq<PendingBid>>,
    pendingOrder: seq<Slot>,
    pendingCount: int,
    streamed: set<Hash>)

  function Init(cfg: Config): Pool {
    Pool(cfg, map[], [], map[], [], 0, {})
  }

  // ----- vectors of parked bids -----

  /** Index of the first bid with this hash, or the length if there is none. */
  function Position(v: seq<PendingBid>, h: Hash): (p: nat)
    ensures p <= |v|
    ensures p < |v| ==> v[p].hash == h
    ensures forall i :: 0 <= i < p ==> v[i].hash != h
  {
    if v == [] || v[0].hash == h then 0 else 1 + Position(v[1..], h)
  }

  predicate Has(v: seq<PendingBid>, h: Hash) {
    Position(v, h) < |v|
  }

  ghost predicate HashesDiffer(v: seq<PendingBid>) {
    forall i, j :: 0 <= i < j < |v| ==> v[i].hash != v[j].hash
  }

  function NotBid(h: Hash): PendingBid -> bool {
    (b: PendingBid) => b.hash != h
  }

  function RemoveAt<T>(v: seq<T>, p: nat): seq<T>
    requires p < |v|
  {
    v[..p] + v[p + 1..]
  }

  /** The bids parked under `t`; none if the key is absent. */
  function Parked(pending: map<Hash, seq<PendingBid>>, t: Hash): seq<PendingBid> {
    if t in pending then pending[t] else []
  }

  /** Store `v` under `t`, dropping the key when nothing is left. */
  function SetParked(pending: map<Hash, seq<PendingBid>>, t: Hash, v: seq<PendingBid>): map<Hash, seq<PendingBid>> {
    if v == [] then pending - {t} else pending[t := v]
  }

  /** Take the bid with hash `h` out from under target `t`. */
  function RemoveBid(s: Pool, t: Hash, h: Hash): Pool
    requires Has(Parked(s.pending, t), h)
  {
    var v := Parked(s.pending, t);
    s.(pending := SetParked(s.pending, t, RemoveAt(v, Position(v, h))), pendingCount := s.pendingCount - 1)
  }

  // ----- candidate-target cache -----

  /** Pop the oldest cache slot together with the entry it stands for, if that is still there. */
  function PopCacheSlot(s: Pool): Pool
    requires s.cacheOrder != []
  {
    var front := s.cacheOrder[0];
    var rest := s.(cacheOrder := s.cacheOrder[1..]);
    if front in s.cache then rest.(cache := s.cache - {front}, streamed := s.streamed - {front}) else rest
  }

  function EvictCache(s: Pool): Pool
    decreases |s.cacheOrder|
  {
    if |s.cache| <= s.cfg.maxCache || s.cacheOrder == [] then s else EvictCache(PopCacheSlot(s))
  }

  /** The cache with `h` stored, before the capacity is enforced. */
  function StoreCached(s: Pool, h: Hash, tx: Tx, now: nat): Pool {
    s.(cache := s.cache[h := CachedTx(tx, now)],
       cacheOrder := if h in s.cache then s.cacheOrder else s.cacheOrder + [h])
  }

  function InsertCache(s: Pool, h: Hash, tx: Tx, now: nat): Pool {
    EvictCache(StoreCached(s, h, tx, now))
  }

  predicate CacheExpired(s: Pool, h: Hash, now: nat) {
    h in s.cache && Age(now, s.cache[h].seenAt) >= s.cfg.ttl
  }

  function PruneCache(s: Pool, now: nat): Pool
    decreases |s.cacheOrder|
  {
    if s.cacheOrder == [] then s
    else if s.cacheOrder[0] in s.cache && !CacheExpired(s, s.cacheOrder[0], now) then s
    else PruneCache(PopCacheSlot(s), now)
  }

  // ----- parked bids -----

  predicate SlotLive(s: Pool, slot: Slot) {
    Has(Parked(s.pending, slot.target), slot.bid)
  }

  function SlotBid(s: Pool, slot: Slot): PendingBid
    requires SlotLive(s, slot)
  {
    var v := Parked(s.pending, slot.target);
    v[Position(v, slot.bid)]
  }

  /** Pop the oldest pending slot together with the bid it stands for, if that is still parked. */
  function PopPendingSlot(s: Pool): (Pool, seq<PendingBid>)
    requires s.pendingOrder != []
  {
    var slot := s.pendingOrder[0];
    var rest := s.(pendingOrder := s.pendingOrder[1..]);
    if SlotLive(s, slot) then (RemoveBid(rest, slot.target, slot.bid), [SlotBid(s, slot)]) else (rest, [])
  }

  /** Enforce the parked-bid cap; the second result lists the evicted bids. */
  function EvictPending(s: Pool): (Pool, seq<PendingBid>)
    decreases |s.pendingOrder|
  {
    if s.pendingCount <= s.cfg.maxPending || s.pendingOrder == [] then (s, [])
    else
      var (next, gone) := PopPendingSlot(s);
      var (last, more) := EvictPending(next);
      (last, gone + more)
  }

  /** The pool with `bid` parked, before the cap is enforced. */
  function StoreBid(s: Pool, bid: PendingBid): Pool {
    s.(pending := s.pending[bid.target := Parked(s.pending, bid.target) + [bid]],
       pendingOrder := s.pendingOrder + [Slot(bid.target, bid.hash)],
       pendingCount := s.pendingCount + 1)
  }

  function PushPending(s: Pool, bid: PendingBid): (Pool, seq<PendingBid>) {
    EvictPending(StoreBid(s, bid))
  }

  predicate FrontBidWaits(s: Pool, now: nat) {
    && s.pendingOrder != []
    && SlotLive(s, s.pendingOrder[0])
    && Age(now, SlotBid(s, s.pendingOrder[0]).seenAt) < s.cfg.ttl
  }

  /** Expire parked bids from the front; the second result lists the expired bids. */
  function PrunePending(s: Pool, now: nat): (Pool, seq<PendingBid>)
    decreases |s.pendingOrder|
  {
    if s.pendingOrder == [] || FrontBidWaits(s, now) then (s, [])
    else
      var (next, gone) := PopPendingSlot(s);
      var (last, more) := PrunePending(next, now);
      (last, gone + more)
  }

  // ----- operations -----

  /** What an operation did: the new pool, its result and every bid that entered or left. */
  datatype Effect = Effect(
    pool: Pool,
    res: ObserveResult,
    parked: seq<PendingBid>,
    flushed: seq<PendingBid>,
    evicted: seq<PendingBid>,
    expired: seq<PendingBid>,
    forgotten: seq<PendingBid>)

  function Quiet(s: Pool, res: ObserveResult): Effect {
    Effect(s, res, [], [], [], [], [])
  }

  function EmitOpportunityOnce(s: Pool, target: Hash): (Pool, seq<Reinjection>) {
    if target in s.streamed || target !in s.cache then (s, [])
    else (s.(streamed := s.streamed + {target}), [OpportunityFor(target, s.cache[target].tx)])
  }

  function OpportunityFor(target: Hash, tx: Tx): Reinjection {
    Reinjection(target, tx, EncodeOpportunity(target), AsOpportunity)
  }

  function TobFor(cfg: Config, h: Hash, tx: Tx): Reinjection {
    Reinjection(h, tx, TobPriority(ComputePriority(tx, cfg.policy), cfg.fallback), AsTob)
  }

  function BidFor(target: Hash, h: Hash, tx: Tx, scalar: U256): Reinjection {
    Reinjection(h, tx, EncodeBackrunBid(target, scalar), AsBackrun(target))
  }

  /** The reinjections of bids parked under `target`, in parking order. */
  function BidsFor(target: Hash, bids: seq<PendingBid>): (rs: seq<Reinjection>)
    ensures |rs| == |bids|
    ensures forall i :: 0 <= i < |bids| ==> rs[i] == BidFor(target, bids[i].hash, bids[i].tx, bids[i].scalar)
  {
    if bids == [] then []
    else [BidFor(target, bids[0].hash, bids[0].tx, bids[0].scalar)] + BidsFor(target, bids[1..])
  }

  function Observe(s0: Pool, h: Hash, tx: Tx, now: nat): Effect {
    var s := InsertCache(s0, h, tx, now);
    match Classify(tx, s.cfg.policy)
    case TopOfBlock =>
      Quiet(s, NOTHING_OBSERVED.(reinjections := [TobFor(s.cfg, h, tx)]))
    case Backrun(target) =>
      ObserveBid(s, h, tx, target, now)
    case InvalidGateway =>
      Quiet(s, NOTHING_OBSERVED.(skippedInvalidGateway := true))
    case Vanilla =>
      ObserveVanilla(s, h)
  }

  function ObserveBid(s: Pool, h: Hash, tx: Tx, target: Hash, now: nat): Effect {
    var scalar := ComputePriority(tx, s.cfg.policy);
    if target in s.cache then
      var (s', opportunity) := EmitOpportunityOnce(s, target);
      Quiet(s', NOTHING_OBSERVED.(reinjections := opportunity + [BidFor(target, h, tx, scalar)], pairsMatched := 1))
    else
      var bid := PendingBid(h, tx, scalar, target, now);
      var (s', evicted) := PushPending(s, bid);
      Effect(s', NOTHING_OBSERVED.(bidsPended := 1, bidsEvicted := |evicted|), [bid], [], evicted, [], [])
  }

  function ObserveVanilla(s: Pool, h: Hash): Effect {
    if h in s.pending then
      var bids := s.pending[h];
      var (s', opportunity) := EmitOpportunityOnce(s.(pending := s.pending - {h}), h);
      Effect(s'.(pendingCount := s'.pendingCount - |bids|),
             NOTHING_OBSERVED.(reinjections := opportunity + BidsFor(h, bids), pairsMatched := |bids|),
             [], bids, [], [], [])
    else
      Quiet(s, NOTHING_OBSERVED.(skippedNonGateway := true))
  }

  function Prune(s: Pool, now: nat): Effect {
    var (s', expired) := PrunePending(PruneCache(s, now), now);
    Effect(s', NOTHING_OBSERVED, [], [], [], expired, [])
  }

  /** Everything keyed by `h` is gone; bids parked by `h` under other targets are not looked at yet. */
  function ForgetKeys(s: Pool, h: Hash): Pool {
    s.(cache := s.cache - {h},
       streamed := s.streamed - {h},
       pending := s.pending - {h},
       pendingCount := s.pendingCount - |Parked(s.pending, h)|)
  }

  /** `hit` is the target under which the scan of the map's values, whose order is unspecified, first
      meets a bid with hash `h`; it does not matter when there is none. */
  predicate ScanHit(s: Pool, h: Hash, hit: Hash) {
    (exists t :: t in s.pending && Has(s.pending[t], h)) ==> Has(Parked(s.pending, hit), h)
  }

  function Forget(s0: Pool, h: Hash, hit: Hash): Effect {
    var s := ForgetKeys(s0, h);
    var gone := Parked(s0.pending, h);
    if Has(Parked(s.pending, hit), h) then
      Effect(RemoveBid(s, hit, h), NOTHING_OBSERVED, [], [], [], [], gone + [SlotBid(s, Slot(hit, h))])
    else
      Effect(s, NOTHING_OBSERVED, [], [], [], [], gone)
  }

  // ----- runs -----

  /** One call on the pool. A `Forget` carries the outcome of its unordered scan. */
  datatype Op = ObserveOp(hash: Hash, tx: Tx, now: nat) | PruneOp(at: nat) | ForgetOp(gone: Hash, hit: Hash)

  function Apply(s: Pool, op: Op): Effect {
    match op
    case ObserveOp(h, tx, now) => Observe(s, h, tx, now)
    case PruneOp(now) => Prune(s, now)
    case ForgetOp(h, hit) => Forget(s, h, hit)
  }

  /** The pool after a run of calls. */
  function After(s: Pool, ops: seq<Op>): Pool {
    if ops == [] then s else Apply(After(s, ops[..|ops| - 1]), ops[|ops| - 1]).pool
  }
}
