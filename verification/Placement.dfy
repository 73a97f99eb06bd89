/** End to end: what the loop has sent, ordered by priority, is laid out as the design promises. */
module Placement {
  import opened Base
  import opened Bits
  import opened Policy
  import opened PoolSpec
  import opened PoolInvariant
  import opened SentSpec
  import opened LoopSpec
  import opened LoopRuns

  /** The transactions behind the hashes of a run. */
  type Txs = map<Hash, Tx>

  /** A hash always comes with the same transaction. */
  ghost predicate Consistent(events: seq<Event>, txs: Txs) {
    forall i :: 0 <= i < |events| && events[i].Inserted? ==>
      events[i].hash in txs && txs[events[i].hash] == events[i].tx
  }

  ghost predicate IsBidOn(cfg: Config, txs: Txs, h: Hash, target: Hash) {
    h in txs && Classify(txs[h], cfg.policy) == Backrun(target)
  }

  ghost predicate Targeted(cfg: Config, txs: Txs, target: Hash) {
    exists h :: IsBidOn(cfg, txs, h, target)
  }

  function Score(cfg: Config, txs: Txs, h: Hash): U256
    requires h in txs
  {
    ComputePriority(txs[h], cfg.policy)
  }

  /** The reinjection is one of the three the design knows, for a transaction of the run. */
  ghost predicate Explained(cfg: Config, txs: Txs, r: Reinjection) {
    && r.hash in txs && r.tx == txs[r.hash]
    && match r.role
       case AsTob => Classify(r.tx, cfg.policy) == TopOfBlock && r == TobFor(cfg, r.hash, r.tx)
       case AsOpportunity => Targeted(cfg, txs, r.hash) && r == OpportunityFor(r.hash, r.tx)
       case AsBackrun(t) => t in txs && IsBidOn(cfg, txs, r.hash, t)
                            && r == BidFor(t, r.hash, r.tx, Score(cfg, txs, r.hash))
  }

  /** Cached and parked transactions are those of the run, parked bids with their score and target. */
  ghost predicate PoolSound(s: Pool, txs: Txs) {
    && (forall k :: k in s.cache ==> k in txs && s.cache[k].tx == txs[k])
    && (forall t, b :: b in Parked(s.pending, t) ==>
          IsBidOn(s.cfg, txs, b.hash, t) && b.tx == txs[b.hash] && b.scalar == Score(s.cfg, txs, b.hash))
  }

  /** `s'` caches and parks nothing that `s` does not. */
  ghost predicate Fewer(s: Pool, s': Pool) {
    && s'.cfg == s.cfg
    && (forall k :: k in s'.cache ==> k in s.cache && s'.cache[k] == s.cache[k])
    && (forall t, b :: b in Parked(s'.pending, t) ==> b in Parked(s.pending, t))
  }

  lemma FewerSound(s: Pool, s': Pool, txs: Txs)
    requires PoolSound(s, txs) && Fewer(s, s')
    ensures PoolSound(s', txs)
  {
  }

  lemma FewerTrans(s: Pool, s1: Pool, s2: Pool)
    requires Fewer(s, s1) && Fewer(s1, s2)
    ensures Fewer(s, s2)
  {
  }

  lemma PopFewer(s: Pool)
    requires s.pendingOrder != []
    ensures Fewer(s, PopPendingSlot(s).0)
  {
  }

  lemma {:induction false} EvictFewer(s: Pool)
    ensures Fewer(s, EvictPending(s).0)
    decreases |s.pendingOrder|
  {
    if s.pendingCount > s.cfg.maxPending && s.pendingOrder != [] {
      PopFewer(s);
      EvictFewer(PopPendingSlot(s).0);
      FewerTrans(s, PopPendingSlot(s).0, EvictPending(s).0);
    }
  }

  lemma {:induction false} PrunePendingFewer(s: Pool, now: nat)
    ensures Fewer(s, PrunePending(s, now).0)
    decreases |s.pendingOrder|
  {
    if s.pendingOrder != [] && !FrontBidWaits(s, now) {
      PopFewer(s);
      PrunePendingFewer(PopPendingSlot(s).0, now);
      FewerTrans(s, PopPendingSlot(s).0, PrunePending(s, now).0);
    }
  }

  lemma PruneFewer(s: Pool, now: nat)
    requires Rep(s)
    ensures Fewer(s, Prune(s, now).pool)
  {
    PruneCacheKeeps(s, now);
    PrunePendingFewer(PruneCache(s, now), now);
    FewerTrans(s, PruneCache(s, now), Prune(s, now).pool);
  }

  lemma ForgetFewer(s: Pool, h: Hash, hit: Hash)
    ensures Fewer(s, Forget(s, h, hit).pool)
  {
  }

  ghost predicate AllExplained(cfg: Config, txs: Txs, rs: seq<Reinjection>) {
    forall i :: 0 <= i < |rs| ==> Explained(cfg, txs, rs[i])
  }

  lemma InsertSound(s: Pool, txs: Txs, h: Hash, tx: Tx, now: nat)
    requires Rep(s) && PoolSound(s, txs) && h in txs && txs[h] == tx
    ensures PoolSound(InsertCache(s, h, tx, now), txs) && InsertCache(s, h, tx, now).cfg == s.cfg
  {
    InsertCacheKeeps(s, h, tx, now);
    FewerSound(StoreCached(s, h, tx, now), InsertCache(s, h, tx, now), txs);
  }

  lemma EmitSound(s: Pool, txs: Txs, target: Hash)
    requires PoolSound(s, txs) && Targeted(s.cfg, txs, target)
    ensures var (s', rs) := EmitOpportunityOnce(s, target);
            PoolSound(s', txs) && s'.cfg == s.cfg && AllExplained(s.cfg, txs, rs)
  {
  }

  lemma BidSound(s: Pool, txs: Txs, h: Hash, target: Hash, now: nat)
    requires PoolSound(s, txs) && IsBidOn(s.cfg, txs, h, target)
    ensures var e := ObserveBid(s, h, txs[h], target, now);
            PoolSound(e.pool, txs) && AllExplained(s.cfg, txs, e.res.reinjections)
  {
    if target in s.cache {
      EmitSound(s, txs, target);
    } else {
      var bid := PendingBid(h, txs[h], Score(s.cfg, txs, h), target, now);
      var s1 := StoreBid(s, bid);
      forall t, b | b in Parked(s1.pending, t)
        ensures IsBidOn(s.cfg, txs, b.hash, t) && b.tx == txs[b.hash] && b.scalar == Score(s.cfg, txs, b.hash)
      {
        if b !in Parked(s.pending, t) {
          assert t == target && b == bid;
        }
      }
      EvictFewer(s1);
      FewerSound(s1, EvictPending(s1).0, txs);
    }
  }

  lemma VanillaSound(s: Pool, txs: Txs, h: Hash)
    requires PoolSound(s, txs) && h in txs && PendingWellFormed(s.pending)
    ensures var e := ObserveVanilla(s, h);
            PoolSound(e.pool, txs) && AllExplained(s.cfg, txs, e.res.reinjections)
  {
    if h in s.pending {
      var bids := s.pending[h];
      var s1 := s.(pending := s.pending - {h});
      assert Fewer(s, s1);
      assert bids[0] in Parked(s.pending, h);
      EmitSound(s1, txs, h);
      forall i | 0 <= i < |bids|
        ensures Explained(s.cfg, txs, BidsFor(h, bids)[i])
      {
        assert bids[i] in Parked(s.pending, h);
      }
    }
  }

  lemma ObserveSound(s: Pool, txs: Txs, h: Hash, now: nat)
    requires Inv(s) && PoolSound(s, txs) && h in txs
    ensures var e := Observe(s, h, txs[h], now);
            PoolSound(e.pool, txs) && AllExplained(s.cfg, txs, e.res.reinjections)
  {
    InsertCacheKeeps(s, h, txs[h], now);
    InsertSound(s, txs, h, txs[h], now);
    var s1 := InsertCache(s, h, txs[h], now);
    match Classify(txs[h], s.cfg.policy)
    case TopOfBlock =>
    case InvalidGateway =>
    case Backrun(target) => BidSound(s1, txs, h, target, now);
    case Vanilla => VanillaSound(s1, txs, h);
  }

  // ----- the sent cache and the log -----

  /** Every stored priority is that of an explained reinjection of its hash. */
  ghost predicate SentExplained(cfg: Config, txs: Txs, stored: map<Hash, U256>) {
    forall h :: h in stored ==> exists r :: Explained(cfg, txs, r) && r.hash == h && r.priority == stored[h]
  }

  ghost predicate EntryExplained(cfg: Config, txs: Txs, e: LogEntry) {
    e.SentOut? || e.LostOut? ==> Explained(cfg, txs, e.r)
  }

  ghost predicate LogExplained(cfg: Config, txs: Txs, log: seq<LogEntry>) {
    forall e :: e in log ==> EntryExplained(cfg, txs, e)
  }

  lemma InsertExplained(cfg: Config, txs: Txs, sent: Sent, r: Reinjection)
    requires SentInv(sent) && SentExplained(cfg, txs, sent.priorities) && Explained(cfg, txs, r)
    ensures SentExplained(cfg, txs, SentSpec.Insert(sent, r.hash, r.priority).0.priorities)
  {
    InsertKeeps(sent, r.hash, r.priority);
  }

  lemma TailExplained(cfg: Config, txs: Txs, rs: seq<Reinjection>)
    requires AllExplained(cfg, txs, rs) && rs != []
    ensures Explained(cfg, txs, rs[0]) && AllExplained(cfg, txs, rs[1..])
  {
  }

  lemma SendAllLogged(cfg: Config, txs: Txs, sent: Sent, rs: seq<Reinjection>, failAt: nat)
    requires AllExplained(cfg, txs, rs)
    ensures LogExplained(cfg, txs, SendAll(sent, rs, failAt).1)
  {
    forall e | e in SendAll(sent, rs, failAt).1
      ensures EntryExplained(cfg, txs, e)
    {
      SendsComeFrom(sent, rs, failAt, e);
    }
  }

  lemma {:induction false} SendAllStored(cfg: Config, txs: Txs, sent: Sent, rs: seq<Reinjection>, failAt: nat)
    requires SentInv(sent) && SentExplained(cfg, txs, sent.priorities) && AllExplained(cfg, txs, rs)
    ensures SentExplained(cfg, txs, SendAll(sent, rs, failAt).0.priorities)
    decreases |rs|
  {
    if rs != [] {
      TailExplained(cfg, txs, rs);
      if rs[0].hash in sent.priorities {
        SendAllStored(cfg, txs, sent, rs[1..], failAt);
      } else if failAt > 0 {
        InsertKeeps(sent, rs[0].hash, rs[0].priority);
        InsertExplained(cfg, txs, sent, rs[0]);
        SendAllStored(cfg, txs, SentSpec.Insert(sent, rs[0].hash, rs[0].priority).0, rs[1..], failAt - 1);
      }
    }
  }

  ghost predicate RunExplained(cfg: Config, txs: Txs, l: Loop, log: seq<LogEntry>) {
    PoolSound(l.pool, txs) && SentExplained(cfg, txs, l.sent.priorities) && LogExplained(cfg, txs, log)
  }

  lemma HandleExplained(txs: Txs, l: Loop, log: seq<LogEntry>, ev: Event)
    requires LoopInv(l) && RunExplained(l.pool.cfg, txs, l, log)
    requires ev.Inserted? ==> ev.hash in txs && txs[ev.hash] == ev.tx
    ensures var (l', more, _) := Handle(l, ev);
            RunExplained(l.pool.cfg, txs, l', log + more)
  {
    match ev
    case Inserted(h, tx, prunedAt, observedAt, failAt) =>
      if h !in l.sent.priorities {
        var p := Prune(l.pool, prunedAt).pool;
        PruneKeepsInv(l.pool, prunedAt);
        PruneFewer(l.pool, prunedAt);
        FewerSound(l.pool, p, txs);
        ObserveSound(p, txs, h, observedAt);
        SendAllLogged(l.pool.cfg, txs, l.sent, Observe(p, h, tx, observedAt).res.reinjections, failAt);
        SendAllStored(l.pool.cfg, txs, l.sent, Observe(p, h, tx, observedAt).res.reinjections, failAt);
      }
    case Gone(h, hit) =>
      ForgetFewer(l.pool, h, hit);
      FewerSound(l.pool, Forget(l.pool, h, hit).pool, txs);
  }

  lemma {:induction false} EverythingExplained(settings: Settings, sentMax: nat, events: seq<Event>, txs: Txs)
    requires Consistent(events, txs)
    ensures var (l, log) := RunEvents(Start(settings, sentMax), events);
            RunExplained(Normalized(settings), txs, l, log)
  {
    if events != [] {
      var most := events[..|events| - 1];
      EverythingExplained(settings, sentMax, most, txs);
      RunInv(settings, sentMax, most);
      HandleExplained(txs, RunEvents(Start(settings, sentMax), most).0, RunEvents(Start(settings, sentMax), most).1,
                      events[|events| - 1]);
    }
  }

  /** Whenever a bid is sent, its target went out before it, as the opportunity if it is not a gateway transaction;
      the one exception is a target whose own send failed. No assumption is made on how hashes are reused. */
  lemma TargetBeforeBid(settings: Settings, sentMax: nat, events: seq<Event>, txs: Txs, j: nat)
    requires Consistent(events, txs)
    requires var log := RunEvents(Start(settings, sentMax), events).1;
             j < |log| && log[j].SentOut? && log[j].r.role.AsBackrun?
    ensures var log := RunEvents(Start(settings, sentMax), events).1;
            var t := log[j].r.role.target;
            && t in txs
            && exists i :: 0 <= i < j && (log[i].SentOut? || log[i].LostOut?) && log[i].r.hash == t
                        && (!IsGateway(txs[t], settings.policy) ==> log[i].r == OpportunityFor(t, txs[t]))
  {
    var log := RunEvents(Start(settings, sentMax), events).1;
    var t := log[j].r.role.target;
    RunTargetsFirst(settings, sentMax, events);
    EverythingExplained(settings, sentMax, events, txs);
    assert EntryExplained(Normalized(settings), txs, log[j]);
    var i :| 0 <= i < j && (log[..j][i].SentOut? || log[..j][i].LostOut?) && log[..j][i].r.hash == t;
    assert log[..j][i] == log[i];
    assert EntryExplained(Normalized(settings), txs, log[i]);
  }

  // ----- the order of what was sent -----

  /** A top-of-block bid with a score. */
  predicate IsTopBid(cfg: Config, txs: Txs, h: Hash) {
    h in txs && Classify(txs[h], cfg.policy) == TopOfBlock && Score(cfg, txs, h) != 0
  }

  /** What the layout needs of a run: bids target non-gateway transactions, scores of valid calls fit the payload,
      the fallback lies below every group, and targets have distinct non-zero group keys. */
  ghost predicate Separable(cfg: Config, txs: Txs) {
    && cfg.fallback < P129
    && (forall h :: h in txs && IsCall(txs[h], cfg.policy) ==> Score(cfg, txs, h) < P128)
    && (forall h, t :: IsBidOn(cfg, txs, h, t) && t in txs ==> !IsGateway(txs[t], cfg.policy) && BackrunId(t) != 0)
    && (forall h, t, h', t' :: IsBidOn(cfg, txs, h, t) && IsBidOn(cfg, txs, h', t') && t in txs && t' in txs && t != t'
                               ==> BackrunId(t) != BackrunId(t'))
  }

  /** The priority of a sent hash as a function of its transaction alone. */
  ghost predicate Placed(cfg: Config, txs: Txs, h: Hash, p: U256) {
    h in txs && match Classify(txs[h], cfg.policy)
                case TopOfBlock => p == TobPriority(Score(cfg, txs, h), cfg.fallback)
                case Backrun(t) => t in txs && p == EncodeBackrunBid(t, Score(cfg, txs, h))
                case Vanilla => Targeted(cfg, txs, h) && p == EncodeOpportunity(h)
                case InvalidGateway => false
  }

  lemma ExplainedIsPlaced(cfg: Config, txs: Txs, r: Reinjection)
    requires Separable(cfg, txs) && Explained(cfg, txs, r)
    ensures Placed(cfg, txs, r.hash, r.priority)
  {
  }

  lemma SmallPayload(s: U256)
    requires s < P128
    ensures s % P128 == s
  {
    ModUnique(s, P128, 0, s);
  }

  /** Every sent word but a top bid's lies below bit 255. */
  lemma BelowTop(cfg: Config, txs: Txs, h: Hash, p: U256)
    requires Separable(cfg, txs) && Placed(cfg, txs, h, p)
    ensures IsTopBid(cfg, txs, h) ==> p == P255 + Score(cfg, txs, h)
    ensures !IsTopBid(cfg, txs, h) ==> p < P255
  {
    if IsCall(txs[h], cfg.policy) {
      SmallPayload(Score(cfg, txs, h));
    }
  }

  /** A word inside the group of `t`, at or below its opportunity, belongs to `t` or to one of its bids. */
  lemma InGroup(cfg: Config, txs: Txs, t: Hash, k: Hash, p: U256)
    requires Separable(cfg, txs) && Placed(cfg, txs, k, p)
    requires t in txs && Targeted(cfg, txs, t) && BackrunId(t) != 0
    requires BackrunId(t) * P129 <= p <= BackrunId(t) * P129 + P128
    ensures k == t || (IsBidOn(cfg, txs, k, t) && p == BackrunId(t) * P129 + Score(cfg, txs, k))
  {
    BelowTop(cfg, txs, k, p);
    var b :| IsBidOn(cfg, txs, b, t);
    match Classify(txs[k], cfg.policy)
    case TopOfBlock =>
    case InvalidGateway =>
    case Vanilla =>
      var b' :| IsBidOn(cfg, txs, b', k);
      SameGroup(BackrunId(t), BackrunId(k), P128, p);
    case Backrun(t') =>
      SmallPayload(Score(cfg, txs, k));
      assert IsBidOn(cfg, txs, k, t');
      SameGroup(BackrunId(t), BackrunId(t'), Score(cfg, txs, k), p);
  }

  /** A word determines its group key. */
  lemma SameGroup(a: nat, b: nat, low: nat, p: nat)
    requires a * P129 <= p <= a * P129 + P128 && p == b * P129 + low && low <= P128
    ensures a == b
  {
  }

  /** The stored hashes listed from the highest priority to the lowest. */
  ghost predicate ByPriority(stored: map<Hash, U256>, q: seq<Hash>) {
    && Distinct(q)
    && (forall h :: h in q <==> h in stored)
    && (forall i, j :: 0 <= i < j < |q| ==> stored[q[i]] >= stored[q[j]])
  }

  ghost predicate PlacedAll(cfg: Config, txs: Txs, stored: map<Hash, U256>) {
    forall h :: h in stored ==> Placed(cfg, txs, h, stored[h])
  }

  /** Top-of-block bids come first, by score. */
  lemma TopBidsFirst(cfg: Config, txs: Txs, stored: map<Hash, U256>, q: seq<Hash>, i: nat, j: nat)
    requires Separable(cfg, txs) && PlacedAll(cfg, txs, stored) && ByPriority(stored, q)
    requires i < j < |q| && IsTopBid(cfg, txs, q[j])
    ensures IsTopBid(cfg, txs, q[i]) && Score(cfg, txs, q[i]) >= Score(cfg, txs, q[j])
  {
    assert q[i] in q && q[j] in q;
    BelowTop(cfg, txs, q[i], stored[q[i]]);
    BelowTop(cfg, txs, q[j], stored[q[j]]);
  }

  /** The word of a stored bid. */
  lemma BidWord(cfg: Config, txs: Txs, stored: map<Hash, U256>, b: Hash, t: Hash)
    requires Separable(cfg, txs) && PlacedAll(cfg, txs, stored) && b in stored && IsBidOn(cfg, txs, b, t)
    ensures Score(cfg, txs, b) < P128 && stored[b] == BackrunId(t) * P129 + Score(cfg, txs, b)
    ensures t in txs && BackrunId(t) != 0 && !IsGateway(txs[t], cfg.policy)
  {
    assert Placed(cfg, txs, b, stored[b]);
    SmallPayload(Score(cfg, txs, b));
  }

  /** The word of a stored target. */
  lemma TargetWord(cfg: Config, txs: Txs, stored: map<Hash, U256>, t: Hash)
    requires PlacedAll(cfg, txs, stored) && t in stored && t in txs && !IsGateway(txs[t], cfg.policy)
    ensures stored[t] == BackrunId(t) * P129 + P128
  {
    assert Placed(cfg, txs, t, stored[t]);
  }

  /** Whatever is stored between a word of the group of `t` and one of its bids is a bid on `t` too, or `t`. */
  lemma Between(cfg: Config, txs: Txs, stored: map<Hash, U256>, t: Hash, b: Hash, k: Hash)
    requires Separable(cfg, txs) && PlacedAll(cfg, txs, stored)
    requires b in stored && IsBidOn(cfg, txs, b, t) && k in stored
    requires stored[b] <= stored[k] <= BackrunId(t) * P129 + P128
    ensures k == t || (IsBidOn(cfg, txs, k, t) && Score(cfg, txs, k) >= Score(cfg, txs, b)
                       && stored[k] == BackrunId(t) * P129 + Score(cfg, txs, k))
  {
    BidWord(cfg, txs, stored, b, t);
    assert Placed(cfg, txs, k, stored[k]);
    InGroup(cfg, txs, t, k, stored[k]);
  }

  lemma TargetAboveBid(cfg: Config, txs: Txs, stored: map<Hash, U256>, t: Hash, b: Hash)
    requires Separable(cfg, txs) && PlacedAll(cfg, txs, stored) && t in stored && b in stored && IsBidOn(cfg, txs, b, t)
    ensures stored[b] < stored[t] == BackrunId(t) * P129 + P128
  {
  }

  /** A target stands above each of its bids, and only its bids with at least that score stand in between. */
  lemma BidsBehindTarget(cfg: Config, txs: Txs, stored: map<Hash, U256>, q: seq<Hash>, i: nat, j: nat)
    requires Separable(cfg, txs) && PlacedAll(cfg, txs, stored) && ByPriority(stored, q)
    requires i < |q| && j < |q| && IsBidOn(cfg, txs, q[j], q[i])
    ensures i < j
    ensures forall k :: i < k <= j ==> IsBidOn(cfg, txs, q[k], q[i]) && Score(cfg, txs, q[k]) >= Score(cfg, txs, q[j])
  {
    var t, b := q[i], q[j];
    assert t in q && b in q;
    TargetAboveBid(cfg, txs, stored, t, b);
    forall k | i < k <= j
      ensures IsBidOn(cfg, txs, q[k], t) && Score(cfg, txs, q[k]) >= Score(cfg, txs, b)
    {
      BehindTarget(cfg, txs, stored, q, i, j, k);
    }
  }

  lemma Listed(stored: map<Hash, U256>, q: seq<Hash>, i: nat, j: nat)
    requires ByPriority(stored, q) && i <= j < |q|
    ensures q[i] in stored && q[j] in stored && stored[q[i]] >= stored[q[j]]
    ensures i < j ==> q[i] != q[j]
  {
    assert q[i] in q && q[j] in q;
  }

  lemma BehindTarget(cfg: Config, txs: Txs, stored: map<Hash, U256>, q: seq<Hash>, i: nat, j: nat, k: nat)
    requires Separable(cfg, txs) && PlacedAll(cfg, txs, stored) && ByPriority(stored, q)
    requires i < k <= j < |q| && IsBidOn(cfg, txs, q[j], q[i])
    ensures IsBidOn(cfg, txs, q[k], q[i]) && Score(cfg, txs, q[k]) >= Score(cfg, txs, q[j])
  {
    var t, b := q[i], q[j];
    Listed(stored, q, i, k);
    Listed(stored, q, k, j);
    TargetAboveBid(cfg, txs, stored, t, b);
    Between(cfg, txs, stored, t, b, q[k]);
  }

  /** Bids for one target stand together and by score, even where the target itself is not in the cache. */
  lemma GroupTogether(cfg: Config, txs: Txs, stored: map<Hash, U256>, q: seq<Hash>, t: Hash, i: nat, j: nat, k: nat)
    requires Separable(cfg, txs) && PlacedAll(cfg, txs, stored) && ByPriority(stored, q)
    requires i <= k <= j < |q| && IsBidOn(cfg, txs, q[i], t) && IsBidOn(cfg, txs, q[j], t)
    ensures IsBidOn(cfg, txs, q[k], t)
    ensures Score(cfg, txs, q[i]) >= Score(cfg, txs, q[k]) >= Score(cfg, txs, q[j])
  {
    Listed(stored, q, i, k);
    Listed(stored, q, k, j);
    BidWord(cfg, txs, stored, q[i], t);
    Between(cfg, txs, stored, t, q[j], q[k]);
    if q[k] == t {
      TargetWord(cfg, txs, stored, t);
    }
  }

  /** The layout the design promises of hashes listed from the highest priority down. */
  ghost predicate LaidOut(cfg: Config, txs: Txs, q: seq<Hash>) {
    && (forall h :: h in q ==> h in txs)
    && (forall i, j :: 0 <= i < j < |q| && IsTopBid(cfg, txs, q[j]) ==>
          IsTopBid(cfg, txs, q[i]) && Score(cfg, txs, q[i]) >= Score(cfg, txs, q[j]))
    && (forall i, j :: 0 <= i < |q| && 0 <= j < |q| && IsBidOn(cfg, txs, q[j], q[i]) ==>
          && i < j
          && forall k :: i < k <= j ==> IsBidOn(cfg, txs, q[k], q[i]) && Score(cfg, txs, q[k]) >= Score(cfg, txs, q[j]))
    && (forall t, i, k, j :: 0 <= i <= k <= j < |q| && IsBidOn(cfg, txs, q[i], t) && IsBidOn(cfg, txs, q[j], t) ==>
          && IsBidOn(cfg, txs, q[k], t)
          && Score(cfg, txs, q[i]) >= Score(cfg, txs, q[k]) >= Score(cfg, txs, q[j]))
  }

  lemma ListingIsLaidOut(cfg: Config, txs: Txs, stored: map<Hash, U256>, q: seq<Hash>)
    requires Separable(cfg, txs) && PlacedAll(cfg, txs, stored) && ByPriority(stored, q)
    ensures LaidOut(cfg, txs, q)
  {
    forall h | h in q
      ensures h in txs
    {
      assert Placed(cfg, txs, h, stored[h]);
    }
    forall i, j | 0 <= i < j < |q| && IsTopBid(cfg, txs, q[j])
      ensures IsTopBid(cfg, txs, q[i]) && Score(cfg, txs, q[i]) >= Score(cfg, txs, q[j])
    {
      TopBidsFirst(cfg, txs, stored, q, i, j);
    }
    forall i, j | 0 <= i < |q| && 0 <= j < |q| && IsBidOn(cfg, txs, q[j], q[i])
      ensures i < j
      ensures forall k :: i < k <= j ==> IsBidOn(cfg, txs, q[k], q[i]) && Score(cfg, txs, q[k]) >= Score(cfg, txs, q[j])
    {
      BidsBehindTarget(cfg, txs, stored, q, i, j);
    }
    forall t, i, k, j | 0 <= i <= k <= j < |q| && IsBidOn(cfg, txs, q[i], t) && IsBidOn(cfg, txs, q[j], t)
      ensures IsBidOn(cfg, txs, q[k], t)
      ensures Score(cfg, txs, q[i]) >= Score(cfg, txs, q[k]) >= Score(cfg, txs, q[j])
    {
      GroupTogether(cfg, txs, stored, q, t, i, j, k);
    }
  }

  /** In every reachable state, whatever failed, was evicted or reconnected, the sent hashes listed by priority put
      scored top-of-block bids first by score, and each target directly above its bids by score. */
  lemma SentIsLaidOut(settings: Settings, sentMax: nat, events: seq<Event>, txs: Txs, q: seq<Hash>)
    requires Consistent(events, txs) && Separable(Normalized(settings), txs)
    requires ByPriority(RunEvents(Start(settings, sentMax), events).0.sent.priorities, q)
    ensures LaidOut(Normalized(settings), txs, q)
  {
    var cfg, stored := Normalized(settings), RunEvents(Start(settings, sentMax), events).0.sent.priorities;
    EverythingExplained(settings, sentMax, events, txs);
    forall h | h in stored
      ensures Placed(cfg, txs, h, stored[h])
    {
      var r :| Explained(cfg, txs, r) && r.hash == h && r.priority == stored[h];
      ExplainedIsPlaced(cfg, txs, r);
    }
    ListingIsLaidOut(cfg, txs, stored, q);
  }
}
