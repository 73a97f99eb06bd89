/** Pairing as a join: what the pool emits for a batch of transactions does not depend on their order, exactly
    when no bid targets another gateway transaction of the batch. */
module Join {
  import opened Base
  import opened Policy
  import opened PoolSpec
  import opened PoolInvariant

  /** One observed transaction. */
  datatype Obs = Obs(hash: Hash, tx: Tx, now: nat)

  function RunObs(cfg: Config, obs: seq<Obs>): (Pool, seq<Reinjection>) {
    if obs == [] then (Init(cfg), [])
    else
      var (s, rs) := RunObs(cfg, obs[..|obs| - 1]);
      var o := obs[|obs| - 1];
      var e := Observe(s, o.hash, o.tx, o.now);
      (e.pool, rs + e.res.reinjections)
  }

  function Emitted(cfg: Config, obs: seq<Obs>): seq<Reinjection> {
    RunObs(cfg, obs).1
  }

  ghost predicate FreshObs(obs: seq<Obs>) {
    forall i, j :: 0 <= i < j < |obs| ==> obs[i].hash != obs[j].hash
  }

  function KindOf(cfg: Config, o: Obs): Kind {
    Classify(o.tx, cfg.policy)
  }

  ghost predicate Known(obs: seq<Obs>, h: Hash) {
    exists o :: o in obs && o.hash == h
  }

  ghost predicate Wanted(cfg: Config, obs: seq<Obs>, h: Hash) {
    exists o :: o in obs && KindOf(cfg, o) == Backrun(h)
  }

  ghost function Bids(cfg: Config, obs: seq<Obs>): set<Obs> {
    set o | o in obs && KindOf(cfg, o).Backrun?
  }

  ghost predicate WithinCaps(cfg: Config, obs: seq<Obs>) {
    |obs| <= cfg.maxCache && |Bids(cfg, obs)| <= cfg.maxPending
  }

  /** No bid targets a gateway transaction of the batch other than itself. */
  ghost predicate NoForeignGatewayTarget(cfg: Config, obs: seq<Obs>) {
    forall b, o :: b in obs && o in obs && KindOf(cfg, b) == Backrun(o.hash) && b != o ==> !IsGateway(o.tx, cfg.policy)
  }

  function BidReinjection(cfg: Config, o: Obs, target: Hash): Reinjection {
    BidFor(target, o.hash, o.tx, ComputePriority(o.tx, cfg.policy))
  }

  /** Transaction `o` of the batch is due the reinjection `r`. */
  ghost predicate Due(cfg: Config, obs: seq<Obs>, o: Obs, r: Reinjection) {
    match r.role
    case AsTob => KindOf(cfg, o) == TopOfBlock && r == TobFor(cfg, o.hash, o.tx)
    case AsBackrun(t) => KindOf(cfg, o) == Backrun(t) && Known(obs, t) && r == BidReinjection(cfg, o, t)
    case AsOpportunity => Wanted(cfg, obs, o.hash) && r == OpportunityFor(o.hash, o.tx)
  }

  /** The join: every top-of-block bid, every bid whose target is in the batch, and every transaction of the batch
      that some bid of the batch targets. */
  ghost predicate InJoin(cfg: Config, obs: seq<Obs>, r: Reinjection) {
    exists o :: o in obs && Due(cfg, obs, o, r)
  }

  function ParkedFor(cfg: Config, o: Obs, target: Hash): PendingBid {
    PendingBid(o.hash, o.tx, ComputePriority(o.tx, cfg.policy), target, o.now)
  }

  // ----- the state after a batch -----

  ghost predicate CacheSync(cfg: Config, obs: seq<Obs>, s: Pool) {
    && s.cfg == cfg
    && (forall k :: k in s.cache <==> Known(obs, k))
    && (forall o :: o in obs ==> o.hash in s.cache && s.cache[o.hash].tx == o.tx)
    && |s.cache| <= |obs|
    && (forall t :: t in s.streamed <==> Known(obs, t) && Wanted(cfg, obs, t))
  }

  ghost predicate PendingSync(cfg: Config, obs: seq<Obs>, s: Pool) {
    && (forall t, b :: b in Parked(s.pending, t)
                       <==> !Known(obs, t) && exists o :: o in obs && KindOf(cfg, o) == Backrun(t)
                                                    && b == ParkedFor(cfg, o, t))
    && (forall t :: HashesDiffer(Parked(s.pending, t)))
    && (forall t :: t in s.pending ==> s.pending[t] != [])
    && s.pendingCount <= |Bids(cfg, obs)|
  }

  ghost predicate EmittedSync(cfg: Config, obs: seq<Obs>, rs: seq<Reinjection>) {
    && Distinct(rs)
    && forall r :: r in rs <==> InJoin(cfg, obs, r)
  }

  // ----- adding one transaction to a batch -----

  lemma KnownGrows(obs: seq<Obs>, o: Obs, h: Hash)
    ensures Known(obs + [o], h) <==> Known(obs, h) || h == o.hash
  {
  }

  lemma WantedGrows(cfg: Config, obs: seq<Obs>, o: Obs, h: Hash)
    ensures Wanted(cfg, obs + [o], h) <==> Wanted(cfg, obs, h) || KindOf(cfg, o) == Backrun(h)
  {
  }

  lemma BidsGrow(cfg: Config, obs: seq<Obs>, o: Obs)
    requires !Known(obs, o.hash)
    ensures |Bids(cfg, obs + [o])| == |Bids(cfg, obs)| + (if KindOf(cfg, o).Backrun? then 1 else 0)
  {
    assert o !in obs;
    if KindOf(cfg, o).Backrun? {
      assert Bids(cfg, obs + [o]) == Bids(cfg, obs) + {o};
    } else {
      assert Bids(cfg, obs + [o]) == Bids(cfg, obs);
    }
  }

  /** What the join gains when `o` joins the batch. */
  ghost predicate Gain(cfg: Config, obs: seq<Obs>, o: Obs, r: Reinjection) {
    match KindOf(cfg, o)
    case TopOfBlock => r == TobFor(cfg, o.hash, o.tx)
    case InvalidGateway => false
    case Backrun(t) =>
      && Known(obs + [o], t)
      && (r == BidReinjection(cfg, o, t)
          || (!Wanted(cfg, obs, t) && exists x :: x in obs + [o] && x.hash == t && r == OpportunityFor(t, x.tx)))
    case Vanilla =>
      || (Wanted(cfg, obs, o.hash) && r == OpportunityFor(o.hash, o.tx))
      || exists b :: b in obs && KindOf(cfg, b) == Backrun(o.hash) && r == BidReinjection(cfg, b, o.hash)
  }

  lemma GatewayUnwanted(cfg: Config, obs: seq<Obs>, o: Obs)
    requires NoForeignGatewayTarget(cfg, obs + [o]) && !Known(obs, o.hash)
    requires KindOf(cfg, o) != Vanilla
    ensures !Wanted(cfg, obs, o.hash)
  {
  }

  lemma OldDueStays(cfg: Config, obs: seq<Obs>, o: Obs, r: Reinjection)
    requires InJoin(cfg, obs, r)
    ensures InJoin(cfg, obs + [o], r)
  {
    var x :| x in obs && Due(cfg, obs, x, r);
    assert x in obs + [o];
    if r.role.AsBackrun? {
      KnownGrows(obs, o, r.role.target);
    }
    WantedGrows(cfg, obs, o, x.hash);
    assert Due(cfg, obs + [o], x, r);
  }

  lemma GainIsDue(cfg: Config, obs: seq<Obs>, o: Obs, r: Reinjection)
    requires Gain(cfg, obs, o, r)
    ensures InJoin(cfg, obs + [o], r)
  {
    var all := obs + [o];
    assert o in all;
    match KindOf(cfg, o)
    case TopOfBlock => assert Due(cfg, all, o, r);
    case Backrun(t) =>
      WantedGrows(cfg, obs, o, t);
      if r == BidReinjection(cfg, o, t) {
        assert Due(cfg, all, o, r);
      } else {
        var x :| x in all && x.hash == t && r == OpportunityFor(t, x.tx);
        assert Due(cfg, all, x, r);
      }
    case Vanilla =>
      KnownGrows(obs, o, o.hash);
      WantedGrows(cfg, obs, o, o.hash);
      if Wanted(cfg, obs, o.hash) && r == OpportunityFor(o.hash, o.tx) {
        assert Due(cfg, all, o, r);
      } else {
        var b :| b in obs && KindOf(cfg, b) == Backrun(o.hash) && r == BidReinjection(cfg, b, o.hash);
        assert b in all && Due(cfg, all, b, r);
      }
  }

  lemma DueIsOldOrGain(cfg: Config, obs: seq<Obs>, o: Obs, r: Reinjection)
    requires NoForeignGatewayTarget(cfg, obs + [o]) && !Known(obs, o.hash)
    requires InJoin(cfg, obs + [o], r)
    ensures InJoin(cfg, obs, r) || Gain(cfg, obs, o, r)
  {
    var all := obs + [o];
    var x :| x in all && Due(cfg, all, x, r);
    if KindOf(cfg, o) != Vanilla {
      GatewayUnwanted(cfg, obs, o);
    }
    WantedGrows(cfg, obs, o, x.hash);
    match r.role
    case AsTob =>
      if x in obs {
        assert Due(cfg, obs, x, r);
      }
    case AsBackrun(t) =>
      KnownGrows(obs, o, t);
      if x in obs {
        if Known(obs, t) {
          assert Due(cfg, obs, x, r);
        } else {
          assert Wanted(cfg, obs, o.hash);
        }
      }
    case AsOpportunity =>
      if x in obs && Wanted(cfg, obs, x.hash) {
        assert Due(cfg, obs, x, r);
      } else if KindOf(cfg, o) == Backrun(x.hash) {
        KnownGrows(obs, o, x.hash);
        assert Known(all, x.hash) by {
          assert x in all;
        }
      }
  }

  lemma NewGain(cfg: Config, obs: seq<Obs>, o: Obs, r: Reinjection)
    requires !Known(obs, o.hash) && Gain(cfg, obs, o, r)
    ensures !InJoin(cfg, obs, r)
  {
  }

  // ----- one observation -----

  /** Below the cap, caching evicts nothing. */
  lemma InsertBelowCap(s: Pool, h: Hash, tx: Tx, now: nat)
    requires |s.cache| < s.cfg.maxCache
    ensures InsertCache(s, h, tx, now) == StoreCached(s, h, tx, now)
    ensures |StoreCached(s, h, tx, now).cache| <= |s.cache| + 1
  {
  }

  /** The cache after `o` is cached and before it is paired. */
  ghost predicate CachedSync(cfg: Config, obs: seq<Obs>, o: Obs, s: Pool) {
    && s.cfg == cfg
    && (forall k :: k in s.cache <==> Known(obs + [o], k))
    && (forall x :: x in obs + [o] ==> x.hash in s.cache && s.cache[x.hash].tx == x.tx)
    && |s.cache| <= |obs| + 1
    && (forall t :: t in s.streamed <==> Known(obs, t) && Wanted(cfg, obs, t))
  }

  lemma StoreSync(cfg: Config, obs: seq<Obs>, o: Obs, s: Pool)
    requires CacheSync(cfg, obs, s) && !Known(obs, o.hash) && |obs| < cfg.maxCache
    ensures CachedSync(cfg, obs, o, InsertCache(s, o.hash, o.tx, o.now))
    ensures var s1 := InsertCache(s, o.hash, o.tx, o.now); s1.pending == s.pending && s1.pendingCount == s.pendingCount
  {
  }

  /** `rs` are exactly the reinjections the join gains, without repetition. */
  ghost predicate GainSync(cfg: Config, obs: seq<Obs>, o: Obs, rs: seq<Reinjection>) {
    && Distinct(rs)
    && forall r :: r in rs <==> Gain(cfg, obs, o, r)
  }

  lemma EmittedGrows(cfg: Config, obs: seq<Obs>, o: Obs, rs: seq<Reinjection>, gained: seq<Reinjection>)
    requires NoForeignGatewayTarget(cfg, obs + [o]) && !Known(obs, o.hash)
    requires EmittedSync(cfg, obs, rs) && GainSync(cfg, obs, o, gained)
    ensures EmittedSync(cfg, obs + [o], rs + gained)
  {
    forall r
      ensures r in rs + gained <==> InJoin(cfg, obs + [o], r)
    {
      if r in rs {
        OldDueStays(cfg, obs, o, r);
      }
      if r in gained {
        GainIsDue(cfg, obs, o, r);
      }
      if InJoin(cfg, obs + [o], r) {
        DueIsOldOrGain(cfg, obs, o, r);
      }
    }
    forall r | r in gained
      ensures r !in rs
    {
      NewGain(cfg, obs, o, r);
    }
    DistinctConcat(rs, gained);
  }

  /** Parked bids are untouched when `o` neither parks nor flushes. */
  lemma PendingStays(cfg: Config, obs: seq<Obs>, o: Obs, s: Pool, s': Pool)
    requires PendingSync(cfg, obs, s) && !Known(obs, o.hash)
    requires s'.pending == s.pending && s'.pendingCount == s.pendingCount
    requires !Wanted(cfg, obs, o.hash)
    requires KindOf(cfg, o).Backrun? ==> Known(obs + [o], KindOf(cfg, o).target)
    ensures PendingSync(cfg, obs + [o], s')
  {
    var all := obs + [o];
    BidsGrow(cfg, obs, o);
    forall t, b
      ensures b in Parked(s'.pending, t)
              <==> !Known(all, t) && exists x :: x in all && KindOf(cfg, x) == Backrun(t) && b == ParkedFor(cfg, x, t)
    {
      KnownGrows(obs, o, t);
      if b in Parked(s'.pending, t) {
        var x :| x in obs && KindOf(cfg, x) == Backrun(t) && b == ParkedFor(cfg, x, t);
        assert x in all;
        assert Wanted(cfg, obs, t);
      }
    }
  }

  lemma OfferSync(cfg: Config, obs: seq<Obs>, o: Obs, s: Pool, t: Hash)
    requires CachedSync(cfg, obs, o, s) && KindOf(cfg, o) == Backrun(t) && Known(obs + [o], t)
    requires !Wanted(cfg, obs, o.hash)
    ensures CacheSync(cfg, obs + [o], EmitOpportunityOnce(s, t).0)
  {
    var s' := EmitOpportunityOnce(s, t).0;
    forall k
      ensures k in s'.streamed <==> Known(obs + [o], k) && Wanted(cfg, obs + [o], k)
    {
      KnownGrows(obs, o, k);
      WantedGrows(cfg, obs, o, k);
    }
  }

  lemma BidGain(cfg: Config, obs: seq<Obs>, o: Obs, s: Pool, t: Hash)
    requires CachedSync(cfg, obs, o, s) && KindOf(cfg, o) == Backrun(t) && Known(obs + [o], t)
    requires !Known(obs, o.hash) && !Wanted(cfg, obs, o.hash)
    ensures GainSync(cfg, obs, o, ObserveBid(s, o.hash, o.tx, t, o.now).res.reinjections)
  {
    var all := obs + [o];
    var rs := ObserveBid(s, o.hash, o.tx, t, o.now).res.reinjections;
    KnownGrows(obs, o, t);
    var x :| x in all && x.hash == t;
    assert s.cache[t].tx == x.tx;
    assert t in s.streamed <==> Wanted(cfg, obs, t);
    forall r
      ensures r in rs <==> Gain(cfg, obs, o, r)
    {
    }
  }

  lemma TobStep(cfg: Config, obs: seq<Obs>, o: Obs, s: Pool)
    requires CachedSync(cfg, obs, o, s) && !KindOf(cfg, o).Backrun? && !Wanted(cfg, obs, o.hash)
    ensures CacheSync(cfg, obs + [o], s)
  {
    forall k
      ensures k in s.streamed <==> Known(obs + [o], k) && Wanted(cfg, obs + [o], k)
    {
      KnownGrows(obs, o, k);
      WantedGrows(cfg, obs, o, k);
    }
  }

  lemma ParkSync(cfg: Config, obs: seq<Obs>, o: Obs, s: Pool, s': Pool, t: Hash)
    requires PendingSync(cfg, obs, s) && !Known(obs, o.hash) && !Wanted(cfg, obs, o.hash)
    requires KindOf(cfg, o) == Backrun(t) && !Known(obs + [o], t)
    requires s'.pending == s.pending[t := Parked(s.pending, t) + [ParkedFor(cfg, o, t)]]
    requires s'.pendingCount == s.pendingCount + 1
    ensures PendingSync(cfg, obs + [o], s')
  {
    var all := obs + [o];
    var bid := ParkedFor(cfg, o, t);
    BidsGrow(cfg, obs, o);
    forall k, b
      ensures b in Parked(s'.pending, k)
              <==> !Known(all, k) && exists x :: x in all && KindOf(cfg, x) == Backrun(k) && b == ParkedFor(cfg, x, k)
    {
      KnownGrows(obs, o, k);
      assert o in all;
      if b in Parked(s.pending, k) {
        var x :| x in obs && KindOf(cfg, x) == Backrun(k) && b == ParkedFor(cfg, x, k);
        assert x in all;
        assert Wanted(cfg, obs, k);
      }
    }
    forall k
      ensures HashesDiffer(Parked(s'.pending, k))
    {
      var v := Parked(s.pending, k);
      assert HashesDiffer(v);
      forall i | 0 <= i < |v|
        ensures v[i].hash != o.hash
      {
        assert v[i] in v;
        var x :| x in obs && KindOf(cfg, x) == Backrun(k) && v[i] == ParkedFor(cfg, x, k);
        assert Known(obs, x.hash);
      }
    }
  }

  lemma FlushSync(cfg: Config, obs: seq<Obs>, o: Obs, s: Pool, s': Pool)
    requires PendingSync(cfg, obs, s) && !Known(obs, o.hash) && KindOf(cfg, o) == Vanilla
    requires s'.pending == s.pending - {o.hash}
    requires s'.pendingCount <= s.pendingCount
    ensures PendingSync(cfg, obs + [o], s')
  {
    var all := obs + [o];
    BidsGrow(cfg, obs, o);
    forall k, b
      ensures b in Parked(s'.pending, k)
              <==> !Known(all, k) && exists x :: x in all && KindOf(cfg, x) == Backrun(k) && b == ParkedFor(cfg, x, k)
    {
      KnownGrows(obs, o, k);
      if b in Parked(s.pending, k) {
        var x :| x in obs && KindOf(cfg, x) == Backrun(k) && b == ParkedFor(cfg, x, k);
        assert x in all;
      }
    }
    forall k
      ensures HashesDiffer(Parked(s'.pending, k))
    {
      assert HashesDiffer(Parked(s.pending, k));
    }
  }

  lemma ParkedIsWanted(cfg: Config, obs: seq<Obs>, s: Pool, h: Hash)
    requires PendingSync(cfg, obs, s) && !Known(obs, h)
    ensures h in s.pending <==> Wanted(cfg, obs, h)
  {
    if h in s.pending {
      assert Parked(s.pending, h)[0] in Parked(s.pending, h);
    }
    if Wanted(cfg, obs, h) {
      var x :| x in obs && KindOf(cfg, x) == Backrun(h);
      assert ParkedFor(cfg, x, h) in Parked(s.pending, h);
    }
  }

  lemma VanillaCache(cfg: Config, obs: seq<Obs>, o: Obs, s: Pool)
    requires CachedSync(cfg, obs, o, s) && PendingSync(cfg, obs, s) && !Known(obs, o.hash) && KindOf(cfg, o) == Vanilla
    ensures CacheSync(cfg, obs + [o], ObserveVanilla(s, o.hash).pool)
  {
    var s' := ObserveVanilla(s, o.hash).pool;
    ParkedIsWanted(cfg, obs, s, o.hash);
    KnownGrows(obs, o, o.hash);
    forall k
      ensures k in s'.streamed <==> Known(obs + [o], k) && Wanted(cfg, obs + [o], k)
    {
      KnownGrows(obs, o, k);
      WantedGrows(cfg, obs, o, k);
    }
  }

  lemma FlushedBids(cfg: Config, obs: seq<Obs>, s: Pool, h: Hash, r: Reinjection)
    requires PendingSync(cfg, obs, s) && !Known(obs, h)
    ensures r in BidsFor(h, Parked(s.pending, h))
            <==> exists b :: b in obs && KindOf(cfg, b) == Backrun(h) && r == BidReinjection(cfg, b, h)
  {
    var bids := Parked(s.pending, h);
    if r in BidsFor(h, bids) {
      var i :| 0 <= i < |bids| && BidsFor(h, bids)[i] == r;
      assert bids[i] in bids;
      var b :| b in obs && KindOf(cfg, b) == Backrun(h) && bids[i] == ParkedFor(cfg, b, h);
      assert r == BidReinjection(cfg, b, h);
    }
    if b :| b in obs && KindOf(cfg, b) == Backrun(h) && r == BidReinjection(cfg, b, h) {
      assert ParkedFor(cfg, b, h) in bids;
      var i :| 0 <= i < |bids| && bids[i] == ParkedFor(cfg, b, h);
      assert BidsFor(h, bids)[i] == r;
    }
  }

  lemma FlushedDistinct(h: Hash, bids: seq<PendingBid>)
    requires HashesDiffer(bids)
    ensures Distinct(BidsFor(h, bids))
  {
  }

  lemma VanillaGain(cfg: Config, obs: seq<Obs>, o: Obs, s: Pool)
    requires CachedSync(cfg, obs, o, s) && PendingSync(cfg, obs, s) && !Known(obs, o.hash) && KindOf(cfg, o) == Vanilla
    ensures GainSync(cfg, obs, o, ObserveVanilla(s, o.hash).res.reinjections)
  {
    var h := o.hash;
    var bids := Parked(s.pending, h);
    ParkedIsWanted(cfg, obs, s, h);
    forall r
      ensures r in BidsFor(h, bids)
              <==> exists b :: b in obs && KindOf(cfg, b) == Backrun(h) && r == BidReinjection(cfg, b, h)
    {
      FlushedBids(cfg, obs, s, h, r);
    }
    assert HashesDiffer(bids);
    FlushedDistinct(h, bids);
    if h in s.pending {
      var opp := OpportunityFor(h, o.tx);
      assert o in obs + [o] && s.cache[h].tx == o.tx;
      assert ObserveVanilla(s, h).res.reinjections == [opp] + BidsFor(h, bids);
      DistinctConcat([opp], BidsFor(h, bids));
    } else {
      assert ObserveVanilla(s, h).res.reinjections == [];
      assert BidsFor(h, bids) == [];
    }
  }

  // ----- whole batches -----

  ghost predicate Synced(cfg: Config, obs: seq<Obs>, s: Pool, rs: seq<Reinjection>) {
    CacheSync(cfg, obs, s) && PendingSync(cfg, obs, s) && EmittedSync(cfg, obs, rs)
  }

  /** The state and the gain agree with the batch once `o` has been observed. */
  ghost predicate EffectSync(cfg: Config, obs: seq<Obs>, o: Obs, e: Effect) {
    CacheSync(cfg, obs + [o], e.pool) && PendingSync(cfg, obs + [o], e.pool)
        && GainSync(cfg, obs, o, e.res.reinjections)
  }

  lemma StepPairedBid(cfg: Config, obs: seq<Obs>, o: Obs, s: Pool, t: Hash)
    requires CachedSync(cfg, obs, o, s) && PendingSync(cfg, obs, s) && KindOf(cfg, o) == Backrun(t)
    requires !Known(obs, o.hash) && !Wanted(cfg, obs, o.hash) && t in s.cache
    ensures EffectSync(cfg, obs, o, ObserveBid(s, o.hash, o.tx, t, o.now))
  {
    OfferSync(cfg, obs, o, s, t);
    PendingStays(cfg, obs, o, s, EmitOpportunityOnce(s, t).0);
    BidGain(cfg, obs, o, s, t);
  }

  lemma StepParkedBid(cfg: Config, obs: seq<Obs>, o: Obs, s: Pool, t: Hash)
    requires CachedSync(cfg, obs, o, s) && PendingSync(cfg, obs, s) && KindOf(cfg, o) == Backrun(t)
    requires !Known(obs, o.hash) && !Wanted(cfg, obs, o.hash) && t !in s.cache
    requires |Bids(cfg, obs + [o])| <= cfg.maxPending
    ensures EffectSync(cfg, obs, o, ObserveBid(s, o.hash, o.tx, t, o.now))
  {
    var stored := StoreBid(s, ParkedFor(cfg, o, t));
    BidsGrow(cfg, obs, o);
    assert PushPending(s, ParkedFor(cfg, o, t)) == (stored, []);
    ParkSync(cfg, obs, o, s, stored, t);
    ParkedCache(cfg, obs, o, s, stored, t);
  }

  lemma StepVanilla(cfg: Config, obs: seq<Obs>, o: Obs, s: Pool)
    requires CachedSync(cfg, obs, o, s) && PendingSync(cfg, obs, s) && KindOf(cfg, o) == Vanilla && !Known(obs, o.hash)
    ensures EffectSync(cfg, obs, o, ObserveVanilla(s, o.hash))
  {
    VanillaCache(cfg, obs, o, s);
    VanillaFrame(s, o.hash);
    FlushSync(cfg, obs, o, s, ObserveVanilla(s, o.hash).pool);
    VanillaGain(cfg, obs, o, s);
  }

  lemma VanillaFrame(s: Pool, h: Hash)
    ensures var s' := ObserveVanilla(s, h).pool; s'.pending == s.pending - {h} && s'.pendingCount <= s.pendingCount
  {
  }

  lemma StepSingle(cfg: Config, obs: seq<Obs>, o: Obs, s: Pool, rs: seq<Reinjection>)
    requires CachedSync(cfg, obs, o, s) && PendingSync(cfg, obs, s)
    requires !Known(obs, o.hash) && !Wanted(cfg, obs, o.hash)
    requires (KindOf(cfg, o) == TopOfBlock && rs == [TobFor(cfg, o.hash, o.tx)])
             || (KindOf(cfg, o) == InvalidGateway && rs == [])
    ensures CacheSync(cfg, obs + [o], s) && PendingSync(cfg, obs + [o], s) && GainSync(cfg, obs, o, rs)
  {
    TobStep(cfg, obs, o, s);
    PendingStays(cfg, obs, o, s, s);
  }

  lemma ParkedCache(cfg: Config, obs: seq<Obs>, o: Obs, s: Pool, s': Pool, t: Hash)
    requires CachedSync(cfg, obs, o, s) && KindOf(cfg, o) == Backrun(t) && t !in s.cache && !Wanted(cfg, obs, o.hash)
    requires s'.cfg == s.cfg && s'.cache == s.cache && s'.streamed == s.streamed
    ensures CacheSync(cfg, obs + [o], s')
  {
    forall k
      ensures k in s'.streamed <==> Known(obs + [o], k) && Wanted(cfg, obs + [o], k)
    {
      KnownGrows(obs, o, k);
      WantedGrows(cfg, obs, o, k);
    }
  }

  lemma StepEffect(cfg: Config, obs: seq<Obs>, o: Obs, s: Pool)
    requires CacheSync(cfg, obs, s) && PendingSync(cfg, obs, s)
    requires !Known(obs, o.hash) && NoForeignGatewayTarget(cfg, obs + [o])
    requires |obs| < cfg.maxCache && |Bids(cfg, obs + [o])| <= cfg.maxPending
    ensures EffectSync(cfg, obs, o, Observe(s, o.hash, o.tx, o.now))
  {
    var s1 := InsertCache(s, o.hash, o.tx, o.now);
    assert CachedSync(cfg, obs, o, s1) && PendingSync(cfg, obs, s1) by {
      StoreSync(cfg, obs, o, s);
    }
    if KindOf(cfg, o) == Vanilla {
      StepVanilla(cfg, obs, o, s1);
    } else {
      GatewayUnwanted(cfg, obs, o);
      StepGateway(cfg, obs, o, s, s1);
    }
  }

  lemma StepGateway(cfg: Config, obs: seq<Obs>, o: Obs, s: Pool, s1: Pool)
    requires s1 == InsertCache(s, o.hash, o.tx, o.now) && KindOf(cfg, o) != Vanilla
    requires CachedSync(cfg, obs, o, s1) && PendingSync(cfg, obs, s1)
    requires !Known(obs, o.hash) && !Wanted(cfg, obs, o.hash) && |Bids(cfg, obs + [o])| <= cfg.maxPending
    ensures EffectSync(cfg, obs, o, Observe(s, o.hash, o.tx, o.now))
  {
    match KindOf(cfg, o)
    case TopOfBlock => StepSingle(cfg, obs, o, s1, [TobFor(cfg, o.hash, o.tx)]);
    case InvalidGateway => StepSingle(cfg, obs, o, s1, []);
    case Backrun(t) =>
      if t in s1.cache {
        StepPairedBid(cfg, obs, o, s1, t);
      } else {
        StepParkedBid(cfg, obs, o, s1, t);
      }
  }

  lemma StepSync(cfg: Config, obs: seq<Obs>, o: Obs, s: Pool, rs: seq<Reinjection>)
    requires Synced(cfg, obs, s, rs)
    requires !Known(obs, o.hash) && NoForeignGatewayTarget(cfg, obs + [o])
    requires |obs| < cfg.maxCache && |Bids(cfg, obs + [o])| <= cfg.maxPending
    ensures var e := Observe(s, o.hash, o.tx, o.now);
            Synced(cfg, obs + [o], e.pool, rs + e.res.reinjections)
  {
    StepEffect(cfg, obs, o, s);
    EmittedGrows(cfg, obs, o, rs, Observe(s, o.hash, o.tx, o.now).res.reinjections);
  }

  lemma {:induction false} RunSync(cfg: Config, obs: seq<Obs>)
    requires FreshObs(obs) && WithinCaps(cfg, obs) && NoForeignGatewayTarget(cfg, obs)
    ensures Synced(cfg, obs, RunObs(cfg, obs).0, Emitted(cfg, obs))
  {
    if obs == [] {
      assert forall r :: !InJoin(cfg, obs, r);
    } else {
      var most, o := obs[..|obs| - 1], obs[|obs| - 1];
      assert obs == most + [o];
      assert forall x :: x in most ==> x in obs;
      CardSubset(Bids(cfg, most), Bids(cfg, obs));
      RunSync(cfg, most);
      StepSync(cfg, most, o, RunObs(cfg, most).0, Emitted(cfg, most));
    }
  }

  lemma {:induction false} CardSubset<T>(a: set<T>, b: set<T>)
    requires a <= b
    ensures |a| <= |b|
  {
    assert b == a + (b - a);
  }

  lemma {:induction false} DistinctCount<T>(xs: seq<T>, x: T)
    requires Distinct(xs)
    ensures multiset(xs)[x] == if x in xs then 1 else 0
  {
    if xs != [] {
      DistinctCount(xs[1..], x);
      assert xs == [xs[0]] + xs[1..];
      assert xs[0] !in xs[1..];
    }
  }

  /** The pool emits each member of the join exactly once and nothing else. */
  lemma PairingIsAJoin(cfg: Config, obs: seq<Obs>, r: Reinjection)
    requires FreshObs(obs) && WithinCaps(cfg, obs) && NoForeignGatewayTarget(cfg, obs)
    ensures multiset(Emitted(cfg, obs))[r] == if InJoin(cfg, obs, r) then 1 else 0
  {
    RunSync(cfg, obs);
    DistinctCount(Emitted(cfg, obs), r);
  }

  // ----- order -----

  ghost predicate SameBatch(p: seq<Obs>, q: seq<Obs>) {
    multiset(p) == multiset(q)
  }

  ghost predicate OrderFree(cfg: Config, obs: seq<Obs>) {
    forall q :: SameBatch(obs, q) ==> multiset(Emitted(cfg, q)) == multiset(Emitted(cfg, obs))
  }

  lemma SameMembers(p: seq<Obs>, q: seq<Obs>, o: Obs)
    requires SameBatch(p, q)
    ensures o in p <==> o in q
  {
    assert o in p <==> o in multiset(p);
    assert o in q <==> o in multiset(q);
  }

  lemma {:induction false} SharedTwice(obs: seq<Obs>, i: nat, j: nat)
    requires i < j < |obs|
    ensures multiset(obs)[obs[i]] >= 1 && (obs[i] == obs[j] ==> multiset(obs)[obs[i]] >= 2)
  {
    assert obs == obs[..j] + [obs[j]] + obs[j + 1..];
    assert obs[i] in obs[..j];
  }

  lemma SameFresh(p: seq<Obs>, q: seq<Obs>)
    requires SameBatch(p, q) && FreshObs(p)
    ensures FreshObs(q)
  {
    forall i, j | 0 <= i < j < |q|
      ensures q[i].hash != q[j].hash
    {
      SharedTwice(q, i, j);
      SameMembers(p, q, q[i]);
      SameMembers(p, q, q[j]);
      assert Distinct(p);
      DistinctCount(p, q[i]);
    }
  }

  lemma SameJoin(cfg: Config, p: seq<Obs>, q: seq<Obs>)
    requires SameBatch(p, q) && FreshObs(p)
    ensures FreshObs(q)
    ensures WithinCaps(cfg, p) ==> WithinCaps(cfg, q)
    ensures NoForeignGatewayTarget(cfg, p) ==> NoForeignGatewayTarget(cfg, q)
    ensures forall r :: InJoin(cfg, p, r) <==> InJoin(cfg, q, r)
  {
    SameFresh(p, q);
    forall o
      ensures o in p <==> o in q
    {
      SameMembers(p, q, o);
    }
    assert |p| == |multiset(p)| && |q| == |multiset(q)|;
    assert Bids(cfg, p) == Bids(cfg, q);
    assert forall h :: Known(p, h) <==> Known(q, h);
    assert forall h :: Wanted(cfg, p, h) <==> Wanted(cfg, q, h);
    forall r
      ensures InJoin(cfg, p, r) <==> InJoin(cfg, q, r)
    {
      assert forall o :: Due(cfg, p, o, r) <==> Due(cfg, q, o, r);
    }
  }

  lemma JoinIsOrderFree(cfg: Config, obs: seq<Obs>)
    requires FreshObs(obs) && WithinCaps(cfg, obs) && NoForeignGatewayTarget(cfg, obs)
    ensures OrderFree(cfg, obs)
  {
    forall q | SameBatch(obs, q)
      ensures multiset(Emitted(cfg, q)) == multiset(Emitted(cfg, obs))
    {
      SameJoin(cfg, obs, q);
      forall r
        ensures multiset(Emitted(cfg, q))[r] == multiset(Emitted(cfg, obs))[r]
      {
        PairingIsAJoin(cfg, obs, r);
        PairingIsAJoin(cfg, q, r);
      }
    }
  }

  // ----- the condition is necessary -----

  /** Among bids with hash `h`, only ones aimed at `t` are parked. */
  ghost predicate ParkedOnlyUnder(s: Pool, h: Hash, t: Hash) {
    forall x, b :: b in Parked(s.pending, x) && b.hash == h ==> x == t
  }

  ghost predicate NoBidOf(rs: seq<Reinjection>, h: Hash) {
    forall r :: r in rs && r.hash == h ==> !r.role.AsBackrun?
  }

  lemma PopParks(s: Pool, h: Hash, t: Hash)
    requires s.pendingOrder != [] && ParkedOnlyUnder(s, h, t)
    ensures ParkedOnlyUnder(PopPendingSlot(s).0, h, t)
  {
    var s' := PopPendingSlot(s).0;
    forall x, b | b in Parked(s'.pending, x) && b.hash == h
      ensures x == t
    {
      assert b in Parked(s.pending, x);
    }
  }

  lemma {:induction false} EvictParks(s: Pool, h: Hash, t: Hash)
    requires ParkedOnlyUnder(s, h, t)
    ensures ParkedOnlyUnder(EvictPending(s).0, h, t)
    decreases |s.pendingOrder|
  {
    if s.pendingCount > s.cfg.maxPending && s.pendingOrder != [] {
      PopParks(s, h, t);
      EvictParks(PopPendingSlot(s).0, h, t);
    }
  }

  lemma {:induction false} EvictCachePending(s: Pool)
    ensures EvictCache(s).pending == s.pending && EvictCache(s).cfg == s.cfg
    decreases |s.cacheOrder|
  {
    if |s.cache| > s.cfg.maxCache && s.cacheOrder != [] {
      EvictCachePending(PopCacheSlot(s));
    }
  }

  lemma FlushParks(s: Pool, h: Hash, bid: Hash, t: Hash)
    requires ParkedOnlyUnder(s, bid, t) && h != t
    ensures ParkedOnlyUnder(ObserveVanilla(s, h).pool, bid, t)
    ensures NoBidOf(ObserveVanilla(s, h).res.reinjections, bid)
  {
    var s' := ObserveVanilla(s, h).pool;
    forall x, b | b in Parked(s'.pending, x) && b.hash == bid
      ensures x == t
    {
      assert b in Parked(s.pending, x);
    }
    var v := Parked(s.pending, h);
    forall i | 0 <= i < |v|
      ensures v[i].hash != bid
    {
      assert v[i] in v;
    }
    forall r | r in BidsFor(h, v)
      ensures r.hash != bid
    {
      var i :| 0 <= i < |v| && BidsFor(h, v)[i] == r;
    }
  }

  lemma ParkParks(s: Pool, h: Hash, tx: Tx, target: Hash, now: nat, bid: Hash, t: Hash)
    requires ParkedOnlyUnder(s, bid, t) && h != bid
    ensures ParkedOnlyUnder(ObserveBid(s, h, tx, target, now).pool, bid, t)
    ensures NoBidOf(ObserveBid(s, h, tx, target, now).res.reinjections, bid)
    ensures ObserveBid(s, h, tx, target, now).pool.cfg == s.cfg
  {
    if target in s.cache {
      assert EmitOpportunityOnce(s, target).0.pending == s.pending;
    } else {
      var b := PendingBid(h, tx, ComputePriority(tx, s.cfg.policy), target, now);
      StoreParks(s, b, bid, t);
      EvictParks(StoreBid(s, b), bid, t);
      EvictPendingCache(StoreBid(s, b));
    }
  }

  /** A bid parked under `t` stays unsent while neither it nor a non-gateway `t` is observed. */
  lemma StaysParked(s: Pool, h: Hash, tx: Tx, now: nat, bid: Hash, t: Hash)
    requires ParkedOnlyUnder(s, bid, t)
    requires h != bid && (h == t ==> IsGateway(tx, s.cfg.policy))
    ensures ParkedOnlyUnder(Observe(s, h, tx, now).pool, bid, t)
    ensures NoBidOf(Observe(s, h, tx, now).res.reinjections, bid)
    ensures Observe(s, h, tx, now).pool.cfg == s.cfg
  {
    EvictCachePending(StoreCached(s, h, tx, now));
    var s1 := InsertCache(s, h, tx, now);
    assert ParkedOnlyUnder(s1, bid, t);
    match Classify(tx, s.cfg.policy)
    case TopOfBlock =>
    case InvalidGateway =>
    case Backrun(target) => ParkParks(s1, h, tx, target, now, bid, t);
    case Vanilla => FlushParks(s1, h, bid, t);
  }

  lemma StoreParks(s: Pool, b: PendingBid, bid: Hash, t: Hash)
    requires ParkedOnlyUnder(s, bid, t) && b.hash != bid
    ensures ParkedOnlyUnder(StoreBid(s, b), bid, t)
  {
    forall x, y | y in Parked(StoreBid(s, b).pending, x) && y.hash == bid
      ensures x == t
    {
      assert y in Parked(s.pending, x);
    }
  }

  /** A bid seen before the gateway transaction it targets is never emitted. */
  lemma {:induction false} BidFirstNeverEmitted(cfg: Config, b: Obs, o: Obs, rest: seq<Obs>)
    requires KindOf(cfg, b) == Backrun(o.hash) && b.hash != o.hash && IsGateway(o.tx, cfg.policy)
    requires forall x :: x in rest ==> x.hash != b.hash && x.hash != o.hash
    ensures RunObs(cfg, [b, o] + rest).0.cfg == cfg
    ensures ParkedOnlyUnder(RunObs(cfg, [b, o] + rest).0, b.hash, o.hash)
    ensures NoBidOf(Emitted(cfg, [b, o] + rest), b.hash)
    decreases rest
  {
    if rest == [] {
      var s0 := Init(cfg);
      InsertBelowCap(s0, b.hash, b.tx, b.now);
      assert RunObs(cfg, []) == (s0, []);
      assert [b][..0] == [] && [b, o][..1] == [b] && [b, o] + rest == [b, o];
      var e := Observe(s0, b.hash, b.tx, b.now);
      assert RunObs(cfg, [b]) == (e.pool, [] + e.res.reinjections);
      StaysParked(e.pool, o.hash, o.tx, o.now, b.hash, o.hash);
    } else {
      var most, x := rest[..|rest| - 1], rest[|rest| - 1];
      var all := [b, o] + rest;
      assert all[..|all| - 1] == [b, o] + most && all[|all| - 1] == x;
      BidFirstNeverEmitted(cfg, b, o, most);
      StaysParked(RunObs(cfg, [b, o] + most).0, x.hash, x.tx, x.now, b.hash, o.hash);
    }
  }

  lemma RunSnoc(cfg: Config, obs: seq<Obs>, o: Obs)
    ensures RunObs(cfg, obs + [o]).0 == Observe(RunObs(cfg, obs).0, o.hash, o.tx, o.now).pool
    ensures Emitted(cfg, obs + [o])
            == Emitted(cfg, obs) + Observe(RunObs(cfg, obs).0, o.hash, o.tx, o.now).res.reinjections
  {
  }

  lemma {:induction false} EmittedPrefix(cfg: Config, obs: seq<Obs>, more: seq<Obs>, r: Reinjection)
    requires r in Emitted(cfg, obs)
    ensures r in Emitted(cfg, obs + more)
    decreases |more|
  {
    if more == [] {
      assert obs + more == obs;
    } else {
      MoveFront(obs, more);
      EmittedStays(cfg, obs, more[0], r);
      EmittedPrefix(cfg, obs + [more[0]], more[1..], r);
    }
  }

  lemma EmittedStays(cfg: Config, obs: seq<Obs>, o: Obs, r: Reinjection)
    requires r in Emitted(cfg, obs)
    ensures r in Emitted(cfg, obs + [o])
  {
    RunSnoc(cfg, obs, o);
  }

  /** A bid seen after the gateway transaction it targets is emitted. */
  lemma BidSecondEmitted(cfg: Config, b: Obs, o: Obs, rest: seq<Obs>)
    requires cfg.maxCache >= 2
    requires KindOf(cfg, b) == Backrun(o.hash) && b.hash != o.hash && IsGateway(o.tx, cfg.policy)
    ensures BidReinjection(cfg, b, o.hash) in Emitted(cfg, [o, b] + rest)
  {
    assert [] + [o] == [o] && [o] + [b] == [o, b];
    RunSnoc(cfg, [], o);
    GatewayCached(Init(cfg), o.hash, o.tx, o.now);
    RunSnoc(cfg, [o], b);
    PairsAtOnce(cfg, RunObs(cfg, [o]).0, b, o.hash);
    EmittedPrefix(cfg, [o, b], rest, BidReinjection(cfg, b, o.hash));
  }

  lemma PairsAtOnce(cfg: Config, s: Pool, b: Obs, t: Hash)
    requires s.cfg == cfg && KindOf(cfg, b) == Backrun(t) && t in s.cache && |s.cache| < cfg.maxCache
    ensures BidReinjection(cfg, b, t) in Observe(s, b.hash, b.tx, b.now).res.reinjections
  {
  }

  lemma GatewayCached(s: Pool, h: Hash, tx: Tx, now: nat)
    requires s.cache == map[] && s.cfg.maxCache >= 2 && IsGateway(tx, s.cfg.policy)
    ensures var s' := Observe(s, h, tx, now).pool; s'.cfg == s.cfg && h in s'.cache && |s'.cache| == 1
  {
    InsertBelowCap(s, h, tx, now);
    var s1 := StoreCached(s, h, tx, now);
    assert s1.cache == map[h := CachedTx(tx, now)];
    if target :| Classify(tx, s.cfg.policy) == Backrun(target) {
      if target !in s1.cache {
        EvictPendingCache(StoreBid(s1, PendingBid(h, tx, ComputePriority(tx, s.cfg.policy), target, now)));
      }
    }
  }

  lemma {:induction false} EvictPendingCache(s: Pool)
    ensures EvictPending(s).0.cache == s.cache && EvictPending(s).0.cfg == s.cfg
    decreases |s.pendingOrder|
  {
    if s.pendingCount > s.cfg.maxPending && s.pendingOrder != [] {
      EvictPendingCache(PopPendingSlot(s).0);
    }
  }

  lemma ForeignTargetBreaksOrder(cfg: Config, obs: seq<Obs>, b: Obs, o: Obs)
    requires FreshObs(obs) && WithinCaps(cfg, obs)
    requires b in obs && o in obs && b != o && KindOf(cfg, b) == Backrun(o.hash) && IsGateway(o.tx, cfg.policy)
    ensures !OrderFree(cfg, obs)
  {
    var rest := Without(obs, b, o);
    var p, q := [o, b] + rest, [b, o] + rest;
    TwoFirst(obs, b, o, rest);
    FrontApart(b, o, rest);
    BidFirstNeverEmitted(cfg, b, o, rest);
    BidSecondEmitted(cfg, b, o, rest);
    NotOrderFree(cfg, obs, p, q, BidReinjection(cfg, b, o.hash));
  }

  lemma NotOrderFree(cfg: Config, obs: seq<Obs>, p: seq<Obs>, q: seq<Obs>, r: Reinjection)
    requires SameBatch(obs, p) && SameBatch(obs, q)
    requires r in Emitted(cfg, p) && r !in Emitted(cfg, q)
    ensures !OrderFree(cfg, obs)
  {
    assert r in multiset(Emitted(cfg, p)) && r !in multiset(Emitted(cfg, q));
  }

  lemma TwoFirst(obs: seq<Obs>, b: Obs, o: Obs, rest: seq<Obs>)
    requires FreshObs(obs) && multiset(obs) == multiset{b, o} + multiset(rest)
    ensures SameBatch(obs, [o, b] + rest) && SameBatch(obs, [b, o] + rest)
    ensures FreshObs([b, o] + rest) && |obs| >= 2
  {
    assert multiset([o, b]) == multiset{b, o} == multiset([b, o]);
    SameFresh(obs, [b, o] + rest);
    assert |obs| == |multiset(obs)|;
  }

  lemma FrontApart(b: Obs, o: Obs, rest: seq<Obs>)
    requires FreshObs([b, o] + rest)
    ensures b.hash != o.hash
    ensures forall x :: x in rest ==> x.hash != b.hash && x.hash != o.hash
  {
    var q := [b, o] + rest;
    assert q[0] == b && q[1] == o;
    forall x | x in rest
      ensures x.hash != b.hash && x.hash != o.hash
    {
      var i :| 0 <= i < |rest| && rest[i] == x;
      assert q[i + 2] == x;
    }
  }

  lemma TakeOut(obs: seq<Obs>, o: Obs) returns (rest: seq<Obs>)
    requires o in obs
    ensures multiset(obs) == multiset{o} + multiset(rest)
  {
    var i :| 0 <= i < |obs| && obs[i] == o;
    RemovedMultiset(obs, i);
    rest := RemoveAt(obs, i);
  }

  lemma Without(obs: seq<Obs>, b: Obs, o: Obs) returns (rest: seq<Obs>)
    requires b in obs && o in obs && b != o
    ensures multiset(obs) == multiset{b, o} + multiset(rest)
  {
    var left := TakeOut(obs, b);
    assert o in multiset(left) by {
      assert o in multiset(obs);
    }
    rest := TakeOut(left, o);
    assert multiset{b} + (multiset{o} + multiset(rest)) == multiset{b, o} + multiset(rest);
  }

  /** What a batch makes the pool emit is independent of arrival order exactly when none of its bids targets
      another gateway transaction of the batch. */
  lemma OrderFreeExactly(cfg: Config, obs: seq<Obs>)
    requires FreshObs(obs) && WithinCaps(cfg, obs)
    ensures OrderFree(cfg, obs) <==> NoForeignGatewayTarget(cfg, obs)
  {
    if NoForeignGatewayTarget(cfg, obs) {
      JoinIsOrderFree(cfg, obs);
    } else {
      var b, o :| b in obs && o in obs && KindOf(cfg, b) == Backrun(o.hash) && b != o && IsGateway(o.tx, cfg.policy);
      ForeignTargetBreaksOrder(cfg, obs, b, o);
    }
  }
}
