/** Exactly when a bid goes out although its target never did. */
module TargetSends {
  import opened Base
  import opened Policy
  import opened PoolSpec
  import opened PoolInvariant
  import opened PoolRuns
  import opened SentSpec
  import opened LoopSpec
  import opened LoopRuns
  import opened Placement

  // ----- no bid waits for itself -----

  ghost predicate NoSelfParked(s: Pool) {
    forall t, b :: b in Parked(s.pending, t) ==> b.hash != t
  }

  /** In the loop an observed transaction is still cached once inserted, and whatever is cached then counts as
      streamed as it did before. */
  lemma InsertedAfterPrune(s: Pool, now: nat, h: Hash, tx: Tx, at: nat)
    requires Inv(s) && NoSelfParked(s)
    ensures var p := Prune(s, now).pool;
            var s1 := InsertCache(p, h, tx, at);
            && NoSelfParked(s1) && h in s1.cache
            && (forall t :: t in s1.cache ==> (t in s1.streamed <==> t in p.streamed))
            && (forall t :: t in s1.cache && t != h ==> (t in p.streamed <==> t in s.streamed))
  {
    var p := Prune(s, now).pool;
    PruneKeepsInv(s, now);
    PruneFewer(s, now);
    NoSelfEvictionAfterPrune(s, now, h);
    InsertSurvives(p, h, tx, at);
    InsertCacheKeeps(p, h, tx, at);
    PruneCacheKeeps(s, now);
    PrunePendingKeeps(PruneCache(s, now), now);
  }

  /** So a bid on itself is never parked. */
  lemma ObserveNoSelf(s: Pool, now: nat, h: Hash, tx: Tx, at: nat)
    requires Inv(s) && NoSelfParked(s)
    ensures NoSelfParked(Observe(Prune(s, now).pool, h, tx, at).pool)
  {
    InsertedAfterPrune(s, now, h, tx, at);
    var s1 := InsertCache(Prune(s, now).pool, h, tx, at);
    match Classify(tx, s1.cfg.policy)
    case TopOfBlock =>
    case InvalidGateway =>
    case Vanilla => VanillaNoSelf(s1, h);
    case Backrun(t) => BidNoSelf(s1, h, tx, t, at);
  }

  lemma VanillaNoSelf(s: Pool, h: Hash)
    requires NoSelfParked(s)
    ensures NoSelfParked(ObserveVanilla(s, h).pool)
  {
    forall t, b | b in Parked(ObserveVanilla(s, h).pool.pending, t)
      ensures b in Parked(s.pending, t)
    {
    }
  }

  lemma BidNoSelf(s: Pool, h: Hash, tx: Tx, target: Hash, now: nat)
    requires NoSelfParked(s) && h in s.cache
    ensures NoSelfParked(ObserveBid(s, h, tx, target, now).pool)
  {
    if target !in s.cache {
      var bid := PendingBid(h, tx, ComputePriority(tx, s.cfg.policy), target, now);
      forall t, b | b in Parked(StoreBid(s, bid).pending, t)
        ensures b.hash != t
      {
        assert (b == bid && t == target) || b in Parked(s.pending, t);
      }
      EvictFewer(StoreBid(s, bid));
    }
  }

  lemma {:induction false} RunNoSelf(settings: Settings, sentMax: nat, events: seq<Event>)
    ensures NoSelfParked(RunEvents(Start(settings, sentMax), events).0.pool)
  {
    if events != [] {
      var most, ev := events[..|events| - 1], events[|events| - 1];
      var l := RunEvents(Start(settings, sentMax), most).0;
      RunNoSelf(settings, sentMax, most);
      RunInv(settings, sentMax, most);
      match ev
      case Inserted(h, tx, prunedAt, observedAt, failAt) => ObserveNoSelf(l.pool, prunedAt, h, tx, observedAt);
      case Gone(h, hit) => ForgetFewer(l.pool, h, hit);
    }
  }

  // ----- one step -----

  /** A bid on `t` among `rs` is led by `t` exactly when `t` was not yet streamed; and if it was, `rs` has no other
      entry with the hash of `t`. */
  ghost predicate LedUnless(streamed: set<Hash>, rs: seq<Reinjection>, t: Hash) {
    if t in streamed then forall k :: 0 <= k < |rs| && rs[k].hash == t ==> |rs| == 1
    else rs != [] && rs[0].hash == t && rs[0].role == AsOpportunity
  }

  lemma BidLedUnless(s: Pool, h: Hash, tx: Tx, target: Hash, now: nat)
    requires target in s.cache
    ensures LedUnless(s.streamed, ObserveBid(s, h, tx, target, now).res.reinjections, target)
  {
  }

  lemma VanillaLedUnless(s: Pool, h: Hash)
    requires NoSelfParked(s) && h in s.cache && h in s.pending
    ensures LedUnless(s.streamed, ObserveVanilla(s, h).res.reinjections, h)
  {
    var bids := s.pending[h];
    forall i | 0 <= i < |bids|
      ensures BidsFor(h, bids)[i].hash != h
    {
      assert bids[i] in Parked(s.pending, h);
    }
  }

  /** Once the transaction is cached, whatever bid the step emits is for a cached target. */
  lemma MatchLedUnless(s0: Pool, h: Hash, tx: Tx, now: nat, i: nat)
    requires var s := InsertCache(s0, h, tx, now); NoSelfParked(s) && h in s.cache
    requires i < |Observe(s0, h, tx, now).res.reinjections|
    requires Observe(s0, h, tx, now).res.reinjections[i].role.AsBackrun?
    ensures var s, rs := InsertCache(s0, h, tx, now), Observe(s0, h, tx, now).res.reinjections;
            && rs[i].role.target in s.cache && LedUnless(s.streamed, rs, rs[i].role.target)
            && (rs[i].role.target != h ==> |rs| == 1 ==> rs[0].hash != rs[i].role.target)
  {
    var s := InsertCache(s0, h, tx, now);
    match Classify(tx, s.cfg.policy)
    case TopOfBlock =>
    case InvalidGateway =>
    case Vanilla => VanillaLedUnless(s, h);
    case Backrun(t) => BidLedUnless(s, h, tx, t, now);
  }

  /** A step that emits a bid on `t` emits `t` ahead of it exactly when `t` is not streamed after the prune. For a
      target that is not the inserted transaction itself the prune makes no difference. */
  lemma TargetLeadsExactly(s: Pool, prunedAt: nat, h: Hash, tx: Tx, observedAt: nat, i: nat)
    requires Inv(s) && NoSelfParked(s)
    requires var rs := Observe(Prune(s, prunedAt).pool, h, tx, observedAt).res.reinjections;
             i < |rs| && rs[i].role.AsBackrun?
    ensures var rs := Observe(Prune(s, prunedAt).pool, h, tx, observedAt).res.reinjections;
            var t := rs[i].role.target;
            && LedUnless(Prune(s, prunedAt).pool.streamed, rs, t)
            && (t != h ==> (t in Prune(s, prunedAt).pool.streamed <==> t in s.streamed))
            && (t != h ==> ((exists k :: 0 <= k < |rs| && rs[k].hash == t) <==> t !in s.streamed))
  {
    InsertedAfterPrune(s, prunedAt, h, tx, observedAt);
    var p := Prune(s, prunedAt).pool;
    MatchLedUnless(p, h, tx, observedAt, i);
  }

  // ----- over a run -----

  lemma SentInConcat(a: seq<LogEntry>, b: seq<LogEntry>, h: Hash)
    ensures SentIn(a + b, h) <==> SentIn(a, h) || SentIn(b, h)
  {
    forall i | 0 <= i < |a|
      ensures (a + b)[i] == a[i]
    {
    }
    forall i | 0 <= i < |b|
      ensures (a + b)[|a| + i] == b[i]
    {
    }
  }

  /** The first of `rs` is sent before anything else of `rs`, unless it was sent before. */
  lemma LeaderSent(sent: Sent, log: seq<LogEntry>, rs: seq<Reinjection>, failAt: nat, j: nat)
    requires SentMatches(sent.priorities, log) && rs != []
    requires var more := SendAll(sent, rs, failAt).1; j < |more| && more[j].SentOut? && more[j].r.role != rs[0].role
    ensures SentIn(log + SendAll(sent, rs, failAt).1[..j], rs[0].hash)
  {
    var more := SendAll(sent, rs, failAt).1;
    SentInConcat(log, more[..j], rs[0].hash);
    if rs[0].hash in sent.priorities {
      StoredIsMentioned(sent.priorities, log, rs[0].hash);
    } else if failAt == 0 {
      LostAt(rs, j);
    } else {
      assert more[0] == SentOut(rs[0]);
      assert more[..j][0] == SentOut(rs[0]);
    }
  }

  lemma {:induction false} LostAt(rs: seq<Reinjection>, j: nat)
    requires j < |LostAll(rs)|
    ensures LostAll(rs)[j].LostOut?
  {
    if j > 0 {
      LostAt(rs[1..], j - 1);
    }
  }

  lemma {:induction false} PushedAt(gone: seq<Hash>, j: nat)
    requires j < |PushedAll(gone)|
    ensures PushedAll(gone)[j].PushedOut?
  {
    if j > 0 {
      PushedAt(gone[1..], j - 1);
    }
  }

  lemma OnlySend(sent: Sent, r: Reinjection, failAt: nat, j: nat)
    requires var more := SendAll(sent, [r], failAt).1; j < |more| && more[j].SentOut?
    ensures j == 0
  {
    assert [r][1..] == [];
    if r.hash !in sent.priorities {
      if failAt == 0 {
        LostAt([r], j);
      } else if j > 0 {
        var pushed := SentSpec.Insert(sent, r.hash, r.priority).1;
        assert SendAll(sent, [r], failAt).1 == [SentOut(r)] + PushedAll(pushed);
        PushedAt(pushed, j - 1);
      }
    }
  }

  /** With `t` streamed already, nothing with its hash is sent ahead of another reinjection. */
  lemma NoneAhead(sent: Sent, rs: seq<Reinjection>, failAt: nat, t: Hash, j: nat)
    requires var more := SendAll(sent, rs, failAt).1; j < |more| && more[j].SentOut?
    requires forall k :: 0 <= k < |rs| && rs[k].hash == t ==> |rs| == 1
    ensures !SentIn(SendAll(sent, rs, failAt).1[..j], t)
  {
    var more := SendAll(sent, rs, failAt).1;
    forall m | 0 <= m < j && more[m].SentOut?
      ensures more[m].r.hash != t
    {
      SendsComeFrom(sent, rs, failAt, more[m]);
      if more[m].r.hash == t {
        assert rs == [rs[0]];
        OnlySend(sent, rs[0], failAt, j);
      }
    }
  }

  lemma InsertedAlone(l: Loop, log: seq<LogEntry>, h: Hash, tx: Tx, prunedAt: nat, observedAt: nat, failAt: nat, j: nat)
    requires LoopInv(l) && NoSelfParked(l.pool) && SentMatches(l.sent.priorities, log)
    requires var rs := Observe(Prune(l.pool, prunedAt).pool, h, tx, observedAt).res.reinjections;
             var more := SendAll(l.sent, rs, failAt).1;
             j < |more| && more[j].SentOut? && more[j].r.role.AsBackrun?
    ensures var rs := Observe(Prune(l.pool, prunedAt).pool, h, tx, observedAt).res.reinjections;
            var more := SendAll(l.sent, rs, failAt).1;
            var t := more[j].r.role.target;
            && (!SentIn(log + more[..j], t) <==> t in Prune(l.pool, prunedAt).pool.streamed && !SentIn(log, t))
            && (t != h ==> (t in Prune(l.pool, prunedAt).pool.streamed <==> t in l.pool.streamed))
  {
    var rs := Observe(Prune(l.pool, prunedAt).pool, h, tx, observedAt).res.reinjections;
    var more := SendAll(l.sent, rs, failAt).1;
    var t := more[j].r.role.target;
    SendsComeFrom(l.sent, rs, failAt, more[j]);
    var i :| 0 <= i < |rs| && rs[i] == more[j].r;
    TargetLeadsExactly(l.pool, prunedAt, h, tx, observedAt, i);
    SentInConcat(log, more[..j], t);
    if t in Prune(l.pool, prunedAt).pool.streamed {
      NoneAhead(l.sent, rs, failAt, t, j);
    } else {
      LeaderSent(l.sent, log, rs, failAt, j);
    }
  }

  /** Over every run: a bid goes out with its target never sent exactly when the target counts as streamed and no
      send of it ever succeeded. Then a send of it was lost. */
  lemma TargetNeverSentExactly(settings: Settings, sentMax: nat, events: seq<Event>, ev: Event, j: nat)
    requires var more := Handle(RunEvents(Start(settings, sentMax), events).0, ev).1;
             j < |more| && more[j].SentOut? && more[j].r.role.AsBackrun?
    ensures ev.Inserted?
    ensures var (l, log) := RunEvents(Start(settings, sentMax), events);
            var more := Handle(l, ev).1;
            var t := more[j].r.role.target;
            && (!SentIn(log + more[..j], t) <==> t in Prune(l.pool, ev.prunedAt).pool.streamed && !SentIn(log, t))
            && (t != ev.hash ==> (!SentIn(log + more[..j], t) <==> t in l.pool.streamed && !SentIn(log, t)))
            && (t in l.pool.streamed && !SentIn(log, t) ==>
                  exists i :: 0 <= i < |log| && log[i].LostOut? && log[i].r.hash == t)
  {
    var (l, log) := RunEvents(Start(settings, sentMax), events);
    RunInv(settings, sentMax, events);
    RunNoSelf(settings, sentMax, events);
    RunSendsApart(settings, sentMax, events);
    RunTargetsFirst(settings, sentMax, events);
    InsertedAlone(l, log, ev.hash, ev.tx, ev.prunedAt, ev.observedAt, ev.failAt, j);
  }

  /** As long as no send of its target failed, a bid's target was sent before it, as the opportunity if it is not a
      gateway transaction. */
  lemma TargetSentBeforeBid(settings: Settings, sentMax: nat, events: seq<Event>, txs: Txs, j: nat)
    requires Consistent(events, txs)
    requires var log := RunEvents(Start(settings, sentMax), events).1;
             && j < |log| && log[j].SentOut? && log[j].r.role.AsBackrun?
             && forall i :: 0 <= i < j && log[i].LostOut? ==> log[i].r.hash != log[j].r.role.target
    ensures var log := RunEvents(Start(settings, sentMax), events).1;
            var t := log[j].r.role.target;
            && t in txs
            && exists i :: 0 <= i < j && log[i].SentOut? && log[i].r.hash == t
                        && (!IsGateway(txs[t], settings.policy) ==> log[i].r == OpportunityFor(t, txs[t]))
  {
    TargetBeforeBid(settings, sentMax, events, txs, j);
  }
}
