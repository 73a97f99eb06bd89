/** What becomes of a transaction that left the node's pool: exactly when its bid can still be sent. */
module Forgetting {
  import opened Base
  import opened Policy
  import opened PoolSpec
  import opened PoolInvariant
  import opened PoolRuns
  import opened PendingQueue
  import opened Refinement
  import opened RefinementRuns
  import opened SentSpec
  import opened LoopSpec
  import opened LoopRuns
  import opened Placement

  // ----- a hash the pool no longer knows -----

  /** `h` is neither cached nor the hash of a parked bid. */
  ghost predicate Absent(s: Pool, h: Hash) {
    h !in s.cache && forall t, b :: b in Parked(s.pending, t) ==> b.hash != h
  }

  ghost predicate NoneOf(rs: seq<Reinjection>, h: Hash) {
    forall i :: 0 <= i < |rs| ==> rs[i].hash != h
  }

  lemma NowhereIsAbsent(s: Pool, h: Hash)
    requires h !in s.cache && ParkedNowhere(s, h)
    ensures Absent(s, h)
  {
    forall t, b | b in Parked(s.pending, t)
      ensures b.hash != h
    {
      HasMember(Parked(s.pending, t), b);
    }
  }

  lemma BidAbsent(s: Pool, h: Hash, k: Hash, tx: Tx, target: Hash, now: nat)
    requires Absent(s, h) && k != h
    ensures var e := ObserveBid(s, k, tx, target, now);
            Absent(e.pool, h) && NoneOf(e.res.reinjections, h)
  {
    if target !in s.cache {
      var bid := PendingBid(k, tx, ComputePriority(tx, s.cfg.policy), target, now);
      forall t, b | b in Parked(StoreBid(s, bid).pending, t)
        ensures b.hash != h
      {
        assert b == bid || b in Parked(s.pending, t);
      }
      EvictFewer(StoreBid(s, bid));
    }
  }

  lemma VanillaAbsent(s: Pool, h: Hash, k: Hash)
    requires Absent(s, h) && k != h
    ensures var e := ObserveVanilla(s, k);
            Absent(e.pool, h) && NoneOf(e.res.reinjections, h)
  {
    if k in s.pending {
      var bids := s.pending[k];
      forall i | 0 <= i < |bids|
        ensures BidsFor(k, bids)[i].hash != h
      {
        assert bids[i] in Parked(s.pending, k);
      }
    }
    forall t, b | b in Parked(ObserveVanilla(s, k).pool.pending, t)
      ensures b in Parked(s.pending, t)
    {
    }
  }

  lemma ObserveAbsent(s: Pool, h: Hash, k: Hash, tx: Tx, now: nat)
    requires Inv(s) && Absent(s, h) && k != h
    ensures var e := Observe(s, k, tx, now);
            Absent(e.pool, h) && NoneOf(e.res.reinjections, h)
  {
    InsertCacheKeeps(s, k, tx, now);
    var s1 := InsertCache(s, k, tx, now);
    assert Absent(s1, h);
    match Classify(tx, s.cfg.policy)
    case TopOfBlock =>
    case InvalidGateway =>
    case Vanilla => VanillaAbsent(s1, h, k);
    case Backrun(target) => BidAbsent(s1, h, k, tx, target, now);
  }

  /** No call but an observation of `h` itself brings it back or emits it. */
  lemma ApplyAbsent(s: Pool, h: Hash, op: Op)
    requires Inv(s) && Absent(s, h) && (op.ObserveOp? ==> op.hash != h)
    ensures Absent(Apply(s, op).pool, h) && NoneOf(Apply(s, op).res.reinjections, h)
  {
    match op
    case ObserveOp(k, tx, now) => ObserveAbsent(s, h, k, tx, now);
    case PruneOp(now) => PruneFewer(s, now);
    case ForgetOp(k, hit) => ForgetFewer(s, k, hit);
  }

  // ----- in the pool -----

  ghost predicate NeverEmits(s: Pool, ops: seq<Op>, h: Hash) {
    forall i :: 0 <= i < |ops| ==> NoneOf(Apply(After(s, ops[..i]), ops[i]).res.reinjections, h)
  }

  lemma {:induction false} AbsentAfter(s: Pool, ops: seq<Op>, h: Hash)
    requires Inv(s) && Absent(s, h) && !Observed(ops, h)
    ensures Inv(After(s, ops)) && Absent(After(s, ops), h)
  {
    if ops != [] {
      var most, op := ops[..|ops| - 1], ops[|ops| - 1];
      assert forall i :: 0 <= i < |most| ==> most[i] == ops[i];
      AbsentAfter(s, most, h);
      ApplyKeepsInv(After(s, most), op);
      ApplyAbsent(After(s, most), h, op);
    }
  }

  lemma AbsentIsSilent(s: Pool, ops: seq<Op>, h: Hash)
    requires Inv(s) && Absent(s, h) && !Observed(ops, h)
    ensures NeverEmits(s, ops, h)
  {
    forall i | 0 <= i < |ops|
      ensures NoneOf(Apply(After(s, ops[..i]), ops[i]).res.reinjections, h)
    {
      assert forall j :: 0 <= j < i ==> ops[..i][j] == ops[j];
      AbsentAfter(s, ops[..i], h);
      ApplyAbsent(After(s, ops[..i]), h, ops[i]);
    }
  }

  lemma LaterIndex<T>(a: seq<T>, b: seq<T>, i: nat)
    requires i < |b|
    ensures (a + b)[|a| + i] == b[i]
  {
  }

  /** A bid that is parked is emitted as soon as its target shows up. */
  lemma ParkedIsEmitted(s: Pool, h: Hash, t: Hash)
    requires Inv(s) && Has(Parked(s.pending, t), h)
    ensures var ops := [ObserveOp(t, Tx(None, 0, 0, 0, None), 0)];
            !NeverEmits(s, ops, h) && (t != h ==> !Observed(ops, h))
  {
    var tx := Tx(None, 0, 0, 0, None);
    var ops := [ObserveOp(t, tx, 0)];
    var v := Parked(s.pending, t);
    InsertCacheKeeps(s, t, tx, 0);
    var rs := Observe(s, t, tx, 0).res.reinjections;
    var lead := EmitOpportunityOnce(InsertCache(s, t, tx, 0).(pending := s.pending - {t}), t).1;
    assert rs == lead + BidsFor(t, v);
    assert BidsFor(t, v)[Position(v, h)].hash == h;
    LaterIndex(lead, BidsFor(t, v), Position(v, h));
    assert ops[..0] == [];
  }

  /** Once `h` is forgotten, no run that does not observe it again ever emits it, exactly when at most one bid with
      that hash was parked. */
  lemma ForgottenIsSilentExactly(s: Pool, h: Hash, hit: Hash)
    requires Inv(s) && ScanHit(ForgetKeys(s, h), h, hit)
    ensures (forall ops :: !Observed(ops, h) ==> NeverEmits(Forget(s, h, hit).pool, ops, h)) <==> ParkedOnce(s, h)
  {
    ForgetKeepsInv(s, h, hit);
    ForgetFramed(s, h, hit);
    ForgetComplete(s, h, hit);
    SilentExactly(Forget(s, h, hit).pool, h);
  }

  lemma SilentExactly(s: Pool, h: Hash)
    requires Inv(s) && h !in s.cache && h !in s.pending
    ensures (forall ops :: !Observed(ops, h) ==> NeverEmits(s, ops, h)) <==> ParkedNowhere(s, h)
  {
    if ParkedNowhere(s, h) {
      NowhereIsAbsent(s, h);
      forall ops | !Observed(ops, h)
        ensures NeverEmits(s, ops, h)
      {
        AbsentIsSilent(s, ops, h);
      }
    } else {
      var t :| Has(Parked(s.pending, t), h);
      ParkedIsEmitted(s, h, t);
    }
  }

  // ----- when nothing is observed twice -----

  /** A queue that never repeats a bid's hash parks each hash at most once. */
  lemma QueuedOnceParkedOnce(s: Pool, h: Hash)
    requires Rep(s) && BidsDistinct(s.pendingOrder)
    ensures ParkedOnce(s, h)
  {
    forall t
      ensures CountOf(Parked(s.pending, t), h) <= multiset(s.pendingOrder)[Slot(t, h)]
      ensures Has(Parked(s.pending, t), h) ==> Slot(t, h) in s.pendingOrder
    {
      CountHas(Parked(s.pending, t), h);
    }
    forall t
      ensures multiset(s.pendingOrder)[Slot(t, h)] <= 1
    {
      OnceInDistinct(s.pendingOrder, Slot(t, h));
    }
  }

  lemma {:induction false} OnceInDistinct(order: seq<Slot>, slot: Slot)
    requires BidsDistinct(order)
    ensures multiset(order)[slot] <= 1
  {
    if order != [] {
      MultisetFront(order);
      OnceInDistinct(order[1..], slot);
      forall i | 0 <= i < |order[1..]|
        ensures order[1..][i] != order[0]
      {
        assert order[i + 1].bid != order[0].bid;
      }
    }
  }

  /** In a run that meets the condition of the refinement, a forgotten hash is parked nowhere. */
  lemma ForgetFresh(cfg: Config, ops: seq<Op>, h: Hash, hit: Hash)
    requires RunOk(cfg, ops) && Clocked(ops)
    requires ScanHit(ForgetKeys(After(Init(cfg), ops), h), h, hit)
    ensures ParkedOnce(After(Init(cfg), ops), h)
    ensures ParkedNowhere(Forget(After(Init(cfg), ops), h, hit).pool, h)
  {
    RunRefines(cfg, ops);
    ReachableInv(cfg, ops);
    QueuedOnceParkedOnce(After(Init(cfg), ops), h);
    ForgetComplete(After(Init(cfg), ops), h, hit);
  }

  // ----- in the loop -----

  ghost predicate NotReinserted(events: seq<Event>, h: Hash) {
    forall i :: 0 <= i < |events| && events[i].Inserted? ==> events[i].hash != h
  }

  ghost predicate NotSent(log: seq<LogEntry>, h: Hash) {
    forall i :: 0 <= i < |log| && log[i].SentOut? ==> log[i].r.hash != h
  }

  lemma HandleAbsent(l: Loop, h: Hash, ev: Event)
    requires LoopInv(l) && Absent(l.pool, h) && (ev.Inserted? ==> ev.hash != h)
    ensures Absent(Handle(l, ev).0.pool, h) && NotSent(Handle(l, ev).1, h)
  {
    match ev
    case Inserted(k, tx, prunedAt, observedAt, failAt) =>
      if k !in l.sent.priorities {
        var p := Prune(l.pool, prunedAt).pool;
        PruneKeepsInv(l.pool, prunedAt);
        PruneFewer(l.pool, prunedAt);
        ObserveAbsent(p, h, k, tx, observedAt);
        NotAmong(l.sent, Observe(p, k, tx, observedAt).res.reinjections, failAt, h);
      }
    case Gone(k, hit) => ForgetFewer(l.pool, k, hit);
  }

  lemma NotAmong(sent: Sent, rs: seq<Reinjection>, failAt: nat, h: Hash)
    requires NoneOf(rs, h)
    ensures NotSent(SendAll(sent, rs, failAt).1, h)
  {
    var log := SendAll(sent, rs, failAt).1;
    forall i | 0 <= i < |log| && log[i].SentOut?
      ensures log[i].r.hash != h
    {
      SendsComeFrom(sent, rs, failAt, log[i]);
    }
  }

  /** From a state that does not know `h`, no run sends it before it is inserted again. */
  lemma {:induction false} AbsentIsNotSent(l: Loop, later: seq<Event>, h: Hash)
    requires LoopInv(l) && Absent(l.pool, h) && NotReinserted(later, h)
    ensures var (l', log) := RunEvents(l, later);
            LoopInv(l') && Absent(l'.pool, h) && NotSent(log, h)
  {
    if later != [] {
      var most, ev := later[..|later| - 1], later[|later| - 1];
      assert forall i :: 0 <= i < |most| ==> most[i] == later[i];
      AbsentIsNotSent(l, most, h);
      HandleInv(RunEvents(l, most).0, ev);
      HandleAbsent(RunEvents(l, most).0, h, ev);
    }
  }

  /** The entries of a run's log after those of its first events. */
  function LogAfter(start: Loop, before: seq<Event>, later: seq<Event>): seq<LogEntry> {
    RunConcat(start, before, later);
    RunEvents(start, before + later).1[|RunEvents(start, before).1|..]
  }

  lemma LogAfterIs(start: Loop, before: seq<Event>, later: seq<Event>)
    ensures LogAfter(start, before, later) == RunEvents(RunEvents(start, before).0, later).1
  {
    RunConcat(start, before, later);
  }

  /** After a hash was committed, dropped or evicted with at most one bid of its own parked, it is not sent again
      before it is inserted again, whatever else happens. */
  lemma GoneIsNotSent(settings: Settings, sentMax: nat, before: seq<Event>, h: Hash, hit: Hash, later: seq<Event>)
    requires var l := RunEvents(Start(settings, sentMax), before).0;
             ScanHit(ForgetKeys(l.pool, h), h, hit) && ParkedOnce(l.pool, h)
    requires NotReinserted(later, h)
    ensures NotSent(LogAfter(Start(settings, sentMax), before + [Gone(h, hit)], later), h)
  {
    var l := RunEvents(Start(settings, sentMax), before).0;
    RunInv(settings, sentMax, before);
    HandleInv(l, Gone(h, hit));
    RunSnoc(Start(settings, sentMax), before, Gone(h, hit));
    GoneEverywhere(l, h, hit);
    NowhereIsAbsent(Handle(l, Gone(h, hit)).0.pool, h);
    AbsentIsNotSent(Handle(l, Gone(h, hit)).0, later, h);
    LogAfterIs(Start(settings, sentMax), before + [Gone(h, hit)], later);
  }

  // ----- when no hash is inserted twice -----

  ghost predicate InsertedOnce(events: seq<Event>) {
    forall i, j :: 0 <= i < j < |events| && events[i].Inserted? && events[j].Inserted? ==>
      events[i].hash != events[j].hash
  }

  ghost predicate WasInserted(events: seq<Event>, h: Hash) {
    exists i :: 0 <= i < |events| && events[i].Inserted? && events[i].hash == h
  }

  /** The queue repeats no bid's hash, and queues only hashes inserted before. */
  ghost predicate QueueFresh(s: Pool, events: seq<Event>) {
    && BidsDistinct(s.pendingOrder)
    && forall i :: 0 <= i < |s.pendingOrder| ==> WasInserted(events, s.pendingOrder[i].bid)
  }

  lemma LeftStaysFresh(order: seq<Slot>, order': seq<Slot>, pushed: seq<Slot>, n: nat, h: Hash)
    requires BidsDistinct(order) && LeftOf(order', order + pushed, n)
    requires |pushed| <= 1 && forall i :: 0 <= i < |pushed| ==> pushed[i].bid == h
    requires pushed != [] ==> forall i :: 0 <= i < |order| ==> order[i].bid != h
    ensures BidsDistinct(order')
    ensures forall i :: 0 <= i < |order'| ==>
              order'[i].bid == h || exists j :: 0 <= j < |order| && order'[i] == order[j]
  {
    assert forall i :: 0 <= i < |order'| ==> order'[i] == (order + pushed)[n + i];
  }

  lemma WasInsertedGrows(events: seq<Event>, ev: Event, h: Hash)
    ensures WasInserted(events + [ev], h) <==> WasInserted(events, h) || (ev.Inserted? && ev.hash == h)
  {
    var all := events + [ev];
    if WasInserted(events, h) {
      var i :| 0 <= i < |events| && events[i].Inserted? && events[i].hash == h;
      assert all[i] == events[i];
    }
    assert all[|events|] == ev;
  }

  lemma PruneQueueFresh(s: Pool, events: seq<Event>, now: nat)
    requires QueueFresh(s, events)
    ensures QueueFresh(Prune(s, now).pool, events)
  {
    PruneWorks(s, now);
    LeftStaysFresh(s.pendingOrder, Prune(s, now).pool.pendingOrder, [], WorkOf(s, PruneOp(now)).slotPops, 0);
  }

  lemma ObserveQueueFresh(s: Pool, events: seq<Event>, ev: Event)
    requires QueueFresh(s, events) && ev.Inserted? && !WasInserted(events, ev.hash)
    ensures QueueFresh(Observe(s, ev.hash, ev.tx, ev.observedAt).pool, events + [ev])
  {
    var w, s' := ObserveWork(s, ev.hash, ev.tx, ev.observedAt), Observe(s, ev.hash, ev.tx, ev.observedAt).pool;
    ObserveWorks(s, ev.hash, ev.tx, ev.observedAt);
    LeftStaysFresh(s.pendingOrder, s'.pendingOrder, w.parked, w.slotPops, ev.hash);
    forall h
      ensures WasInserted(events + [ev], h) <==> WasInserted(events, h) || ev.hash == h
    {
      WasInsertedGrows(events, ev, h);
    }
  }

  lemma StaysQueueFresh(s: Pool, s': Pool, events: seq<Event>, ev: Event)
    requires QueueFresh(s, events) && s'.pendingOrder == s.pendingOrder
    ensures QueueFresh(s', events + [ev])
  {
    forall i | 0 <= i < |s.pendingOrder|
      ensures WasInserted(events + [ev], s.pendingOrder[i].bid)
    {
      WasInsertedGrows(events, ev, s.pendingOrder[i].bid);
    }
  }

  lemma HandleQueueFresh(l: Loop, events: seq<Event>, ev: Event)
    requires QueueFresh(l.pool, events)
    requires ev.Inserted? ==> !WasInserted(events, ev.hash)
    ensures QueueFresh(Handle(l, ev).0.pool, events + [ev])
  {
    if ev.Inserted? && ev.hash !in l.sent.priorities {
      PruneQueueFresh(l.pool, events, ev.prunedAt);
      ObserveQueueFresh(Prune(l.pool, ev.prunedAt).pool, events, ev);
    } else {
      StaysQueueFresh(l.pool, Handle(l, ev).0.pool, events, ev);
    }
  }

  /** In a run that inserts no hash twice, every hash is parked at most once in every state; so `GoneIsNotSent`
      applies to every hash that leaves. */
  lemma {:induction false} InsertedOnceParkedOnce(settings: Settings, sentMax: nat, events: seq<Event>)
    requires InsertedOnce(events)
    ensures var s := RunEvents(Start(settings, sentMax), events).0.pool;
            QueueFresh(s, events) && forall h :: ParkedOnce(s, h)
  {
    if events != [] {
      var most, ev := events[..|events| - 1], events[|events| - 1];
      assert forall i :: 0 <= i < |most| ==> most[i] == events[i];
      assert events == most + [ev];
      InsertedOnceParkedOnce(settings, sentMax, most);
      RunInv(settings, sentMax, most);
      HandleQueueFresh(RunEvents(Start(settings, sentMax), most).0, most, ev);
    }
    RunInv(settings, sentMax, events);
    forall h
      ensures ParkedOnce(RunEvents(Start(settings, sentMax), events).0.pool, h)
    {
      QueuedOnceParkedOnce(RunEvents(Start(settings, sentMax), events).0.pool, h);
    }
  }
}
