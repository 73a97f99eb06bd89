/** The loop against its parts: which events reach the pool, what each step sends, and what the settings become. */
module LoopPool {
  import opened Base
  import opened Policy
  import opened PoolSpec
  import opened PoolInvariant
  import opened PoolRuns
  import opened SentSpec
  import opened LoopSpec
  import opened LoopRuns
  import opened Refinement
  import opened SentRuns

  // ----- settings -----

  /** Throughout a run the pool and the sent cache work with the settings they were given, a zero capacity counting
      as one. */
  lemma {:induction false} RunKeepsSettings(settings: Settings, sentMax: nat, events: seq<Event>)
    ensures var l := RunEvents(Start(settings, sentMax), events).0;
            && l.pool.cfg.policy == settings.policy && l.pool.cfg.fallback == settings.fallback
            && l.pool.cfg.ttl == settings.ttl
            && l.pool.cfg.maxCache == (if settings.maxCache == 0 then 1 else settings.maxCache)
            && l.pool.cfg.maxPending == (if settings.maxPending == 0 then 1 else settings.maxPending)
            && l.sent.maxEntries == (if sentMax == 0 then 1 else sentMax)
  {
    RunInv(settings, sentMax, events);
    if events != [] {
      var most, ev := events[..|events| - 1], events[|events| - 1];
      RunKeepsSettings(settings, sentMax, most);
      RunInv(settings, sentMax, most);
      HandleCapacity(RunEvents(Start(settings, sentMax), most).0, ev);
    }
  }

  lemma HandleCapacity(l: Loop, ev: Event)
    requires LoopInv(l)
    ensures Handle(l, ev).0.sent.maxEntries == l.sent.maxEntries
  {
    if ev.Inserted? && ev.hash !in l.sent.priorities {
      var e := Observe(Prune(l.pool, ev.prunedAt).pool, ev.hash, ev.tx, ev.observedAt);
      SendAllCapacity(l.sent, e.res.reinjections, ev.failAt);
    }
  }

  // ----- echoes -----

  /** The insertion of a hash that, by the log so far, was sent and neither pushed out nor gone since. */
  predicate IsEcho(log: seq<LogEntry>, ev: Event) {
    ev.Inserted? && LastSent(log, ev.hash).Some?
  }

  /** An echo changes nothing, and no other insertion goes unnoticed. */
  lemma EchoIgnored(settings: Settings, sentMax: nat, events: seq<Event>, ev: Event)
    ensures var (l, log) := RunEvents(Start(settings, sentMax), events);
            && (IsEcho(log, ev) ==> Handle(l, ev) == (l, [], false))
            && (ev.Inserted? && !IsEcho(log, ev) ==>
                  var l' := Handle(l, ev).0;
                  ev.hash in l'.pool.cache && l'.pool.cache[ev.hash] == CachedTx(ev.tx, ev.observedAt))
  {
    var l := RunEvents(Start(settings, sentMax), events).0;
    RunSendsApart(settings, sentMax, events);
    RunInv(settings, sentMax, events);
    if ev.Inserted? && ev.hash !in l.sent.priorities {
      ObservedIsCached(l.pool, ev.prunedAt, ev.hash, ev.tx, ev.observedAt);
    }
  }

  lemma ObservedIsCached(s: Pool, now: nat, h: Hash, tx: Tx, at: nat)
    requires Inv(s)
    ensures var s' := Observe(Prune(s, now).pool, h, tx, at).pool;
            h in s'.cache && s'.cache[h] == CachedTx(tx, at)
  {
    var p := Prune(s, now).pool;
    PruneKeepsInv(s, now);
    NoSelfEvictionAfterPrune(s, now, h);
    InsertSurvives(p, h, tx, at);
    InsertCacheKeeps(p, h, tx, at);
    MatchKeepsCache(p, h, tx, at);
  }

  lemma MatchKeepsCache(s: Pool, h: Hash, tx: Tx, now: nat)
    requires Rep(InsertCache(s, h, tx, now))
    ensures Observe(s, h, tx, now).pool.cache == InsertCache(s, h, tx, now).cache
  {
    var s1 := InsertCache(s, h, tx, now);
    match Classify(tx, s1.cfg.policy)
    case TopOfBlock =>
    case InvalidGateway =>
    case Vanilla =>
    case Backrun(target) => ObserveBidFrame(s1, h, tx, target, now);
  }

  /** A run without its echoes. */
  function WithoutEchoes(start: Loop, events: seq<Event>): seq<Event> {
    if events == [] then []
    else
      var most, ev := events[..|events| - 1], events[|events| - 1];
      WithoutEchoes(start, most) + (if IsEcho(RunEvents(start, most).1, ev) then [] else [ev])
  }

  /** Erasing every echo from a run changes neither the final state nor the log. */
  lemma {:induction false} EchoesChangeNothing(settings: Settings, sentMax: nat, events: seq<Event>)
    ensures RunEvents(Start(settings, sentMax), WithoutEchoes(Start(settings, sentMax), events))
         == RunEvents(Start(settings, sentMax), events)
  {
    if events != [] {
      var start, most, ev := Start(settings, sentMax), events[..|events| - 1], events[|events| - 1];
      EchoesChangeNothing(settings, sentMax, most);
      EchoIgnored(settings, sentMax, most, ev);
      var kept, log := WithoutEchoes(start, most), RunEvents(start, most).1;
      if IsEcho(log, ev) {
        assert kept + [] == kept && log + [] == log;
      } else {
        RunSnoc(start, kept, ev);
      }
    }
  }

  // ----- the pool's part of a run -----

  /** The calls one event makes on the pool. */
  function CallsOf(log: seq<LogEntry>, ev: Event): seq<Op> {
    if IsEcho(log, ev) then []
    else match ev
      case Inserted(h, tx, prunedAt, observedAt, _) => [PruneOp(prunedAt), ObserveOp(h, tx, observedAt)]
      case Gone(h, hit) => [ForgetOp(h, hit)]
  }

  function PoolOps(start: Loop, events: seq<Event>): seq<Op> {
    if events == [] then []
    else
      var most, ev := events[..|events| - 1], events[|events| - 1];
      PoolOps(start, most) + CallsOf(RunEvents(start, most).1, ev)
  }

  lemma {:induction false} AfterConcat(s: Pool, ops: seq<Op>, more: seq<Op>)
    ensures After(s, ops + more) == After(After(s, ops), more)
    decreases |more|
  {
    if more == [] {
      assert ops + more == ops;
    } else {
      var most := more[..|more| - 1];
      AfterConcat(s, ops, most);
      assert (ops + more)[..|ops + more| - 1] == ops + most;
    }
  }

  lemma AfterOne(s: Pool, a: Op)
    ensures After(s, [a]) == Apply(s, a).pool
  {
    assert [a][..0] == [];
  }

  lemma AfterTwo(s: Pool, a: Op, b: Op)
    ensures After(s, [a, b]) == Apply(Apply(s, a).pool, b).pool
  {
    AfterOne(s, a);
    AfterOne(After(s, [a]), b);
    AfterConcat(s, [a], [b]);
    assert [a] + [b] == [a, b];
  }

  lemma HandleCalls(l: Loop, log: seq<LogEntry>, ev: Event)
    requires SentMatches(l.sent.priorities, log)
    ensures Handle(l, ev).0.pool == After(l.pool, CallsOf(log, ev))
  {
    match ev
    case Inserted(h, tx, prunedAt, observedAt, _) => AfterTwo(l.pool, PruneOp(prunedAt), ObserveOp(h, tx, observedAt));
    case Gone(h, hit) => AfterOne(l.pool, ForgetOp(h, hit));
  }

  /** The pool of a loop run is the pool after those calls: a prune and an observation for each insertion that is not
      an echo, a forget for each departure. What holds of every run of pool calls so holds in the loop. */
  lemma {:induction false} LoopRunsPool(settings: Settings, sentMax: nat, events: seq<Event>)
    ensures RunEvents(Start(settings, sentMax), events).0.pool
         == After(Init(Normalized(settings)), PoolOps(Start(settings, sentMax), events))
  {
    if events != [] {
      var start, most, ev := Start(settings, sentMax), events[..|events| - 1], events[|events| - 1];
      var (l, log) := RunEvents(start, most);
      LoopRunsPool(settings, sentMax, most);
      RunSendsApart(settings, sentMax, most);
      HandleCalls(l, log, ev);
      AfterConcat(Init(Normalized(settings)), PoolOps(start, most), CallsOf(log, ev));
    }
  }

  // ----- what a step sends -----

  /** The reinjections a log tells of, sent or lost. */
  function Outgoing(log: seq<LogEntry>): seq<Reinjection> {
    if log == [] then []
    else (if log[0].SentOut? || log[0].LostOut? then [log[0].r] else []) + Outgoing(log[1..])
  }

  /** `r` went out, was lost, or counted as sent at some point of the step. */
  ghost predicate Settled(log: seq<LogEntry>, more: seq<LogEntry>, r: Reinjection) {
    || SentOut(r) in more
    || LostOut(r) in more
    || exists j :: 0 <= j <= |more| && LastSent(log + more[..j], r.hash).Some?
  }

  ghost predicate AllSettled(log: seq<LogEntry>, more: seq<LogEntry>, rs: seq<Reinjection>) {
    forall i :: 0 <= i < |rs| ==> Settled(log, more, rs[i])
  }

  lemma SettledLater(log: seq<LogEntry>, sends: seq<LogEntry>, rest: seq<LogEntry>, r: Reinjection)
    requires Settled(log + sends, rest, r)
    ensures Settled(log, sends + rest, r)
  {
    if j :| 0 <= j <= |rest| && LastSent(log + sends + rest[..j], r.hash).Some? {
      assert log + (sends + rest)[..|sends| + j] == log + sends + rest[..j];
    }
  }

  lemma AllSettledLater(log: seq<LogEntry>, sends: seq<LogEntry>, rest: seq<LogEntry>, rs: seq<Reinjection>)
    requires rs != [] && AllSettled(log + sends, rest, rs[1..]) && Settled(log, sends + rest, rs[0])
    ensures AllSettled(log, sends + rest, rs)
  {
    forall i | 0 <= i < |rs|
      ensures Settled(log, sends + rest, rs[i])
    {
      if i > 0 {
        assert rs[1..][i - 1] == rs[i];
        SettledLater(log, sends, rest, rs[i]);
      }
    }
  }

  lemma {:induction false} OutgoingConcat(a: seq<LogEntry>, b: seq<LogEntry>)
    ensures Outgoing(a + b) == Outgoing(a) + Outgoing(b)
  {
    if a == [] {
      assert a + b == b;
    } else {
      var head := if a[0].SentOut? || a[0].LostOut? then [a[0].r] else [];
      ConcatTail(a, b);
      OutgoingConcat(a[1..], b);
      ConcatAssoc(head, Outgoing(a[1..]), Outgoing(b));
    }
  }

  lemma {:induction false} PushedOutgoing(gone: seq<Hash>)
    ensures Outgoing(PushedAll(gone)) == []
  {
    if gone != [] {
      PushedOutgoing(gone[1..]);
      assert PushedAll(gone)[1..] == PushedAll(gone[1..]);
    }
  }

  lemma {:induction false} LostOutgoing(rs: seq<Reinjection>)
    ensures Outgoing(LostAll(rs)) == rs
    ensures forall r :: r in rs ==> LostOut(r) in LostAll(rs)
  {
    if rs != [] {
      LostOutgoing(rs[1..]);
      assert LostAll(rs)[1..] == LostAll(rs[1..]);
      assert rs == [rs[0]] + rs[1..];
    }
  }

  lemma {:induction false} SubSelf<T(!new)>(xs: seq<T>)
    ensures Sub(xs, xs)
  {
    if xs != [] {
      SubSelf(xs[1..]);
    }
  }

  lemma SubSkip(rs: seq<Reinjection>, out: seq<Reinjection>)
    requires rs != [] && Sub(rs[1..], out)
    ensures Sub(rs, out)
  {
    if out != [] && rs[0] == out[0] {
      SubRest(rs[1..], out);
    }
  }

  lemma {:induction false} SubRest(rs: seq<Reinjection>, out: seq<Reinjection>)
    requires out != [] && Sub(rs, out)
    ensures Sub(rs, out[1..])
  {
    if rs[0] == out[0] {
      if out[1..] != [] && rs[0] == out[1..][0] {
        SubRest(rs[1..], out[1..]);
      }
    } else {
      SubRest(rs[1..], out);
      if out[1..] != [] && rs[0] == out[1..][0] {
        SubRest(rs[1..], out[1..]);
      }
    }
  }

  lemma SubTake(rs: seq<Reinjection>, out: seq<Reinjection>)
    requires rs != [] && Sub(rs[1..], out)
    ensures Sub(rs, [rs[0]] + out)
  {
    assert ([rs[0]] + out)[1..] == out;
  }

  lemma FirstOutgoing(r: Reinjection, pushed: seq<Hash>, rest: seq<LogEntry>)
    ensures Outgoing([SentOut(r)] + PushedAll(pushed) + rest) == [r] + Outgoing(rest)
  {
    PushedOutgoing(pushed);
    OutgoingConcat([SentOut(r)], PushedAll(pushed));
    OutgoingConcat([SentOut(r)] + PushedAll(pushed), rest);
    assert [SentOut(r)][1..] == [];
  }

  lemma StoredIsSettled(p: map<Hash, U256>, log: seq<LogEntry>, more: seq<LogEntry>, r: Reinjection)
    requires SentMatches(p, log) && r.hash in p
    ensures Settled(log, more, r)
  {
    assert log + more[..0] == log;
  }

  lemma FirstIsSettled(sent: Sent, log: seq<LogEntry>, r: Reinjection, rest: seq<LogEntry>)
    ensures Settled(log, FirstSend(sent, r) + rest, r)
  {
    assert (FirstSend(sent, r) + rest)[0] == SentOut(r);
  }

  /** What goes out of a list of reinjections, or is lost, is in the order of the list; and what does not was sent
      before and not released since. */
  lemma {:induction false} SendAllSettles(sent: Sent, log: seq<LogEntry>, rs: seq<Reinjection>, failAt: nat)
    requires SentInv(sent) && SentMatches(sent.priorities, log) && SendsApart(log)
    ensures var more := SendAll(sent, rs, failAt).1;
            Sub(rs, Outgoing(more)) && AllSettled(log, more, rs)
    decreases |rs|, 1
  {
    if rs != [] {
      var more := SendAll(sent, rs, failAt).1;
      if rs[0].hash in sent.priorities {
        SendAllSettles(sent, log, rs[1..], failAt);
        SubSkip(rs, Outgoing(more));
        StoredIsSettled(sent.priorities, log, more, rs[0]);
        assert log + [] == log && [] + more == more;
        AllSettledLater(log, [], more, rs);
      } else if failAt == 0 {
        LostOutgoing(rs);
        SubSelf(rs);
      } else {
        SendThenSettle(sent, log, rs, failAt);
      }
    }
  }

  lemma SendSettles(sent: Sent, log: seq<LogEntry>, rs: seq<Reinjection>, rest: seq<LogEntry>)
    requires rs != [] && Sub(rs[1..], Outgoing(rest)) && AllSettled(log + FirstSend(sent, rs[0]), rest, rs[1..])
    ensures var more := FirstSend(sent, rs[0]) + rest;
            Sub(rs, Outgoing(more)) && AllSettled(log, more, rs)
  {
    FirstOutgoing(rs[0], SentSpec.Insert(sent, rs[0].hash, rs[0].priority).1, rest);
    SubTake(rs, Outgoing(rest));
    FirstIsSettled(sent, log, rs[0], rest);
    AllSettledLater(log, FirstSend(sent, rs[0]), rest, rs);
  }

  lemma {:induction false} SendThenSettle(sent: Sent, log: seq<LogEntry>, rs: seq<Reinjection>, failAt: nat)
    requires SentInv(sent) && SentMatches(sent.priorities, log) && SendsApart(log)
    requires rs != [] && rs[0].hash !in sent.priorities && failAt > 0
    ensures var more := SendAll(sent, rs, failAt).1;
            Sub(rs, Outgoing(more)) && AllSettled(log, more, rs)
    decreases |rs|, 0
  {
    var (next, pushed) := SentSpec.Insert(sent, rs[0].hash, rs[0].priority);
    var sends, rest := FirstSend(sent, rs[0]), SendAll(next, rs[1..], failAt - 1).1;
    assert SendAll(sent, rs, failAt).1 == sends + rest;
    SendMatches(sent, log, rs[0]);
    SendAllSettles(next, log + sends, rs[1..], failAt - 1);
    SendSettles(sent, log, rs, rest);
  }

  /** Over every run, a step sends exactly what its observation emits and was not sent and kept before, in order, up
      to the first failure, and loses the rest. */
  lemma StepSends(settings: Settings, sentMax: nat, events: seq<Event>, ev: Event)
    requires ev.Inserted? && !IsEcho(RunEvents(Start(settings, sentMax), events).1, ev)
    ensures var (l, log) := RunEvents(Start(settings, sentMax), events);
            var rs := Observe(Prune(l.pool, ev.prunedAt).pool, ev.hash, ev.tx, ev.observedAt).res.reinjections;
            var (_, more, failed) := Handle(l, ev);
            && Sub(rs, Outgoing(more)) && AllSettled(log, more, rs)
            && SendsApart(log + more)
            && StopsAt(more, rs, ev.failAt, failed)
  {
    var (l, log) := RunEvents(Start(settings, sentMax), events);
    var rs := Observe(Prune(l.pool, ev.prunedAt).pool, ev.hash, ev.tx, ev.observedAt).res.reinjections;
    RunSendsApart(settings, sentMax, events);
    RunInv(settings, sentMax, events);
    SendAllSettles(l.sent, log, rs, ev.failAt);
    SendAllMatches(l.sent, log, rs, ev.failAt);
    FailureDropsRest(l.sent, rs, ev.failAt);
  }
}
