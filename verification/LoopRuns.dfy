/** Safety of the event loop over every run: any events, any failed sends, any number of reconnects. */
module LoopRuns {
  import opened Base
  import opened Policy
  import opened PoolSpec
  import opened PoolInvariant
  import opened PoolRuns
  import opened SentSpec
  import opened LoopSpec

  ghost predicate LoopInv(l: Loop) {
    Inv(l.pool) && SentInv(l.sent)
  }

  lemma {:induction false} SendAllInv(sent: Sent, rs: seq<Reinjection>, failAt: nat)
    requires SentInv(sent)
    ensures SentInv(SendAll(sent, rs, failAt).0)
    decreases |rs|
  {
    if rs != [] {
      if rs[0].hash in sent.priorities {
        SendAllInv(sent, rs[1..], failAt);
      } else if failAt > 0 {
        InsertKeeps(sent, rs[0].hash, rs[0].priority);
        SendAllInv(SentSpec.Insert(sent, rs[0].hash, rs[0].priority).0, rs[1..], failAt - 1);
      }
    }
  }

  lemma HandleInv(l: Loop, ev: Event)
    requires LoopInv(l)
    ensures LoopInv(Handle(l, ev).0) && Handle(l, ev).0.pool.cfg == l.pool.cfg
  {
    match ev
    case Inserted(h, tx, prunedAt, observedAt, failAt) =>
      PruneKeepsInv(l.pool, prunedAt);
      ObserveKeepsInv(Prune(l.pool, prunedAt).pool, h, tx, observedAt);
      SendAllInv(l.sent, Observe(Prune(l.pool, prunedAt).pool, h, tx, observedAt).res.reinjections, failAt);
    case Gone(h, hit) =>
      ForgetKeepsInv(l.pool, h, hit);
      RemoveKeeps(l.sent, h);
  }

  lemma {:induction false} RunInv(settings: Settings, sentMax: nat, events: seq<Event>)
    ensures var l := RunEvents(Start(settings, sentMax), events).0;
            LoopInv(l) && l.pool.cfg == Normalized(settings)
  {
    if events == [] {
      InitInv(Normalized(settings));
    } else {
      RunInv(settings, sentMax, events[..|events| - 1]);
      HandleInv(RunEvents(Start(settings, sentMax), events[..|events| - 1]).0, events[|events| - 1]);
    }
  }

  /** A send in the log, made or lost, is of one of `rs`. */
  ghost predicate ComesFrom(e: LogEntry, rs: seq<Reinjection>) {
    e.SentOut? || e.LostOut? ==> e.r in rs
  }

  lemma {:induction false} PushedFrom(gone: seq<Hash>, rs: seq<Reinjection>, e: LogEntry)
    requires e in PushedAll(gone)
    ensures ComesFrom(e, rs)
  {
    if e != PushedOut(gone[0]) {
      PushedFrom(gone[1..], rs, e);
    }
  }

  lemma {:induction false} LostFrom(rs: seq<Reinjection>, e: LogEntry)
    requires e in LostAll(rs)
    ensures ComesFrom(e, rs)
  {
    if e != LostOut(rs[0]) {
      LostFrom(rs[1..], e);
    }
  }

  lemma {:induction false} SendsComeFrom(sent: Sent, rs: seq<Reinjection>, failAt: nat, e: LogEntry)
    requires e in SendAll(sent, rs, failAt).1
    ensures ComesFrom(e, rs)
    decreases |rs|, 1
  {
    if rs[0].hash in sent.priorities {
      SendsComeFrom(sent, rs[1..], failAt, e);
    } else if failAt == 0 {
      LostFrom(rs, e);
    } else {
      SendOrRest(sent, rs, failAt, e);
    }
  }

  lemma {:induction false} SendOrRest(sent: Sent, rs: seq<Reinjection>, failAt: nat, e: LogEntry)
    requires rs != [] && rs[0].hash !in sent.priorities && failAt > 0
    requires e in SendAll(sent, rs, failAt).1
    ensures ComesFrom(e, rs)
    decreases |rs|, 0
  {
    var (next, pushed) := SentSpec.Insert(sent, rs[0].hash, rs[0].priority);
    var rest := SendAll(next, rs[1..], failAt - 1).1;
    if e in rest {
      SendsComeFrom(next, rs[1..], failAt - 1, e);
    } else if e in PushedAll(pushed) {
      PushedFrom(pushed, rs, e);
    }
  }

  // ----- at most one send per residency in the sent cache -----

  /** The last send of `h`, unless it was pushed out of the sent cache or left the pool since. */
  function LastSent(log: seq<LogEntry>, h: Hash): Option<Reinjection> {
    if log == [] then None
    else match log[|log| - 1]
      case SentOut(r) => if r.hash == h then Some(r) else LastSent(log[..|log| - 1], h)
      case PushedOut(k) => if k == h then None else LastSent(log[..|log| - 1], h)
      case LeftPool(k) => if k == h then None else LastSent(log[..|log| - 1], h)
      case LostOut(_) => LastSent(log[..|log| - 1], h)
  }

  /** The sent cache is exactly what the log says was sent and neither pushed out nor gone since. */
  ghost predicate SentMatches(stored: map<Hash, U256>, log: seq<LogEntry>) {
    && (forall h :: h in stored <==> LastSent(log, h).Some?)
    && (forall h :: h in stored ==> stored[h] == LastSent(log, h).value.priority)
  }

  ghost predicate SendsApart(log: seq<LogEntry>) {
    forall j :: 0 <= j < |log| && log[j].SentOut? ==> LastSent(log[..j], log[j].r.hash) == None
  }

  lemma LastSentSnoc(log: seq<LogEntry>, e: LogEntry, h: Hash)
    ensures LastSent(log + [e], h)
         == match e
            case SentOut(r) => if r.hash == h then Some(r) else LastSent(log, h)
            case PushedOut(k) => if k == h then None else LastSent(log, h)
            case LeftPool(k) => if k == h then None else LastSent(log, h)
            case LostOut(_) => LastSent(log, h)
  {
  }

  lemma ApartSnoc(log: seq<LogEntry>, e: LogEntry)
    requires SendsApart(log)
    requires e.SentOut? ==> LastSent(log, e.r.hash) == None
    ensures SendsApart(log + [e])
  {
    var all := log + [e];
    forall j | 0 <= j < |all| && all[j].SentOut?
      ensures LastSent(all[..j], all[j].r.hash) == None
    {
      assert all[..j] == log[..j];
      if j == |log| {
        assert log[..j] == log;
      }
    }
  }

  lemma PushedOne(p: map<Hash, U256>, log: seq<LogEntry>, k: Hash)
    requires SentMatches(p, log) && SendsApart(log)
    ensures SentMatches(p - {k}, log + [PushedOut(k)]) && SendsApart(log + [PushedOut(k)])
  {
    ApartSnoc(log, PushedOut(k));
    forall h
      ensures LastSent(log + [PushedOut(k)], h) == if h == k then None else LastSent(log, h)
    {
      LastSentSnoc(log, PushedOut(k), h);
    }
  }

  lemma {:induction false} PushedMatches(p: map<Hash, U256>, q: map<Hash, U256>, log: seq<LogEntry>, gone: seq<Hash>)
    requires SentMatches(p, log) && SendsApart(log)
    requires forall k :: k in q <==> k in p && k !in gone
    requires forall k :: k in q ==> q[k] == p[k]
    ensures SentMatches(q, log + PushedAll(gone)) && SendsApart(log + PushedAll(gone))
    decreases |gone|
  {
    if gone == [] {
      assert log + PushedAll(gone) == log;
      assert q == p;
    } else {
      PushedOne(p, log, gone[0]);
      assert gone == [gone[0]] + gone[1..];
      PushedMatches(p - {gone[0]}, q, log + [PushedOut(gone[0])], gone[1..]);
      ConcatAssoc(log, [PushedOut(gone[0])], PushedAll(gone[1..]));
    }
  }

  lemma SendMatches(sent: Sent, log: seq<LogEntry>, r: Reinjection)
    requires SentInv(sent) && SentMatches(sent.priorities, log) && SendsApart(log)
    requires r.hash !in sent.priorities
    ensures var (next, pushed) := SentSpec.Insert(sent, r.hash, r.priority);
            var log' := log + ([SentOut(r)] + PushedAll(pushed));
            SentInv(next) && SentMatches(next.priorities, log') && SendsApart(log')
  {
    var (next, pushed) := SentSpec.Insert(sent, r.hash, r.priority);
    InsertKeeps(sent, r.hash, r.priority);
    ApartSnoc(log, SentOut(r));
    var p := sent.priorities[r.hash := r.priority];
    forall h
      ensures LastSent(log + [SentOut(r)], h) == if h == r.hash then Some(r) else LastSent(log, h)
    {
      LastSentSnoc(log, SentOut(r), h);
    }
    assert SentMatches(p, log + [SentOut(r)]);
    PushedMatches(p, next.priorities, log + [SentOut(r)], pushed);
    ConcatAssoc(log, [SentOut(r)], PushedAll(pushed));
  }

  lemma {:induction false} LostMatches(p: map<Hash, U256>, log: seq<LogEntry>, rs: seq<Reinjection>)
    requires SentMatches(p, log) && SendsApart(log)
    ensures SentMatches(p, log + LostAll(rs)) && SendsApart(log + LostAll(rs))
    decreases |rs|
  {
    if rs == [] {
      assert log + LostAll(rs) == log;
    } else {
      ApartSnoc(log, LostOut(rs[0]));
      forall h
        ensures LastSent(log + [LostOut(rs[0])], h) == LastSent(log, h)
      {
        LastSentSnoc(log, LostOut(rs[0]), h);
      }
      LostMatches(p, log + [LostOut(rs[0])], rs[1..]);
      ConcatAssoc(log, [LostOut(rs[0])], LostAll(rs[1..]));
    }
  }

  lemma {:induction false} SendAllMatches(sent: Sent, log: seq<LogEntry>, rs: seq<Reinjection>, failAt: nat)
    requires SentInv(sent) && SentMatches(sent.priorities, log) && SendsApart(log)
    ensures var (sent', more, _) := SendAll(sent, rs, failAt);
            SentMatches(sent'.priorities, log + more) && SendsApart(log + more)
    decreases |rs|
  {
    if rs == [] {
      assert log + [] == log;
    } else if rs[0].hash in sent.priorities {
      SendAllMatches(sent, log, rs[1..], failAt);
    } else if failAt == 0 {
      LostMatches(sent.priorities, log, rs);
    } else {
      var (next, pushed) := SentSpec.Insert(sent, rs[0].hash, rs[0].priority);
      var sends := [SentOut(rs[0])] + PushedAll(pushed);
      SendMatches(sent, log, rs[0]);
      SendAllMatches(next, log + sends, rs[1..], failAt - 1);
      ConcatAssoc(log, sends, SendAll(next, rs[1..], failAt - 1).1);
    }
  }

  lemma LeaveMatches(p: map<Hash, U256>, log: seq<LogEntry>, k: Hash)
    requires SentMatches(p, log) && SendsApart(log)
    ensures SentMatches(p - {k}, log + [LeftPool(k)]) && SendsApart(log + [LeftPool(k)])
  {
    ApartSnoc(log, LeftPool(k));
    forall h
      ensures LastSent(log + [LeftPool(k)], h) == if h == k then None else LastSent(log, h)
    {
      LastSentSnoc(log, LeftPool(k), h);
    }
  }

  /** In every run the sent cache is what the log says, and nothing is sent while it is still in the cache. */
  lemma {:induction false} RunSendsApart(settings: Settings, sentMax: nat, events: seq<Event>)
    ensures var (l, log) := RunEvents(Start(settings, sentMax), events);
            SentMatches(l.sent.priorities, log) && SendsApart(log)
  {
    if events != [] {
      var most, ev := events[..|events| - 1], events[|events| - 1];
      var (l, log) := RunEvents(Start(settings, sentMax), most);
      RunSendsApart(settings, sentMax, most);
      RunInv(settings, sentMax, most);
      match ev
      case Inserted(h, tx, prunedAt, observedAt, failAt) =>
        if h in l.sent.priorities {
          assert log + [] == log;
        } else {
          var e := Observe(Prune(l.pool, prunedAt).pool, h, tx, observedAt);
          SendAllMatches(l.sent, log, e.res.reinjections, failAt);
        }
      case Gone(h, hit) =>
        LeaveMatches(l.sent.priorities, log, h);
    }
  }

  ghost predicate Releases(e: LogEntry, h: Hash) {
    (e.PushedOut? || e.LeftPool?) && e.hash == h
  }

  lemma {:induction false} ReleasedSince(log: seq<LogEntry>, i: nat, h: Hash)
    requires i < |log| && log[i].SentOut? && log[i].r.hash == h && LastSent(log, h) == None
    ensures exists k :: i < k < |log| && Releases(log[k], h)
    decreases |log|
  {
    var last := |log| - 1;
    if i != last && !Releases(log[last], h) {
      ReleasedSince(log[..last], i, h);
      var k :| i < k < last && Releases(log[..last][k], h);
      assert Releases(log[k], h);
    }
  }

  /** Two sends of one hash are separated by its Commit/Drop/Evict or by its capacity eviction. */
  lemma AtMostOnceSend(settings: Settings, sentMax: nat, events: seq<Event>, i: nat, j: nat)
    requires var log := RunEvents(Start(settings, sentMax), events).1;
             i < j < |log| && log[i].SentOut? && log[j].SentOut? && log[i].r.hash == log[j].r.hash
    ensures var log := RunEvents(Start(settings, sentMax), events).1;
            exists k :: i < k < j && Releases(log[k], log[i].r.hash)
  {
    var log := RunEvents(Start(settings, sentMax), events).1;
    RunSendsApart(settings, sentMax, events);
    ReleasedSince(log[..j], i, log[i].r.hash);
    var k :| i < k < j && Releases(log[..j][k], log[i].r.hash);
    assert Releases(log[k], log[i].r.hash);
  }

  // ----- target before bid -----

  /** `h` was sent. */
  ghost predicate SentIn(log: seq<LogEntry>, h: Hash) {
    exists i :: 0 <= i < |log| && log[i].SentOut? && log[i].r.hash == h
  }

  /** `h` was sent, or its send was lost to a failure. */
  ghost predicate Mentioned(log: seq<LogEntry>, h: Hash) {
    exists i :: 0 <= i < |log| && (log[i].SentOut? || log[i].LostOut?) && log[i].r.hash == h
  }

  /** Whenever a bid is sent, its target was sent before it or lost to a failed send. */
  ghost predicate TargetsFirst(log: seq<LogEntry>) {
    forall j :: 0 <= j < |log| && log[j].SentOut? && log[j].r.role.AsBackrun?
                ==> Mentioned(log[..j], log[j].r.role.target)
  }

  /** Each bid among `rs` comes after its target, in `rs` or in `log`. */
  ghost predicate Led(log: seq<LogEntry>, rs: seq<Reinjection>) {
    forall i :: 0 <= i < |rs| && rs[i].role.AsBackrun?
                ==> Mentioned(log, rs[i].role.target) || exists k :: 0 <= k < i && rs[k].hash == rs[i].role.target
  }

  lemma MentionedGrows(log: seq<LogEntry>, more: seq<LogEntry>, h: Hash)
    requires Mentioned(log, h)
    ensures Mentioned(log + more, h)
  {
    var i :| 0 <= i < |log| && (log[i].SentOut? || log[i].LostOut?) && log[i].r.hash == h;
    assert (log + more)[i] == log[i];
  }

  lemma FirstSnoc(log: seq<LogEntry>, e: LogEntry)
    requires TargetsFirst(log)
    requires e.SentOut? && e.r.role.AsBackrun? ==> Mentioned(log, e.r.role.target)
    ensures TargetsFirst(log + [e])
  {
    var all := log + [e];
    forall j | 0 <= j < |all| && all[j].SentOut? && all[j].r.role.AsBackrun?
      ensures Mentioned(all[..j], all[j].r.role.target)
    {
      if j < |log| {
        assert all[..j] == log[..j];
      } else {
        assert all[..j] == log;
      }
    }
  }

  lemma {:induction false} FirstPushed(log: seq<LogEntry>, gone: seq<Hash>)
    requires TargetsFirst(log)
    ensures TargetsFirst(log + PushedAll(gone))
    decreases |gone|
  {
    if gone == [] {
      assert log + PushedAll(gone) == log;
    } else {
      FirstSnoc(log, PushedOut(gone[0]));
      FirstPushed(log + [PushedOut(gone[0])], gone[1..]);
      ConcatAssoc(log, [PushedOut(gone[0])], PushedAll(gone[1..]));
    }
  }

  lemma {:induction false} FirstLost(log: seq<LogEntry>, rs: seq<Reinjection>)
    requires TargetsFirst(log)
    ensures TargetsFirst(log + LostAll(rs))
    decreases |rs|
  {
    if rs == [] {
      assert log + LostAll(rs) == log;
    } else {
      FirstSnoc(log, LostOut(rs[0]));
      FirstLost(log + [LostOut(rs[0])], rs[1..]);
      ConcatAssoc(log, [LostOut(rs[0])], LostAll(rs[1..]));
    }
  }

  lemma {:induction false} LostMentioned(log: seq<LogEntry>, rs: seq<Reinjection>)
    ensures forall i :: 0 <= i < |rs| ==> Mentioned(log + LostAll(rs), rs[i].hash)
    decreases |rs|
  {
    if rs != [] {
      var log1 := log + [LostOut(rs[0])];
      LostMentioned(log1, rs[1..]);
      ConcatAssoc(log, [LostOut(rs[0])], LostAll(rs[1..]));
      assert log1[|log|] == LostOut(rs[0]);
      MentionedGrows(log1, LostAll(rs[1..]), rs[0].hash);
      HeadAndTail(log + LostAll(rs), rs);
    }
  }

  /** Once the first of `rs` is mentioned, the rest is led. */
  lemma LedTail(log: seq<LogEntry>, rs: seq<Reinjection>, more: seq<LogEntry>)
    requires rs != [] && Led(log, rs) && Mentioned(log + more, rs[0].hash)
    ensures Led(log + more, rs[1..])
  {
    var tail := rs[1..];
    forall i | 0 <= i < |tail| && tail[i].role.AsBackrun?
      ensures Mentioned(log + more, tail[i].role.target)
              || exists k :: 0 <= k < i && tail[k].hash == tail[i].role.target
    {
      var t := tail[i].role.target;
      assert tail[i] == rs[i + 1];
      if Mentioned(log, t) {
        MentionedGrows(log, more, t);
      } else {
        var k :| 0 <= k < i + 1 && rs[k].hash == t;
        assert k > 0 ==> tail[k - 1] == rs[k];
      }
    }
  }

  lemma {:induction false} LastSentIsIn(log: seq<LogEntry>, h: Hash)
    requires LastSent(log, h).Some?
    ensures SentIn(log, h) && Mentioned(log, h)
  {
    var last := |log| - 1;
    if log[last].SentOut? && log[last].r.hash == h {
      assert SentIn(log, h);
    } else {
      LastSentIsIn(log[..last], h);
      var i :| 0 <= i < last && log[..last][i].SentOut? && log[..last][i].r.hash == h;
      assert log[i] == log[..last][i];
    }
  }

  lemma StoredIsMentioned(p: map<Hash, U256>, log: seq<LogEntry>, h: Hash)
    requires SentMatches(p, log) && h in p
    ensures SentIn(log, h) && Mentioned(log, h)
  {
    LastSentIsIn(log, h);
  }

  lemma SendFirst(sent: Sent, log: seq<LogEntry>, r: Reinjection)
    requires TargetsFirst(log) && (r.role.AsBackrun? ==> Mentioned(log, r.role.target))
    ensures TargetsFirst(log + ([SentOut(r)] + PushedAll(SentSpec.Insert(sent, r.hash, r.priority).1)))
  {
    var pushed := SentSpec.Insert(sent, r.hash, r.priority).1;
    FirstSnoc(log, SentOut(r));
    FirstPushed(log + [SentOut(r)], pushed);
    ConcatAssoc(log, [SentOut(r)], PushedAll(pushed));
  }

  lemma FirstSent(sent: Sent, log: seq<LogEntry>, r: Reinjection)
    ensures Mentioned(log + ([SentOut(r)] + PushedAll(SentSpec.Insert(sent, r.hash, r.priority).1)), r.hash)
  {
    var log1 := log + [SentOut(r)];
    assert log1[|log|] == SentOut(r);
    MentionedGrows(log1, PushedAll(SentSpec.Insert(sent, r.hash, r.priority).1), r.hash);
    ConcatAssoc(log, [SentOut(r)], PushedAll(SentSpec.Insert(sent, r.hash, r.priority).1));
  }

  /** Every reinjection handed to the send loop ends up mentioned: sent, sent before, or lost. */
  lemma {:induction false} SendAllMentions(sent: Sent, log: seq<LogEntry>, rs: seq<Reinjection>, failAt: nat)
    requires SentInv(sent) && SentMatches(sent.priorities, log) && SendsApart(log)
    ensures forall i :: 0 <= i < |rs| ==> Mentioned(log + SendAll(sent, rs, failAt).1, rs[i].hash)
    decreases |rs|
  {
    if rs != [] {
      var more := SendAll(sent, rs, failAt).1;
      if rs[0].hash in sent.priorities {
        StoredIsMentioned(sent.priorities, log, rs[0].hash);
        MentionedGrows(log, more, rs[0].hash);
        SendAllMentions(sent, log, rs[1..], failAt);
        HeadAndTail(log + more, rs);
      } else if failAt == 0 {
        LostMentioned(log, rs);
      } else {
        var (next, pushed) := SentSpec.Insert(sent, rs[0].hash, rs[0].priority);
        var sends := [SentOut(rs[0])] + PushedAll(pushed);
        var rest := SendAll(next, rs[1..], failAt - 1).1;
        SendMatches(sent, log, rs[0]);
        FirstSent(sent, log, rs[0]);
        MentionedGrows(log + sends, rest, rs[0].hash);
        SendAllMentions(next, log + sends, rs[1..], failAt - 1);
        ConcatAssoc(log, sends, rest);
        HeadAndTail(log + more, rs);
      }
    }
  }

  /** What the send loop relies on still holds after its first send. */
  lemma FirstSends(sent: Sent, log: seq<LogEntry>, rs: seq<Reinjection>)
    requires SentInv(sent) && SentMatches(sent.priorities, log) && SendsApart(log)
    requires TargetsFirst(log) && Led(log, rs)
    requires rs != [] && rs[0].hash !in sent.priorities
    ensures var (next, pushed) := SentSpec.Insert(sent, rs[0].hash, rs[0].priority);
            var log' := log + ([SentOut(rs[0])] + PushedAll(pushed));
            && SentInv(next) && SentMatches(next.priorities, log') && SendsApart(log')
            && TargetsFirst(log') && Led(log', rs[1..])
  {
    SendMatches(sent, log, rs[0]);
    SendFirst(sent, log, rs[0]);
    FirstSent(sent, log, rs[0]);
    LedTail(log, rs, [SentOut(rs[0])] + PushedAll(SentSpec.Insert(sent, rs[0].hash, rs[0].priority).1));
  }

  lemma {:induction false} SendAllFirst(sent: Sent, log: seq<LogEntry>, rs: seq<Reinjection>, failAt: nat)
    requires SentInv(sent) && SentMatches(sent.priorities, log) && SendsApart(log)
    requires TargetsFirst(log) && Led(log, rs)
    ensures TargetsFirst(log + SendAll(sent, rs, failAt).1)
    decreases |rs|
  {
    if rs == [] {
      assert log + [] == log;
    } else if rs[0].hash in sent.priorities {
      StoredIsMentioned(sent.priorities, log, rs[0].hash);
      assert log + [] == log;
      LedTail(log, rs, []);
      SendAllFirst(sent, log, rs[1..], failAt);
    } else if failAt == 0 {
      FirstLost(log, rs);
    } else {
      var (next, pushed) := SentSpec.Insert(sent, rs[0].hash, rs[0].priority);
      var sends := [SentOut(rs[0])] + PushedAll(pushed);
      FirstSends(sent, log, rs);
      SendAllFirst(next, log + sends, rs[1..], failAt - 1);
      ConcatAssoc(log, sends, SendAll(next, rs[1..], failAt - 1).1);
    }
  }

  lemma HeadAndTail(log: seq<LogEntry>, rs: seq<Reinjection>)
    requires rs != [] && Mentioned(log, rs[0].hash)
    requires forall i :: 0 <= i < |rs[1..]| ==> Mentioned(log, rs[1..][i].hash)
    ensures forall i :: 0 <= i < |rs| ==> Mentioned(log, rs[i].hash)
  {
    forall i | 0 <= i < |rs|
      ensures Mentioned(log, rs[i].hash)
    {
      if i > 0 {
        assert rs[1..][i - 1] == rs[i];
      }
    }
  }

  /** Each bid the pool emits comes after its target, unless the target was streamed before, and the pool marks as
      streamed only what it emits. */
  ghost predicate EmitsLed(s: Pool, e: Effect) {
    && (forall i :: 0 <= i < |e.res.reinjections| && e.res.reinjections[i].role.AsBackrun?
                    ==> var t := e.res.reinjections[i].role.target;
                        t in s.streamed || exists k :: 0 <= k < i && e.res.reinjections[k].hash == t)
    && (forall t :: t in e.pool.streamed ==>
          t in s.streamed || exists k :: 0 <= k < |e.res.reinjections| && e.res.reinjections[k].hash == t)
  }

  lemma BidLed(s: Pool, h: Hash, tx: Tx, target: Hash, now: nat)
    requires Rep(s)
    ensures EmitsLed(s, ObserveBid(s, h, tx, target, now))
  {
    var e := ObserveBid(s, h, tx, target, now);
    if target in s.cache {
      if target !in s.streamed {
        assert e.res.reinjections[0].hash == target;
      }
    } else {
      PushPendingKeeps(s, PendingBid(h, tx, ComputePriority(tx, s.cfg.policy), target, now));
    }
  }

  lemma VanillaLed(s: Pool, h: Hash)
    requires h in s.cache
    ensures EmitsLed(s, ObserveVanilla(s, h))
  {
    var e := ObserveVanilla(s, h);
    if h in s.pending && h !in s.streamed {
      assert e.res.reinjections[0].hash == h;
    }
  }

  /** In the loop every observation follows a prune, so a flushed target is always still cached. */
  lemma ObserveLed(s: Pool, prunedAt: nat, h: Hash, tx: Tx, observedAt: nat)
    requires Inv(s)
    ensures EmitsLed(s, Observe(Prune(s, prunedAt).pool, h, tx, observedAt))
  {
    var p := Prune(s, prunedAt).pool;
    PruneKeepsInv(s, prunedAt);
    NoSelfEvictionAfterPrune(s, prunedAt, h);
    PruneCacheKeeps(s, prunedAt);
    PrunePendingKeeps(PruneCache(s, prunedAt), prunedAt);
    InsertSurvives(p, h, tx, observedAt);
    InsertCacheKeeps(p, h, tx, observedAt);
    var s1 := InsertCache(p, h, tx, observedAt);
    assert s1.streamed <= s.streamed;
    match Classify(tx, p.cfg.policy)
    case TopOfBlock =>
    case InvalidGateway =>
    case Backrun(target) => BidLed(s1, h, tx, target, observedAt);
    case Vanilla => VanillaLed(s1, h);
  }

  ghost predicate StreamedMentioned(s: Pool, log: seq<LogEntry>) {
    forall t :: t in s.streamed ==> Mentioned(log, t)
  }

  lemma InsertedFirst(l: Loop, log: seq<LogEntry>, h: Hash, tx: Tx, prunedAt: nat, observedAt: nat, failAt: nat)
    requires LoopInv(l) && SentMatches(l.sent.priorities, log) && SendsApart(log)
    requires TargetsFirst(log) && StreamedMentioned(l.pool, log)
    ensures var e := Observe(Prune(l.pool, prunedAt).pool, h, tx, observedAt);
            var more := SendAll(l.sent, e.res.reinjections, failAt).1;
            TargetsFirst(log + more) && StreamedMentioned(e.pool, log + more)
  {
    var e := Observe(Prune(l.pool, prunedAt).pool, h, tx, observedAt);
    var rs := e.res.reinjections;
    var more := SendAll(l.sent, rs, failAt).1;
    ObserveLed(l.pool, prunedAt, h, tx, observedAt);
    SendAllFirst(l.sent, log, rs, failAt);
    SendAllMentions(l.sent, log, rs, failAt);
    forall t | t in e.pool.streamed
      ensures Mentioned(log + more, t)
    {
      if t in l.pool.streamed {
        MentionedGrows(log, more, t);
      }
    }
  }

  lemma {:induction false} RunTargetsFirst(settings: Settings, sentMax: nat, events: seq<Event>)
    ensures var (l, log) := RunEvents(Start(settings, sentMax), events);
            TargetsFirst(log) && StreamedMentioned(l.pool, log)
  {
    if events != [] {
      var most, ev := events[..|events| - 1], events[|events| - 1];
      var (l, log) := RunEvents(Start(settings, sentMax), most);
      RunTargetsFirst(settings, sentMax, most);
      RunSendsApart(settings, sentMax, most);
      RunInv(settings, sentMax, most);
      match ev
      case Inserted(h, tx, prunedAt, observedAt, failAt) =>
        if h in l.sent.priorities {
          assert log + [] == log;
        } else {
          InsertedFirst(l, log, h, tx, prunedAt, observedAt, failAt);
        }
      case Gone(h, hit) =>
        FirstSnoc(log, LeftPool(h));
        forall t | t in Forget(l.pool, h, hit).pool.streamed
          ensures Mentioned(log + [LeftPool(h)], t)
        {
          MentionedGrows(log, [LeftPool(h)], t);
        }
    }
  }

  // ----- amplification -----

  function SendsIn(log: seq<LogEntry>): nat {
    if log == [] then 0 else (if log[0].SentOut? then 1 else 0) + SendsIn(log[1..])
  }

  lemma {:induction false} SendsConcat(a: seq<LogEntry>, b: seq<LogEntry>)
    ensures SendsIn(a + b) == SendsIn(a) + SendsIn(b)
  {
    if a == [] {
      assert a + b == b;
    } else {
      assert (a + b)[1..] == a[1..] + b;
      SendsConcat(a[1..], b);
    }
  }

  lemma {:induction false} PushedSends(gone: seq<Hash>)
    ensures SendsIn(PushedAll(gone)) == 0
  {
    if gone != [] {
      PushedSends(gone[1..]);
      assert PushedAll(gone)[1..] == PushedAll(gone[1..]);
    }
  }

  lemma {:induction false} LostSends(rs: seq<Reinjection>)
    ensures SendsIn(LostAll(rs)) == 0
  {
    if rs != [] {
      LostSends(rs[1..]);
      assert LostAll(rs)[1..] == LostAll(rs[1..]);
    }
  }

  lemma OneSend(r: Reinjection, pushed: seq<Hash>, rest: seq<LogEntry>)
    ensures SendsIn([SentOut(r)] + PushedAll(pushed) + rest) == 1 + SendsIn(rest)
  {
    PushedSends(pushed);
    SendsConcat([SentOut(r)], PushedAll(pushed));
    SendsConcat([SentOut(r)] + PushedAll(pushed), rest);
    assert [SentOut(r)][1..] == [];
  }

  lemma {:induction false} SendAllBounded(sent: Sent, rs: seq<Reinjection>, failAt: nat)
    ensures SendsIn(SendAll(sent, rs, failAt).1) <= |rs|
    decreases |rs|
  {
    if rs != [] {
      if rs[0].hash in sent.priorities {
        SendAllBounded(sent, rs[1..], failAt);
      } else if failAt == 0 {
        LostSends(rs);
      } else {
        var (next, pushed) := SentSpec.Insert(sent, rs[0].hash, rs[0].priority);
        var rest := SendAll(next, rs[1..], failAt - 1).1;
        SendAllBounded(next, rs[1..], failAt - 1);
        OneSend(rs[0], pushed, rest);
      }
    }
  }

  // ----- failed sends -----

  ghost predicate NoneLost(log: seq<LogEntry>) {
    forall i :: 0 <= i < |log| ==> !log[i].LostOut?
  }

  /** Everything from reinjection `k` on was lost, and nothing before it. */
  ghost predicate LostFromOn(log: seq<LogEntry>, rs: seq<Reinjection>, k: nat) {
    k < |rs| && exists made :: NoneLost(made) && log == made + LostAll(rs[k..])
  }

  lemma {:induction false} PushedNotLost(gone: seq<Hash>)
    ensures NoneLost(PushedAll(gone))
  {
    if gone != [] {
      PushedNotLost(gone[1..]);
    }
  }

  lemma LostLater(sends: seq<LogEntry>, log: seq<LogEntry>, rs: seq<Reinjection>, k: nat)
    requires rs != [] && NoneLost(sends) && LostFromOn(log, rs[1..], k)
    ensures LostFromOn(sends + log, rs, k + 1)
  {
    var made :| NoneLost(made) && log == made + LostAll(rs[1..][k..]);
    assert rs[1..][k..] == rs[k + 1..];
    ConcatAssoc(sends, made, LostAll(rs[k + 1..]));
    assert NoneLost(sends + made);
  }

  /** The log of a send loop whose send after `failAt` successful ones fails. */
  ghost predicate StopsAt(log: seq<LogEntry>, rs: seq<Reinjection>, failAt: nat, failed: bool) {
    && SendsIn(log) <= failAt
    && if failed then SendsIn(log) == failAt && exists k: nat :: LostFromOn(log, rs, k) else NoneLost(log)
  }

  lemma StopsLater(sends: seq<LogEntry>, log: seq<LogEntry>, rs: seq<Reinjection>, failAt: nat, failed: bool)
    requires rs != [] && NoneLost(sends) && StopsAt(log, rs[1..], failAt, failed)
    ensures StopsAt(sends + log, rs, SendsIn(sends) + failAt, failed)
  {
    SendsConcat(sends, log);
    if failed {
      var k: nat :| LostFromOn(log, rs[1..], k);
      LostLater(sends, log, rs, k);
    }
  }

  /** Either no reinjection is lost, or exactly `failAt` were sent and every one from the failed send on is lost. */
  lemma {:induction false} FailureDropsRest(sent: Sent, rs: seq<Reinjection>, failAt: nat)
    ensures var (_, log, failed) := SendAll(sent, rs, failAt);
            StopsAt(log, rs, failAt, failed)
    decreases |rs|
  {
    if rs != [] {
      var (_, log, failed) := SendAll(sent, rs, failAt);
      if rs[0].hash in sent.priorities {
        FailureDropsRest(sent, rs[1..], failAt);
        StopsLater([], log, rs, failAt, failed);
        assert [] + log == log;
      } else if failAt == 0 {
        LostSends(rs);
        assert NoneLost([]) && log == [] + LostAll(rs[0..]);
        assert LostFromOn(log, rs, 0);
      } else {
        var (next, pushed) := SentSpec.Insert(sent, rs[0].hash, rs[0].priority);
        FailureDropsRest(next, rs[1..], failAt - 1);
        OneSend(rs[0], pushed, []);
        PushedNotLost(pushed);
        var sends := [SentOut(rs[0])] + PushedAll(pushed);
        assert sends + [] == sends;
        StopsLater(sends, SendAll(next, rs[1..], failAt - 1).1, rs, failAt - 1, failed);
      }
    }
  }

  // ----- sends per call -----

  predicate IsCallEvent(policy: PolicyConfig, ev: Event) {
    ev.Inserted? && IsCall(ev.tx, policy)
  }

  /** The insertions of valid gateway calls in a run. */
  function CallsIn(policy: PolicyConfig, events: seq<Event>): nat {
    if events == [] then 0
    else CallsIn(policy, events[..|events| - 1]) + (if IsCallEvent(policy, events[|events| - 1]) then 1 else 0)
  }

  lemma HandleBounded(l: Loop, ev: Event)
    requires LoopInv(l)
    ensures var (l', log, _) := Handle(l, ev);
            SendsIn(log) + 2 * l'.pool.pendingCount
            <= 2 * l.pool.pendingCount + (if IsCallEvent(l.pool.cfg.policy, ev) then 2 else 0)
  {
    match ev
    case Inserted(h, tx, prunedAt, observedAt, failAt) =>
      if h !in l.sent.priorities {
        var p := Prune(l.pool, prunedAt).pool;
        PruneKeepsInv(l.pool, prunedAt);
        StepAmplification(l.pool, PruneOp(prunedAt));
        StepAmplification(p, ObserveOp(h, tx, observedAt));
        SendAllBounded(l.sent, Observe(p, h, tx, observedAt).res.reinjections, failAt);
      }
    case Gone(h, hit) =>
      StepAmplification(l.pool, ForgetOp(h, hit));
  }

  /** The loop sends at most two transactions per inserted valid gateway call, however calls and targets arrive. */
  lemma {:induction false} SendsBounded(settings: Settings, sentMax: nat, events: seq<Event>)
    ensures var (l, log) := RunEvents(Start(settings, sentMax), events);
            SendsIn(log) + 2 * l.pool.pendingCount <= 2 * CallsIn(settings.policy, events)
  {
    if events != [] {
      var most, ev := events[..|events| - 1], events[|events| - 1];
      var (l, log) := RunEvents(Start(settings, sentMax), most);
      SendsBounded(settings, sentMax, most);
      RunInv(settings, sentMax, most);
      HandleBounded(l, ev);
      SendsConcat(log, Handle(l, ev).1);
    }
  }

  // ----- transactions that leave the pool -----

  /** After Commit, Drop or Evict of `h` the loop holds nothing keyed by `h`, takes no bid of another hash out from
      under another target, and has no bid with hash `h` left exactly when at most one was parked. */
  lemma GoneEverywhere(l: Loop, h: Hash, hit: Hash)
    ensures var l' := Handle(l, Gone(h, hit)).0;
            && l'.sent.priorities == l.sent.priorities - {h}
            && l'.pool.cache == l.pool.cache - {h}
            && l'.pool.streamed == l.pool.streamed - {h}
            && h !in l'.pool.pending
            && (forall t :: t != h && t != hit ==> Parked(l'.pool.pending, t) == Parked(l.pool.pending, t))
            && (forall t :: t != h ==>
                  Filter(Parked(l'.pool.pending, t), NotBid(h)) == Filter(Parked(l.pool.pending, t), NotBid(h)))
    ensures LoopInv(l) && ScanHit(ForgetKeys(l.pool, h), h, hit)
            ==> (ParkedNowhere(Handle(l, Gone(h, hit)).0.pool, h) <==> ParkedOnce(l.pool, h))
  {
    ForgetFramed(l.pool, h, hit);
    if LoopInv(l) && ScanHit(ForgetKeys(l.pool, h), h, hit) {
      ForgetComplete(l.pool, h, hit);
    }
  }
}
