/** The event loop as the source has it: two objects updated in place, batch by batch, across reconnects. */
module EventLoop {
  import opened Base
  import opened PoolSpec
  import opened SentSpec
  import opened LoopSpec
  import opened PairingPool
  import opened SentHashes

  ghost function LoopState(pool: PendingPool, sent: SentCache): Loop
    reads pool, sent
  {
    Loop(pool.State(), sent.State())
  }

  method LogPushed(hashes: seq<Hash>) returns (log: seq<LogEntry>)
    ensures log == PushedAll(hashes)
  {
    log := [];
    var i := |hashes|;
    while i > 0
      invariant 0 <= i <= |hashes|
      invariant log == PushedAll(hashes[i..])
    {
      i := i - 1;
      assert hashes[i..][1..] == hashes[i + 1..];
      log := [PushedOut(hashes[i])] + log;
    }
    assert hashes[0..] == hashes;
  }

  /** The sends still to come from index `i` on. */
  ghost function SendRest(sent: Sent, rs: seq<Reinjection>, i: nat, left: nat): (Sent, seq<LogEntry>, bool)
    requires i <= |rs|
  {
    SendAll(sent, rs[i..], left)
  }

  lemma SendRestStep(sent: Sent, rs: seq<Reinjection>, i: nat, left: nat)
    requires i < |rs|
    ensures rs[i].hash in sent.priorities ==> SendRest(sent, rs, i, left) == SendRest(sent, rs, i + 1, left)
    ensures rs[i].hash !in sent.priorities && left == 0
            ==> SendRest(sent, rs, i, left) == (sent, LostAll(rs[i..]), true)
    ensures rs[i].hash !in sent.priorities && left > 0 ==>
              var (next, pushed) := SentSpec.Insert(sent, rs[i].hash, rs[i].priority);
              var (last, log, failed) := SendRest(next, rs, i + 1, left - 1);
              SendRest(sent, rs, i, left) == (last, [SentOut(rs[i])] + PushedAll(pushed) + log, failed)
  {
    assert rs[i..][0] == rs[i] && rs[i..][1..] == rs[i + 1..];
  }

  /** Records a successful send. */
  method RecordSend(sent: SentCache, r: Reinjection) returns (log: seq<LogEntry>)
    requires sent.Valid()
    modifies sent
    ensures sent.Valid()
    ensures sent.State() == SentSpec.Insert(old(sent.State()), r.hash, r.priority).0
    ensures log == [SentOut(r)] + PushedAll(SentSpec.Insert(old(sent.State()), r.hash, r.priority).1)
  {
    var evicted := sent.Insert(r.hash, r.priority);
    var pushed := LogPushed(evicted);
    log := [SentOut(r)] + pushed;
  }

  /** Sends every reinjection not already sent; the send after `failAt` successful ones fails, and what is left
      of `rs` is then lost. */
  method SendReinjections(sent: SentCache, rs: seq<Reinjection>, failAt: nat) returns (log: seq<LogEntry>, failed: bool)
    requires sent.Valid()
    modifies sent
    ensures sent.Valid()
    ensures sent.State() == SendAll(old(sent.State()), rs, failAt).0
    ensures log == SendAll(old(sent.State()), rs, failAt).1
    ensures failed == SendAll(old(sent.State()), rs, failAt).2
  {
    log := [];
    failed := false;
    var left := failAt;
    var i := 0;
    ghost var whole := SendRest(sent.State(), rs, 0, failAt);
    assert rs[0..] == rs;
    while i < |rs|
      invariant 0 <= i <= |rs| && sent.Valid() && !failed
      invariant SendRest(sent.State(), rs, i, left).0 == whole.0
      invariant log + SendRest(sent.State(), rs, i, left).1 == whole.1
      invariant SendRest(sent.State(), rs, i, left).2 == whole.2
    {
      SendRestStep(sent.State(), rs, i, left);
      if !sent.Contains(rs[i].hash) {
        if left == 0 {
          failed := true;
          log := log + LostAll(rs[i..]);
          return;
        }
        var sends := RecordSend(sent, rs[i]);
        left := left - 1;
        ConcatAssoc(log, sends, SendRest(sent.State(), rs, i + 1, left).1);
        log := log + sends;
      }
      i := i + 1;
    }
  }

  /** Handles one event. `did` is the event with the outcome of the pool's unordered scan filled in. */
  method HandleEvent(pool: PendingPool, sent: SentCache, ev: Event)
    returns (log: seq<LogEntry>, failed: bool, ghost did: Event)
    requires pool.Valid() && sent.Valid()
    modifies pool, sent
    ensures pool.Valid() && sent.Valid()
    ensures SameEvent(ev, did) && HitOk(old(LoopState(pool, sent)), did)
    ensures LoopState(pool, sent) == Handle(old(LoopState(pool, sent)), did).0
    ensures log == Handle(old(LoopState(pool, sent)), did).1
    ensures failed == Handle(old(LoopState(pool, sent)), did).2
  {
    did := ev;
    match ev
    case Inserted(h, tx, prunedAt, observedAt, failAt) =>
      if sent.Contains(h) {
        return [], false, ev;
      }
      var expired := pool.Prune(prunedAt);
      var res := pool.ObserveAt(h, tx, observedAt);
      log, failed := SendReinjections(sent, res.reinjections, failAt);
    case Gone(h, _) =>
      sent.Remove(h);
      ghost var hit := pool.Forget(h);
      did := Gone(h, hit);
      log, failed := [LeftPool(h)], false;
  }

  /** The same event, up to the outcome of the scan that forgetting makes. */
  ghost predicate SameEvent(ev: Event, did: Event) {
    match ev
    case Inserted(_, _, _, _, _) => did == ev
    case Gone(h, _) => did.Gone? && did.hash == h
  }

  ghost predicate HitOk(l: Loop, ev: Event) {
    ev.Gone? ==> ScanHit(ForgetKeys(l.pool, ev.hash), ev.hash, ev.hit)
  }

  /** Each handled event is the batch's, with its scan outcome. */
  ghost predicate StepsOk(start: Loop, before: seq<Event>, batch: seq<Event>, did: seq<Event>) {
    && |did| <= |batch|
    && forall i :: 0 <= i < |did| ==>
         SameEvent(batch[i], did[i]) && HitOk(RunEvents(start, before + did[..i]).0, did[i])
  }

  ghost predicate NoneFailed(start: Loop, before: seq<Event>, did: seq<Event>) {
    forall i :: 0 <= i < |did| ==> !Handle(RunEvents(start, before + did[..i]).0, did[i]).2
  }

  /** `did` is what was handled of `batch` after the events `before`: all of it, or up to the first failed send. */
  ghost predicate BatchHandled(start: Loop, before: seq<Event>, batch: seq<Event>, did: seq<Event>) {
    && StepsOk(start, before, batch, did)
    && if |did| < |batch|
       then did != [] && NoneFailed(start, before, did[..|did| - 1])
            && Handle(RunEvents(start, before + did[..|did| - 1]).0, did[|did| - 1]).2
       else did == [] || NoneFailed(start, before, did[..|did| - 1])
  }

  lemma PrefixOf<T>(xs: seq<T>, x: T, i: nat)
    requires i <= |xs|
    ensures (xs + [x])[..i] == xs[..i]
    ensures i < |xs| ==> (xs + [x])[i] == xs[i]
    ensures xs[..|xs|] == xs
  {
  }

  lemma StepsMore(start: Loop, before: seq<Event>, batch: seq<Event>, did: seq<Event>, ev: Event)
    requires StepsOk(start, before, batch, did) && |did| < |batch|
    requires SameEvent(batch[|did|], ev) && HitOk(RunEvents(start, before + did).0, ev)
    ensures StepsOk(start, before, batch, did + [ev])
  {
    var all := did + [ev];
    forall i | 0 <= i < |all|
      ensures SameEvent(batch[i], all[i]) && HitOk(RunEvents(start, before + all[..i]).0, all[i])
    {
      PrefixOf(did, ev, i);
      assert i < |did| ==> SameEvent(batch[i], did[i]) && HitOk(RunEvents(start, before + did[..i]).0, did[i]);
    }
  }

  lemma NoneFailedMore(start: Loop, before: seq<Event>, did: seq<Event>, ev: Event)
    requires NoneFailed(start, before, did)
    ensures (did + [ev])[..|did|] == did
    ensures !Handle(RunEvents(start, before + did).0, ev).2 ==> NoneFailed(start, before, did + [ev])
  {
    var all := did + [ev];
    PrefixOf(did, ev, |did|);
    forall i | 0 <= i < |all| && !Handle(RunEvents(start, before + did).0, ev).2
      ensures !Handle(RunEvents(start, before + all[..i]).0, all[i]).2
    {
      PrefixOf(did, ev, i);
      assert i < |did| ==> !Handle(RunEvents(start, before + did[..i]).0, did[i]).2;
    }
  }

  lemma RunStep(start: Loop, before: seq<Event>, did: seq<Event>, ev: Event, log: seq<LogEntry>)
    requires RunEvents(start, before + did).1 == RunEvents(start, before).1 + log
    ensures var (l, more, _) := Handle(RunEvents(start, before + did).0, ev);
            && RunEvents(start, before + (did + [ev])).0 == l
            && RunEvents(start, before + (did + [ev])).1 == RunEvents(start, before).1 + (log + more)
  {
    RunSnoc(start, before + did, ev);
    ConcatAssoc(before, did, [ev]);
    ConcatAssoc(RunEvents(start, before).1, log, Handle(RunEvents(start, before + did).0, ev).1);
  }

  method HandleBatch(pool: PendingPool, sent: SentCache, batch: seq<Event>, ghost start: Loop, ghost before: seq<Event>)
    returns (log: seq<LogEntry>, ghost did: seq<Event>)
    requires pool.Valid() && sent.Valid()
    requires LoopState(pool, sent) == RunEvents(start, before).0
    modifies pool, sent
    ensures pool.Valid() && sent.Valid()
    ensures BatchHandled(start, before, batch, did)
    ensures LoopState(pool, sent) == RunEvents(start, before + did).0
    ensures RunEvents(start, before + did).1 == RunEvents(start, before).1 + log
  {
    log, did := [], [];
    assert before + [] == before;
    var i := 0;
    while i < |batch|
      invariant 0 <= i <= |batch| && |did| == i
      invariant pool.Valid() && sent.Valid()
      invariant StepsOk(start, before, batch, did) && NoneFailed(start, before, did)
      invariant LoopState(pool, sent) == RunEvents(start, before + did).0
      invariant RunEvents(start, before + did).1 == RunEvents(start, before).1 + log
    {
      var more, failed, ev := HandleEvent(pool, sent, batch[i]);
      RunStep(start, before, did, ev, log);
      StepsMore(start, before, batch, did, ev);
      NoneFailedMore(start, before, did, ev);
      did := did + [ev];
      log := log + more;
      i := i + 1;
      if failed {
        return;
      }
    }
    NoneFailedPrefix(start, before, did);
  }

  lemma NoneFailedPrefix(start: Loop, before: seq<Event>, did: seq<Event>)
    requires NoneFailed(start, before, did)
    ensures did == [] || NoneFailed(start, before, did[..|did| - 1])
  {
    if did != [] {
      var most := did[..|did| - 1];
      forall i | 0 <= i < |most|
        ensures most[..i] == did[..i] && most[i] == did[i]
      {
      }
    }
  }

  function Flatten<T>(xss: seq<seq<T>>): seq<T> {
    if xss == [] then [] else Flatten(xss[..|xss| - 1]) + xss[|xss| - 1]
  }

  ghost predicate AllHandled(start: Loop, batches: seq<seq<Event>>, handled: seq<seq<Event>>) {
    && |handled| <= |batches|
    && forall b :: 0 <= b < |handled| ==> BatchHandled(start, Flatten(handled[..b]), batches[b], handled[b])
  }

  lemma AllHandledMore(start: Loop, batches: seq<seq<Event>>, handled: seq<seq<Event>>, did: seq<Event>)
    requires AllHandled(start, batches, handled) && |handled| < |batches|
    requires BatchHandled(start, Flatten(handled), batches[|handled|], did)
    ensures AllHandled(start, batches, handled + [did])
    ensures Flatten(handled + [did]) == Flatten(handled) + did
  {
    var all := handled + [did];
    PrefixOf(handled, did, |handled|);
    forall b | 0 <= b < |all|
      ensures BatchHandled(start, Flatten(all[..b]), batches[b], all[b])
    {
      PrefixOf(handled, did, b);
      assert b < |handled| ==> BatchHandled(start, Flatten(handled[..b]), batches[b], handled[b]);
    }
  }

  /** `log` is what the loop did with `batches`: each was handled until a send failed, the rest of that batch was
      dropped, and the next batch came over a new connection with the pool and the sent cache as they were left. */
  ghost predicate LoggedRun(start: Loop, batches: seq<seq<Event>>, handled: seq<seq<Event>>, log: seq<LogEntry>) {
    && |handled| == |batches|
    && AllHandled(start, batches, handled)
    && log == RunEvents(start, Flatten(handled)).1
  }

  /** The whole loop. */
  method RunLoop(settings: Settings, sentMax: nat, batches: seq<seq<Event>>) returns (log: seq<LogEntry>)
    ensures exists handled :: LoggedRun(Start(settings, sentMax), batches, handled, log)
  {
    var pool := new PendingPool(settings);
    var sent := new SentCache(sentMax);
    ghost var start := Start(settings, sentMax);
    ghost var handled: seq<seq<Event>> := [];
    log := [];
    for b := 0 to |batches|
      invariant pool.Valid() && sent.Valid() && fresh(pool) && fresh(sent)
      invariant |handled| == b && AllHandled(start, batches, handled)
      invariant LoopState(pool, sent) == RunEvents(start, Flatten(handled)).0
      invariant log == RunEvents(start, Flatten(handled)).1
    {
      var more, did := HandleBatch(pool, sent, batches[b], start, Flatten(handled));
      AllHandledMore(start, batches, handled, did);
      handled := handled + [did];
      log := log + more;
    }
    assert LoggedRun(start, batches, handled, log);
  }
}
