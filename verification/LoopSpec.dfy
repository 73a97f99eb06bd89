/** The event loop of `src/txpool_ipc.rs` as a value: one function per event, with sends that may fail. */
module LoopSpec {
  import opened Base
  import opened Policy
  import opened PoolSpec
  import opened SentSpec

  /** One txpool event. An insertion carries the instants at which the loop reads the clock and the number of sends
      that succeed before one fails; `Gone` stands for Commit, Drop and Evict, which are handled alike. */
  datatype Event =
    | Inserted(hash: Hash, tx: Tx, prunedAt: nat, observedAt: nat, failAt: nat)
    | Gone(hash: Hash, hit: Hash)

  /** What the outside sees, in order: a successful send, a reinjection lost to a failed send, an entry pushed out
      of the sent cache by its capacity, and a transaction that left the node's pool. */
  datatype LogEntry =
    | SentOut(r: Reinjection)
    | LostOut(r: Reinjection)
    | PushedOut(hash: Hash)
    | LeftPool(hash: Hash)

  datatype Loop = Loop(pool: Pool, sent: Sent)

  function Start(settings: Settings, sentMax: nat): Loop {
    Loop(Init(Normalized(settings)), NewSent(sentMax))
  }

  function PushedAll(hashes: seq<Hash>): seq<LogEntry> {
    if hashes == [] then [] else [PushedOut(hashes[0])] + PushedAll(hashes[1..])
  }

  function LostAll(rs: seq<Reinjection>): seq<LogEntry> {
    if rs == [] then [] else [LostOut(rs[0])] + LostAll(rs[1..])
  }

  /** Sends every reinjection that is not an echo, until a send fails; the third result says whether one did. */
  function SendAll(sent: Sent, rs: seq<Reinjection>, failAt: nat): (Sent, seq<LogEntry>, bool)
    decreases |rs|
  {
    if rs == [] then (sent, [], false)
    else if rs[0].hash in sent.priorities then SendAll(sent, rs[1..], failAt)
    else if failAt == 0 then (sent, LostAll(rs), true)
    else
      var (next, pushed) := Insert(sent, rs[0].hash, rs[0].priority);
      var (last, log, failed) := SendAll(next, rs[1..], failAt - 1);
      (last, [SentOut(rs[0])] + PushedAll(pushed) + log, failed)
  }

  function Handle(l: Loop, ev: Event): (Loop, seq<LogEntry>, bool) {
    match ev
    case Inserted(h, tx, prunedAt, observedAt, failAt) =>
      if h in l.sent.priorities then (l, [], false)
      else
        var e := Observe(Prune(l.pool, prunedAt).pool, h, tx, observedAt);
        var (sent, log, failed) := SendAll(l.sent, e.res.reinjections, failAt);
        (Loop(e.pool, sent), log, failed)
    case Gone(h, hit) =>
      (Loop(Forget(l.pool, h, hit).pool, Remove(l.sent, h)), [LeftPool(h)], false)
  }

  /** The state and the log after a run of events. */
  function RunEvents(l: Loop, events: seq<Event>): (Loop, seq<LogEntry>) {
    if events == [] then (l, [])
    else
      var (before, log) := RunEvents(l, events[..|events| - 1]);
      var (after, more, _) := Handle(before, events[|events| - 1]);
      (after, log + more)
  }

  lemma RunSnoc(l: Loop, events: seq<Event>, ev: Event)
    ensures RunEvents(l, events + [ev]).0 == Handle(RunEvents(l, events).0, ev).0
    ensures RunEvents(l, events + [ev]).1 == RunEvents(l, events).1 + Handle(RunEvents(l, events).0, ev).1
  {
  }

  /** A run in two parts. */
  lemma {:induction false} RunConcat(l: Loop, first: seq<Event>, second: seq<Event>)
    ensures var (mid, log) := RunEvents(l, first);
            var (last, more) := RunEvents(mid, second);
            RunEvents(l, first + second) == (last, log + more)
    decreases |second|
  {
    if second == [] {
      assert first + second == first;
      assert RunEvents(l, first).1 + [] == RunEvents(l, first).1;
    } else {
      var most, ev := second[..|second| - 1], second[|second| - 1];
      assert first + second == (first + most) + [ev];
      RunConcat(l, first, most);
      RunSnoc(l, first + most, ev);
      var (mid, log) := RunEvents(l, first);
      ConcatAssoc(log, RunEvents(mid, most).1, Handle(RunEvents(mid, most).0, ev).1);
    }
  }
}
