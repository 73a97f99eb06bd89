/** The sent cache over whole runs: it is the bounded list of distinct hashes exactly as long as no hash is inserted
    while a stale slot of it is queued. */
module SentRuns {
  import opened Base
  import opened PoolSpec
  import opened CacheQueue
  import opened SentSpec
  import opened LoopSpec
  import opened LoopRuns

  datatype SentOp = InsertOp(hash: Hash, priority: U256) | RemoveOp(gone: Hash)

  function ApplySent(s: Sent, op: SentOp): Sent {
    match op
    case InsertOp(h, p) => SentSpec.Insert(s, h, p).0
    case RemoveOp(h) => SentSpec.Remove(s, h)
  }

  function ApplyList(log: seq<Entry>, op: SentOp, maxEntries: nat): seq<Entry> {
    match op
    case InsertOp(h, p) => ListInsert(log, h, p, maxEntries)
    case RemoveOp(h) => ListRemove(log, h)
  }

  function SentAfter(s: Sent, ops: seq<SentOp>): Sent {
    if ops == [] then s else ApplySent(SentAfter(s, ops[..|ops| - 1]), ops[|ops| - 1])
  }

  function ListAfter(maxEntries: nat, ops: seq<SentOp>): seq<Entry> {
    if ops == [] then [] else ApplyList(ListAfter(maxEntries, ops[..|ops| - 1]), ops[|ops| - 1], maxEntries)
  }

  ghost predicate SentOpOk(s: Sent, op: SentOp) {
    op.InsertOp? ==> NoStaleSlot(s, op.hash)
  }

  ghost predicate SentRunOk(maxEntries: nat, ops: seq<SentOp>) {
    forall i :: 0 <= i < |ops| ==> SentOpOk(SentAfter(NewSent(maxEntries), ops[..i]), ops[i])
  }

  // ----- what one insertion takes -----

  /** `s` once its first `n` slots and the entries of their hashes are gone. */
  ghost function CutSent(s: Sent, n: nat): Sent
    requires n <= |s.order|
  {
    s.(priorities := s.priorities - Members(s.order[..n]), order := s.order[n..])
  }

  /** `n` is the least number of slots whose entries have to go for the capacity to hold. */
  ghost predicate LeastCutSent(s: Sent, n: nat) {
    && n <= |s.order|
    && |CutSent(s, n).priorities| <= s.maxEntries
    && forall i :: 0 <= i < n ==> |CutSent(s, i).priorities| > s.maxEntries
  }

  lemma CutSentMore(s: Sent, n: nat)
    requires n < |s.order|
    ensures CutSent(s, n + 1) == CutSent(PopOldest(s), n)
  {
    MembersFront(s.order, n);
    var gone := Members(s.order[1..][..n]);
    assert s.priorities - {s.order[0]} - gone == s.priorities - ({s.order[0]} + gone);
    assert PopOldest(s).priorities == s.priorities - {s.order[0]};
  }

  lemma CutSentNone(s: Sent)
    ensures CutSent(s, 0) == s
  {
    assert Members(s.order[..0]) == {};
  }

  lemma LeastSentMore(s: Sent, n: nat)
    requires s.order != [] && |s.priorities| > s.maxEntries && LeastCutSent(PopOldest(s), n)
    ensures LeastCutSent(s, n + 1) && CutSent(s, n + 1) == CutSent(PopOldest(s), n)
  {
    CutSentMore(s, n);
    forall i | 0 <= i < n + 1
      ensures |CutSent(s, i).priorities| > s.maxEntries
    {
      if i == 0 {
        CutSentNone(s);
      } else {
        CutSentMore(s, i - 1);
      }
    }
  }

  lemma TrimPops(s: Sent)
    requires s.order != [] && |s.priorities| > s.maxEntries
    requires exists n: nat :: LeastCutSent(PopOldest(s), n) && Trim(PopOldest(s)).0 == CutSent(PopOldest(s), n)
    ensures exists n: nat :: LeastCutSent(s, n) && Trim(s).0 == CutSent(s, n)
  {
    var n: nat :| LeastCutSent(PopOldest(s), n) && Trim(PopOldest(s)).0 == CutSent(PopOldest(s), n);
    LeastSentMore(s, n);
  }

  lemma {:induction false} TrimExact(s: Sent)
    requires SentRep(s)
    ensures exists n: nat :: LeastCutSent(s, n) && Trim(s).0 == CutSent(s, n)
    decreases |s.order|
  {
    if |s.priorities| <= s.maxEntries {
      CutSentNone(s);
      assert LeastCutSent(s, 0);
    } else {
      OrderNotEmpty(s);
      PopOldestKeeps(s);
      TrimExact(PopOldest(s));
      TrimPops(s);
    }
  }

  /** The slots of stored hashes, in order. */
  function LiveSlotsOf(order: seq<Hash>, p: map<Hash, U256>): seq<Hash> {
    if order == [] then [] else (if order[0] in p then [order[0]] else []) + LiveSlotsOf(order[1..], p)
  }

  lemma {:induction false} LiveIsFilter(order: seq<Hash>, p: map<Hash, U256>)
    ensures Filter(order, IsKey(p.Keys)) == LiveSlotsOf(order, p)
  {
    if order != [] {
      LiveIsFilter(order[1..], p);
    }
  }

  /** In any state an insertion stores the priority, queues the hash unless it was stored already, drops the stale
      slots if the queue then exceeds twice the capacity, and last drops the entries of the oldest slots, no more of
      them than the capacity demands. */
  lemma InsertExact(s: Sent, h: Hash, p: U256)
    requires SentRep(s)
    ensures var stored := s.(priorities := s.priorities[h := p],
                             order := s.order + if h in s.priorities then [] else [h]);
            var kept := if |stored.order| <= 2 * s.maxEntries then stored
                        else stored.(order := LiveSlotsOf(stored.order, stored.priorities));
            exists n: nat :: LeastCutSent(kept, n) && SentSpec.Insert(s, h, p).0 == CutSent(kept, n)
  {
    var stored := s.(priorities := s.priorities[h := p], order := s.order + if h in s.priorities then [] else [h]);
    assert s.order + [] == s.order;
    assert Store(s, h, p) == stored;
    StoreKeeps(s, h, p);
    CompactKeeps(stored);
    LiveIsFilter(stored.order, stored.priorities);
    TrimExact(Compact(stored));
  }

  // ----- one insertion against the list -----

  /** How many entries a list has for `h`. */
  function Times(log: seq<Entry>, h: Hash): nat {
    if log == [] then 0 else (if log[0].hash == h then 1 else 0) + Times(log[1..], h)
  }

  lemma {:induction false} TimesConcat(a: seq<Entry>, b: seq<Entry>, h: Hash)
    ensures Times(a + b, h) == Times(a, h) + Times(b, h)
  {
    if a == [] {
      assert a + b == b;
    } else {
      assert (a + b)[1..] == a[1..] + b;
      TimesConcat(a[1..], b, h);
    }
  }

  lemma {:induction false} TimesHas(log: seq<Entry>, h: Hash)
    ensures HasEntry(log, h) <==> Times(log, h) > 0
  {
    if log != [] {
      TimesHas(log[1..], h);
    }
  }

  /** How many slots of a queue are of `h`. */
  function SlotsFor(order: seq<Hash>, h: Hash): nat {
    if order == [] then 0 else (if order[0] == h then 1 else 0) + SlotsFor(order[1..], h)
  }

  lemma {:induction false} SlotsSnoc(order: seq<Hash>, h: Hash)
    ensures SlotsFor(order + [h], h) == SlotsFor(order, h) + 1
  {
    if order == [] {
      assert [h][1..] == [] && order + [h] == [h];
    } else {
      assert (order + [h])[1..] == order[1..] + [h];
      SlotsSnoc(order[1..], h);
    }
  }

  lemma {:induction false} QueuedHasSlot(order: seq<Hash>, h: Hash)
    requires h in order
    ensures SlotsFor(order, h) >= 1
  {
    if order[0] != h {
      QueuedHasSlot(order[1..], h);
    }
  }

  lemma {:induction false} TimesContents(order: seq<Hash>, p: map<Hash, U256>, h: Hash)
    ensures Times(Contents(order, p), h) == if h in p then SlotsFor(order, h) else 0
  {
    if order != [] {
      var head := if order[0] in p then [Entry(order[0], p[order[0]])] else [];
      TimesContents(order[1..], p, h);
      TimesConcat(head, Contents(order[1..], p), h);
    }
  }

  lemma {:induction false} FilterSlots(xs: seq<Hash>, keep: Hash -> bool, h: Hash)
    requires keep(h)
    ensures SlotsFor(Filter(xs, keep), h) == SlotsFor(xs, h)
  {
    if xs != [] {
      FilterSlots(xs[1..], keep, h);
      var rest := Filter(xs[1..], keep);
      if keep(xs[0]) {
        assert ([xs[0]] + rest)[1..] == rest;
      } else {
        FilterDrop(xs, keep);
      }
    }
  }

  /** While `h` is stored it has two slots. */
  ghost predicate TwoSlots(s: Sent, h: Hash) {
    h in s.priorities ==> SlotsFor(s.order, h) >= 2
  }

  lemma {:induction false} TrimTwoSlots(s: Sent, h: Hash)
    requires TwoSlots(s, h)
    ensures TwoSlots(Trim(s).0, h)
    decreases |s.order|
  {
    if |s.priorities| > s.maxEntries && s.order != [] {
      TrimTwoSlots(PopOldest(s), h);
    }
  }

  lemma NewestSnoc(log: seq<Entry>, e: Entry, n: nat)
    requires n >= 1
    ensures exists k :: 0 <= k <= |log| && Newest(log + [e], n) == log[k..] + [e]
  {
    var k := if |log| + 1 <= n then 0 else |log| + 1 - n;
    assert Newest(log + [e], n) == log[k..] + [e];
  }

  lemma NewestTimes(log: seq<Entry>, e: Entry, n: nat)
    requires n >= 1 && !HasEntry(log, e.hash)
    ensures Times(Newest(log + [e], n), e.hash) == 1
  {
    NewestSnoc(log, e, n);
    var k :| 0 <= k <= |log| && Newest(log + [e], n) == log[k..] + [e];
    TimesHas(log, e.hash);
    TimesConcat(log[..k], log[k..], e.hash);
    TimesConcat(log[k..], [e], e.hash);
    assert log == log[..k] + log[k..] && [e][1..] == [];
  }

  /** With a stale slot queued, the cache ends up with the hash twice or not at all, and the list has it once. */
  lemma StaleSlotDiverges(s: Sent, h: Hash, p: U256)
    requires FreshRep(s) && !NoStaleSlot(s, h)
    ensures View(SentSpec.Insert(s, h, p).0) != ListInsert(View(s), h, p, s.maxEntries)
  {
    var s1 := Store(s, h, p);
    var s2 := Compact(s1);
    var s' := SentSpec.Insert(s, h, p).0;
    QueuedHasSlot(s.order, h);
    SlotsSnoc(s.order, h);
    FilterSlots(s1.order, IsKey(s1.priorities.Keys), h);
    assert TwoSlots(s2, h);
    TrimTwoSlots(s2, h);
    TimesContents(s'.order, s'.priorities, h);
    ContentsHas(s.order, s.priorities, h);
    NewestTimes(View(s), Entry(h, p), s.maxEntries);
  }

  /** One insertion is insertion into the bounded list exactly when no stale slot of the hash is queued. */
  lemma InsertRefinesExactly(s: Sent, h: Hash, p: U256)
    requires FreshRep(s)
    ensures View(SentSpec.Insert(s, h, p).0) == ListInsert(View(s), h, p, s.maxEntries) <==> NoStaleSlot(s, h)
  {
    if NoStaleSlot(s, h) {
      InsertRefines(s, h, p);
    } else {
      StaleSlotDiverges(s, h, p);
    }
  }

  // ----- runs -----

  ghost predicate SentRefines(s: Sent, maxEntries: nat, ops: seq<SentOp>) {
    View(s) == ListAfter(Max(maxEntries, 1), ops)
  }

  lemma ApplyFresh(s: Sent, op: SentOp)
    requires FreshRep(s) && |s.order| <= 2 * s.maxEntries && SentOpOk(s, op)
    ensures var s' := ApplySent(s, op);
            && FreshRep(s') && s'.maxEntries == s.maxEntries && |s'.order| <= 2 * s.maxEntries
            && View(s') == ApplyList(View(s), op, s.maxEntries) && |View(s')| == |s'.priorities|
  {
    var s' := ApplySent(s, op);
    match op {
      case InsertOp(h, p) =>
        InsertRefines(s, h, p);
        FreshQueueBound(s, h, p);
        InsertKeeps(s, h, p);
      case RemoveOp(h) =>
        RemoveRefines(s, h);
    }
    ContentsCard(s'.order, s'.priorities);
  }

  lemma OkPrefix(maxEntries: nat, ops: seq<SentOp>, k: nat)
    requires k <= |ops| && SentRunOk(maxEntries, ops)
    ensures SentRunOk(maxEntries, ops[..k])
  {
    forall i | 0 <= i < k
      ensures SentOpOk(SentAfter(NewSent(maxEntries), ops[..k][..i]), ops[..k][i])
    {
      assert ops[..k][..i] == ops[..i];
    }
  }

  lemma OkBefore(maxEntries: nat, ops: seq<SentOp>)
    requires ops != [] && SentRunOk(maxEntries, ops)
    ensures SentRunOk(maxEntries, ops[..|ops| - 1])
    ensures SentOpOk(SentAfter(NewSent(maxEntries), ops[..|ops| - 1]), ops[|ops| - 1])
  {
    OkPrefix(maxEntries, ops, |ops| - 1);
  }

  /** Over any run of insertions and removals that inserts no hash while a stale slot of it is queued, the cache is
      the reference list, which never outgrows the capacity, and the queue never outgrows twice the capacity. */
  lemma {:induction false} SentRunRefines(maxEntries: nat, ops: seq<SentOp>)
    requires SentRunOk(maxEntries, ops)
    ensures var s := SentAfter(NewSent(maxEntries), ops);
            && FreshRep(s) && s.maxEntries == Max(maxEntries, 1)
            && SentRefines(s, maxEntries, ops) && |View(s)| == |s.priorities| <= s.maxEntries
            && |s.order| <= 2 * s.maxEntries
  {
    if ops != [] {
      var most, op := ops[..|ops| - 1], ops[|ops| - 1];
      OkBefore(maxEntries, ops);
      SentRunRefines(maxEntries, most);
      ApplyFresh(SentAfter(NewSent(maxEntries), most), op);
    }
  }

  /** Agreement after every prefix of a run. */
  ghost predicate Agrees(maxEntries: nat, ops: seq<SentOp>) {
    forall k :: 0 <= k <= |ops| ==> SentRefines(SentAfter(NewSent(maxEntries), ops[..k]), maxEntries, ops[..k])
  }

  lemma AgreesAt(maxEntries: nat, ops: seq<SentOp>, most: seq<SentOp>, k: nat)
    requires Agrees(maxEntries, ops) && k <= |most| && |most| <= |ops| && ops[..|most|] == most
    ensures SentRefines(SentAfter(NewSent(maxEntries), most[..k]), maxEntries, most[..k])
  {
    assert most[..k] == ops[..k];
  }

  lemma AgreesBefore(maxEntries: nat, ops: seq<SentOp>)
    requires ops != [] && Agrees(maxEntries, ops)
    ensures Agrees(maxEntries, ops[..|ops| - 1]) && SentRefines(SentAfter(NewSent(maxEntries), ops), maxEntries, ops)
  {
    var most := ops[..|ops| - 1];
    forall k | 0 <= k <= |most|
      ensures SentRefines(SentAfter(NewSent(maxEntries), most[..k]), maxEntries, most[..k])
    {
      AgreesAt(maxEntries, ops, most, k);
    }
    assert ops[..|ops|] == ops;
  }

  lemma OkSnoc(maxEntries: nat, most: seq<SentOp>, op: SentOp)
    requires SentRunOk(maxEntries, most) && SentOpOk(SentAfter(NewSent(maxEntries), most), op)
    ensures SentRunOk(maxEntries, most + [op])
  {
    var ops := most + [op];
    assert ops[..|most|] == most;
    forall i | 0 <= i < |most|
      ensures ops[..i] == most[..i]
    {
    }
  }

  lemma {:induction false} AgreementMeansOk(maxEntries: nat, ops: seq<SentOp>)
    requires Agrees(maxEntries, ops)
    ensures SentRunOk(maxEntries, ops)
  {
    if ops != [] {
      var most, op := ops[..|ops| - 1], ops[|ops| - 1];
      AgreesBefore(maxEntries, ops);
      AgreementMeansOk(maxEntries, most);
      SentRunRefines(maxEntries, most);
      if op.InsertOp? {
        InsertRefinesExactly(SentAfter(NewSent(maxEntries), most), op.hash, op.priority);
      }
      OkSnoc(maxEntries, most, op);
      assert ops == most + [op];
    }
  }

  /** The cache agrees with the list throughout a run exactly when no insertion of the run meets a stale slot of its
      own hash. */
  lemma RunRefinesExactly(maxEntries: nat, ops: seq<SentOp>)
    ensures Agrees(maxEntries, ops) <==> SentRunOk(maxEntries, ops)
  {
    if SentRunOk(maxEntries, ops) {
      forall k | 0 <= k <= |ops|
        ensures SentRefines(SentAfter(NewSent(maxEntries), ops[..k]), maxEntries, ops[..k])
      {
        OkPrefix(maxEntries, ops, k);
        SentRunRefines(maxEntries, ops[..k]);
      }
    }
    if Agrees(maxEntries, ops) {
      AgreementMeansOk(maxEntries, ops);
    }
  }

  // ----- in the loop -----

  /** No hash is sent twice. */
  ghost predicate SentOnce(log: seq<LogEntry>) {
    forall i, j :: 0 <= i < j < |log| && log[i].SentOut? && log[j].SentOut? ==> log[i].r.hash != log[j].r.hash
  }

  /** The list reference read off the log: sends are appended, departures filtered out, and the capacity trims. */
  function ListOfLog(log: seq<LogEntry>, maxEntries: nat): seq<Entry> {
    if log == [] then []
    else ListStep(ListOfLog(log[..|log| - 1], maxEntries), log[|log| - 1], maxEntries)
  }

  function ListStep(list: seq<Entry>, e: LogEntry, maxEntries: nat): seq<Entry> {
    match e
    case SentOut(r) => ListInsert(list, r.hash, r.priority, maxEntries)
    case LeftPool(k) => ListRemove(list, k)
    case PushedOut(_) => list
    case LostOut(_) => list
  }

  ghost predicate LogRefines(s: Sent, log: seq<LogEntry>) {
    && FreshRep(s) && |s.order| <= 2 * s.maxEntries
    && View(s) == ListOfLog(log, s.maxEntries)
    && forall k :: k in s.order ==> SentIn(log, k)
  }

  lemma ListSnoc(log: seq<LogEntry>, e: LogEntry, n: nat)
    ensures ListOfLog(log + [e], n) == ListStep(ListOfLog(log, n), e, n)
  {
    assert (log + [e])[..|log|] == log;
  }

  lemma SentInSnoc(log: seq<LogEntry>, e: LogEntry, k: Hash)
    ensures SentIn(log + [e], k) <==> SentIn(log, k) || (e.SentOut? && e.r.hash == k)
  {
    var all := log + [e];
    assert all[|log|] == e;
    forall i | 0 <= i < |log|
      ensures all[i] == log[i]
    {
    }
  }

  /** Entries that neither send nor remove leave the list alone. */
  lemma QuietRefines(s: Sent, log: seq<LogEntry>, e: LogEntry)
    requires LogRefines(s, log) && (e.PushedOut? || e.LostOut?)
    ensures LogRefines(s, log + [e])
  {
    ListSnoc(log, e, s.maxEntries);
    forall k
      ensures SentIn(log + [e], k) <==> SentIn(log, k)
    {
      SentInSnoc(log, e, k);
    }
  }

  lemma {:induction false} PushedRefines(s: Sent, log: seq<LogEntry>, gone: seq<Hash>)
    requires LogRefines(s, log)
    ensures LogRefines(s, log + PushedAll(gone))
    decreases |gone|
  {
    if gone == [] {
      assert log + [] == log;
    } else {
      QuietRefines(s, log, PushedOut(gone[0]));
      PushedRefines(s, log + [PushedOut(gone[0])], gone[1..]);
      ConcatAssoc(log, [PushedOut(gone[0])], PushedAll(gone[1..]));
    }
  }

  lemma {:induction false} LostRefines(s: Sent, log: seq<LogEntry>, rs: seq<Reinjection>)
    requires LogRefines(s, log)
    ensures LogRefines(s, log + LostAll(rs))
    decreases |rs|
  {
    if rs == [] {
      assert log + [] == log;
    } else {
      QuietRefines(s, log, LostOut(rs[0]));
      LostRefines(s, log + [LostOut(rs[0])], rs[1..]);
      ConcatAssoc(log, [LostOut(rs[0])], LostAll(rs[1..]));
    }
  }

  lemma {:induction false} TrimQueue(s: Sent, k: Hash)
    requires k in Trim(s).0.order
    ensures k in s.order
    decreases |s.order|
  {
    if |s.priorities| > s.maxEntries && s.order != [] {
      TrimQueue(PopOldest(s), k);
    }
  }

  lemma InsertQueue(s: Sent, h: Hash, p: U256, k: Hash)
    requires k in SentSpec.Insert(s, h, p).0.order
    ensures k in s.order || k == h
  {
    var s1 := Store(s, h, p);
    TrimQueue(Compact(s1), k);
    FilterMembers(s1.order, IsKey(s1.priorities.Keys), k);
  }

  lemma SendRefines(s: Sent, log: seq<LogEntry>, r: Reinjection)
    requires LogRefines(s, log) && !SentIn(log, r.hash)
    ensures LogRefines(SentSpec.Insert(s, r.hash, r.priority).0, log + [SentOut(r)])
  {
    var s' := SentSpec.Insert(s, r.hash, r.priority).0;
    ApplyFresh(s, InsertOp(r.hash, r.priority));
    ListSnoc(log, SentOut(r), s.maxEntries);
    forall k | k in s'.order
      ensures SentIn(log + [SentOut(r)], k)
    {
      InsertQueue(s, r.hash, r.priority, k);
      SentInSnoc(log, SentOut(r), k);
    }
  }

  lemma OnceBefore(log: seq<LogEntry>, r: Reinjection, rest: seq<LogEntry>)
    requires SentOnce(log + ([SentOut(r)] + rest))
    ensures !SentIn(log, r.hash)
  {
    var all := log + ([SentOut(r)] + rest);
    assert all[|log|] == SentOut(r);
    forall i | 0 <= i < |log|
      ensures all[i] == log[i]
    {
    }
  }

  /** What sending `r` adds to the log. */
  function FirstSend(s: Sent, r: Reinjection): seq<LogEntry> {
    [SentOut(r)] + PushedAll(SentSpec.Insert(s, r.hash, r.priority).1)
  }

  lemma FirstSendRefines(s: Sent, log: seq<LogEntry>, r: Reinjection, rest: seq<LogEntry>)
    requires LogRefines(s, log) && SentOnce(log + FirstSend(s, r) + rest)
    ensures LogRefines(SentSpec.Insert(s, r.hash, r.priority).0, log + FirstSend(s, r))
  {
    var (next, pushed) := SentSpec.Insert(s, r.hash, r.priority);
    OncePrefix(log + FirstSend(s, r), rest);
    OnceBefore(log, r, PushedAll(pushed));
    SendRefines(s, log, r);
    PushedRefines(next, log + [SentOut(r)], pushed);
    ConcatAssoc(log, [SentOut(r)], PushedAll(pushed));
  }

  lemma {:induction false} SendAllRefines(s: Sent, log: seq<LogEntry>, rs: seq<Reinjection>, failAt: nat)
    requires LogRefines(s, log) && SentOnce(log + SendAll(s, rs, failAt).1)
    ensures LogRefines(SendAll(s, rs, failAt).0, log + SendAll(s, rs, failAt).1)
    decreases |rs|, 1
  {
    if rs == [] {
      assert log + [] == log;
    } else if rs[0].hash in s.priorities {
      SendAllRefines(s, log, rs[1..], failAt);
    } else if failAt == 0 {
      LostRefines(s, log, rs);
    } else {
      SendThenRest(s, log, rs, failAt);
    }
  }

  lemma {:induction false} SendThenRest(s: Sent, log: seq<LogEntry>, rs: seq<Reinjection>, failAt: nat)
    requires rs != [] && rs[0].hash !in s.priorities && failAt > 0
    requires LogRefines(s, log) && SentOnce(log + SendAll(s, rs, failAt).1)
    ensures LogRefines(SendAll(s, rs, failAt).0, log + SendAll(s, rs, failAt).1)
    decreases |rs|, 0
  {
    var next := SentSpec.Insert(s, rs[0].hash, rs[0].priority).0;
    var rest := SendAll(next, rs[1..], failAt - 1);
    var sent := log + FirstSend(s, rs[0]);
    assert SendAll(s, rs, failAt).0 == rest.0 && log + SendAll(s, rs, failAt).1 == sent + rest.1 by {
      ConcatAssoc(log, FirstSend(s, rs[0]), rest.1);
    }
    FirstSendRefines(s, log, rs[0], rest.1);
    SendAllRefines(next, sent, rs[1..], failAt - 1);
  }

  lemma OncePrefix(log: seq<LogEntry>, more: seq<LogEntry>)
    requires SentOnce(log + more)
    ensures SentOnce(log)
  {
    forall i | 0 <= i < |log|
      ensures (log + more)[i] == log[i]
    {
    }
  }

  /** In every run of the loop that sends no hash twice, the sent cache is the list read off the log, and its queue
      stays within twice the capacity. */
  lemma {:induction false} LoopRefines(settings: Settings, sentMax: nat, events: seq<Event>)
    requires SentOnce(RunEvents(Start(settings, sentMax), events).1)
    ensures var (l, log) := RunEvents(Start(settings, sentMax), events);
            && l.sent.maxEntries == Max(sentMax, 1)
            && View(l.sent) == ListOfLog(log, l.sent.maxEntries)
            && |l.sent.order| <= 2 * l.sent.maxEntries
            && LogRefines(l.sent, log)
  {
    if events != [] {
      var most, ev := events[..|events| - 1], events[|events| - 1];
      var (l, log) := RunEvents(Start(settings, sentMax), most);
      OncePrefix(log, Handle(l, ev).1);
      LoopRefines(settings, sentMax, most);
      HandleRefines(l, log, ev);
    }
  }

  lemma HandleRefines(l: Loop, log: seq<LogEntry>, ev: Event)
    requires LogRefines(l.sent, log) && SentOnce(log + Handle(l, ev).1)
    ensures LogRefines(Handle(l, ev).0.sent, log + Handle(l, ev).1)
    ensures Handle(l, ev).0.sent.maxEntries == l.sent.maxEntries
  {
    match ev
    case Inserted(h, tx, prunedAt, observedAt, failAt) =>
      if h in l.sent.priorities {
        assert log + [] == log;
      } else {
        var rs := Observe(Prune(l.pool, prunedAt).pool, h, tx, observedAt).res.reinjections;
        SendAllRefines(l.sent, log, rs, failAt);
        SendAllCapacity(l.sent, rs, failAt);
      }
    case Gone(h, hit) =>
      ApplyFresh(l.sent, RemoveOp(h));
      ListSnoc(log, LeftPool(h), l.sent.maxEntries);
      forall k
        ensures SentIn(log + [LeftPool(h)], k) <==> SentIn(log, k)
      {
        SentInSnoc(log, LeftPool(h), k);
      }
  }

  lemma {:induction false} SendAllCapacity(s: Sent, rs: seq<Reinjection>, failAt: nat)
    requires SentInv(s)
    ensures SendAll(s, rs, failAt).0.maxEntries == s.maxEntries
    decreases |rs|
  {
    if rs != [] {
      if rs[0].hash in s.priorities {
        SendAllCapacity(s, rs[1..], failAt);
      } else if failAt > 0 {
        InsertKeeps(s, rs[0].hash, rs[0].priority);
        SendAllCapacity(SentSpec.Insert(s, rs[0].hash, rs[0].priority).0, rs[1..], failAt - 1);
      }
    }
  }
}
