/** The cache of sent hashes as a value, one function per operation of `SentCache` in `src/txpool_ipc.rs`. */
module SentSpec {
  import opened Base

  datatype Sent = Sent(priorities: map<Hash, U256>, order: seq<Hash>, maxEntries: nat)

  function NewSent(maxEntries: nat): Sent {
    Sent(map[], [], Max(maxEntries, 1))
  }

  function IsKey(keys: set<Hash>): Hash -> bool {
    (h: Hash) => h in keys
  }

  /** The priority stored, and a queue slot added for a new hash. */
  function Store(s: Sent, h: Hash, p: U256): Sent {
    s.(priorities := s.priorities[h := p], order := if h in s.priorities then s.order else s.order + [h])
  }

  /** Stale slots dropped once the queue is more than twice the capacity. */
  function Compact(s: Sent): Sent {
    if |s.order| > 2 * s.maxEntries then s.(order := Filter(s.order, IsKey(s.priorities.Keys))) else s
  }

  function PopOldest(s: Sent): Sent
    requires s.order != []
  {
    var rest := s.(order := s.order[1..]);
    if s.order[0] in s.priorities then rest.(priorities := s.priorities - {s.order[0]}) else rest
  }

  /** Oldest entries dropped until the capacity holds; the second result lists them. */
  function Trim(s: Sent): (Sent, seq<Hash>)
    decreases |s.order|
  {
    if |s.priorities| <= s.maxEntries || s.order == [] then (s, [])
    else
      var (last, more) := Trim(PopOldest(s));
      (last, (if s.order[0] in s.priorities then [s.order[0]] else []) + more)
  }

  function Insert(s: Sent, h: Hash, p: U256): (Sent, seq<Hash>) {
    Trim(Compact(Store(s, h, p)))
  }

  function Remove(s: Sent, h: Hash): Sent {
    s.(priorities := s.priorities - {h})
  }

  // ----- invariant -----

  /** Every stored hash has a slot, and there is room for one. */
  ghost predicate SentRep(s: Sent) {
    s.maxEntries >= 1 && forall h :: h in s.priorities ==> h in s.order
  }

  ghost predicate SentInv(s: Sent) {
    SentRep(s) && |s.priorities| <= s.maxEntries
  }

  lemma StoreCard(s: Sent, h: Hash, p: U256)
    ensures |Store(s, h, p).priorities| == |s.priorities| + (if h in s.priorities then 0 else 1)
  {
  }

  lemma StoreKeeps(s: Sent, h: Hash, p: U256)
    requires SentRep(s)
    ensures SentRep(Store(s, h, p))
  {
    assert forall k :: k in s.order ==> k in Store(s, h, p).order;
  }

  lemma CompactKeeps(s: Sent)
    requires SentRep(s)
    ensures SentRep(Compact(s))
  {
    forall h | h in s.priorities
      ensures h in Compact(s).order
    {
      FilterMembers(s.order, IsKey(s.priorities.Keys), h);
    }
  }

  lemma PopOldestKeeps(s: Sent)
    requires SentRep(s) && s.order != []
    ensures SentRep(PopOldest(s))
    ensures |PopOldest(s).priorities| == |s.priorities| - (if s.order[0] in s.priorities then 1 else 0)
  {
  }

  lemma OrderNotEmpty(s: Sent)
    requires SentRep(s) && |s.priorities| > 0
    ensures s.order != []
  {
    var k :| k in s.priorities.Keys;
  }

  /** `after` is `before` without the hashes in `gone`. */
  ghost predicate Lost(before: map<Hash, U256>, after: map<Hash, U256>, gone: seq<Hash>) {
    && (forall k :: k in after <==> k in before && k !in gone)
    && (forall k :: k in after ==> after[k] == before[k])
    && (forall k :: k in gone ==> k in before)
  }

  lemma LostMore(a: map<Hash, U256>, b: map<Hash, U256>, c: map<Hash, U256>, x: seq<Hash>, y: seq<Hash>)
    requires Lost(a, b, x) && Lost(b, c, y)
    ensures Lost(a, c, x + y)
  {
  }

  /** Trimming removes exactly the hashes it reports, and stops at the capacity. */
  lemma {:induction false} TrimKeeps(s: Sent)
    requires SentRep(s)
    ensures SentInv(Trim(s).0) && Trim(s).0.maxEntries == s.maxEntries
    ensures Lost(s.priorities, Trim(s).0.priorities, Trim(s).1)
    decreases |s.order|
  {
    if |s.priorities| > s.maxEntries {
      OrderNotEmpty(s);
      PopOldestKeeps(s);
      var s1 := PopOldest(s);
      TrimKeeps(s1);
      var head := if s.order[0] in s.priorities then [s.order[0]] else [];
      LostMore(s.priorities, s1.priorities, Trim(s1).0.priorities, head, Trim(s1).1);
    }
  }

  /** One entry over the capacity costs one eviction. */
  lemma {:induction false} TrimStops(s: Sent)
    requires SentRep(s) && |s.priorities| <= s.maxEntries + 1
    ensures |Trim(s).1| == |s.priorities| - (if |s.priorities| <= s.maxEntries then |s.priorities| else s.maxEntries)
    decreases |s.order|
  {
    if |s.priorities| > s.maxEntries {
      OrderNotEmpty(s);
      PopOldestKeeps(s);
      TrimStops(PopOldest(s));
    }
  }

  /** `len() <= max_entries` after every operation, however hashes are reused; the new hash is stored unless it is
      itself evicted, and at most one entry is. */
  lemma InsertKeeps(s: Sent, h: Hash, p: U256)
    requires SentInv(s)
    ensures var (s', evicted) := Insert(s, h, p);
            && SentInv(s') && s'.maxEntries == s.maxEntries
            && Lost(s.priorities[h := p], s'.priorities, evicted)
            && |evicted| == (if h !in s.priorities && |s.priorities| == s.maxEntries then 1 else 0)
  {
    StoreKeeps(s, h, p);
    StoreCard(s, h, p);
    CompactKeeps(Store(s, h, p));
    TrimKeeps(Compact(Store(s, h, p)));
    TrimStops(Compact(Store(s, h, p)));
  }

  lemma RemoveKeeps(s: Sent, h: Hash)
    requires SentInv(s)
    ensures SentInv(Remove(s, h))
  {
  }

  // ----- the queue bound -----

  function LiveSlots(s: Sent, h: Hash): nat {
    |Filter(s.order + (if h in s.priorities then [] else [h]), IsKey(s.priorities.Keys + {h}))|
  }

  function SlotsAfterStore(s: Sent, h: Hash): nat {
    |s.order| + (if h in s.priorities then 0 else 1)
  }

  lemma {:induction false} TrimShortens(s: Sent)
    ensures |Trim(s).0.order| <= |s.order|
    decreases |s.order|
  {
    if |s.priorities| > s.maxEntries && s.order != [] {
      TrimShortens(PopOldest(s));
    }
  }

  /** With live slots only, trimming one entry pops one slot. */
  lemma TrimPopsOne(s: Sent)
    requires SentRep(s) && |s.priorities| <= s.maxEntries + 1
    requires forall k :: k in s.order ==> k in s.priorities
    ensures |Trim(s).0.order| == |s.order| - (if |s.priorities| > s.maxEntries then 1 else 0)
  {
  }

  /** The queue stays within twice the capacity exactly when it had room, or when the slots of stored hashes,
      counted with repetition, fit: compaction keeps every slot of a stored hash. */
  lemma QueueBoundExactly(s: Sent, h: Hash, p: U256)
    requires SentInv(s)
    ensures |Insert(s, h, p).0.order| <= 2 * s.maxEntries
            <==> SlotsAfterStore(s, h) <= 2 * s.maxEntries
                 || LiveSlots(s, h) <= 2 * s.maxEntries
                                       + (if h !in s.priorities && |s.priorities| == s.maxEntries then 1 else 0)
  {
    var s1 := Store(s, h, p);
    var s2 := Compact(s1);
    StoreKeeps(s, h, p);
    StoreCard(s, h, p);
    CompactKeeps(s1);
    assert s1.priorities.Keys == s.priorities.Keys + {h};
    assert s.order + [] == s.order;
    if SlotsAfterStore(s, h) <= 2 * s.maxEntries {
      TrimShortens(s2);
    } else {
      forall k | k in s2.order
        ensures k in s2.priorities
      {
        FilterMembers(s1.order, IsKey(s1.priorities.Keys), k);
      }
      TrimPopsOne(s2);
    }
  }

  /** The same hash sent and dropped once. */
  function Cycle(s: Sent, h: Hash, p: U256): Sent {
    Remove(Insert(s, h, p).0, h)
  }

  /** The same hash sent and dropped `n` times. */
  function SendAndDrop(s: Sent, h: Hash, p: U256, n: nat): Sent
    decreases n
  {
    if n == 0 then s else SendAndDrop(Cycle(s, h, p), h, p, n - 1)
  }

  ghost predicate OnlySlotsOf(s: Sent, h: Hash) {
    forall i :: 0 <= i < |s.order| ==> s.order[i] == h
  }

  /** Nothing is stored, and every slot is a stale one of `h`. */
  ghost predicate OnlyStale(s: Sent, h: Hash) {
    s.maxEntries >= 1 && s.priorities == map[] && OnlySlotsOf(s, h)
  }

  lemma CycleLeavesSlot(s: Sent, h: Hash, p: U256)
    requires OnlyStale(s, h)
    ensures OnlyStale(Cycle(s, h, p), h) && |Cycle(s, h, p).order| == |s.order| + 1
  {
    var s1 := Store(s, h, p);
    StoreCard(s, h, p);
    assert forall k :: k in s1.order ==> k == h;
    FilterAll(s1.order, IsKey(s1.priorities.Keys));
    assert Compact(s1) == s1;
    assert Insert(s, h, p) == (s1, []);
  }

  lemma {:induction false} QueueGrowsFrom(s: Sent, h: Hash, p: U256, n: nat)
    requires OnlyStale(s, h)
    ensures |SendAndDrop(s, h, p, n).order| == |s.order| + n
    decreases n
  {
    if n > 0 {
      CycleLeavesSlot(s, h, p);
      QueueGrowsFrom(Cycle(s, h, p), h, p, n - 1);
    }
  }

  /** Sending and dropping one hash over and over makes the queue grow without bound. */
  lemma QueueGrows(maxEntries: nat, h: Hash, p: U256, n: nat)
    ensures |SendAndDrop(NewSent(maxEntries), h, p, n).order| == n
  {
    QueueGrowsFrom(NewSent(maxEntries), h, p, n);
  }

  // ----- refinement -----

  datatype Entry = Entry(hash: Hash, priority: U256)

  function NotHash(h: Hash): Entry -> bool {
    (e: Entry) => e.hash != h
  }

  predicate HasEntry(log: seq<Entry>, h: Hash) {
    log != [] && (log[0].hash == h || HasEntry(log[1..], h))
  }

  function Update(log: seq<Entry>, h: Hash, p: U256): seq<Entry> {
    if log == [] then [] else [if log[0].hash == h then Entry(h, p) else log[0]] + Update(log[1..], h, p)
  }

  /** The reference: a list of distinct hashes, oldest first, of bounded length. */
  function ListInsert(log: seq<Entry>, h: Hash, p: U256, maxEntries: nat): seq<Entry> {
    if HasEntry(log, h) then Update(log, h, p) else Newest(log + [Entry(h, p)], maxEntries)
  }

  function ListRemove(log: seq<Entry>, h: Hash): seq<Entry> {
    Filter(log, NotHash(h))
  }

  /** The entries whose slots are live, in queue order. */
  function Contents(order: seq<Hash>, priorities: map<Hash, U256>): seq<Entry> {
    if order == [] then []
    else
      (if order[0] in priorities then [Entry(order[0], priorities[order[0]])] else [])
      + Contents(order[1..], priorities)
  }

  function View(s: Sent): seq<Entry> {
    Contents(s.order, s.priorities)
  }

  ghost predicate NoStaleSlot(s: Sent, h: Hash) {
    h in s.order ==> h in s.priorities
  }

  ghost predicate FreshRep(s: Sent) {
    SentInv(s) && Distinct(s.order)
  }

  lemma {:induction false} ContentsSame(order: seq<Hash>, p: map<Hash, U256>, q: map<Hash, U256>)
    requires forall h :: h in order ==> (h in p <==> h in q) && (h in p ==> p[h] == q[h])
    ensures Contents(order, p) == Contents(order, q)
  {
    if order != [] {
      ContentsSame(order[1..], p, q);
    }
  }

  lemma {:induction false} ContentsConcat(a: seq<Hash>, b: seq<Hash>, p: map<Hash, U256>)
    ensures Contents(a + b, p) == Contents(a, p) + Contents(b, p)
  {
    if a == [] {
      assert a + b == b;
    } else {
      ContentsConcat(a[1..], b, p);
      assert (a + b)[1..] == a[1..] + b;
      var head := if a[0] in p then [Entry(a[0], p[a[0]])] else [];
      assert head + (Contents(a[1..], p) + Contents(b, p)) == (head + Contents(a[1..], p)) + Contents(b, p);
    }
  }

  lemma {:induction false} ContentsHas(order: seq<Hash>, p: map<Hash, U256>, h: Hash)
    ensures HasEntry(Contents(order, p), h) <==> h in order && h in p
  {
    if order != [] {
      ContentsHas(order[1..], p, h);
      var rest := Contents(order[1..], p);
      if order[0] in p {
        assert ([Entry(order[0], p[order[0]])] + rest)[1..] == rest;
      } else {
        assert [] + rest == rest;
      }
    }
  }

  lemma {:induction false} ContentsUpdate(order: seq<Hash>, p: map<Hash, U256>, h: Hash, v: U256)
    requires h in p
    ensures Contents(order, p[h := v]) == Update(Contents(order, p), h, v)
  {
    if order != [] {
      ContentsUpdate(order[1..], p, h, v);
      var rest := Contents(order[1..], p);
      if order[0] in p {
        assert ([Entry(order[0], p[order[0]])] + rest)[1..] == rest;
      } else {
        assert [] + rest == rest && [] + Contents(order[1..], p[h := v]) == Contents(order[1..], p[h := v]);
      }
    }
  }

  lemma {:induction false} ContentsWithout(order: seq<Hash>, p: map<Hash, U256>, h: Hash)
    ensures Contents(order, p - {h}) == Filter(Contents(order, p), NotHash(h))
  {
    if order != [] {
      ContentsWithout(order[1..], p, h);
      var rest := Contents(order[1..], p);
      if order[0] in p {
        assert Contents(order, p) == [Entry(order[0], p[order[0]])] + rest;
        assert Contents(order, p)[1..] == rest;
      } else {
        assert Contents(order, p) == rest;
        assert Contents(order, p - {h}) == Contents(order[1..], p - {h});
      }
    }
  }

  lemma WithoutFront(order: seq<Hash>, p: map<Hash, U256>)
    requires order != [] && Distinct(order) && forall h :: h in p ==> h in order
    ensures Distinct(order[1..]) && order[0] !in order[1..]
    ensures forall h :: h in p - {order[0]} ==> h in order[1..]
    ensures |p| == |p - {order[0]}| + (if order[0] in p then 1 else 0)
  {
    var q := p - {order[0]};
    assert order == [order[0]] + order[1..];
    assert q.Keys == p.Keys - {order[0]};
    assert |q.Keys| == |q| && |p.Keys| == |p|;
  }

  lemma {:induction false} ContentsCard(order: seq<Hash>, p: map<Hash, U256>)
    requires Distinct(order) && forall h :: h in p ==> h in order
    ensures |Contents(order, p)| == |p|
  {
    if order == [] {
      assert p.Keys == {};
    } else {
      var q := p - {order[0]};
      WithoutFront(order, p);
      ContentsCard(order[1..], q);
      ContentsSame(order[1..], p, q);
    }
  }

  lemma {:induction false} FilterDistinct(xs: seq<Hash>, keep: Hash -> bool)
    requires Distinct(xs)
    ensures Distinct(Filter(xs, keep))
  {
    if xs != [] {
      FilterDistinct(xs[1..], keep);
      var rest := Filter(xs[1..], keep);
      var head := if keep(xs[0]) then [xs[0]] else [];
      forall x | x in rest
        ensures x !in head
      {
        FilterMembers(xs[1..], keep, x);
      }
      DistinctConcat(head, rest);
    }
  }

  lemma {:induction false} ContentsCompact(order: seq<Hash>, p: map<Hash, U256>)
    ensures Contents(Filter(order, IsKey(p.Keys)), p) == Contents(order, p)
  {
    if order != [] {
      ContentsCompact(order[1..], p);
      var rest := Filter(order[1..], IsKey(p.Keys));
      if order[0] in p {
        assert ([order[0]] + rest)[1..] == rest;
      } else {
        FilterDrop(order, IsKey(p.Keys));
        assert [] + Contents(order[1..], p) == Contents(order[1..], p);
      }
    }
  }

  /** Popping the oldest slot drops the oldest entry, or nothing when the slot is stale. */
  lemma PopOldestView(s: Sent)
    requires FreshRepBut(s) && s.order != []
    ensures FreshRepBut(PopOldest(s))
    ensures View(PopOldest(s)) == if s.order[0] in s.priorities then View(s)[1..] else View(s)
    ensures s.order[0] in s.priorities ==> View(s) != []
  {
    PopOldestKeeps(s);
    ContentsSame(s.order[1..], s.priorities, s.priorities - {s.order[0]});
    var rest := Contents(s.order[1..], s.priorities);
    if s.order[0] in s.priorities {
      assert View(s) == [Entry(s.order[0], s.priorities[s.order[0]])] + rest;
      assert View(s)[1..] == rest;
    } else {
      assert View(s) == [] + rest == rest;
    }
  }

  /** The representation between two steps of an insertion. */
  ghost predicate FreshRepBut(s: Sent) {
    SentRep(s) && Distinct(s.order)
  }

  lemma {:induction false} TrimView(s: Sent)
    requires FreshRepBut(s)
    ensures FreshRep(Trim(s).0) && View(Trim(s).0) == Newest(View(s), s.maxEntries)
    decreases |s.order|
  {
    ContentsCard(s.order, s.priorities);
    if |s.priorities| > s.maxEntries {
      OrderNotEmpty(s);
      PopOldestView(s);
      TrimView(PopOldest(s));
      NewestDrop(View(s), s.maxEntries);
    }
  }

  lemma CompactView(s: Sent)
    requires FreshRepBut(s)
    ensures FreshRepBut(Compact(s)) && View(Compact(s)) == View(s)
  {
    CompactKeeps(s);
    FilterDistinct(s.order, IsKey(s.priorities.Keys));
    ContentsCompact(s.order, s.priorities);
  }

  lemma StoreView(s: Sent, h: Hash, p: U256)
    requires FreshRep(s) && NoStaleSlot(s, h)
    ensures FreshRepBut(Store(s, h, p))
    ensures View(Store(s, h, p)) == if h in s.priorities then Update(View(s), h, p) else View(s) + [Entry(h, p)]
  {
    StoreKeeps(s, h, p);
    if h in s.priorities {
      ContentsUpdate(s.order, s.priorities, h, p);
    } else {
      var q := s.priorities[h := p];
      ContentsConcat(s.order, [h], q);
      ContentsSame(s.order, s.priorities, q);
      assert Contents([h], q) == [Entry(h, p)];
    }
  }

  lemma {:induction false} UpdateLength(log: seq<Entry>, h: Hash, p: U256)
    ensures |Update(log, h, p)| == |log|
  {
    if log != [] {
      UpdateLength(log[1..], h, p);
    }
  }

  /** Inserting into the cache is inserting into the bounded list, when no stale slot of the hash is queued. */
  lemma InsertRefines(s: Sent, h: Hash, p: U256)
    requires FreshRep(s) && NoStaleSlot(s, h)
    ensures FreshRep(Insert(s, h, p).0)
    ensures View(Insert(s, h, p).0) == ListInsert(View(s), h, p, s.maxEntries)
    ensures |Insert(s, h, p).1| == |View(s)| + (if h in s.priorities then 0 else 1) - |View(Insert(s, h, p).0)|
  {
    var s1 := Store(s, h, p);
    StoreView(s, h, p);
    CompactView(s1);
    TrimView(Compact(s1));
    ContentsHas(s.order, s.priorities, h);
    ContentsCard(s.order, s.priorities);
    ContentsCard(Insert(s, h, p).0.order, Insert(s, h, p).0.priorities);
    UpdateLength(View(s), h, p);
    InsertKeeps(s, h, p);
    StoreCard(s, h, p);
    TrimStops(Compact(s1));
  }

  /** Removing from the cache is filtering the list. */
  lemma RemoveRefines(s: Sent, h: Hash)
    requires FreshRep(s)
    ensures FreshRep(Remove(s, h)) && View(Remove(s, h)) == ListRemove(View(s), h)
  {
    RemoveKeeps(s, h);
    ContentsWithout(s.order, s.priorities, h);
  }

  /** Then the queue also stays within twice the capacity. */
  lemma FreshQueueBound(s: Sent, h: Hash, p: U256)
    requires FreshRep(s) && NoStaleSlot(s, h)
    ensures |Insert(s, h, p).0.order| <= 2 * s.maxEntries
  {
    var order := s.order + (if h in s.priorities then [] else [h]);
    var keys := s.priorities.Keys + {h};
    var live := Filter(order, IsKey(keys));
    assert Distinct(order);
    FilterDistinct(order, IsKey(keys));
    forall k
      ensures k in live <==> k in keys
    {
      FilterMembers(order, IsKey(keys), k);
    }
    DistinctCard(live, keys);
    assert |keys| <= |s.priorities.Keys| + 1 && |s.priorities.Keys| == |s.priorities|;
    QueueBoundExactly(s, h, p);
  }
}
