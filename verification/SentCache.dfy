/** The cache of sent hashes as the source has it: an object updated in place. */
module SentHashes {
  import opened Base
  import opened SentSpec

  class SentCache {
    const maxEntries: nat
    var priorities: map<Hash, U256>
    var order: seq<Hash>

    ghost function State(): Sent
      reads this
    {
      Sent(priorities, order, maxEntries)
    }

    ghost predicate Valid()
      reads this
    {
      SentInv(State())
    }

    constructor (max: nat)
      ensures Valid() && State() == NewSent(max)
      ensures maxEntries == (if max == 0 then 1 else max) && priorities == map[] && order == []
    {
      maxEntries := Max(max, 1);
      priorities, order := map[], [];
    }

    predicate Contains(h: Hash)
      reads this
    {
      h in priorities
    }

    method Len() returns (n: nat)
      requires Valid()
      ensures n == |priorities| <= maxEntries
    {
      n := |priorities|;
    }

    /** Pops the oldest slot, with its entry if that is still stored. */
    method PopFront() returns (gone: seq<Hash>)
      requires order != []
      modifies this
      ensures State() == PopOldest(old(State()))
      ensures gone == if old(order)[0] in old(priorities) then [old(order)[0]] else []
    {
      var oldest := order[0];
      order := order[1..];
      gone := [];
      if oldest in priorities {
        priorities := priorities - {oldest};
        gone := [oldest];
      }
    }

    /** Drops the oldest entries until the capacity holds. */
    method Trim() returns (evicted: seq<Hash>)
      requires SentRep(State())
      modifies this
      ensures State() == SentSpec.Trim(old(State())).0
      ensures evicted == SentSpec.Trim(old(State())).1
    {
      evicted := [];
      while |priorities| > maxEntries
        invariant SentRep(State())
        invariant SentSpec.Trim(State()).0 == SentSpec.Trim(old(State())).0
        invariant evicted + SentSpec.Trim(State()).1 == SentSpec.Trim(old(State())).1
        decreases |order|
      {
        OrderNotEmpty(State());
        PopOldestKeeps(State());
        var gone := PopFront();
        ConcatAssoc(evicted, gone, SentSpec.Trim(State()).1);
        evicted := evicted + gone;
      }
    }

    /** Stores a sent hash; the result lists the entries its capacity pushed out, whose number the source returns. */
    method Insert(h: Hash, p: U256) returns (evicted: seq<Hash>)
      requires Valid()
      modifies this
      ensures Valid()
      ensures State() == SentSpec.Insert(old(State()), h, p).0
      ensures evicted == SentSpec.Insert(old(State()), h, p).1
    {
      InsertKeeps(State(), h, p);
      StoreKeeps(State(), h, p);
      CompactKeeps(Store(State(), h, p));
      if h !in priorities {
        order := order + [h];
      }
      priorities := priorities[h := p];
      if |order| > 2 * maxEntries {
        order := Filter(order, IsKey(priorities.Keys));
      }
      evicted := Trim();
    }

    method Remove(h: Hash)
      requires Valid()
      modifies this
      ensures Valid()
      ensures State() == SentSpec.Remove(old(State()), h)
    {
      RemoveKeeps(State(), h);
      priorities := priorities - {h};
    }
  }
}
