/** Shared vocabulary: fixed-width integers, options and sequence filtering. */
module Base {

  datatype Option<+T> = None | Some(value: T)

  const MAX_U64: nat := 0xFFFF_FFFF_FFFF_FFFF
  const MAX_U128: nat := 0xFFFF_FFFF_FFFF_FFFF_FFFF_FFFF_FFFF_FFFF
  const MAX_U256: nat := 0xFFFF_FFFF_FFFF_FFFF_FFFF_FFFF_FFFF_FFFF_FFFF_FFFF_FFFF_FFFF_FFFF_FFFF_FFFF_FFFF

  type U64 = x: nat | x <= MAX_U64
  type U128 = x: nat | x <= MAX_U128
  type U256 = x: nat | x <= MAX_U256

  /** A 32-byte hash, read as a big-endian number. */
  type Hash = U256

  /** A 20-byte account address, read as a big-endian number. */
  type Address = x: nat | x <= 0xFFFF_FFFF_FFFF_FFFF_FFFF_FFFF_FFFF_FFFF_FFFF_FFFF

  function Min(a: nat, b: nat): nat {
    if a <= b then a else b
  }

  function Max(a: nat, b: nat): nat {
    if a <= b then b else a
  }

  /** Time between two instants, saturating at zero as `Instant::duration_since` does. */
  function Age(now: nat, seenAt: nat): nat {
    if seenAt <= now then now - seenAt else 0
  }

  /** An entry seen at `seenAt` has outlived no time to live `ttl` exactly when `seenAt + ttl` is still ahead. */
  lemma AgeBelow(now: nat, seenAt: nat, ttl: nat)
    ensures Age(now, seenAt) < ttl <==> ttl > 0 && now < seenAt + ttl
  {
  }

  /** The elements of `xs` that satisfy `keep`, in order. */
  function Filter<T>(xs: seq<T>, keep: T -> bool): seq<T> {
    if xs == [] then []
    else (if keep(xs[0]) then [xs[0]] else []) + Filter(xs[1..], keep)
  }

  /** The newest `n` elements of a list ordered oldest first. */
  function Newest<T>(xs: seq<T>, n: nat): seq<T> {
    if |xs| <= n then xs else xs[|xs| - n..]
  }

  lemma NewestDrop<T>(xs: seq<T>, n: nat)
    requires |xs| > n
    ensures Newest(xs, n) == Newest(xs[1..], n)
  {
  }

  ghost predicate Distinct<T>(xs: seq<T>) {
    forall i, j :: 0 <= i < j < |xs| ==> xs[i] != xs[j]
  }

  lemma FilterDrop<T>(xs: seq<T>, keep: T -> bool)
    requires xs != [] && !keep(xs[0])
    ensures Filter(xs, keep) == Filter(xs[1..], keep)
  {
    assert [] + Filter(xs[1..], keep) == Filter(xs[1..], keep);
  }

  lemma DistinctConcat<T>(xs: seq<T>, ys: seq<T>)
    requires Distinct(xs) && Distinct(ys)
    requires forall y :: y in ys ==> y !in xs
    ensures Distinct(xs + ys)
  {
    forall i, j | 0 <= i < j < |xs + ys|
      ensures (xs + ys)[i] != (xs + ys)[j]
    {
      if i < |xs| <= j {
        assert ys[j - |xs|] in ys && xs[i] in xs;
      }
    }
  }

  lemma {:induction false} FilterMembers<T>(xs: seq<T>, keep: T -> bool, x: T)
    ensures x in Filter(xs, keep) <==> x in xs && keep(x)
  {
    if xs != [] {
      FilterMembers(xs[1..], keep, x);
      assert xs == [xs[0]] + xs[1..];
    }
  }

  lemma {:induction false} FilterConcat<T>(xs: seq<T>, ys: seq<T>, keep: T -> bool)
    ensures Filter(xs + ys, keep) == Filter(xs, keep) + Filter(ys, keep)
  {
    if xs == [] {
      assert xs + ys == ys;
    } else {
      var head := if keep(xs[0]) then [xs[0]] else [];
      FilterConcat(xs[1..], ys, keep);
      assert xs + ys == [xs[0]] + (xs[1..] + ys);
      assert (xs + ys)[1..] == xs[1..] + ys;
      assert head + (Filter(xs[1..], keep) + Filter(ys, keep)) == (head + Filter(xs[1..], keep)) + Filter(ys, keep);
    }
  }

  lemma {:induction false} FilterAll<T>(xs: seq<T>, keep: T -> bool)
    requires forall x :: x in xs ==> keep(x)
    ensures Filter(xs, keep) == xs
  {
    if xs != [] {
      FilterAll(xs[1..], keep);
    }
  }

  lemma {:induction false} FilterNone<T>(xs: seq<T>, keep: T -> bool)
    requires forall x :: x in xs ==> !keep(x)
    ensures Filter(xs, keep) == []
  {
    if xs != [] {
      FilterNone(xs[1..], keep);
    }
  }

  lemma {:induction false} FilterLength<T>(xs: seq<T>, keep: T -> bool)
    ensures |Filter(xs, keep)| <= |xs|
  {
    if xs != [] {
      FilterLength(xs[1..], keep);
    }
  }

  /** Filtering twice keeps what satisfies both tests. */
  lemma {:induction false} FilterTwice<T>(xs: seq<T>, first: T -> bool, second: T -> bool, both: T -> bool)
    requires forall x :: x in xs ==> (both(x) <==> first(x) && second(x))
    ensures Filter(Filter(xs, first), second) == Filter(xs, both)
  {
    if xs != [] {
      FilterTwice(xs[1..], first, second, both);
      FilterConcat(if first(xs[0]) then [xs[0]] else [], Filter(xs[1..], first), second);
      FilterConcat([], [xs[0]], second);
    }
  }

  /** A set listed without repetition has as many elements as the list. */
  lemma {:induction false} DistinctCard<T>(xs: seq<T>, s: set<T>)
    requires Distinct(xs)
    requires forall x :: x in s <==> x in xs
    ensures |s| == |xs|
  {
    if xs == [] {
      assert s == {};
    } else {
      var rest := s - {xs[0]};
      forall x ensures x in rest <==> x in xs[1..] {
        assert x in xs <==> x == xs[0] || x in xs[1..];
      }
      DistinctCard(xs[1..], rest);
      assert s == rest + {xs[0]};
    }
  }

  lemma BagSwap<T>(a: multiset<T>, b: multiset<T>, c: multiset<T>)
    ensures a + b + c == a + c + b
  {
  }

  lemma BagAssoc<T>(a: multiset<T>, b: multiset<T>, c: multiset<T>)
    ensures a + b + c == a + (b + c)
  {
  }

  lemma ConcatAssoc<T>(a: seq<T>, b: seq<T>, c: seq<T>)
    ensures a + b + c == a + (b + c)
  {
  }

  lemma MoveFront<T>(a: seq<T>, b: seq<T>)
    requires b != []
    ensures a + b == a + [b[0]] + b[1..]
  {
  }

  lemma ConcatTail<T>(a: seq<T>, b: seq<T>)
    requires a != []
    ensures a + b != [] && (a + b)[0] == a[0] && (a + b)[1..] == a[1..] + b
  {
  }
}
