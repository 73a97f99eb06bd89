/** An independent reference for the pairing pool: two time-ordered lists, filtered by age, trimmed from the
    oldest end and joined by scanning. No queue, no counter, nothing stale. Transactions are read field by field,
    ages are compared as instants and priorities are written as numbers. */
module NaivePool {
  import opened Base
  import opened Bits
  import opened Policy
  import opened PoolSpec

  datatype Entry = Entry(hash: Hash, tx: Tx, seenAt: nat)

  datatype Naive = Naive(cfg: Config, seen: seq<Entry>, waiting: seq<PendingBid>, offered: set<Hash>)

  function Empty(cfg: Config): Naive {
    Naive(cfg, [], [], {})
  }

  function Hashes(seen: seq<Entry>): seq<Hash> {
    if seen == [] then [] else [seen[0].hash] + Hashes(seen[1..])
  }

  function Slots(bids: seq<PendingBid>): seq<Slot> {
    if bids == [] then [] else [Slot(bids[0].target, bids[0].hash)] + Slots(bids[1..])
  }

  function For(target: Hash): PendingBid -> bool {
    (b: PendingBid) => b.target == target
  }

  function NotFor(target: Hash): PendingBid -> bool {
    (b: PendingBid) => b.target != target
  }

  function Unrelated(h: Hash): PendingBid -> bool {
    (b: PendingBid) => b.target != h && b.hash != h
  }

  function YoungBid(now: nat, ttl: nat): PendingBid -> bool {
    (b: PendingBid) => ttl > 0 && now < b.seenAt + ttl
  }

  function YoungEntry(now: nat, ttl: nat): Entry -> bool {
    (e: Entry) => ttl > 0 && now < e.seenAt + ttl
  }

  function NotHash(h: Hash): Entry -> bool {
    (e: Entry) => e.hash != h
  }

  /** The seen list replaced; targets no longer seen are no longer offered. */
  function WithSeen(n: Naive, seen: seq<Entry>): Naive {
    n.(seen := seen, offered := set h | h in n.offered && h in Hashes(seen))
  }

  function See(n: Naive, h: Hash, tx: Tx, now: nat): Naive {
    WithSeen(n, Newest(n.seen + [Entry(h, tx, now)], n.cfg.maxCache))
  }

  function TxOf(seen: seq<Entry>, h: Hash): Tx
    requires h in Hashes(seen)
  {
    if seen[0].hash == h then seen[0].tx else TxOf(seen[1..], h)
  }

  /** The total value, clamped to the word. */
  function Worth(tx: Tx, policy: PolicyConfig): U256 {
    var total := TotalValue(tx, policy);
    if total <= MAX_U256 then total else MAX_U256
  }

  function TobWord(worth: U256, fallback: U256): U256 {
    if worth == 0 then fallback else P255 + worth % P128
  }

  function TargetWord(target: Hash): U256 {
    (target / P130) * P129 + P128
  }

  function BidWord(target: Hash, worth: U256): U256 {
    (target / P130) * P129 + worth % P128
  }

  function Offer(n: Naive, target: Hash): (Naive, seq<Reinjection>) {
    if target in Hashes(n.seen) && target !in n.offered then
      (n.(offered := n.offered + {target}),
       [Reinjection(target, TxOf(n.seen, target), TargetWord(target), AsOpportunity)])
    else (n, [])
  }

  function BidOffer(target: Hash, h: Hash, tx: Tx, worth: U256): Reinjection {
    Reinjection(h, tx, BidWord(target, worth), AsBackrun(target))
  }

  function BidOffers(target: Hash, bids: seq<PendingBid>): seq<Reinjection> {
    if bids == [] then []
    else [BidOffer(target, bids[0].hash, bids[0].tx, bids[0].scalar)] + BidOffers(target, bids[1..])
  }

  function NaiveObserve(n0: Naive, h: Hash, tx: Tx, now: nat): (Naive, ObserveResult) {
    var n := See(n0, h, tx, now);
    if tx.to != Some(n.cfg.policy.gateway) then NaiveTarget(n, h)
    else match tx.call
      case None => (n, ObserveResult([], 0, 0, 0, false, true))
      case Some(call) =>
        if call.target != 0 then NaiveBid(n, h, tx, call.target, now)
        else
          var word := TobWord(Worth(tx, n.cfg.policy), n.cfg.fallback);
          (n, ObserveResult([Reinjection(h, tx, word, AsTob)], 0, 0, 0, false, false))
  }

  function NaiveBid(n: Naive, h: Hash, tx: Tx, target: Hash, now: nat): (Naive, ObserveResult) {
    var worth := Worth(tx, n.cfg.policy);
    if target in Hashes(n.seen) then
      var (n', offer) := Offer(n, target);
      (n', ObserveResult(offer + [BidOffer(target, h, tx, worth)], 1, 0, 0, false, false))
    else
      var all := n.waiting + [PendingBid(h, tx, worth, target, now)];
      var kept := Newest(all, n.cfg.maxPending);
      (n.(waiting := kept), ObserveResult([], 0, 1, |all| - |kept|, false, false))
  }

  function NaiveTarget(n: Naive, h: Hash): (Naive, ObserveResult) {
    var matched := Filter(n.waiting, For(h));
    if matched == [] then (n, ObserveResult([], 0, 0, 0, true, false))
    else
      var (n', offer) := Offer(n, h);
      (n'.(waiting := Filter(n.waiting, NotFor(h))),
       ObserveResult(offer + BidOffers(h, matched), |matched|, 0, 0, false, false))
  }

  function NaivePrune(n: Naive, now: nat): (Naive, nat) {
    var kept := Filter(n.waiting, YoungBid(now, n.cfg.ttl));
    FilterLength(n.waiting, YoungBid(now, n.cfg.ttl));
    (WithSeen(n, Filter(n.seen, YoungEntry(now, n.cfg.ttl))).(waiting := kept), |n.waiting| - |kept|)
  }

  function NaiveForget(n: Naive, h: Hash): Naive {
    WithSeen(n, Filter(n.seen, NotHash(h))).(waiting := Filter(n.waiting, Unrelated(h)))
  }
}
