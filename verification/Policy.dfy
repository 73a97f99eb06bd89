/** Scoring of transactions and the structured 256-bit priority word (`src/policy.rs`). */
module Policy {
  import opened Base
  import opened Bits

  /** The decoded arguments of a `magmaSearcherGatewayCall` that ordering depends on. */
  datatype GatewayCall = GatewayCall(bidAmount: U256, target: Hash) {
    predicate IsTob() {
      target == 0
    }
  }

  /** A pool transaction. `call` is what its calldata decodes to, whatever its recipient is. */
  datatype Tx = Tx(to: Option<Address>, gasLimit: U64, rawFee: U128, maxFee: U128, call: Option<GatewayCall>)

  datatype PolicyConfig = PolicyConfig(gateway: Address, baseFeeFloor: U128)

  /** How the pairing pool treats a transaction. */
  datatype Kind = Vanilla | InvalidGateway | TopOfBlock | Backrun(target: Hash)

  predicate IsGateway(tx: Tx, policy: PolicyConfig) {
    tx.to == Some(policy.gateway)
  }

  function Classify(tx: Tx, policy: PolicyConfig): Kind {
    if !IsGateway(tx, policy) then Vanilla
    else match tx.call
      case None => InvalidGateway
      case Some(call) => if call.IsTob() then TopOfBlock else Backrun(call.target)
  }

  /** A gateway call that carries a bid. */
  predicate IsCall(tx: Tx, policy: PolicyConfig) {
    Classify(tx, policy).TopOfBlock? || Classify(tx, policy).Backrun?
  }

  // ----- score -----

  function SaturatingSub(a: U128, b: U128): U128 {
    if b <= a then a - b else 0
  }

  function SaturatingAdd(a: U256, b: U256): U256 {
    Min(a + b, MAX_U256)
  }

  function SaturatingMul(a: U256, b: U256): U256 {
    Min(a * b, MAX_U256)
  }

  function EffectivePriorityFee(tx: Tx, floor: U128): U128 {
    Min(tx.rawFee, SaturatingSub(tx.maxFee, floor))
  }

  function BidComponent(tx: Tx, policy: PolicyConfig): U256 {
    if tx.to == Some(policy.gateway) && tx.call.Some? then tx.call.value.bidAmount else 0
  }

  function ComputePriority(tx: Tx, policy: PolicyConfig): U256 {
    SaturatingAdd(SaturatingMul(EffectivePriorityFee(tx, policy.baseFeeFloor), tx.gasLimit), BidComponent(tx, policy))
  }

  /** The validator's revenue from `tx` as an unbounded number: the tip on its gas, and the bid of a gateway call. */
  function TotalValue(tx: Tx, policy: PolicyConfig): int {
    var cap := tx.maxFee - policy.baseFeeFloor;
    var fee := if cap < 0 then 0 else if tx.rawFee < cap then tx.rawFee else cap;
    var bid := if tx.to != Some(policy.gateway) then 0
               else match tx.call
                 case None => 0
                 case Some(call) => call.bidAmount;
    fee * tx.gasLimit + bid
  }

  lemma MulMonotone(a: nat, b: nat, c: nat, d: nat)
    requires a <= c && b <= d
    ensures 0 <= a * b <= c * d
  {
  }

  /** The fee product of a 128-bit fee and a 64-bit gas limit stays below `2^192`. */
  lemma FeeProductFits(fee: U128, gas: U64)
    ensures fee * gas < P192
    ensures SaturatingMul(fee, gas) == fee * gas
  {
    MulMonotone(fee, gas, MAX_U128, MAX_U64);
  }

  /** The score is the total value, clamped only where the bid itself overflows the word. */
  lemma ScoreIsTotalValue(tx: Tx, policy: PolicyConfig)
    ensures var total := TotalValue(tx, policy);
            ComputePriority(tx, policy) == if total <= MAX_U256 then total else MAX_U256
    ensures (tx.to == Some(policy.gateway) && tx.call.Some? ==> tx.call.value.bidAmount <= MAX_U256 - P192)
            ==> ComputePriority(tx, policy) == TotalValue(tx, policy)
  {
    FeeProductFits(EffectivePriorityFee(tx, policy.baseFeeFloor), tx.gasLimit);
  }

  /** The score in the transaction's own fields, in each of the cases a caller can tell apart. */
  lemma ScoreInFields(tx: Tx, policy: PolicyConfig, fee: nat)
    requires tx.maxFee < policy.baseFeeFloor ==> fee == 0
    requires tx.maxFee >= policy.baseFeeFloor ==>
               fee == if tx.rawFee < tx.maxFee - policy.baseFeeFloor then tx.rawFee else tx.maxFee - policy.baseFeeFloor
    ensures tx.to != Some(policy.gateway) || tx.call.None? ==> ComputePriority(tx, policy) == fee * tx.gasLimit
    ensures tx.to == Some(policy.gateway) && tx.call.Some? ==>
              var total := fee * tx.gasLimit + tx.call.value.bidAmount;
              ComputePriority(tx, policy) == if total <= MAX_U256 then total else MAX_U256
  {
    ScoreIsTotalValue(tx, policy);
    FeeProductFits(fee, tx.gasLimit);
  }

  /** Raising the tip, the gas limit or the bid never lowers the score. */
  lemma ScoreMonotone(a: Tx, b: Tx, policy: PolicyConfig)
    requires a.rawFee <= b.rawFee && a.maxFee <= b.maxFee && a.gasLimit <= b.gasLimit
    requires BidComponent(a, policy) <= BidComponent(b, policy)
    ensures ComputePriority(a, policy) <= ComputePriority(b, policy)
  {
    MulMonotone(EffectivePriorityFee(a, policy.baseFeeFloor), a.gasLimit,
                EffectivePriorityFee(b, policy.baseFeeFloor), b.gasLimit);
  }

  // ----- priority word -----

  const TOB_MARKER_BIT: nat := 255
  const OPPORTUNITY_MARKER_BIT: nat := 128
  const GROUP_KEY_SHIFT: nat := 129
  const BACKRUN_ID_BITS: nat := 126

  /** A shift that stays inside the word loses no bits. */
  lemma ShlFits(a: U256, n: nat, p: nat)
    requires p == Pow2(n) && a * p <= MAX_U256
    ensures Shl(a, n) == a * p
  {
  }

  function Low128Mask(): (m: U256)
    ensures m == P128 - 1
  {
    PowerValues();
    ShlFits(1, 128, P128);
    Shl(1, 128) - 1
  }

  /** Masking keeps a scalar modulo `2^128`. */
  lemma MaskIsMod(scalar: U256)
    ensures BitAnd(scalar, Low128Mask()) == scalar % P128 < P128
  {
    PowerValues();
    AndMaskIsMod(scalar, 128, P128);
  }

  /** Or-ing a low field under a shifted one is addition. */
  lemma FieldsAdd(hi: U256, n: nat, p: nat, low: nat)
    requires p == Pow2(n) && hi * p <= MAX_U256 && low < p
    ensures BitOr(Shl(hi, n), low) == hi * p + low
  {
    ShlFits(hi, n, p);
    OrIsAdd(hi, n, low);
  }

  function EncodeTob(scalar: U256): (w: U256)
    ensures w == P255 + scalar % P128
  {
    PowerValues();
    MaskIsMod(scalar);
    FieldsAdd(1, TOB_MARKER_BIT, P255, scalar % P128);
    BitOr(Shl(1, TOB_MARKER_BIT), BitAnd(scalar, Low128Mask()))
  }

  /** The group key of a target: its top 126 bits. */
  function BackrunId(target: Hash): (id: U256)
    ensures id < P126
    ensures id * P130 <= target < (id + 1) * P130
  {
    PowerValues();
    DivBounds(target, P130);
    Shr(target, 256 - BACKRUN_ID_BITS)
  }

  lemma DivBounds(x: nat, d: nat)
    requires d >= 1
    ensures (x / d) * d <= x < (x / d + 1) * d
  {
  }

  function EncodeOpportunity(target: Hash): (w: U256)
    ensures w == BackrunId(target) * P129 + P128
  {
    PowerValues();
    ShlFits(1, OPPORTUNITY_MARKER_BIT, P128);
    FieldsAdd(BackrunId(target), GROUP_KEY_SHIFT, P129, P128);
    BitOr(Shl(BackrunId(target), GROUP_KEY_SHIFT), Shl(1, OPPORTUNITY_MARKER_BIT))
  }

  function EncodeBackrunBid(target: Hash, scalar: U256): (w: U256)
    ensures w == BackrunId(target) * P129 + scalar % P128
  {
    PowerValues();
    MaskIsMod(scalar);
    FieldsAdd(BackrunId(target), GROUP_KEY_SHIFT, P129, scalar % P128);
    BitOr(Shl(BackrunId(target), GROUP_KEY_SHIFT), BitAnd(scalar, Low128Mask()))
  }

  /** Priority of a top-of-block bid: the fallback replaces a zero score. */
  function TobPriority(scalar: U256, fallback: U256): U256 {
    if scalar == 0 then fallback else EncodeTob(scalar)
  }

  /** What a priority word says, with its three encoders. */
  datatype Word = Tob(scalar: U256) | Opportunity(target: Hash) | Bid(target: Hash, scalar: U256)

  function Encode(w: Word): U256 {
    match w
    case Tob(s) => EncodeTob(s)
    case Opportunity(t) => EncodeOpportunity(t)
    case Bid(t, s) => EncodeBackrunBid(t, s)
  }

  /** The information a word keeps: 126 bits of target and 128 bits of scalar. */
  datatype View = TobView(payload: nat) | OpportunityView(key: nat) | BidView(key: nat, payload: nat)

  function ViewOf(w: Word): View {
    match w
    case Tob(s) => TobView(s % P128)
    case Opportunity(t) => OpportunityView(BackrunId(t))
    case Bid(t, s) => BidView(BackrunId(t), s % P128)
  }

  function Decode(n: U256): View {
    if n >= P255 then TobView(n % P128)
    else if (n / P128) % 2 == 1 then OpportunityView(n / P129)
    else BidView(n / P129, n % P128)
  }

  /** The placement order of the design, lowest first. */
  predicate Below(a: View, b: View) {
    match (a, b)
    case (TobView(x), TobView(y)) => x < y
    case (TobView(_), _) => false
    case (_, TobView(_)) => true
    case _ => a.key < b.key || (a.key == b.key && InGroupRank(a) < InGroupRank(b))
  }

  /** Inside a group the target outranks every payload. */
  function InGroupRank(v: View): nat
    requires !v.TobView?
  {
    match v
    case OpportunityView(_) => P128
    case BidView(_, p) => p
  }

  /** `n` lies in the interval of words that belongs to group `key`. */
  predicate InInterval(n: nat, key: nat) {
    key * P129 <= n < (key + 1) * P129
  }

  /** Every word of a backrun group lies below bit 255, in the interval of its own target's key and in no other. */
  lemma GroupInterval(w: Word, key: nat)
    requires !w.Tob?
    ensures InInterval(Encode(w), key) <==> key == BackrunId(w.target)
    ensures Encode(w) < (BackrunId(w.target) + 1) * P129 <= P255
  {
    var low := if w.Opportunity? then P128 else w.scalar % P128;
    ModUnique(Encode(w), P129, BackrunId(w.target), low);
    if InInterval(Encode(w), key) {
      ModUnique(Encode(w), P129, key, Encode(w) - key * P129);
    }
  }

  /** The intervals of two keys have a word in common exactly when the keys are the same. */
  lemma IntervalsDisjoint(key: nat, key': nat)
    ensures (exists n: nat :: InInterval(n, key) && InInterval(n, key')) <==> key == key'
  {
    assert InInterval(key * P129, key);
    forall n: nat | InInterval(n, key) && InInterval(n, key')
      ensures key == key'
    {
      ModUnique(n, P129, key, n - key * P129);
      ModUnique(n, P129, key', n - key' * P129);
    }
  }

  /** Every word decodes to what it was built from. */
  lemma DecodeEncode(w: Word)
    ensures Decode(Encode(w)) == ViewOf(w)
  {
    var n := Encode(w);
    match w
    case Tob(s) =>
      ModUnique(n, P128, P126 + P126, s % P128);
    case Opportunity(t) =>
      ModUnique(n, P129, BackrunId(t), P128);
      ModUnique(n, P128, 2 * BackrunId(t) + 1, 0);
      ModUnique(2 * BackrunId(t) + 1, 2, BackrunId(t), 1);
    case Bid(t, s) =>
      ModUnique(n, P129, BackrunId(t), s % P128);
      ModUnique(n, P128, 2 * BackrunId(t), s % P128);
      ModUnique(2 * BackrunId(t), 2, BackrunId(t), 0);
  }

  /** Numeric order of words is exactly the placement order of the design. */
  lemma EncodePreservesOrder(a: Word, b: Word)
    ensures Encode(a) < Encode(b) <==> Below(ViewOf(a), ViewOf(b))
  {
  }

  /** The largest word of any backrun group. */
  const MAX_GROUP_WORD: nat := (P126 - 1) * P129 + P128

  /** A top-of-block bid outranks every backrun group exactly when its score is not zero, or the
      fallback itself lies above the groups. */
  lemma TobOutranksGroups(scalar: U256, fallback: U256)
    ensures (forall w: Word :: !w.Tob? ==> Encode(w) < TobPriority(scalar, fallback))
            <==> scalar != 0 || fallback > MAX_GROUP_WORD
  {
    var top := Opportunity(MAX_U256);
    assert Encode(top) == MAX_GROUP_WORD;
    forall w: Word | !w.Tob?
      ensures Encode(w) <= MAX_GROUP_WORD < P255
    {
    }
  }

  /** The payload is masked, not clamped: a bid is never overtaken by a smaller one exactly when its
      scalar fits in 128 bits or its low 128 bits are all ones. */
  lemma NeverOvertaken(b: U256)
    ensures (forall a: U256 :: a <= b ==> EncodeTob(a) <= EncodeTob(b)) <==> b < P128 || b % P128 == P128 - 1
  {
    if b < P128 {
      ModUnique(b, P128, 0, b);
      forall a: U256 | a <= b
        ensures EncodeTob(a) <= EncodeTob(b)
      {
        ModUnique(a, P128, 0, a);
      }
    } else if b % P128 != P128 - 1 {
      var a: U256 := P128 - 1;
      ModUnique(a, P128, 0, a);
      assert a <= b && EncodeTob(a) > EncodeTob(b);
    }
  }

  /** Below `2^128`, competing bids are ordered by total value, at the top and behind a target. */
  lemma BidsOrderedByTotalValue(a: Tx, b: Tx, target: Hash, policy: PolicyConfig)
    requires TotalValue(a, policy) < P128 && TotalValue(b, policy) < P128
    ensures EncodeTob(ComputePriority(a, policy)) < EncodeTob(ComputePriority(b, policy))
            <==> TotalValue(a, policy) < TotalValue(b, policy)
    ensures EncodeBackrunBid(target, ComputePriority(a, policy)) < EncodeBackrunBid(target, ComputePriority(b, policy))
            <==> TotalValue(a, policy) < TotalValue(b, policy)
  {
    ScoreIsTotalValue(a, policy);
    ScoreIsTotalValue(b, policy);
    ModUnique(ComputePriority(a, policy), P128, 0, ComputePriority(a, policy));
    ModUnique(ComputePriority(b, policy), P128, 0, ComputePriority(b, policy));
  }
}
