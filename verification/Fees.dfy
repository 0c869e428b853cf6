/** Rents and the split of a resale. */
module Fees {
  import opened Types

  datatype TlaType = Business | Open

  datatype Premium = Legendary | Premium | Standard | Community

  datatype FeeConfig = FeeConfig(
    tlaAllocationFee: nat,
    rentTier5: nat,
    rentTier8: nat,
    rentTier10: nat,
    rentTier12Plus: nat,
    subFeePerAccount: nat,
    creationDeposit: nat,
    businessMaxSubs: nat,
    retractionNoticeNs: nat,
    commissionBps: nat)

  function BaseRent(length: nat, c: FeeConfig): nat {
    if length <= 5 then c.rentTier5
    else if length <= 8 then c.rentTier8
    else if length <= 10 then c.rentTier10
    else c.rentTier12Plus
  }

  function Multiplier(p: Premium): (nat, nat) {
    match p
    case Legendary => (5, 1)
    case Premium => (3, 1)
    case Standard => (3, 2)
    case Community => (0, 1)
  }

  function SatMul(a: nat, b: nat): nat {
    if a * b < U128_LIMIT then a * b else U128_LIMIT - 1
  }

  function SubAccountRent(length: nat, p: Premium, c: FeeConfig): nat {
    var (num, den) := Multiplier(p);
    SatMul(BaseRent(length, c), num) / den
  }

  /** The length is cut to a byte, as the source casts it. */
  function CalculateRent(tlaType: TlaType, p: Premium, tla: AccountId, name: Bytes, c: FeeConfig): nat {
    match tlaType
    case Business => c.subFeePerAccount
    case Open => SubAccountRent((|name| + 1 + |tla|) % 256, p, c)
  }

  /** Commission and seller's proceeds. */
  function SplitResale(price: nat, bps: nat): (r: (nat, nat))
    ensures r.0 + r.1 == price
  {
    var share := SatMul(price, bps) / 10_000;
    var commission := if share <= price then share else price;
    (commission, SatSub(price, commission))
  }

  lemma DivideBounds(total: nat, price: nat)
    ensures total <= price * 10_000 ==> total / 10_000 <= price
    ensures price * 10_000 <= total ==> price <= total / 10_000
  {}

  lemma ScaleBounds(price: nat, bps: nat)
    ensures bps <= 10_000 ==> price * bps <= price * 10_000
    ensures 10_000 <= bps ==> price * 10_000 <= price * bps
  {}

  /** The commission is the rate's share of the price, rounded down, and all of it from 100% on. */
  lemma CommissionRate(price: nat, bps: nat)
    requires price * bps < U128_LIMIT
    ensures var commission := SplitResale(price, bps).0;
      && (bps <= 10_000 ==> commission * 10_000 <= price * bps < (commission + 1) * 10_000)
      && (bps >= 10_000 ==> commission == price)
  {
    ScaleBounds(price, bps);
    DivideBounds(price * bps, price);
  }

  /** The largest commission a saturated product yields. */
  const CEILING_SHARE: nat := (U128_LIMIT - 1) / 10_000

  /** Where the product saturates, a fixed amount stands in for the share: too little below 100%, and beyond it never more than the price. */
  lemma SaturatedCommission(price: nat, bps: nat)
    requires price * bps >= U128_LIMIT
    ensures var commission := SplitResale(price, bps).0;
      && commission == (if CEILING_SHARE <= price then CEILING_SHARE else price)
      && (bps <= 10_000 ==> commission == CEILING_SHARE && commission * 10_000 <= price * bps)
  {
    ScaleBounds(price, bps);
  }
}
