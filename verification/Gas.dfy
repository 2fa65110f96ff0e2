/** EIP-1559 fee pairs and basis-point arithmetic on `u128`, wrapping as release builds do. */
module Gas {
  import opened Base

  const BPS: nat := 10000

  /** `a + b` on `u128`. */
  function WrapAdd(a: uint128, b: uint128): uint128 {
    (a + b) % U128_LIMIT
  }

  /** `a * k` on `u128`. */
  function WrapMul(a: uint128, k: nat): uint128 {
    a * k % U128_LIMIT
  }

  /** `fee * (10000 + bps) / 10000` on `u128`. */
  function Bump(fee: uint128, bps: uint32): uint128 {
    WrapMul(fee, BPS + bps) / BPS
  }

  /** The product of a bump stays within `u128`. */
  predicate BumpFits(fee: nat, bps: uint32) {
    fee * (BPS + bps) < U128_LIMIT
  }

  /** The bump as meant: the percentage, rounded down, comes on top. */
  function ExactBump(fee: nat, bps: nat): nat {
    fee + fee * bps / BPS
  }

  /** `k` exact bumps in a row, each rounded down. */
  function Compounded(fee: nat, bps: nat, k: nat): nat {
    if k == 0 then fee else ExactBump(Compounded(fee, bps, k - 1), bps)
  }

  datatype GasFees = GasFees(maxFeePerGas: uint128, maxPriorityFeePerGas: uint128) {

    function EffectiveGasPrice(baseFee: uint128): uint128 {
      Min(maxFeePerGas, WrapAdd(baseFee, maxPriorityFeePerGas))
    }

    predicate Covers(baseFee: uint128, minPriorityFee: uint128) {
      && maxFeePerGas >= WrapAdd(baseFee, minPriorityFee)
      && maxPriorityFeePerGas >= minPriorityFee
    }

    function IncreaseByPercent(bps: uint32): GasFees {
      GasFees(Bump(maxFeePerGas, bps), Bump(maxPriorityFeePerGas, bps))
    }

    /** What EIP-1559 demands of a transaction: the tip fits under the cap. */
    predicate WellOrdered() {
      maxPriorityFeePerGas <= maxFeePerGas
    }
  }

  // ---------------------------------------------------------------- the inclusion filter

  /**
   * The price an operation will pay reaches base fee plus minimum tip exactly when the inclusion filter
   * lets it pass and base fee plus its own tip stays within `u128`.
   */
  lemma PaysFloorIff(fees: GasFees, baseFee: uint128, minPriorityFee: uint128)
    ensures fees.EffectiveGasPrice(baseFee) >= baseFee + minPriorityFee
       <==> fees.Covers(baseFee, minPriorityFee) && baseFee + fees.maxPriorityFeePerGas < U128_LIMIT
  {
    WrapAddMeaning(baseFee, minPriorityFee);
    WrapAddMeaning(baseFee, fees.maxPriorityFeePerGas);
  }

  lemma WrapAddMeaning(a: uint128, b: uint128)
    ensures WrapAdd(a, b) == if a + b < U128_LIMIT then a + b else a + b - U128_LIMIT
  {
  }

  /** The exception is real: both fees at the maximum pass the filter, and the price wraps below the floor. */
  lemma OverflowUnderpays()
    ensures var fees := GasFees(U128_LIMIT - 1, U128_LIMIT - 1);
            fees.WellOrdered() && fees.Covers(7, 1) && fees.EffectiveGasPrice(7) == 6
  {
  }

  // ---------------------------------------------------------------- bumps

  /** What reduction to `u128` does to a product. */
  lemma Reduced(product: nat)
    ensures product < U128_LIMIT ==> product % U128_LIMIT == product
    ensures product >= U128_LIMIT ==> product % U128_LIMIT <= product - U128_LIMIT
  {
  }

  lemma WrappedQuotient(product: nat)
    ensures product % U128_LIMIT / BPS <= product / BPS
    ensures product % U128_LIMIT / BPS == product / BPS <==> product < U128_LIMIT
  {
    Reduced(product);
  }

  lemma QuotientSplit(fee: nat, increase: nat)
    ensures (fee * BPS + increase) / BPS == fee + increase / BPS
  {
  }

  lemma BumpProduct(fee: nat, bps: nat)
    ensures fee * (BPS + bps) == fee * BPS + fee * bps
  {
  }

  /** A bump is the percentage rounded down exactly when its product fits. */
  lemma BumpExactIff(fee: uint128, bps: uint32)
    ensures Bump(fee, bps) == ExactBump(fee, bps) <==> BumpFits(fee, bps)
    ensures Bump(fee, bps) <= ExactBump(fee, bps) && fee <= ExactBump(fee, bps)
  {
    BumpProduct(fee, bps);
    QuotientSplit(fee, fee * bps);
    WrappedQuotient(fee * (BPS + bps));
  }

  /** Up to a doubling, a bump never lowers the fee exactly when its product fits. */
  lemma BumpNeverDropsIff(fee: uint128, bps: uint32)
    requires bps <= BPS
    ensures Bump(fee, bps) >= fee <==> BumpFits(fee, bps)
  {
    BumpExactIff(fee, bps);
    if !BumpFits(fee, bps) {
      BumpProduct(fee, bps);
      ProductMonotone(bps, BPS, fee);
      LargeProductDrops(fee, fee * bps);
    }
  }

  lemma LargeProductDrops(fee: nat, increase: nat)
    requires increase <= fee * BPS && fee * BPS + increase >= U128_LIMIT
    ensures (fee * BPS + increase) % U128_LIMIT / BPS < fee
  {
    Reduced(fee * BPS + increase);
    WrappedProductLow(fee, increase, (fee * BPS + increase) % U128_LIMIT);
  }

  lemma WrappedProductLow(fee: nat, increase: nat, wrapped: nat)
    requires increase <= fee * BPS && wrapped < U128_LIMIT && wrapped <= fee * BPS + increase - U128_LIMIT
    ensures wrapped / BPS < fee
  {
  }

  /** Bumping keeps order while the larger product fits, so it keeps the tip under the cap. */
  lemma BumpMonotone(a: uint128, b: uint128, bps: uint32)
    requires a <= b && BumpFits(b, bps)
    ensures BumpFits(a, bps) && Bump(a, bps) <= Bump(b, bps)
  {
    var x, y := a * (BPS + bps), b * (BPS + bps);
    ProductMonotone(a, b, BPS + bps);
    Reduced(x);
    Reduced(y);
    QuotientMonotone(x, y);
  }

  lemma QuotientBounds(m: nat, k: nat)
    requires k > 0
    ensures m / k * k <= m < (m / k + 1) * k
  {
    assert m == m / k * k + m % k;
  }

  lemma ProductMonotone(a: nat, b: nat, k: nat)
    requires a <= b
    ensures a * k <= b * k
  {
  }

  lemma QuotientMonotone(x: nat, y: nat)
    requires x <= y
    ensures x / BPS <= y / BPS
  {
  }

  lemma ExactBumpMonotone(a: nat, b: nat, bps: nat)
    requires a <= b
    ensures ExactBump(a, bps) <= ExactBump(b, bps)
  {
    assert a * bps <= b * bps;
  }
}
