/** The transaction tracker: nonce management and fee escalation of the one pending transaction. */
module Tracker {
  import opened Base
  import opened Gas

  datatype PendingTransaction = PendingTransaction(
    txHash: B256,
    nonce: nat,
    escalationCount: nat,
    fees: GasFees)

  datatype TransactionStatus = Pending | Mined(blockNumber: nat) | Dropped

  datatype EscalationStrategy = Linear | NetworkTracking

  datatype EscalationConfig = EscalationConfig(
    feeBumpBps: uint32,
    maxAttempts: nat,
    strategy: EscalationStrategy,
    networkPremiumBps: uint32)

  const DEFAULT_ESCALATION := EscalationConfig(1250, 5, NetworkTracking, 1500)

  /** A receipt; pending nodes may leave the block number out. */
  datatype Receipt = Receipt(blockNumber: Option<nat>)

  datatype TrackerAnswers = TrackerAnswers(
    receipt: Result<Option<Receipt>, ProviderError>,
    chainNonce: Result<nat, ProviderError>)

  datatype FeeAnswers = FeeAnswers(
    baseFee: Result<uint128, ProviderError>,
    priorityFee: Result<uint128, ProviderError>)

  datatype TrackerState = TrackerState(pending: Option<PendingTransaction>, currentNonce: nat)

  type StatusResult = Result<Option<TransactionStatus>, ProviderError>

  /** `check_pending`: the answer and the tracker afterwards. */
  function Checked(t: TrackerState, a: TrackerAnswers): (TrackerState, StatusResult) {
    if t.pending.None? then (t, Ok(None))
    else if a.receipt.Err? then (t, Err(ProviderError))
    else
      var nonce := t.pending.value.nonce;
      match a.receipt.value
      case Some(receipt) =>
        var block := match receipt.blockNumber case Some(n) => n case None => 0;
        (TrackerState(None, nonce + 1), Ok(Some(Mined(block))))
      case None =>
        if a.chainNonce.Err? then (t, Err(ProviderError))
        else if a.chainNonce.value > nonce then (TrackerState(None, a.chainNonce.value), Ok(Some(Dropped)))
        else (t, Ok(Some(Pending)))
  }

  /** Market fees plus the premium, but never less than the minimum bump. */
  function NetworkFees(cfg: EscalationConfig, fees: GasFees, base: uint128, priority: uint128): GasFees {
    GasFees(
      Max(Bump(WrapAdd(base, priority), cfg.networkPremiumBps), Bump(fees.maxFeePerGas, cfg.feeBumpBps)),
      Max(Bump(priority, cfg.networkPremiumBps), Bump(fees.maxPriorityFeePerGas, cfg.feeBumpBps)))
  }

  /** `escalated_fees`. */
  function EscalatedFees(cfg: EscalationConfig, pending: Option<PendingTransaction>, a: FeeAnswers): Option<GasFees> {
    if pending.None? || pending.value.escalationCount >= cfg.maxAttempts then None
    else match cfg.strategy
      case Linear => Some(pending.value.fees.IncreaseByPercent(cfg.feeBumpBps))
      case NetworkTracking =>
        if a.baseFee.Err? || a.priorityFee.Err? then None
        else Some(NetworkFees(cfg, pending.value.fees, a.baseFee.value, a.priorityFee.value))
  }

  function Escalated(p: PendingTransaction, txHash: B256, fees: GasFees): PendingTransaction {
    p.(txHash := txHash, fees := fees, escalationCount := p.escalationCount + 1)
  }

  class TransactionTracker {
    var pending: Option<PendingTransaction>
    var currentNonce: nat
    const config: EscalationConfig

    function View(): TrackerState
      reads this
    {
      TrackerState(pending, currentNonce)
    }

    constructor (config: EscalationConfig)
      ensures View() == TrackerState(None, 0) && this.config == config
    {
      pending, currentNonce := None, 0;
      this.config := config;
    }

    method Initialize(nonce: Result<nat, ProviderError>) returns (ok: bool)
      modifies this
      ensures ok <==> nonce.Ok?
      ensures View() == old(View()).(currentNonce := if ok then nonce.value else old(currentNonce))
    {
      if nonce.Err? {
        return false;
      }
      currentNonce := nonce.value;
      return true;
    }

    method RecordSubmission(txHash: B256, nonce: nat, fees: GasFees)
      modifies this
      ensures View() == old(View()).(pending := Some(PendingTransaction(txHash, nonce, 0, fees)))
    {
      pending := Some(PendingTransaction(txHash, nonce, 0, fees));
    }

    method CheckPending(a: TrackerAnswers) returns (r: StatusResult)
      modifies this
      ensures (View(), r) == Checked(old(View()), a)
    {
      if pending.None? {
        return Ok(None);
      }
      var p := pending.value;
      if a.receipt.Err? {
        return Err(ProviderError);
      }
      if a.receipt.value.Some? {
        var receipt := a.receipt.value.value;
        var block := if receipt.blockNumber.Some? then receipt.blockNumber.value else 0;
        currentNonce := p.nonce + 1;
        pending := None;
        return Ok(Some(Mined(block)));
      }
      if a.chainNonce.Err? {
        return Err(ProviderError);
      }
      if a.chainNonce.value > p.nonce {
        currentNonce := a.chainNonce.value;
        pending := None;
        return Ok(Some(Dropped));
      }
      return Ok(Some(Pending));
    }

    /** `waited` stands for the elapsed time having reached the initial wait. */
    predicate NeedsEscalation(waited: bool)
      reads this
    {
      pending.Some? && waited && pending.value.escalationCount < config.maxAttempts
    }

    method RecordEscalation(txHash: B256, fees: GasFees)
      modifies this
      ensures currentNonce == old(currentNonce)
      ensures pending == if old(pending).Some? then Some(Escalated(old(pending).value, txHash, fees)) else None
    {
      if pending.Some? {
        pending := Some(Escalated(pending.value, txHash, fees));
      }
    }

    method ClearPending()
      modifies this
      ensures View() == TrackerState(None, old(currentNonce))
    {
      pending := None;
    }
  }

  // ---------------------------------------------------------------- escalation arithmetic

  /** Neither bump of the pending fees leaves `u128`. */
  predicate BumpsFit(cfg: EscalationConfig, fees: GasFees) {
    BumpFits(fees.maxFeePerGas, cfg.feeBumpBps) && BumpFits(fees.maxPriorityFeePerGas, cfg.feeBumpBps)
  }

  /** Nor does the market price with its premium, when the network is tracked and answers. */
  predicate EscalationFits(cfg: EscalationConfig, fees: GasFees, a: FeeAnswers) {
    && BumpsFit(cfg, fees)
    && (cfg.strategy.NetworkTracking? && a.baseFee.Ok? && a.priorityFee.Ok? ==>
          MarketFits(cfg, a.baseFee.value + a.priorityFee.value))
  }

  predicate MarketFits(cfg: EscalationConfig, market: nat) {
    market < U128_LIMIT && BumpFits(market, cfg.networkPremiumBps)
  }

  /** While nothing leaves `u128`, escalated fees stay well ordered, whatever the network answers. */
  lemma EscalationWellOrdered(cfg: EscalationConfig, p: PendingTransaction, a: FeeAnswers)
    requires p.fees.WellOrdered() && EscalatedFees(cfg, Some(p), a).Some?
    requires EscalationFits(cfg, p.fees, a)
    ensures EscalatedFees(cfg, Some(p), a).value.WellOrdered()
  {
    BumpMonotone(p.fees.maxPriorityFeePerGas, p.fees.maxFeePerGas, cfg.feeBumpBps);
    if cfg.strategy.NetworkTracking? {
      WrapAddMeaning(a.baseFee.value, a.priorityFee.value);
      BumpMonotone(a.priorityFee.value, a.baseFee.value + a.priorityFee.value, cfg.networkPremiumBps);
    }
  }

  /** Each escalation whose bumps fit clears the minimum bump on both fees, so neither drops. */
  lemma EscalationClearsBump(cfg: EscalationConfig, p: PendingTransaction, a: FeeAnswers)
    requires EscalatedFees(cfg, Some(p), a).Some? && BumpsFit(cfg, p.fees)
    ensures var f := EscalatedFees(cfg, Some(p), a).value;
            && f.maxFeePerGas >= ExactBump(p.fees.maxFeePerGas, cfg.feeBumpBps) >= p.fees.maxFeePerGas
            && f.maxPriorityFeePerGas >= ExactBump(p.fees.maxPriorityFeePerGas, cfg.feeBumpBps)
            && ExactBump(p.fees.maxPriorityFeePerGas, cfg.feeBumpBps) >= p.fees.maxPriorityFeePerGas
  {
    var f := EscalatedFees(cfg, Some(p), a).value;
    assert f.maxFeePerGas >= Bump(p.fees.maxFeePerGas, cfg.feeBumpBps);
    assert f.maxPriorityFeePerGas >= Bump(p.fees.maxPriorityFeePerGas, cfg.feeBumpBps);
    BumpExactIff(p.fees.maxFeePerGas, cfg.feeBumpBps);
    BumpExactIff(p.fees.maxPriorityFeePerGas, cfg.feeBumpBps);
  }

  /** When nothing leaves `u128`, escalation computes the fees as meant. */
  lemma EscalationExact(cfg: EscalationConfig, p: PendingTransaction, a: FeeAnswers)
    requires EscalatedFees(cfg, Some(p), a).Some? && EscalationFits(cfg, p.fees, a)
    ensures var f := EscalatedFees(cfg, Some(p), a).value;
            var capBump := ExactBump(p.fees.maxFeePerGas, cfg.feeBumpBps);
            var tipBump := ExactBump(p.fees.maxPriorityFeePerGas, cfg.feeBumpBps);
            if cfg.strategy.Linear? then f.maxFeePerGas == capBump && f.maxPriorityFeePerGas == tipBump
            else
              var base, tip := a.baseFee.value, a.priorityFee.value;
              && f.maxFeePerGas == Max(ExactBump(base + tip, cfg.networkPremiumBps), capBump)
              && f.maxPriorityFeePerGas == Max(ExactBump(tip, cfg.networkPremiumBps), tipBump)
  {
    BumpExactIff(p.fees.maxFeePerGas, cfg.feeBumpBps);
    BumpExactIff(p.fees.maxPriorityFeePerGas, cfg.feeBumpBps);
    if cfg.strategy.NetworkTracking? {
      var base, tip := a.baseFee.value, a.priorityFee.value;
      WrapAddMeaning(base, tip);
      BumpMonotone(tip, base + tip, cfg.networkPremiumBps);
      BumpExactIff(base + tip, cfg.networkPremiumBps);
      BumpExactIff(tip, cfg.networkPremiumBps);
    }
  }

  /** Base fee 11500 and a tip of a 11500th of the largest fee. */
  const OVERFLOWING_MARKET := FeeAnswers(Ok(11500), Ok((U128_LIMIT - 1) / 11500))

  lemma MarketOverflowArithmetic()
    ensures var tip := (U128_LIMIT - 1) / 11500;
            WrapAdd(11500, tip) == 11500 + tip && Bump(11500 + tip, 1500) == 13224 && Bump(tip, 1500) > 13224
  {
  }

  lemma SmallBumps()
    ensures Bump(1, 1250) == 1 && Bump(2, 1250) == 2
  {
  }

  /** On this market the cap wraps to 13224, below the tip. */
  lemma MarketOverflowDisorders(p: PendingTransaction)
    requires p.fees == GasFees(2, 1) && p.escalationCount == 0
    ensures p.fees.WellOrdered() && EscalatedFees(DEFAULT_ESCALATION, Some(p), OVERFLOWING_MARKET).Some?
    ensures var f := EscalatedFees(DEFAULT_ESCALATION, Some(p), OVERFLOWING_MARKET).value;
            f.maxFeePerGas == 13224 && !f.WellOrdered()
  {
    hide Bump, WrapAdd;
    MarketOverflowArithmetic();
    SmallBumps();
  }

  // ---------------------------------------------------------------- how large fees and markets may be

  /** The largest fee whose bump product fits. */
  function LargestFitting(bps: uint32): uint128 {
    (U128_LIMIT - 1) / (BPS + bps)
  }

  lemma LargestFittingFits(bps: uint32, fee: nat)
    ensures BumpFits(fee, bps) <==> fee <= LargestFitting(bps)
  {
    var k, top := BPS + bps, LargestFitting(bps);
    QuotientBounds(U128_LIMIT - 1, k);
    if fee <= top {
      ProductMonotone(fee, top, k);
    } else {
      ProductMonotone(top + 1, fee, k);
    }
  }

  lemma WrappedOnce(product: nat, k: nat)
    requires U128_LIMIT <= product < U128_LIMIT + k && k <= U128_LIMIT
    ensures product % U128_LIMIT < k
  {
  }

  /** One wei past the largest fitting fee the bump falls from almost the largest value to almost nothing. */
  lemma JustPastDrops(bps: uint32)
    ensures var top := LargestFitting(bps);
            top + 1 < U128_LIMIT && Bump(top + 1, bps) <= BPS + bps < Bump(top, bps)
  {
    var k, top := BPS + bps, LargestFitting(bps);
    QuotientBounds(U128_LIMIT - 1, k);
    assert (top + 1) * k == top * k + k;
    ProductMonotone(BPS, k, top);
    WrappedOnce((top + 1) * k, k);
    Reduced(top * k);
    assert Bump(top, bps) == top * k / BPS;
  }

  /** The node answers, if at all, with a market price up to this one. */
  predicate MarketWithin(a: FeeAnswers, market: nat) {
    a.baseFee.Ok? && a.priorityFee.Ok? ==> a.baseFee.value + a.priorityFee.value <= market
  }

  /** Every escalation from ordered fees with a cap up to `cap`, on a market up to `market`, keeps the order. */
  ghost predicate SafeUpTo(cfg: EscalationConfig, cap: nat, market: nat) {
    forall p: PendingTransaction, a: FeeAnswers :: (
      && p.fees.WellOrdered() && p.fees.maxFeePerGas <= cap && MarketWithin(a, market)
      && EscalatedFees(cfg, Some(p), a).Some?)
      ==> EscalatedFees(cfg, Some(p), a).value.WellOrdered()
  }

  /** The products at these bounds stay within `u128`, as far as the configuration computes them. */
  predicate BoundsFit(cfg: EscalationConfig, cap: nat, market: nat) {
    || cfg.maxAttempts == 0
    || (BumpFits(cap, cfg.feeBumpBps)
        && (cfg.strategy.NetworkTracking? ==> BumpFits(market, cfg.networkPremiumBps)))
  }

  /** Fitting bounds make each escalation within them fit. */
  lemma BoundsSuffice(cfg: EscalationConfig, p: PendingTransaction, a: FeeAnswers, cap: nat, market: nat)
    requires p.fees.WellOrdered() && p.fees.maxFeePerGas <= cap && MarketWithin(a, market)
    requires EscalatedFees(cfg, Some(p), a).Some? && BoundsFit(cfg, cap, market)
    ensures EscalationFits(cfg, p.fees, a)
  {
    hide NetworkFees, Bump;
    ProductMonotone(p.fees.maxPriorityFeePerGas, p.fees.maxFeePerGas, BPS + cfg.feeBumpBps);
    ProductMonotone(p.fees.maxFeePerGas, cap, BPS + cfg.feeBumpBps);
    if cfg.strategy.NetworkTracking? {
      ProductMonotone(a.baseFee.value + a.priorityFee.value, market, BPS + cfg.networkPremiumBps);
    }
  }

  /** Fees one wei past the largest that fit, with the tip just below: their bump is out of order. */
  function Overreaching(bps: uint32): GasFees {
    GasFees(JustPast(bps), LargestFitting(bps))
  }

  /** The same as a market: base fee 1 on top of the largest tip that fits. */
  function OverreachingMarket(bps: uint32): FeeAnswers {
    FeeAnswers(Ok(1), Ok(LargestFitting(bps)))
  }

  function JustPast(bps: uint32): uint128 {
    JustPastDrops(bps);
    LargestFitting(bps) + 1
  }

  /** What puts an escalation out of order when the bounds do not fit: overreaching pending fees, or else such a market. */
  function Disordering(cfg: EscalationConfig, cap: nat): (GasFees, FeeAnswers) {
    if !BumpFits(cap, cfg.feeBumpBps) then (Overreaching(cfg.feeBumpBps), FeeAnswers(Ok(0), Ok(0)))
    else (GasFees(0, 0), OverreachingMarket(cfg.networkPremiumBps))
  }

  lemma BumpOfZero(bps: uint32)
    ensures Bump(0, bps) == 0
  {
  }

  lemma OverreachingDisorders(cfg: EscalationConfig, p: PendingTransaction)
    requires p.fees == Overreaching(cfg.feeBumpBps) && p.escalationCount < cfg.maxAttempts
    ensures var a := FeeAnswers(Ok(0), Ok(0));
            && p.fees.WellOrdered()
            && EscalatedFees(cfg, Some(p), a).Some? && !EscalatedFees(cfg, Some(p), a).value.WellOrdered()
  {
    hide Bump, LargestFitting;
    JustPastDrops(cfg.feeBumpBps);
    BumpOfZero(cfg.networkPremiumBps);
    WrapAddMeaning(0, 0);
  }

  lemma OverreachingMarketDisorders(cfg: EscalationConfig, p: PendingTransaction)
    requires p.fees == GasFees(0, 0) && p.escalationCount < cfg.maxAttempts && cfg.strategy.NetworkTracking?
    ensures var a := OverreachingMarket(cfg.networkPremiumBps);
            && p.fees.WellOrdered()
            && EscalatedFees(cfg, Some(p), a).Some? && !EscalatedFees(cfg, Some(p), a).value.WellOrdered()
  {
    hide Bump, LargestFitting, WrapAdd;
    JustPastDrops(cfg.networkPremiumBps);
    BumpOfZero(cfg.feeBumpBps);
    WrapAddMeaning(1, LargestFitting(cfg.networkPremiumBps));
  }

  lemma DisorderingWorks(cfg: EscalationConfig, cap: nat, market: nat, p: PendingTransaction)
    requires !BoundsFit(cfg, cap, market) && p.fees == Disordering(cfg, cap).0 && p.escalationCount == 0
    ensures var a := Disordering(cfg, cap).1;
            && p.fees.WellOrdered() && p.fees.maxFeePerGas <= cap && MarketWithin(a, market)
            && EscalatedFees(cfg, Some(p), a).Some? && !EscalatedFees(cfg, Some(p), a).value.WellOrdered()
  {
    hide Bump, BumpFits, LargestFitting, EscalatedFees;
    LargestFittingFits(cfg.feeBumpBps, cap);
    LargestFittingFits(cfg.networkPremiumBps, market);
    if BumpFits(cap, cfg.feeBumpBps) {
      OverreachingMarketDisorders(cfg, p);
    } else {
      OverreachingDisorders(cfg, p);
    }
  }

  /**
   * Escalated fees keep the tip under the cap for all pending fees and market prices up to given bounds
   * exactly when the products at the bounds fit, under either strategy.
   */
  lemma SafeUpToIff(cfg: EscalationConfig, cap: nat, market: nat)
    ensures SafeUpTo(cfg, cap, market) <==> BoundsFit(cfg, cap, market)
  {
    if BoundsFit(cfg, cap, market) {
      forall p: PendingTransaction, a: FeeAnswers |
        p.fees.WellOrdered() && p.fees.maxFeePerGas <= cap && MarketWithin(a, market)
        && EscalatedFees(cfg, Some(p), a).Some?
        ensures EscalatedFees(cfg, Some(p), a).value.WellOrdered()
      {
        BoundsSuffice(cfg, p, a, cap, market);
        EscalationWellOrdered(cfg, p, a);
      }
    } else {
      DisorderingWorks(cfg, cap, market, PendingTransaction(0, 0, 0, Disordering(cfg, cap).0));
    }
  }

  /** Linear escalation fails too: on the overreaching fees its tip ends above its cap, for any bump. */
  lemma LinearOverflowDisorders(bps: uint32)
    ensures Overreaching(bps).WellOrdered() && !Overreaching(bps).IncreaseByPercent(bps).WellOrdered()
  {
    JustPastDrops(bps);
  }

  /** Up to a doubling, a bump raises a fee exactly when its increase reaches one wei and its product fits. */
  lemma BumpRisesIff(fee: uint128, bps: uint32)
    requires bps <= BPS
    ensures Bump(fee, bps) > fee <==> fee * bps >= BPS && BumpFits(fee, bps)
  {
    BumpExactIff(fee, bps);
    BumpNeverDropsIff(fee, bps);
  }

  /**
   * With the default 12.5 percent and while the product fits: strictly up exactly from 8 wei on, and by
   * 10 percent from 32 wei on, not at 31.
   */
  lemma DefaultBumpThresholds(fee: uint128)
    ensures var bps := DEFAULT_ESCALATION.feeBumpBps;
            && (Bump(fee, bps) > fee <==> fee >= 8 && BumpFits(fee, bps))
            && (fee >= 32 ==> (10 * Bump(fee, bps) >= 11 * fee <==> BumpFits(fee, bps)))
    ensures 10 * Bump(31, DEFAULT_ESCALATION.feeBumpBps) < 11 * 31
  {
    BumpExactIff(fee, 1250);
    BumpNeverDropsIff(fee, 1250);
    assert fee * 1250 / BPS == fee / 8;
  }
}
