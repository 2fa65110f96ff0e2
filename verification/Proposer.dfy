/** The bundle proposer: select, filter by fee, simulate, drop what fails, retry. */
module Proposer {
  import opened Base
  import opened Gas
  import opened UserOperations
  import opened PoolModel
  import opened Pool
  import opened GasOracles
  import opened Subsequences

  datatype RejectedOp = RejectedOp(hash: B256, reason: string)

  datatype Bundle = Bundle(
    ops: seq<PackedUserOperation>,
    beneficiary: Address,
    gasEstimate: uint64,
    gasFees: GasFees,
    rejectedOps: seq<RejectedOp>)

  datatype HandleOpsOut =
    | Success
    | FailedOp(index: nat, reason: string)
    | SignatureValidationFailed(aggregator: Address)
    | Revert(data: Bytes)

  datatype ProposerError = Provider | NoOperations | Other

  /** The simulated `handleOps` call: attempt number, packed operations, gas estimate and fees. */
  type Simulation = (nat, seq<PackedUserOperation>, nat, GasFees) -> Result<HandleOpsOut, ProviderError>

  datatype ProposerConfig = ProposerConfig(
    maxBundleSize: nat,
    maxRetries: nat,
    minMaxPriorityFeePerGas: uint128,
    perUserOpGas: nat,
    transactionIntrinsicGas: nat,
    beneficiary: Address)

  // ---------------------------------------------------------------- filter and gas

  function Affordable(s: seq<PoolEntry>, baseFee: uint128, minPriority: uint128): seq<PoolEntry> {
    if s == [] then []
    else (if s[0].uo.Fees().Covers(baseFee, minPriority) then [s[0]] else [])
         + Affordable(s[1..], baseFee, minPriority)
  }

  function Packed(s: seq<PoolEntry>): seq<PackedUserOperation> {
    seq(|s|, i requires 0 <= i < |s| => s[i].uo.Pack())
  }

  /** `total_gas_limit() as u64` keeps the low 64 bits of each summand, wherever `u128` wrapped inside it. */
  function LimitsGas(s: seq<PoolEntry>): nat {
    if s == [] then 0 else s[0].uo.TotalGasLimit() % U64_LIMIT + LimitsGas(s[1..])
  }

  /** The sum on 64 bits. */
  function EstimateBundleGas(cfg: ProposerConfig, s: seq<PoolEntry>): uint64 {
    (cfg.transactionIntrinsicGas + LimitsGas(s) + cfg.perUserOpGas * |s|) % U64_LIMIT
  }

  /** The estimate with its 5 percent buffer, on 64 bits. */
  function GasLimit(cfg: ProposerConfig, s: seq<PoolEntry>): uint64 {
    var gas := EstimateBundleGas(cfg, s);
    (gas + gas / 20) % U64_LIMIT
  }

  // ---------------------------------------------------------------- the retry loop

  /** What one run of the retry loop depends on besides its operations. */
  datatype Trial = Trial(config: ProposerConfig, fees: GasFees, simulation: Simulation) {
    function Answer(attempt: nat, ops: seq<PoolEntry>): Result<HandleOpsOut, ProviderError> {
      simulation(attempt, Packed(ops), EstimateBundleGas(config, ops), fees)
    }
  }

  datatype Rejection = Rejection(entry: PoolEntry, reason: string)

  datatype Exit = Simulated | RetriesExhausted | IndexOutOfRange

  datatype Outcome =
    | Settled(kept: seq<PoolEntry>, rejected: seq<Rejection>, exit: Exit, attempts: nat)
    | Failed(error: ProposerError)

  /** The retry loop from attempt number `attempt` on. */
  ghost function Settle(t: Trial, ops: seq<PoolEntry>, rejected: seq<Rejection>, attempt: nat): Outcome
    requires attempt <= t.config.maxRetries
    decreases t.config.maxRetries - attempt
  {
    if ops == [] then Failed(NoOperations)
    else match t.Answer(attempt, ops)
      case Err(_) => Failed(Provider)
      case Ok(Success) => Settled(ops, rejected, Simulated, attempt + 1)
      case Ok(FailedOp(i, reason)) =>
        if attempt >= t.config.maxRetries then Settled(ops, rejected, RetriesExhausted, attempt + 1)
        else if i < |ops| then
          Settle(t, Without(ops, i), rejected + [Rejection(ops[i], reason)], attempt + 1)
        else Settled(ops, rejected, IndexOutOfRange, attempt + 1)
      case Ok(SignatureValidationFailed(_)) => Failed(Other)
      case Ok(Revert(_)) => Failed(Other)
  }

  ghost function Entries(rs: seq<Rejection>): seq<PoolEntry> {
    seq(|rs|, i requires 0 <= i < |rs| => rs[i].entry)
  }

  ghost function Hashes(rs: seq<Rejection>): seq<RejectedOp> {
    seq(|rs|, i requires 0 <= i < |rs| => RejectedOp(rs[i].entry.hash, rs[i].reason))
  }

  /** The inputs of one proposal: the selection, and the two oracle answers. */
  datatype Inputs = Inputs(
    best: seq<PoolEntry>,
    fees: Result<GasFees, ProviderError>,
    baseFee: Result<uint128, ProviderError>)

  ghost function Candidates(cfg: ProposerConfig, n: Inputs): seq<PoolEntry>
    requires n.baseFee.Ok?
  {
    Affordable(n.best, n.baseFee.value, cfg.minMaxPriorityFeePerGas)
  }

  ghost function Run(cfg: ProposerConfig, n: Inputs, sim: Simulation): Outcome {
    if n.fees.Err? || n.baseFee.Err? then Failed(Provider)
    else if n.best == [] then Failed(NoOperations)
    else Settle(Trial(cfg, n.fees.value, sim), Candidates(cfg, n), [], 0)
  }

  ghost function BundleOf(cfg: ProposerConfig, fees: GasFees, o: Outcome): Bundle
    requires o.Settled?
  {
    Bundle(Packed(o.kept), cfg.beneficiary, GasLimit(cfg, o.kept), fees, Hashes(o.rejected))
  }

  ghost function Proposed(cfg: ProposerConfig, n: Inputs, sim: Simulation): Result<Bundle, ProposerError> {
    match Run(cfg, n, sim)
    case Failed(e) => Err(e)
    case Settled(_, _, _, _) => Ok(BundleOf(cfg, n.fees.value, Run(cfg, n, sim)))
  }

  datatype ProposalAnswers = ProposalAnswers(
    feesRefresh: RefreshAnswers,
    baseFeeRefresh: RefreshAnswers,
    directBaseFee: Result<uint128, ProviderError>,
    simulation: Simulation)

  /** The blocks the oracle has recorded once the fees were quoted. */
  ghost function QuotedFrom(recorded: seq<BlockFees>, a: ProposalAnswers): seq<BlockFees> {
    Refreshed(recorded, a.feesRefresh)
  }

  /** The base fee is asked for only after the fees were quoted. */
  ghost function RecordedAfter(recorded: seq<BlockFees>, a: ProposalAnswers): seq<BlockFees> {
    if Succeeds(recorded, a.feesRefresh) then Refreshed(QuotedFrom(recorded, a), a.baseFeeRefresh) else recorded
  }

  /** The oracle's base fee for this proposal. */
  ghost function ProposalBaseFee(recorded: seq<BlockFees>, a: ProposalAnswers): Result<uint128, ProviderError> {
    if Succeeds(recorded, a.feesRefresh)
    then BaseFeeAnswer(QuotedFrom(recorded, a), a.baseFeeRefresh, a.directBaseFee)
    else Err(ProviderError)
  }

  /** These inputs are the best selection of this pool, and what the oracle answers from its recorded blocks. */
  ghost predicate IsInputs(
    cfg: ProposerConfig, c: Contents, recorded: seq<BlockFees>, a: ProposalAnswers, n: Inputs)
  {
    && IsBest(c, cfg.maxBundleSize, n.best)
    && (n.fees.Ok? <==> Succeeds(recorded, a.feesRefresh))
    && (n.fees.Ok? ==> Quoted(QuotedFrom(recorded, a), n.fees.value))
    && n.baseFee == ProposalBaseFee(recorded, a)
  }

  /** `built` is what the proposer makes of this pool, these recorded blocks and these answers. */
  ghost predicate ProposedFrom(
    cfg: ProposerConfig, c: Contents, recorded: seq<BlockFees>, a: ProposalAnswers,
    built: Result<Bundle, ProposerError>)
  {
    exists n :: IsInputs(cfg, c, recorded, a, n) && built == Proposed(cfg, n, a.simulation)
  }

  class BundleProposer {
    const config: ProposerConfig
    const pool: OperationPool
    const oracle: ProviderGasOracle

    constructor (config: ProposerConfig, pool: OperationPool, oracle: ProviderGasOracle)
      ensures this.config == config && this.pool == pool && this.oracle == oracle
    {
      this.config, this.pool, this.oracle := config, pool, oracle;
    }

    method MakeBundle(a: ProposalAnswers) returns (r: Result<Bundle, ProposerError>, ghost n: Inputs)
      requires pool.Valid() && oracle.Valid()
      modifies oracle
      ensures oracle.Valid() && oracle.recorded == RecordedAfter(old(oracle.recorded), a)
      ensures IsInputs(config, pool.View().contents, old(oracle.recorded), a, n)
      ensures r == Proposed(config, n, a.simulation)
    {
      n := Inputs(pool.BestOperations(config.maxBundleSize), Err(ProviderError), Err(ProviderError));
      var fees := oracle.CurrentFees(a.feesRefresh);
      if fees.Err? {
        return Err(Provider), n;
      }
      n := n.(fees := fees);
      var baseFee := oracle.BaseFee(a.baseFeeRefresh, a.directBaseFee);
      n := n.(baseFee := baseFee);
      if baseFee.Err? {
        return Err(Provider), n;
      }
      var best := pool.BestOperations(config.maxBundleSize);
      if best == [] {
        return Err(NoOperations), n;
      }
      r := Assemble(best, fees.value, baseFee.value, a.simulation);
    }

    /** The filter and the retry loop of `make_bundle`. */
    method Assemble(best: seq<PoolEntry>, fees: GasFees, baseFee: uint128, sim: Simulation)
      returns (r: Result<Bundle, ProposerError>)
      requires best != []
      ensures r == Proposed(config, Inputs(best, Ok(fees), Ok(baseFee)), sim)
    {
      var ops := Affordable(best, baseFee, config.minMaxPriorityFeePerGas);
      if ops == [] {
        return Err(NoOperations);
      }
      ghost var t := Trial(config, fees, sim);
      ghost var o := Settle(t, ops, [], 0);
      ghost var rejections: seq<Rejection> := [];
      var rejected: seq<RejectedOp> := [];
      for attempt := 0 to config.maxRetries + 1
        invariant attempt <= config.maxRetries
        invariant o == Settle(t, ops, rejections, attempt)
        invariant rejected == Hashes(rejections)
      {
        if ops == [] {
          return Err(NoOperations);
        }
        match sim(attempt, Packed(ops), EstimateBundleGas(config, ops), fees) {
          case Err(_) => return Err(Provider);
          case Ok(Success) =>
            return Ok(Bundle(Packed(ops), config.beneficiary, GasLimit(config, ops), fees, rejected));
          case Ok(FailedOp(i, reason)) =>
            if attempt >= config.maxRetries {
              break;
            }
            if i < |ops| {
              rejections := rejections + [Rejection(ops[i], reason)];
              rejected := rejected + [RejectedOp(ops[i].hash, reason)];
              ops := Without(ops, i);
            } else {
              break;
            }
          case Ok(SignatureValidationFailed(_)) => return Err(Other);
          case Ok(Revert(_)) => return Err(Other);
        }
      }
      // The list was non-empty when the loop was left, so the second emptiness check never fires.
      assert ops != [];
      return Ok(Bundle(Packed(ops), config.beneficiary, GasLimit(config, ops), fees, rejected));
    }
  }

  // ---------------------------------------------------------------- what the filter keeps

  /** The filter keeps, in order, what pays base fee plus minimum tip, and what it lets pass by overflow. */
  lemma {:induction false} AffordableMeaning(s: seq<PoolEntry>, baseFee: uint128, minPriority: uint128)
    ensures IsSubsequence(Affordable(s, baseFee, minPriority), s)
    ensures forall e :: e in Affordable(s, baseFee, minPriority) ==> e in s
    ensures forall e :: e in s && baseFee + e.uo.maxPriorityFeePerGas < U128_LIMIT ==>
              (e in Affordable(s, baseFee, minPriority)
               <==> e.uo.Fees().EffectiveGasPrice(baseFee) >= baseFee + minPriority)
  {
    if s == [] {
      SubsequenceRefl(s);
    } else {
      AffordableMeaning(s[1..], baseFee, minPriority);
      SubsequencePrepend(s[0], Affordable(s[1..], baseFee, minPriority), s);
      PaysFloorIff(s[0].uo.Fees(), baseFee, minPriority);
      assert [] + Affordable(s[1..], baseFee, minPriority) == Affordable(s[1..], baseFee, minPriority);
      assert forall e :: e in s <==> e == s[0] || e in s[1..];
    }
  }

  lemma {:induction false} AffordableCovers(s: seq<PoolEntry>, baseFee: uint128, minPriority: uint128, e: PoolEntry)
    requires e in Affordable(s, baseFee, minPriority)
    ensures e.uo.Fees().Covers(baseFee, minPriority)
  {
    if !(s[0].uo.Fees().Covers(baseFee, minPriority) && e == s[0]) {
      AffordableCovers(s[1..], baseFee, minPriority, e);
    }
  }

  // ---------------------------------------------------------------- what the loop keeps

  lemma EntriesSnoc(rs: seq<Rejection>, r: Rejection)
    ensures Entries(rs + [r]) == Entries(rs) + [r.entry]
    ensures multiset(Entries(rs + [r])) == multiset(Entries(rs)) + multiset{r.entry}
  {
    assert Entries(rs + [r]) == Entries(rs) + [r.entry];
  }

  /** An in-range failure is answered for these operations. */
  ghost predicate FailsInRange(t: Trial, ops: seq<PoolEntry>, attempt: nat) {
    var r := t.Answer(attempt, ops);
    r.Ok? && r.value.FailedOp? && r.value.index < |ops|
  }

  /** The rejection such a failure leads to. */
  ghost function RejectionAt(t: Trial, ops: seq<PoolEntry>, attempt: nat): Rejection
    requires FailsInRange(t, ops, attempt)
  {
    var failed := t.Answer(attempt, ops).value;
    Rejection(ops[failed.index], failed.reason)
  }

  ghost function SurvivorsAt(t: Trial, ops: seq<PoolEntry>, attempt: nat): seq<PoolEntry>
    requires FailsInRange(t, ops, attempt)
  {
    Without(ops, t.Answer(attempt, ops).value.index)
  }

  /** The loop goes round again exactly on an in-range failure with retries left. */
  lemma SettleStep(t: Trial, ops: seq<PoolEntry>, rejected: seq<Rejection>, attempt: nat)
    requires attempt < t.config.maxRetries && FailsInRange(t, ops, attempt)
    ensures Settle(t, ops, rejected, attempt)
         == Settle(t, SurvivorsAt(t, ops, attempt), rejected + [RejectionAt(t, ops, attempt)], attempt + 1)
  {
  }

  /** Nothing is lost or invented: kept plus rejected is what went in. */
  lemma {:induction false} SettleConserves(
    t: Trial, ops: seq<PoolEntry>, rejected: seq<Rejection>, attempt: nat, o: Outcome)
    requires attempt <= t.config.maxRetries && o == Settle(t, ops, rejected, attempt) && o.Settled?
    ensures multiset(o.kept) + multiset(Entries(o.rejected)) == multiset(ops) + multiset(Entries(rejected))
    decreases t.config.maxRetries - attempt
  {
    if attempt < t.config.maxRetries && FailsInRange(t, ops, attempt) {
      var rejection := RejectionAt(t, ops, attempt);
      SettleStep(t, ops, rejected, attempt);
      SettleConserves(t, SurvivorsAt(t, ops, attempt), rejected + [rejection], attempt + 1, o);
      WithoutMultiset(ops, t.Answer(attempt, ops).value.index);
      EntriesSnoc(rejected, rejection);
    }
  }

  /** The kept operations stand in the given order. */
  lemma {:induction false} SettleKeepsOrder(
    t: Trial, ops: seq<PoolEntry>, rejected: seq<Rejection>, attempt: nat, o: Outcome)
    requires attempt <= t.config.maxRetries && o == Settle(t, ops, rejected, attempt) && o.Settled?
    ensures IsSubsequence(o.kept, ops)
    decreases t.config.maxRetries - attempt
  {
    if attempt < t.config.maxRetries && FailsInRange(t, ops, attempt) {
      var left := SurvivorsAt(t, ops, attempt);
      SettleStep(t, ops, rejected, attempt);
      SettleKeepsOrder(t, left, rejected + [RejectionAt(t, ops, attempt)], attempt + 1, o);
      WithoutIsSubsequence(ops, t.Answer(attempt, ops).value.index);
      SubsequenceTrans(o.kept, left, ops);
    } else {
      SubsequenceRefl(ops);
    }
  }

  // ---------------------------------------------------------------- how the loop ends

  /** The operations left after `k` failures in a row, each in range of the list it was answered for. */
  ghost function Survivors(t: Trial, ops: seq<PoolEntry>, attempt: nat, k: nat): Option<seq<PoolEntry>>
    decreases k
  {
    if k == 0 then Some(ops)
    else if FailsInRange(t, ops, attempt) then Survivors(t, SurvivorsAt(t, ops, attempt), attempt + 1, k - 1)
    else None
  }

  /** The answers make the loop stop with this exit after `k` failures in a row. */
  ghost predicate EndsAfter(t: Trial, ops: seq<PoolEntry>, attempt: nat, k: nat, exit: Exit) {
    var left := Survivors(t, ops, attempt, k);
    && left.Some? && left.value != []
    && var r := t.Answer(attempt + k, left.value);
       match exit
       case Simulated => attempt + k <= t.config.maxRetries && r == Ok(Success)
       case RetriesExhausted => attempt + k == t.config.maxRetries && r.Ok? && r.value.FailedOp?
       case IndexOutOfRange =>
         attempt + k < t.config.maxRetries && r.Ok? && r.value.FailedOp? && r.value.index >= |left.value|
  }

  /** Where the loop does not go round again it ends at once. */
  lemma SettleStops(t: Trial, ops: seq<PoolEntry>, rejected: seq<Rejection>, attempt: nat, exit: Exit)
    requires attempt <= t.config.maxRetries
    requires attempt == t.config.maxRetries || !FailsInRange(t, ops, attempt)
    ensures var o := Settle(t, ops, rejected, attempt);
            && (o.Settled? && o.exit == exit <==> EndsAfter(t, ops, attempt, 0, exit))
            && (o.Settled? ==> o.kept == ops && o.rejected == rejected && o.attempts == attempt + 1)
  {
  }

  lemma EndsAfterStep(t: Trial, ops: seq<PoolEntry>, attempt: nat, k: nat, exit: Exit)
    requires k > 0
    ensures EndsAfter(t, ops, attempt, k, exit) <==>
              FailsInRange(t, ops, attempt) && EndsAfter(t, SurvivorsAt(t, ops, attempt), attempt + 1, k - 1, exit)
  {
  }

  lemma {:induction false} EndsInBudget(t: Trial, ops: seq<PoolEntry>, attempt: nat, k: nat, exit: Exit)
    requires EndsAfter(t, ops, attempt, k, exit)
    ensures attempt + k <= t.config.maxRetries
  {
  }

  /** Exit, attempts and kept list of the loop are determined by the answers as `EndsAfter` says, and conversely. */
  lemma {:induction false} SettleEndsIff(
    t: Trial, ops: seq<PoolEntry>, rejected: seq<Rejection>, attempt: nat, k: nat, exit: Exit, o: Outcome)
    requires attempt <= t.config.maxRetries && o == Settle(t, ops, rejected, attempt)
    ensures o.Settled? && o.exit == exit && o.attempts == attempt + k + 1 <==> EndsAfter(t, ops, attempt, k, exit)
    ensures EndsAfter(t, ops, attempt, k, exit) ==>
              Some(o.kept) == Survivors(t, ops, attempt, k) && |o.rejected| == |rejected| + k
    decreases t.config.maxRetries - attempt
  {
    hide Settle, SurvivorsAt, RejectionAt;
    if attempt < t.config.maxRetries && FailsInRange(t, ops, attempt) {
      var left, longer := SurvivorsAt(t, ops, attempt), rejected + [RejectionAt(t, ops, attempt)];
      SettleStep(t, ops, rejected, attempt);
      if k > 0 {
        EndsAfterStep(t, ops, attempt, k, exit);
        SettleEndsIff(t, left, longer, attempt + 1, k - 1, exit, o);
      } else {
        SettleAttempts(t, left, longer, attempt + 1, o);
      }
    } else {
      SettleStops(t, ops, rejected, attempt, exit);
      if k > 0 && EndsAfter(t, ops, attempt, k, exit) {
        EndsAfterStep(t, ops, attempt, k, exit);
        EndsInBudget(t, ops, attempt, k, exit);
      }
    }
  }

  lemma {:induction false} SettleAttempts(
    t: Trial, ops: seq<PoolEntry>, rejected: seq<Rejection>, attempt: nat, o: Outcome)
    requires attempt <= t.config.maxRetries && o == Settle(t, ops, rejected, attempt)
    ensures o.Settled? ==> attempt < o.attempts <= t.config.maxRetries + 1
    decreases t.config.maxRetries - attempt
  {
    if attempt < t.config.maxRetries && FailsInRange(t, ops, attempt) {
      SettleStep(t, ops, rejected, attempt);
      SettleAttempts(t, SurvivorsAt(t, ops, attempt), rejected + [RejectionAt(t, ops, attempt)], attempt + 1, o);
    }
  }

  /**
   * A bundle is returned with a given exit exactly when the answers call for it: as simulated when some
   * answer within the budget is Success and each earlier one failed an operation in range.
   */
  lemma ProposedIff(cfg: ProposerConfig, n: Inputs, sim: Simulation, exit: Exit)
    requires n.fees.Ok? && n.baseFee.Ok?
    ensures Proposed(cfg, n, sim).Ok? && Run(cfg, n, sim).exit == exit
       <==> exists k: nat :: EndsAfter(Trial(cfg, n.fees.value, sim), Candidates(cfg, n), 0, k, exit)
  {
    var t, ops := Trial(cfg, n.fees.value, sim), Candidates(cfg, n);
    var o := Settle(t, ops, [], 0);
    SettleAttempts(t, ops, [], 0, o);
    if o.Settled? {
      SettleEndsIff(t, ops, [], 0, o.attempts - 1, exit, o);
    }
    if k: nat :| EndsAfter(t, ops, 0, k, exit) {
      SettleEndsIff(t, ops, [], 0, k, exit, o);
    }
  }

  // ---------------------------------------------------------------- gas

  /** The gas the operations may use together. */
  ghost function OpsGas(s: seq<PoolEntry>): nat {
    if s == [] then 0 else s[0].uo.TotalGasLimit() + OpsGas(s[1..])
  }

  /** The gas of a whole bundle, nothing cut off. */
  ghost function BundleGas(cfg: ProposerConfig, s: seq<PoolEntry>): nat {
    cfg.transactionIntrinsicGas + OpsGas(s) + cfg.perUserOpGas * |s|
  }

  lemma {:induction false} OpsGasAppend(a: seq<PoolEntry>, b: seq<PoolEntry>)
    ensures OpsGas(a + b) == OpsGas(a) + OpsGas(b)
  {
    if a == [] {
      assert a + b == b;
    } else {
      assert (a + b)[1..] == a[1..] + b;
      OpsGasAppend(a[1..], b);
    }
  }

  lemma OpsGasWithout(s: seq<PoolEntry>, i: nat)
    requires i < |s|
    ensures OpsGas(s) == OpsGas(Without(s, i)) + OpsGas([s[i]])
  {
    var a, x, b := s[..i], [s[i]], s[i + 1..];
    SplitAt(s, i);
    hide OpsGas;
    OpsGasAppend(a, x + b);
    OpsGasAppend(x, b);
    OpsGasAppend(a, b);
  }

  lemma SplitAt(s: seq<PoolEntry>, i: nat)
    requires i < |s|
    ensures s == s[..i] + ([s[i]] + s[i + 1..])
  {
  }

  /** Gas of a list of rejected operations, each with its own overhead. */
  ghost function RejectedGas(cfg: ProposerConfig, rs: seq<Rejection>): nat {
    OpsGas(Entries(rs)) + cfg.perUserOpGas * |rs|
  }

  lemma OneMore(k: nat, n: nat)
    ensures k * (n + 1) == k * n + k
  {
  }

  lemma GasOfRejection(cfg: ProposerConfig, ops: seq<PoolEntry>, i: nat, rejected: seq<Rejection>, reason: string)
    requires i < |ops|
    ensures var rejection := Rejection(ops[i], reason);
            BundleGas(cfg, Without(ops, i)) + RejectedGas(cfg, rejected + [rejection])
            == BundleGas(cfg, ops) + RejectedGas(cfg, rejected)
  {
    hide OpsGas;
    OpsGasWithout(ops, i);
    EntriesSnoc(rejected, Rejection(ops[i], reason));
    OpsGasAppend(Entries(rejected), [ops[i]]);
    OneMore(cfg.perUserOpGas, |ops| - 1);
    OneMore(cfg.perUserOpGas, |rejected|);
  }

  /** Gas is conserved too: dropping operations removes exactly their share of the sum. */
  lemma {:induction false} SettleConservesGas(
    t: Trial, ops: seq<PoolEntry>, rejected: seq<Rejection>, attempt: nat, o: Outcome)
    requires attempt <= t.config.maxRetries && o == Settle(t, ops, rejected, attempt) && o.Settled?
    ensures BundleGas(t.config, o.kept) + RejectedGas(t.config, o.rejected)
         == BundleGas(t.config, ops) + RejectedGas(t.config, rejected)
    decreases t.config.maxRetries - attempt
  {
    if attempt < t.config.maxRetries && FailsInRange(t, ops, attempt) {
      var failed := t.Answer(attempt, ops).value;
      SettleStep(t, ops, rejected, attempt);
      SettleConservesGas(t, SurvivorsAt(t, ops, attempt), rejected + [RejectionAt(t, ops, attempt)], attempt + 1, o);
      GasOfRejection(t.config, ops, failed.index, rejected, failed.reason);
    }
  }

  /** Cutting a summand to 64 bits first does not change the sum on 64 bits. */
  lemma CutSummand(rest: nat, gas: nat)
    ensures (rest + gas % U64_LIMIT) % U64_LIMIT == (rest + gas) % U64_LIMIT
  {
    assert gas == gas / U64_LIMIT * U64_LIMIT + gas % U64_LIMIT;
  }

  lemma {:induction false} LimitsGasReduces(s: seq<PoolEntry>, rest: nat)
    ensures (rest + LimitsGas(s)) % U64_LIMIT == (rest + OpsGas(s)) % U64_LIMIT
  {
    if s != [] {
      var gas: nat, tail := s[0].uo.TotalGasLimit(), s[1..];
      LimitsGasReduces(tail, rest + gas % U64_LIMIT);
      CutSummand(rest + OpsGas(tail), gas);
      assert rest + gas % U64_LIMIT + OpsGas(tail) == rest + OpsGas(tail) + gas % U64_LIMIT;
      assert rest + OpsGas(s) == rest + OpsGas(tail) + gas;
    }
  }

  /** The estimate is the bundle's gas on 64 bits: the inner cuts add no error of their own. */
  lemma EstimateMeaning(cfg: ProposerConfig, s: seq<PoolEntry>)
    ensures EstimateBundleGas(cfg, s) == BundleGas(cfg, s) % U64_LIMIT
  {
    LimitsGasReduces(s, cfg.transactionIntrinsicGas + cfg.perUserOpGas * |s|);
  }

  /** The gas limit reaches the bundle's gas exactly when that gas with its buffer fits 64 bits. */
  lemma GasLimitCoversIff(cfg: ProposerConfig, s: seq<PoolEntry>)
    ensures GasLimit(cfg, s) >= BundleGas(cfg, s)
       <==> BundleGas(cfg, s) + BundleGas(cfg, s) / 20 < U64_LIMIT
  {
    EstimateMeaning(cfg, s);
    BufferedCoversIff(BundleGas(cfg, s));
  }

  lemma BufferedCoversIff(gas: nat)
    ensures var low := gas % U64_LIMIT;
            (low + low / 20) % U64_LIMIT >= gas <==> gas + gas / 20 < U64_LIMIT
  {
    if gas < U64_LIMIT {
      assert gas + gas / 20 < 2 * U64_LIMIT;
    }
  }

  /** The failing case: an operation whose limits add up to 2^64 counts for nothing. */
  lemma HugeOperationUncounted(cfg: ProposerConfig, e: PoolEntry)
    requires e.uo.TotalGasLimit() == U64_LIMIT
    ensures EstimateBundleGas(cfg, [e]) == (cfg.transactionIntrinsicGas + cfg.perUserOpGas) % U64_LIMIT
    ensures GasLimit(cfg, [e]) < e.uo.TotalGasLimit() <= BundleGas(cfg, [e])
  {
    assert [e][1..] == [];
    assert LimitsGas([e]) == 0 && OpsGas([e]) == U64_LIMIT;
  }

  // ---------------------------------------------------------------- the returned bundle

  /**
   * For all simulation answers, a returned bundle and its rejected list partition the affordable
   * candidates, in priority order, within the retry budget.
   */
  lemma BundleAccounts(cfg: ProposerConfig, n: Inputs, sim: Simulation) returns (o: Outcome)
    requires Proposed(cfg, n, sim).Ok?
    ensures n.fees.Ok? && n.baseFee.Ok? && o.Settled? && o == Run(cfg, n, sim)
    ensures Proposed(cfg, n, sim) == Ok(BundleOf(cfg, n.fees.value, o))
    ensures multiset(o.kept) + multiset(Entries(o.rejected)) == multiset(Candidates(cfg, n))
    ensures o.kept != [] && IsSubsequence(o.kept, n.best)
    ensures |o.rejected| == o.attempts - 1 <= cfg.maxRetries
    ensures EndsAfter(Trial(cfg, n.fees.value, sim), Candidates(cfg, n), 0, |o.rejected|, o.exit)
  {
    o := Run(cfg, n, sim);
    var t, ops := Trial(cfg, n.fees.value, sim), Candidates(cfg, n);
    SettleConserves(t, ops, [], 0, o);
    SettleKeepsOrder(t, ops, [], 0, o);
    SettleAttempts(t, ops, [], 0, o);
    SettleEndsIff(t, ops, [], 0, o.attempts - 1, o.exit, o);
    AffordableMeaning(n.best, n.baseFee.value, cfg.minMaxPriorityFeePerGas);
    SubsequenceTrans(o.kept, ops, n.best);
  }

  /**
   * Every operation of a returned bundle pays at least the base fee used plus the minimum tip, exactly
   * unless base fee plus its own tip leaves `u128`.
   */
  lemma BundlePriced(cfg: ProposerConfig, n: Inputs, sim: Simulation, e: PoolEntry)
    requires Run(cfg, n, sim).Settled? && e in Run(cfg, n, sim).kept
    ensures e in n.best
    ensures e.uo.Fees().EffectiveGasPrice(n.baseFee.value) >= n.baseFee.value + cfg.minMaxPriorityFeePerGas
       <==> n.baseFee.value + e.uo.maxPriorityFeePerGas < U128_LIMIT
  {
    var ops, o := Candidates(cfg, n), Run(cfg, n, sim);
    SettleKeepsOrder(Trial(cfg, n.fees.value, sim), ops, [], 0, o);
    SubsequenceMember(o.kept, ops, e);
    AffordableMeaning(n.best, n.baseFee.value, cfg.minMaxPriorityFeePerGas);
    AffordableCovers(n.best, n.baseFee.value, cfg.minMaxPriorityFeePerGas, e);
    PaysFloorIff(e.uo.Fees(), n.baseFee.value, cfg.minMaxPriorityFeePerGas);
  }

  lemma SubsequenceRanked(kept: seq<PoolEntry>, s: seq<PoolEntry>)
    requires IsSubsequence(kept, s) && Ranked(s)
    ensures Ranked(kept)
  {
    var idx: seq<nat> :| Picks(idx, kept, s);
    forall i, j | 0 <= i < j < |kept|
      ensures Before(kept[i], kept[j])
    {
      assert idx[i] < idx[j] && kept[i] == s[idx[i]] && kept[j] == s[idx[j]];
    }
  }

  /** The kept entries pay the oracle's base fee plus the minimum tip, unless their own sum leaves `u128`. */
  ghost predicate Priced(cfg: ProposerConfig, baseFee: uint128, kept: seq<PoolEntry>) {
    forall e :: e in kept ==>
      (e.uo.Fees().EffectiveGasPrice(baseFee) >= baseFee + cfg.minMaxPriorityFeePerGas
       <==> baseFee + e.uo.maxPriorityFeePerGas < U128_LIMIT)
  }

  lemma RejectedIsCandidate(kept: seq<PoolEntry>, rejected: seq<Rejection>, ops: seq<PoolEntry>, i: nat)
    requires multiset(kept) + multiset(Entries(rejected)) == multiset(ops) && i < |rejected|
    ensures rejected[i].entry in ops
  {
    assert Entries(rejected)[i] in multiset(Entries(rejected));
    assert rejected[i].entry in multiset(ops);
  }

  lemma KeptPriced(cfg: ProposerConfig, n: Inputs, sim: Simulation, o: Outcome)
    requires Proposed(cfg, n, sim).Ok? && o == Run(cfg, n, sim)
    ensures Priced(cfg, n.baseFee.value, o.kept)
    ensures forall e :: e in o.kept ==> e in n.best
  {
    forall e | e in o.kept
      ensures e in n.best
      ensures e.uo.Fees().EffectiveGasPrice(n.baseFee.value) >= n.baseFee.value + cfg.minMaxPriorityFeePerGas
         <==> n.baseFee.value + e.uo.maxPriorityFeePerGas < U128_LIMIT
    {
      BundlePriced(cfg, n, sim, e);
    }
  }

  /**
   * A proposed bundle packs pool entries in priority order, priced against the oracle's base fee, rejects
   * only pool entries, and carries the oracle's quote.
   */
  lemma BundleComesFromPool(
    cfg: ProposerConfig, c: Contents, recorded: seq<BlockFees>, a: ProposalAnswers, b: Bundle)
    returns (kept: seq<PoolEntry>)
    requires ProposedFrom(cfg, c, recorded, a, Ok(b))
    ensures b.ops == Packed(kept) && kept != [] && Ranked(kept)
    ensures forall e :: e in kept ==> Member(c, e)
    ensures ProposalBaseFee(recorded, a).Ok? && Priced(cfg, ProposalBaseFee(recorded, a).value, kept)
    ensures Quoted(QuotedFrom(recorded, a), b.gasFees)
    ensures |b.rejectedOps| <= cfg.maxRetries
    ensures forall r :: r in b.rejectedOps ==> HoldsHash(c, r.hash)
  {
    var n :| IsInputs(cfg, c, recorded, a, n) && Ok(b) == Proposed(cfg, n, a.simulation);
    var o := BundleAccounts(cfg, n, a.simulation);
    kept := o.kept;
    SubsequenceRanked(kept, n.best);
    KeptPriced(cfg, n, a.simulation, o);
    AffordableMeaning(n.best, n.baseFee.value, cfg.minMaxPriorityFeePerGas);
    forall r | r in b.rejectedOps
      ensures HoldsHash(c, r.hash)
    {
      var i :| 0 <= i < |b.rejectedOps| && b.rejectedOps[i] == r;
      RejectedIsCandidate(kept, o.rejected, Candidates(cfg, n), i);
      assert Member(c, o.rejected[i].entry);
    }
  }

  /** Its tip fits under its cap exactly when the base fee quoted plus the tip stays within `u128`. */
  lemma ProposedFeesOrderedIff(
    cfg: ProposerConfig, c: Contents, recorded: seq<BlockFees>, a: ProposalAnswers, b: Bundle)
    requires ProposedFrom(cfg, c, recorded, a, Ok(b))
    ensures b.gasFees.WellOrdered()
       <==> CachedBaseFee(QuotedFrom(recorded, a)) + b.gasFees.maxPriorityFeePerGas < U128_LIMIT
  {
    var kept := BundleComesFromPool(cfg, c, recorded, a, b);
    QuoteOrderedIff(QuotedFrom(recorded, a), b.gasFees);
  }

  /** The proposal refreshes first for the fees, then for the base fee, and quotes what the oracle holds after each. */
  lemma InputsFromAnswers(
    cfg: ProposerConfig, c: Contents, answers: seq<RefreshAnswers>, a: ProposalAnswers, n: Inputs)
    requires IsInputs(cfg, c, RefreshRun(answers), a, n)
    ensures n.fees.Ok? ==> Quoted(RefreshRun(answers + [a.feesRefresh]), n.fees.value)
    ensures n.fees.Ok? ==>
              n.baseFee == BaseFeeAnswer(RefreshRun(answers + [a.feesRefresh]), a.baseFeeRefresh, a.directBaseFee)
    ensures RecordedAfter(RefreshRun(answers), a)
         == if n.fees.Ok? then RefreshRun(answers + [a.feesRefresh] + [a.baseFeeRefresh])
            else RefreshRun(answers)
  {
    var first := answers + [a.feesRefresh];
    var both := first + [a.baseFeeRefresh];
    assert first[..|first| - 1] == answers && both[..|both| - 1] == first;
  }

  /** Pool contents, recorded blocks and answers determine the proposal. */
  lemma ProposalUnique(
    cfg: ProposerConfig, h: Hasher, c: Contents, recorded: seq<BlockFees>, a: ProposalAnswers,
    x: Result<Bundle, ProposerError>, y: Result<Bundle, ProposerError>)
    requires Keyed(h, c) && ProposedFrom(cfg, c, recorded, a, x) && ProposedFrom(cfg, c, recorded, a, y)
    ensures x == y
  {
    var n :| IsInputs(cfg, c, recorded, a, n) && x == Proposed(cfg, n, a.simulation);
    var m :| IsInputs(cfg, c, recorded, a, m) && y == Proposed(cfg, m, a.simulation);
    BestIsUnique(h, c, cfg.maxBundleSize, n.best, m.best);
    if n.fees.Ok? {
      QuoteUnique(QuotedFrom(recorded, a), n.fees.value, m.fees.value);
    }
  }

  /** The kept list is returned even when its last simulation failed. */
  lemma UnsimulatedBundleExists(cfg: ProposerConfig, n: Inputs)
    requires n.fees.Ok? && n.baseFee.Ok? && Candidates(cfg, n) != []
    ensures var failing: Simulation := (attempt: nat, ops, gas, fees) => Ok(FailedOp(|ops|, ""));
            Proposed(cfg, n, failing).Ok? && !Run(cfg, n, failing).exit.Simulated?
  {
    var failing: Simulation := (attempt: nat, ops, gas, fees) => Ok(FailedOp(|ops|, ""));
    assert Settle(Trial(cfg, n.fees.value, failing), Candidates(cfg, n), [], 0).Settled?;
  }

  // ---------------------------------------------------------------- the bundle, read off the simulation answers

  /**
   * The lists tried one after the other: each comes from the one before by taking out the operation whose
   * index the simulation of that list answered, and the rejected list names these operations and reasons.
   */
  ghost predicate Shrinks(
    sim: Simulation, gas: seq<PoolEntry> -> nat, fees: GasFees, lists: seq<seq<PoolEntry>>, indices: seq<nat>,
    rejected: seq<RejectedOp>)
  {
    && |lists| == |rejected| + 1 && |indices| == |rejected|
    && (forall j :: 0 <= j < |rejected| ==>
          && indices[j] < |lists[j]|
          && sim(j, Packed(lists[j]), gas(lists[j]), fees) == Ok(FailedOp(indices[j], rejected[j].reason))
          && rejected[j].hash == lists[j][indices[j]].hash
          && lists[j + 1] == lists[j][..indices[j]] + lists[j][indices[j] + 1..])
  }

  /** The same for the loop from attempt number `attempt` on, in its own terms. */
  ghost predicate LoopShrinks(
    t: Trial, attempt: nat, lists: seq<seq<PoolEntry>>, indices: seq<nat>, rejected: seq<Rejection>)
  {
    && |lists| == |rejected| + 1 && |indices| == |rejected|
    && (forall j :: 0 <= j < |rejected| ==>
          && indices[j] < |lists[j]|
          && t.Answer(attempt + j, lists[j]) == Ok(FailedOp(indices[j], rejected[j].reason))
          && rejected[j].entry == lists[j][indices[j]]
          && lists[j + 1] == Without(lists[j], indices[j]))
  }

  lemma LoopShrinksCons(
    t: Trial, ops: seq<PoolEntry>, attempt: nat, lists: seq<seq<PoolEntry>>, indices: seq<nat>, rejected: seq<Rejection>)
    requires FailsInRange(t, ops, attempt) && LoopShrinks(t, attempt + 1, lists, indices, rejected)
    requires lists[0] == SurvivorsAt(t, ops, attempt)
    ensures LoopShrinks(t, attempt, [ops] + lists, [t.Answer(attempt, ops).value.index] + indices,
                        [RejectionAt(t, ops, attempt)] + rejected)
  {
    var lists', indices' := [ops] + lists, [t.Answer(attempt, ops).value.index] + indices;
    var rejected' := [RejectionAt(t, ops, attempt)] + rejected;
    forall j | 0 <= j < |rejected'|
      ensures indices'[j] < |lists'[j]|
      ensures t.Answer(attempt + j, lists'[j]) == Ok(FailedOp(indices'[j], rejected'[j].reason))
      ensures rejected'[j].entry == lists'[j][indices'[j]]
      ensures lists'[j + 1] == Without(lists'[j], indices'[j])
    {
      if j > 0 {
        assert lists'[j] == lists[j - 1] && indices'[j] == indices[j - 1] && rejected'[j] == rejected[j - 1];
        assert lists'[j + 1] == lists[j];
      }
    }
  }

  lemma LoopShrinksNil(t: Trial, attempt: nat, ops: seq<PoolEntry>)
    ensures LoopShrinks(t, attempt, [ops], [], [])
  {
  }

  /**
   * The answer for this list ends the loop with this outcome: it is kept on Success, and on a failure with no
   * retry or no such operation left; nothing left, a failed query, and any other answer are errors.
   */
  ghost predicate EndsWith(t: Trial, attempt: nat, last: seq<PoolEntry>, o: Outcome) {
    && attempt <= t.config.maxRetries
    && var r := t.Answer(attempt, last);
       match o
       case Settled(kept, _, _, _) =>
         && kept == last && last != [] && r.Ok?
         && (r.value.Success?
             || (r.value.FailedOp? && (attempt == t.config.maxRetries || r.value.index >= |last|)))
       case Failed(NoOperations) => last == []
       case Failed(Provider) => last != [] && r.Err?
       case Failed(Other) => last != [] && r.Ok? && (r.value.SignatureValidationFailed? || r.value.Revert?)
  }

  lemma SettleEndsWith(t: Trial, ops: seq<PoolEntry>, rejected: seq<Rejection>, attempt: nat, o: Outcome)
    requires attempt <= t.config.maxRetries && o == Settle(t, ops, rejected, attempt)
    requires attempt == t.config.maxRetries || !FailsInRange(t, ops, attempt)
    ensures EndsWith(t, attempt, ops, o) && (o.Settled? ==> o.rejected == rejected)
  {
  }

  lemma {:induction false} SettleTraced(t: Trial, ops: seq<PoolEntry>, rejected: seq<Rejection>, attempt: nat, o: Outcome)
    returns (lists: seq<seq<PoolEntry>>, indices: seq<nat>, more: seq<Rejection>)
    requires attempt <= t.config.maxRetries && o == Settle(t, ops, rejected, attempt)
    ensures LoopShrinks(t, attempt, lists, indices, more) && (o.Settled? ==> o.rejected == rejected + more)
    ensures |lists| == |more| + 1 && lists[0] == ops && EndsWith(t, attempt + |more|, lists[|more|], o)
    decreases t.config.maxRetries - attempt
  {
    hide Settle, EndsWith, LoopShrinks, SurvivorsAt, RejectionAt;
    if attempt < t.config.maxRetries && FailsInRange(t, ops, attempt) {
      var left, rejection := SurvivorsAt(t, ops, attempt), RejectionAt(t, ops, attempt);
      SettleStep(t, ops, rejected, attempt);
      lists, indices, more := SettleTraced(t, left, rejected + [rejection], attempt + 1, o);
      LoopShrinksCons(t, ops, attempt, lists, indices, more);
      assert rejected + [rejection] + more == rejected + ([rejection] + more);
      lists, indices, more := [ops] + lists, [t.Answer(attempt, ops).value.index] + indices, [rejection] + more;
    } else {
      SettleEndsWith(t, ops, rejected, attempt, o);
      LoopShrinksNil(t, attempt, ops);
      lists, indices, more := [ops], [], [];
      assert rejected + more == rejected;
    }
  }

  lemma TraceRenamed(
    t: Trial, lists: seq<seq<PoolEntry>>, indices: seq<nat>, rejected: seq<Rejection>, named: seq<RejectedOp>)
    requires LoopShrinks(t, 0, lists, indices, rejected) && named == Hashes(rejected)
    ensures Shrinks(t.simulation, s => EstimateBundleGas(t.config, s), t.fees, lists, indices, named)
  {
  }

  /** The gas limit of a bundle, from the gas limits of its operations: overheads, the sum, and 5 percent on top, on 64 bits. */
  ghost predicate IsGasLimit(cfg: ProposerConfig, s: seq<PoolEntry>, limit: nat) {
    var gas := (cfg.transactionIntrinsicGas + OpsGas(s) + cfg.perUserOpGas * |s|) % 0x1_0000_0000_0000_0000;
    limit == (gas + gas / 20) % 0x1_0000_0000_0000_0000
  }

  /**
   * A returned bundle packs, for the configured beneficiary, what is left of the affordable candidates once the
   * operations its simulations named one after the other are gone; its rejected list names exactly those, with
   * their reasons, in order; and the last answer was Success, or a failure with no retry or no such operation left.
   */
  lemma BundleTraced(cfg: ProposerConfig, n: Inputs, sim: Simulation, b: Bundle)
    returns (lists: seq<seq<PoolEntry>>, indices: seq<nat>)
    requires Proposed(cfg, n, sim) == Ok(b)
    ensures n.fees.Ok? && n.baseFee.Ok? && b.gasFees == n.fees.value && b.beneficiary == cfg.beneficiary
    ensures Shrinks(sim, s => EstimateBundleGas(cfg, s), n.fees.value, lists, indices, b.rejectedOps)
    ensures lists[0] == Affordable(n.best, n.baseFee.value, cfg.minMaxPriorityFeePerGas)
    ensures var k := |b.rejectedOps|;
            var kept := lists[k];
            && kept != [] && |b.ops| == |kept| && (forall i :: 0 <= i < |kept| ==> b.ops[i] == kept[i].uo.Pack())
            && IsGasLimit(cfg, kept, b.gasEstimate)
            && k <= cfg.maxRetries
            && var r := sim(k, b.ops, EstimateBundleGas(cfg, kept), n.fees.value);
               r.Ok? && (r.value.Success?
                         || (r.value.FailedOp? && (k == cfg.maxRetries || r.value.index >= |kept|)))
  {
    var t, o := Trial(cfg, n.fees.value, sim), Run(cfg, n, sim);
    ProposedSettles(cfg, n, sim, b);
    hide Settle, Proposed, Run, BundleOf, GasLimit, IsGasLimit, LoopShrinks, Shrinks, EstimateBundleGas;
    var more: seq<Rejection>;
    lists, indices, more := SettleTraced(t, Candidates(cfg, n), [], 0, o);
    assert [] + more == more;
    TraceRenamed(t, lists, indices, more, b.rejectedOps);
    GasLimitMeaning(cfg, o.kept);
  }

  lemma GasLimitMeaning(cfg: ProposerConfig, s: seq<PoolEntry>)
    ensures IsGasLimit(cfg, s, GasLimit(cfg, s))
  {
    EstimateMeaning(cfg, s);
  }

  lemma ProposedSettles(cfg: ProposerConfig, n: Inputs, sim: Simulation, b: Bundle)
    requires Proposed(cfg, n, sim) == Ok(b)
    ensures n.fees.Ok? && n.baseFee.Ok?
    ensures var o := Run(cfg, n, sim);
            && o == Settle(Trial(cfg, n.fees.value, sim), Candidates(cfg, n), [], 0) && o.Settled?
            && b.ops == Packed(o.kept) && b.rejectedOps == Hashes(o.rejected)
            && b.beneficiary == cfg.beneficiary && b.gasFees == n.fees.value && b.gasEstimate == GasLimit(cfg, o.kept)
  {
  }

  /**
   * A failed proposal names why: a query failed, no candidate was left, or a simulation answered with an
   * aggregator or a revert.
   */
  lemma FailureTraced(cfg: ProposerConfig, n: Inputs, sim: Simulation, e: ProposerError)
    returns (lists: seq<seq<PoolEntry>>, indices: seq<nat>, rejected: seq<RejectedOp>)
    requires Proposed(cfg, n, sim) == Err(e)
    ensures n.fees.Err? || n.baseFee.Err? ==> e == Provider
    ensures n.fees.Ok? && n.baseFee.Ok? ==>
              && Shrinks(sim, s => EstimateBundleGas(cfg, s), n.fees.value, lists, indices, rejected)
              && lists[0] == Affordable(n.best, n.baseFee.value, cfg.minMaxPriorityFeePerGas)
              && |rejected| <= cfg.maxRetries
              && var last := lists[|rejected|];
                 var r := sim(|rejected|, Packed(last), EstimateBundleGas(cfg, last), n.fees.value);
                 match e
                 case NoOperations => last == []
                 case Provider => last != [] && r.Err?
                 case Other => last != [] && r.Ok? && (r.value.SignatureValidationFailed? || r.value.Revert?)
  {
    lists, indices, rejected := [[]], [], [];
    if n.fees.Ok? && n.baseFee.Ok? {
      ProposedFails(cfg, n, sim, e);
      var t, ops := Trial(cfg, n.fees.value, sim), Candidates(cfg, n);
      hide Settle, Proposed, Run, LoopShrinks, Shrinks, EstimateBundleGas;
      var more: seq<Rejection>;
      lists, indices, more := SettleTraced(t, ops, [], 0, Failed(e));
      rejected := Hashes(more);
      TraceRenamed(t, lists, indices, more, rejected);
    }
  }

  lemma ProposedFails(cfg: ProposerConfig, n: Inputs, sim: Simulation, e: ProposerError)
    requires Proposed(cfg, n, sim) == Err(e) && n.fees.Ok? && n.baseFee.Ok?
    ensures Settle(Trial(cfg, n.fees.value, sim), Candidates(cfg, n), [], 0) == Failed(e)
  {
  }

  /** What a bundle keeps and what it rejects are the affordable candidates; the rejected list names the latter one by one. */
  lemma BundlePartition(cfg: ProposerConfig, n: Inputs, sim: Simulation, b: Bundle)
    returns (kept: seq<PoolEntry>, rejected: seq<PoolEntry>)
    requires Proposed(cfg, n, sim) == Ok(b)
    ensures n.baseFee.Ok? && |b.ops| == |kept| && |b.rejectedOps| == |rejected|
    ensures multiset(kept) + multiset(rejected)
         == multiset(Affordable(n.best, n.baseFee.value, cfg.minMaxPriorityFeePerGas))
    ensures forall i :: 0 <= i < |kept| ==> b.ops[i] == kept[i].uo.Pack()
    ensures forall i :: 0 <= i < |rejected| ==> b.rejectedOps[i].hash == rejected[i].hash
  {
    var o := BundleAccounts(cfg, n, sim);
    kept, rejected := o.kept, Entries(o.rejected);
    assert b.rejectedOps == Hashes(o.rejected) && b.ops == Packed(kept);
  }

  /** Two candidates, the first of which fails once: the bundle keeps the second and rejects the first with its reason. */
  lemma FirstRejected(cfg: ProposerConfig, n: Inputs, x: PoolEntry, y: PoolEntry, reason: string)
    requires n.fees.Ok? && n.baseFee.Ok? && cfg.maxRetries > 0
    requires Affordable(n.best, n.baseFee.value, cfg.minMaxPriorityFeePerGas) == [x, y]
    ensures var sim: Simulation := (attempt: nat, ops, gas, fees) => if attempt == 0 then Ok(FailedOp(0, reason)) else Ok(Success);
            && Proposed(cfg, n, sim).Ok?
            && Proposed(cfg, n, sim).value.ops == [y.uo.Pack()]
            && Proposed(cfg, n, sim).value.rejectedOps == [RejectedOp(x.hash, reason)]
  {
    var sim: Simulation := (attempt: nat, ops, gas, fees) => if attempt == 0 then Ok(FailedOp(0, reason)) else Ok(Success);
    var t := Trial(cfg, n.fees.value, sim);
    assert Without([x, y], 0) == [y];
    SettleStep(t, [x, y], [], 0);
    SettleStops(t, [y], [Rejection(x, reason)], 1, Simulated);
    assert [] + [Rejection(x, reason)] == [Rejection(x, reason)];
    assert Settle(t, [y], [Rejection(x, reason)], 1) == Settled([y], [Rejection(x, reason)], Simulated, 2);
  }
}
