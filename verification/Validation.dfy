/** Validation in front of the pool, and what it guarantees about pooled nonces. */
module Validation {
  import opened Base
  import opened Gas
  import opened UserOperations
  import opened PoolModel
  import opened Pool

  datatype Limits = Limits(maxTransactionSizeBytes: nat, minMaxPriorityFeePerGas: uint128)

  datatype GasField = VerificationGasLimit | MaxFeePerGas | PreVerificationGas

  datatype ValidationError =
    | InvalidSender
    | GasTooLow(field: GasField)
    | PriorityFeeExceedsMaxFee(priority: nat, maxFee: nat)
    | CallDataTooLarge(size: nat, max: nat)
    | MaxFeeTooLow(maxFee: nat, baseFee: uint128)
    | BadSequence(expected: nat, got: nat)
    | EntityRefused

  predicate IsZeroAddress(a: Address) {
    forall i :: 0 <= i < 20 ==> a[i] == 0
  }

  function ValidateStaticFields(l: Limits, uo: UserOperation): Option<ValidationError> {
    if IsZeroAddress(uo.sender) then Some(InvalidSender)
    else if uo.verificationGasLimit == 0 then Some(GasTooLow(VerificationGasLimit))
    else if uo.maxFeePerGas == 0 then Some(GasTooLow(MaxFeePerGas))
    else if uo.maxPriorityFeePerGas > uo.maxFeePerGas then
      Some(PriorityFeeExceedsMaxFee(uo.maxPriorityFeePerGas, uo.maxFeePerGas))
    else if |uo.callData| > l.maxTransactionSizeBytes then
      Some(CallDataTooLarge(|uo.callData|, l.maxTransactionSizeBytes))
    else if uo.preVerificationGas == 0 then Some(GasTooLow(PreVerificationGas))
    else None
  }

  function ValidateGasPrice(l: Limits, uo: UserOperation, baseFee: uint128): Option<ValidationError> {
    if uo.Fees().Covers(baseFee, l.minMaxPriorityFeePerGas) then None
    else Some(MaxFeeTooLow(uo.maxFeePerGas, baseFee))
  }

  /** `max_seq + 1` on `u64`, wrapping as release builds do. */
  function NextSequence(max: nat): nat {
    (max + 1) % U64_LIMIT
  }

  /** A replacement always passes; otherwise the sequence must follow the highest pooled one, if any. */
  ghost predicate NonceAccepted(c: Contents, uo: UserOperation) {
    var id := uo.Id();
    || id in c
    || forall m :: IsMaxSequence(c, id.sender, id.NonceKey(), Some(m)) ==> id.NonceSequence() == NextSequence(m)
  }

  /** Everything validation demands of an operation, reputation aside. */
  ghost predicate Acceptable(l: Limits, c: Contents, uo: UserOperation, baseFee: uint128) {
    && !IsZeroAddress(uo.sender)
    && uo.verificationGasLimit > 0 && uo.preVerificationGas > 0
    && uo.maxFeePerGas > 0 && uo.Fees().WellOrdered()
    && |uo.callData| <= l.maxTransactionSizeBytes
    && uo.Fees().Covers(baseFee, l.minMaxPriorityFeePerGas)
    && NonceAccepted(c, uo)
  }

  /** Everything acceptable pays base fee plus minimum tip, exactly unless base fee plus its own tip leaves `u128`. */
  lemma AcceptablePays(l: Limits, c: Contents, uo: UserOperation, baseFee: uint128)
    requires Acceptable(l, c, uo, baseFee)
    ensures uo.Fees().EffectiveGasPrice(baseFee) >= baseFee + l.minMaxPriorityFeePerGas
       <==> baseFee + uo.maxPriorityFeePerGas < U128_LIMIT
  {
    PaysFloorIff(uo.Fees(), baseFee, l.minMaxPriorityFeePerGas);
  }

  /** No gas limit is bounded from above: every acceptable operation with room has a variant of 2^64 gas in all. */
  lemma HugeGasAcceptable(l: Limits, c: Contents, uo: UserOperation, baseFee: uint128)
    requires Acceptable(l, c, uo, baseFee) && uo.TotalGasLimit() - uo.callGasLimit <= U64_LIMIT
    ensures var huge := uo.(callGasLimit := U64_LIMIT - (uo.TotalGasLimit() - uo.callGasLimit));
            huge.TotalGasLimit() == U64_LIMIT && Acceptable(l, c, huge, baseFee)
  {
    var huge := uo.(callGasLimit := U64_LIMIT - (uo.TotalGasLimit() - uo.callGasLimit));
    assert huge.Id() == uo.Id() && huge.Fees() == uo.Fees();
  }

  class Validator {
    const limits: Limits
    const pool: OperationPool
    const supportedEntryPoint: Address

    constructor (limits: Limits, pool: OperationPool, supportedEntryPoint: Address)
      ensures this.limits == limits && this.pool == pool && this.supportedEntryPoint == supportedEntryPoint
    {
      this.limits, this.pool, this.supportedEntryPoint := limits, pool, supportedEntryPoint;
    }

    method ValidateNonce(uo: UserOperation) returns (e: Option<ValidationError>)
      ensures e.None? <==> NonceAccepted(pool.View().contents, uo)
      ensures e.Some? ==> exists m ::
                && IsMaxSequence(pool.View().contents, uo.sender, uo.Id().NonceKey(), Some(m))
                && e == Some(BadSequence(NextSequence(m), uo.Id().NonceSequence()))
    {
      var id := uo.Id();
      if id in pool.byId {
        return None;
      }
      var max := pool.MaxNonceSequence(id.sender, id.NonceKey());
      if max.Some? && id.NonceSequence() != NextSequence(max.value) {
        return Some(BadSequence(NextSequence(max.value), id.NonceSequence()));
      }
      return None;
    }

    /** `reputationOk` is the answer of the reputation check over the operation's entities. */
    method ValidateSync(uo: UserOperation, baseFee: uint128, reputationOk: bool)
      returns (e: Option<ValidationError>)
      ensures e.None? <==> Acceptable(limits, pool.View().contents, uo, baseFee) && reputationOk
      ensures e.Some? ==>
                if ValidateStaticFields(limits, uo).Some? then e == ValidateStaticFields(limits, uo)
                else if ValidateGasPrice(limits, uo, baseFee).Some? then e == ValidateGasPrice(limits, uo, baseFee)
                else if !NonceAccepted(pool.View().contents, uo) then e.value.BadSequence?
                else e.value.EntityRefused?
    {
      e := ValidateStaticFields(limits, uo);
      if e.Some? { return; }
      e := ValidateGasPrice(limits, uo, baseFee);
      if e.Some? { return; }
      e := ValidateNonce(uo);
      if e.Some? { return; }
      return if reputationOk then None else Some(EntityRefused);
    }

    /** `eth_sendUserOperation`: refuse foreign entry points, set the context, validate, then add. */
    method SendUserOperation(raw: UserOperation, entryPoint: Address, chainId: uint64, baseFee: uint128, reputationOk: bool)
      returns (accepted: Option<B256>)
      requires pool.Valid()
      modifies pool
      ensures pool.Valid()
      ensures var uo, p := raw.SetContext(pool.hasher, entryPoint, chainId), old(pool.View());
              && (accepted.Some? <==>
                    && entryPoint == supportedEntryPoint
                    && Accepts(pool.config, pool.hasher, limits, p.contents, uo, baseFee, reputationOk))
              && pool.View() == (if accepted.Some? then Apply(pool.config, pool.hasher, p, PoolCall.Add(uo, baseFee)) else p)
              && (accepted.Some? ==> accepted.value == uo.ComputeHash(pool.hasher))
    {
      if entryPoint != supportedEntryPoint {
        return None;
      }
      SetContextRefreshes(pool.hasher, raw, entryPoint, chainId);
      accepted := ValidateAndAdd(raw.SetContext(pool.hasher, entryPoint, chainId), baseFee, reputationOk);
    }

    method ValidateAndAdd(uo: UserOperation, baseFee: uint128, reputationOk: bool) returns (accepted: Option<B256>)
      requires pool.Valid()
      modifies pool
      ensures pool.Valid()
      ensures Answered(pool.View(), accepted)
           == Answering(pool.config, pool.hasher, limits, old(pool.View()), uo, baseFee, reputationOk)
    {
      AnsweringStep(pool.config, pool.hasher, limits, pool.View(), uo, baseFee, reputationOk);
      var e := ValidateSync(uo, baseFee, reputationOk);
      if e.Some? {
        return None;
      }
      accepted := AddValidated(uo, baseFee);
    }

    method AddValidated(uo: UserOperation, baseFee: uint128) returns (accepted: Option<B256>)
      requires pool.Valid()
      modifies pool
      ensures pool.Valid()
      ensures Answered(pool.View(), accepted) == Judged(pool.config, pool.hasher, old(pool.View()), uo, baseFee)
    {
      var r := pool.Add(uo, baseFee);
      return if r.Ok? then Some(r.value) else None;
    }
  }

  /** An operation is accepted when validation, reputation and the pool all agree. */
  ghost predicate Accepts(
    cfg: PoolConfig, h: Hasher, l: Limits, c: Contents, uo: UserOperation, baseFee: uint128, reputationOk: bool)
  {
    Acceptable(l, c, uo, baseFee) && reputationOk && AddVerdict(cfg, h, c, uo).Ok?
  }

  ghost function Submitted(
    cfg: PoolConfig, h: Hasher, l: Limits, p: PoolState, uo: UserOperation, baseFee: uint128, reputationOk: bool)
    : PoolState
  {
    if Acceptable(l, p.contents, uo, baseFee) && reputationOk then Apply(cfg, h, p, PoolCall.Add(uo, baseFee)) else p
  }

  /** The pool after a submission, and the digest answered when it was accepted. */
  datatype Answered = Answered(pool: PoolState, accepted: Option<B256>)

  ghost function Answering(
    cfg: PoolConfig, h: Hasher, l: Limits, p: PoolState, uo: UserOperation, baseFee: uint128, reputationOk: bool)
    : Answered
  {
    Answered(
      Submitted(cfg, h, l, p, uo, baseFee, reputationOk),
      if Accepts(cfg, h, l, p.contents, uo, baseFee, reputationOk) then Some(uo.Hash(h)) else None)
  }

  /** The answer once validation has passed. */
  ghost function Judged(cfg: PoolConfig, h: Hasher, p: PoolState, uo: UserOperation, baseFee: uint128): Answered {
    Answered(
      Apply(cfg, h, p, PoolCall.Add(uo, baseFee)),
      match AddVerdict(cfg, h, p.contents, uo) case Ok(hash) => Some(hash) case Err(_) => None)
  }

  lemma AnsweringStep(
    cfg: PoolConfig, h: Hasher, l: Limits, p: PoolState, uo: UserOperation, baseFee: uint128, reputationOk: bool)
    ensures Answering(cfg, h, l, p, uo, baseFee, reputationOk)
         == if Acceptable(l, p.contents, uo, baseFee) && reputationOk then Judged(cfg, h, p, uo, baseFee)
            else Answered(p, None)
  {
  }

  // ---------------------------------------------------------------- nonce chains

  /** An operation of `sender` with this key and sequence is pooled. */
  ghost predicate Has(c: Contents, sender: Address, key: int, sequence: int) {
    0 <= key < U192_LIMIT && 0 <= sequence < U64_LIMIT && ChainId(sender, key, sequence) in c
  }

  ghost function ChainId(sender: Address, key: nat, sequence: nat): (id: UserOperationId)
    requires key < U192_LIMIT && sequence < U64_LIMIT
    ensures InChain(id, sender, key) && id.NonceSequence() == sequence
  {
    UserOperationId(sender, JoinNonce(key, sequence))
  }

  lemma ChainIdOf(id: UserOperationId)
    ensures id.NonceKey() < U192_LIMIT && id.NonceSequence() < U64_LIMIT
    ensures ChainId(id.sender, id.NonceKey(), id.NonceSequence()) == id
  {
    NonceSplitBijection(id, 0, 0);
  }

  /** The pooled sequences of every (sender, key) form an interval. */
  ghost predicate GapFree(c: Contents) {
    forall sender, key, a, x, b :: a <= x <= b && Has(c, sender, key, a) && Has(c, sender, key, b)
      ==> Has(c, sender, key, x)
  }

  ghost predicate IsEnd(c: Contents, id: UserOperationId) {
    || (forall a :: Has(c, id.sender, id.NonceKey(), a) ==> a >= id.NonceSequence())
    || (forall b :: Has(c, id.sender, id.NonceKey(), b) ==> b <= id.NonceSequence())
  }

  lemma HasAfterInsert(c: Contents, id: UserOperationId, e: PoolEntry, sender: Address, key: int, x: int)
    ensures Has(c[id := e], sender, key, x)
       <==> Has(c, sender, key, x) || (InChain(id, sender, key) && x == id.NonceSequence())
  {
    ChainIdOf(id);
  }

  lemma HasAfterRemoval(c: Contents, id: UserOperationId, sender: Address, key: int, x: int)
    ensures Has(c - {id}, sender, key, x)
       <==> Has(c, sender, key, x) && !(InChain(id, sender, key) && x == id.NonceSequence())
  {
    ChainIdOf(id);
  }

  /** Dropping a pooled operation keeps the chains gap-free exactly when it is an end of its chain. */
  lemma RemovalKeepsGapFreeIffEnd(c: Contents, id: UserOperationId)
    requires GapFree(c) && id in c
    ensures GapFree(c - {id}) <==> IsEnd(c, id)
  {
    var d := c - {id};
    var s, k, y := id.sender, id.NonceKey(), id.NonceSequence();
    ChainIdOf(id);
    if IsEnd(c, id) {
      forall sender, key, a, x, b | a <= x <= b && Has(d, sender, key, a) && Has(d, sender, key, b)
        ensures Has(d, sender, key, x)
      {
        HasAfterRemoval(c, id, sender, key, a);
        HasAfterRemoval(c, id, sender, key, b);
        HasAfterRemoval(c, id, sender, key, x);
      }
    } else {
      var a :| Has(c, s, k, a) && a < y;
      var b :| Has(c, s, k, b) && b > y;
      HasAfterRemoval(c, id, s, k, a);
      HasAfterRemoval(c, id, s, k, b);
      HasAfterRemoval(c, id, s, k, y);
      assert a <= y <= b && !Has(d, s, k, y);
    }
  }

  /** A non-empty chain has a highest pooled sequence. */
  lemma {:induction false} ChainMax(c: Contents, sender: Address, key: nat, x: nat) returns (m: nat)
    requires Has(c, sender, key, x)
    ensures m >= x && Has(c, sender, key, m) && IsMaxSequence(c, sender, key, Some(m))
    decreases U64_LIMIT - x
  {
    if y :| y > x && Has(c, sender, key, y) {
      m := ChainMax(c, sender, key, y);
    } else {
      m := x;
      forall id | id in c && InChain(id, sender, key)
        ensures id.NonceSequence() <= m
      {
        ChainIdOf(id);
        assert Has(c, sender, key, id.NonceSequence());
      }
      assert ChainId(sender, key, x) in c;
    }
  }

  /**
   * Entering a validated new operation keeps the chains gap-free, except that the wrap of the
   * highest sequence admits sequence 0, which is adjacent only when 1 is pooled.
   */
  lemma AcceptedKeepsGapFreeIff(c: Contents, uo: UserOperation, e: PoolEntry)
    requires GapFree(c) && NonceAccepted(c, uo)
    ensures var id := uo.Id();
            GapFree(c[id := e]) <==>
              (id in c || !Has(c, id.sender, id.NonceKey(), U64_MAX) || Has(c, id.sender, id.NonceKey(), 1))
  {
    var id := uo.Id();
    var d := c[id := e];
    if id in c {
      SameChains(c, id, e);
    } else if x :| Has(c, id.sender, id.NonceKey(), x) {
      var m := ChainMax(c, id.sender, id.NonceKey(), x);
      if m < U64_MAX {
        TopExtends(c, id, e, m);
      } else {
        BottomExtends(c, id, e);
      }
    } else {
      SingletonChain(c, id, e);
    }
  }

  /** The exception is real: over the last `u64` sequence alone, sequence 0 is accepted and leaves a gap. */
  lemma WrapOpensGap(uo: UserOperation, top: PoolEntry, e: PoolEntry)
    requires uo.Id().NonceSequence() == 0
    ensures var c := map[ChainId(uo.sender, uo.Id().NonceKey(), U64_MAX) := top];
            NonceAccepted(c, uo) && GapFree(c) && !GapFree(c[uo.Id() := e])
  {
    var id := uo.Id();
    ChainIdOf(id);
    var c := map[ChainId(id.sender, id.NonceKey(), U64_MAX) := top];
    forall sender, key: int, x: int | Has(c, sender, key, x)
      ensures x == U64_MAX
    {
      assert ChainId(sender, key, x).NonceSequence() == x;
    }
    AcceptedKeepsGapFreeIff(c, uo, e);
  }

  lemma SameChains(c: Contents, id: UserOperationId, e: PoolEntry)
    requires GapFree(c) && id in c
    ensures GapFree(c[id := e])
  {
    var d := c[id := e];
    forall sender, key, a, x, b | a <= x <= b && Has(d, sender, key, a) && Has(d, sender, key, b)
      ensures Has(d, sender, key, x)
    {
      HasAfterInsert(c, id, e, sender, key, a);
      HasAfterInsert(c, id, e, sender, key, b);
      HasAfterInsert(c, id, e, sender, key, x);
    }
  }

  lemma SingletonChain(c: Contents, id: UserOperationId, e: PoolEntry)
    requires GapFree(c) && forall x :: !Has(c, id.sender, id.NonceKey(), x)
    ensures GapFree(c[id := e])
  {
    var d := c[id := e];
    forall sender, key, a, x, b | a <= x <= b && Has(d, sender, key, a) && Has(d, sender, key, b)
      ensures Has(d, sender, key, x)
    {
      HasAfterInsert(c, id, e, sender, key, a);
      HasAfterInsert(c, id, e, sender, key, b);
      HasAfterInsert(c, id, e, sender, key, x);
    }
  }

  lemma TopExtends(c: Contents, id: UserOperationId, e: PoolEntry, m: nat)
    requires GapFree(c) && id.NonceSequence() == m + 1
    requires Has(c, id.sender, id.NonceKey(), m)
    ensures GapFree(c[id := e])
  {
    var d := c[id := e];
    forall sender, key, a, x, b | a <= x <= b && Has(d, sender, key, a) && Has(d, sender, key, b)
      ensures Has(d, sender, key, x)
    {
      HasAfterInsert(c, id, e, sender, key, a);
      HasAfterInsert(c, id, e, sender, key, b);
      HasAfterInsert(c, id, e, sender, key, x);
    }
  }

  lemma BottomExtends(c: Contents, id: UserOperationId, e: PoolEntry)
    requires GapFree(c) && id.NonceSequence() == 0 && id !in c
    requires Has(c, id.sender, id.NonceKey(), U64_MAX)
    ensures GapFree(c[id := e]) <==> Has(c, id.sender, id.NonceKey(), 1)
  {
    var d := c[id := e];
    var s, k := id.sender, id.NonceKey();
    if Has(c, s, k, 1) {
      forall sender, key, a, x, b | a <= x <= b && Has(d, sender, key, a) && Has(d, sender, key, b)
        ensures Has(d, sender, key, x)
      {
        HasAfterInsert(c, id, e, sender, key, a);
        HasAfterInsert(c, id, e, sender, key, b);
        HasAfterInsert(c, id, e, sender, key, x);
      }
    } else {
      HasAfterInsert(c, id, e, s, k, 0);
      HasAfterInsert(c, id, e, s, k, 1);
      HasAfterInsert(c, id, e, s, k, U64_MAX);
      assert 0 <= 1 <= U64_MAX;
    }
  }

  // ---------------------------------------------------------------- runs

  datatype NonceEvent =
    | Submit(uo: UserOperation, baseFee: uint128, reputationOk: bool)
    | Evict(id: UserOperationId)
    | EvictHash(hash: B256)

  ghost function NonceStep(cfg: PoolConfig, h: Hasher, l: Limits, p: PoolState, ev: NonceEvent): PoolState {
    match ev
    case Submit(uo, baseFee, reputationOk) => Submitted(cfg, h, l, p, uo, baseFee, reputationOk)
    case Evict(id) => Apply(cfg, h, p, PoolCall.RemoveById(id))
    case EvictHash(hash) => Apply(cfg, h, p, PoolCall.RemoveByHash(hash))
  }

  /** Evictions take an end of a chain; no submission wraps over the last `u64` sequence with 1 missing. */
  ghost predicate Orderly(p: PoolState, ev: NonceEvent) {
    match ev
    case Submit(uo, _, _) =>
      || uo.Id() in p.contents
      || !Has(p.contents, uo.sender, uo.Id().NonceKey(), U64_MAX)
      || Has(p.contents, uo.sender, uo.Id().NonceKey(), 1)
    case Evict(id) => id in p.contents ==> IsEnd(p.contents, id)
    case EvictHash(hash) => forall id :: id in p.contents && p.contents[id].hash == hash ==> IsEnd(p.contents, id)
  }

  ghost function NonceRun(cfg: PoolConfig, h: Hasher, l: Limits, evs: seq<NonceEvent>): PoolState {
    if evs == [] then PoolState(map[], 0)
    else NonceStep(cfg, h, l, NonceRun(cfg, h, l, evs[..|evs| - 1]), evs[|evs| - 1])
  }

  ghost predicate OrderlyRun(cfg: PoolConfig, h: Hasher, l: Limits, evs: seq<NonceEvent>) {
    evs != [] ==>
      && OrderlyRun(cfg, h, l, evs[..|evs| - 1])
      && Orderly(NonceRun(cfg, h, l, evs[..|evs| - 1]), evs[|evs| - 1])
  }

  lemma DropOneHash(h: Hasher, c: Contents, id: UserOperationId)
    requires Keyed(h, c) && id in c
    ensures DropHashes(c, [c[id].hash]) == c - {id}
  {
  }

  lemma OrderlyStepKeepsGapFree(cfg: PoolConfig, h: Hasher, l: Limits, p: PoolState, ev: NonceEvent)
    requires WellFormed(cfg, h, p) && GapFree(p.contents) && Orderly(p, ev)
    ensures GapFree(NonceStep(cfg, h, l, p, ev).contents)
  {
    match ev
    case Submit(uo, baseFee, reputationOk) =>
      if NonceAccepted(p.contents, uo) {
        AcceptedKeepsGapFreeIff(p.contents, uo, NewEntry(h, uo, baseFee, p.nextSequence));
      }
    case Evict(id) =>
      DropOneId(p.contents, id);
      if id in p.contents {
        RemovalKeepsGapFreeIffEnd(p.contents, id);
      }
    case EvictHash(hash) =>
      if id :| id in p.contents && p.contents[id].hash == hash {
        DropOneHash(h, p.contents, id);
        RemovalKeepsGapFreeIffEnd(p.contents, id);
      } else {
        assert DropHashes(p.contents, [hash]) == p.contents;
      }
  }

  lemma NonceStepKeepsWellFormed(cfg: PoolConfig, h: Hasher, l: Limits, p: PoolState, ev: NonceEvent)
    requires WellFormed(cfg, h, p)
    ensures WellFormed(cfg, h, NonceStep(cfg, h, l, p, ev))
  {
    match ev
    case Submit(uo, baseFee, _) => ApplyKeepsWellFormed(cfg, h, p, PoolCall.Add(uo, baseFee));
    case Evict(id) => ApplyKeepsWellFormed(cfg, h, p, PoolCall.RemoveById(id));
    case EvictHash(hash) => ApplyKeepsWellFormed(cfg, h, p, PoolCall.RemoveByHash(hash));
  }

  /** After every orderly run from an empty pool, each (sender, key) holds an interval of sequences. */
  lemma {:induction false} OrderlyRunsAreGapFree(cfg: PoolConfig, h: Hasher, l: Limits, evs: seq<NonceEvent>)
    requires OrderlyRun(cfg, h, l, evs)
    ensures WellFormed(cfg, h, NonceRun(cfg, h, l, evs)) && GapFree(NonceRun(cfg, h, l, evs).contents)
  {
    if evs == [] {
      ReachableWellFormed(cfg, h, []);
    } else {
      var front, last := evs[..|evs| - 1], evs[|evs| - 1];
      OrderlyRunsAreGapFree(cfg, h, l, front);
      OrderlyStepKeepsGapFree(cfg, h, l, NonceRun(cfg, h, l, front), last);
      NonceStepKeepsWellFormed(cfg, h, l, NonceRun(cfg, h, l, front), last);
    }
  }

  // ---------------------------------------------------------------- acceptance, condition by condition

  /** Same sender and same upper 192 bits of the nonce. */
  predicate SameChain(x: UserOperationId, uo: UserOperation) {
    x.sender == uo.sender && x.nonce / 0x1_0000_0000_0000_0000 == uo.nonce / 0x1_0000_0000_0000_0000
  }

  /** `top` is the pooled operation of this chain with the highest nonce. */
  ghost predicate IsTop(c: Contents, uo: UserOperation, top: UserOperationId) {
    && top in c && SameChain(top, uo)
    && (forall x :: x in c && SameChain(x, uo) ==> x.nonce <= top.nonce)
  }

  /** The nonce is pooled already, starts a chain, or follows the top of its chain, the lower 64 bits wrapping. */
  ghost predicate NonceFits(c: Contents, uo: UserOperation) {
    || UserOperationId(uo.sender, uo.nonce) in c
    || (forall x :: x in c ==> !SameChain(x, uo))
    || (exists top :: IsTop(c, uo, top)
                      && uo.nonce % 0x1_0000_0000_0000_0000 == (top.nonce + 1) % 0x1_0000_0000_0000_0000)
  }

  /** Along a chain the sequence orders the nonces. */
  lemma SequenceOrders(x: UserOperationId, y: UserOperationId)
    requires x.NonceKey() == y.NonceKey()
    ensures x.NonceSequence() <= y.NonceSequence() <==> x.nonce <= y.nonce
    ensures x.NonceSequence() == y.NonceSequence() && x.sender == y.sender ==> x == y
  {
    NonceSplitBijection(x, 0, 0);
    NonceSplitBijection(y, 0, 0);
  }

  lemma TopIsMax(c: Contents, uo: UserOperation, top: UserOperationId)
    requires top in c && SameChain(top, uo)
    ensures IsTop(c, uo, top) <==> IsMaxSequence(c, uo.sender, uo.Id().NonceKey(), Some(top.NonceSequence()))
  {
    forall x | x in c
      ensures SameChain(x, uo) <==> InChain(x, uo.sender, uo.Id().NonceKey())
      ensures SameChain(x, uo) ==> (x.NonceSequence() <= top.NonceSequence() <==> x.nonce <= top.nonce)
    {
      if SameChain(x, uo) {
        SequenceOrders(x, top);
      }
    }
    assert InChain(top, uo.sender, uo.Id().NonceKey());
  }

  lemma SuccessorBits(nonce: uint256)
    ensures (nonce + 1) % U64_LIMIT == (nonce % U64_LIMIT + 1) % U64_LIMIT
  {
  }

  /** Exactly such nonces pass. */
  lemma NonceAcceptedIff(c: Contents, uo: UserOperation)
    ensures NonceAccepted(c, uo) <==> NonceFits(c, uo)
  {
    hide NextSequence;
    var s, k := uo.sender, uo.Id().NonceKey();
    ChainIdOf(uo.Id());
    if x :| x in c && SameChain(x, uo) {
      ChainIdOf(x);
      var m := ChainMax(c, s, k, x.NonceSequence());
      var top :| top in c && InChain(top, s, k) && top.NonceSequence() == m;
      TopIsMax(c, uo, top);
      Follows(top, uo);
      forall y | IsTop(c, uo, y)
        ensures y == top
      {
        SequenceOrders(y, top);
      }
    }
  }

  lemma Follows(top: UserOperationId, uo: UserOperation)
    ensures uo.nonce % 0x1_0000_0000_0000_0000 == (top.nonce + 1) % 0x1_0000_0000_0000_0000
       <==> uo.Id().NonceSequence() == NextSequence(top.NonceSequence())
  {
    SuccessorBits(top.nonce);
  }

  /** The operation's own fields are sound, and its fees pass the floor at this base fee, computed on `u128`. */
  predicate FieldsFit(l: Limits, uo: UserOperation, baseFee: uint128) {
    && (exists i :: 0 <= i < 20 && uo.sender[i] != 0)
    && uo.verificationGasLimit != 0 && uo.maxFeePerGas != 0 && uo.preVerificationGas != 0
    && uo.maxPriorityFeePerGas <= uo.maxFeePerGas
    && |uo.callData| <= l.maxTransactionSizeBytes
    && uo.maxFeePerGas >= (baseFee + l.minMaxPriorityFeePerGas) % U128_LIMIT
    && uo.maxPriorityFeePerGas >= l.minMaxPriorityFeePerGas
  }

  /** There is room for it, or it outbids what it replaces, and no pooled operation has its digest. */
  ghost predicate PoolTakes(cfg: PoolConfig, c: Contents, uo: UserOperation, hash: B256) {
    var id := UserOperationId(uo.sender, uo.nonce);
    && (forall x :: x in c ==> c[x].hash != hash)
    && (if id in c then
          var existing := c[id].uo.maxFeePerGas;
          uo.maxFeePerGas
          >= (existing + existing * cfg.replacementFeeBumpBps % U128_LIMIT / 10000) % U128_LIMIT
        else
          && |c| < cfg.maxSize
          && |set x | x in c && x.sender == uo.sender| < cfg.maxOpsPerSender)
  }

  /** An operation of reputable entities is accepted exactly when fields, nonce and pool allow it. */
  lemma AcceptsIff(
    cfg: PoolConfig, h: Hasher, l: Limits, c: Contents, uo: UserOperation, baseFee: uint128, reputationOk: bool)
    ensures Accepts(cfg, h, l, c, uo, baseFee, reputationOk) <==>
              FieldsFit(l, uo, baseFee) && NonceFits(c, uo) && PoolTakes(cfg, c, uo, uo.Hash(h)) && reputationOk
  {
    hide NonceAccepted, NonceFits;
    NonceAcceptedIff(c, uo);
    PoolTakesIff(cfg, h, c, uo);
    assert IsZeroAddress(uo.sender) <==> !(exists i :: 0 <= i < 20 && uo.sender[i] != 0);
  }

  lemma PoolTakesIff(cfg: PoolConfig, h: Hasher, c: Contents, uo: UserOperation)
    ensures AddVerdict(cfg, h, c, uo).Ok? <==> PoolTakes(cfg, c, uo, uo.Hash(h))
  {
    assert OfSender(c, uo.sender) == set x | x in c && x.sender == uo.sender;
  }

  /** The static error names the first failing field. */
  lemma StaticErrorMeaning(l: Limits, uo: UserOperation)
    ensures var senderOk := exists i :: 0 <= i < 20 && uo.sender[i] != 0;
            match ValidateStaticFields(l, uo)
            case None => senderOk && uo.preVerificationGas != 0
            case Some(InvalidSender) => !senderOk
            case Some(GasTooLow(VerificationGasLimit)) => senderOk && uo.verificationGasLimit == 0
            case Some(GasTooLow(MaxFeePerGas)) =>
              senderOk && uo.verificationGasLimit != 0 && uo.maxFeePerGas == 0
            case Some(PriorityFeeExceedsMaxFee(tip, cap)) =>
              && senderOk && uo.verificationGasLimit != 0 && cap == uo.maxFeePerGas != 0
              && tip == uo.maxPriorityFeePerGas > cap
            case Some(CallDataTooLarge(size, max)) =>
              && senderOk && uo.verificationGasLimit != 0 && uo.maxFeePerGas != 0
              && uo.maxPriorityFeePerGas <= uo.maxFeePerGas
              && size == |uo.callData| > max == l.maxTransactionSizeBytes
            case Some(GasTooLow(PreVerificationGas)) =>
              && senderOk && uo.verificationGasLimit != 0 && uo.maxFeePerGas != 0
              && uo.maxPriorityFeePerGas <= uo.maxFeePerGas && |uo.callData| <= l.maxTransactionSizeBytes
              && uo.preVerificationGas == 0
            case _ => false
  {
    assert IsZeroAddress(uo.sender) <==> !(exists i :: 0 <= i < 20 && uo.sender[i] != 0);
  }

  /** The fee error carries the fee cap and the base fee, and means that the floor on `u128` is not met. */
  lemma GasPriceErrorMeaning(l: Limits, uo: UserOperation, baseFee: uint128)
    ensures ValidateGasPrice(l, uo, baseFee)
         == if && uo.maxFeePerGas >= (baseFee + l.minMaxPriorityFeePerGas) % U128_LIMIT
               && uo.maxPriorityFeePerGas >= l.minMaxPriorityFeePerGas
            then None else Some(MaxFeeTooLow(uo.maxFeePerGas, baseFee))
  {
  }
}
