/** The operation pool as one map from ids to entries: what its four indexes stand for. */
module PoolModel {
  import opened Base
  import opened Gas
  import opened UserOperations

  datatype PoolConfig = PoolConfig(maxSize: nat, maxOpsPerSender: nat, replacementFeeBumpBps: uint32)

  datatype PoolEntry = PoolEntry(
    uo: UserOperation,
    hash: B256,
    id: UserOperationId,
    submitGasPrice: uint128,
    sequence: nat)

  datatype PoolError =
    | AlreadyKnown(hash: B256)
    | ReplacementUnderpriced(existing: uint128, offered: uint128)
    | SenderFull(sender: Address, count: nat, max: nat)
    | PoolFull(maxSize: nat)

  type Contents = map<UserOperationId, PoolEntry>

  function NewEntry(h: Hasher, uo: UserOperation, baseFee: uint128, sequence: nat): PoolEntry {
    PoolEntry(uo, uo.Hash(h), uo.Id(), uo.Fees().EffectiveGasPrice(baseFee), sequence)
  }

  ghost predicate HoldsHash(c: Contents, hash: B256) {
    exists id :: id in c && c[id].hash == hash
  }

  ghost function OfSender(c: Contents, sender: Address): set<UserOperationId> {
    set id | id in c && id.sender == sender
  }

  /** The least fee a replacement must offer, on `u128`. */
  function MinReplacementFee(cfg: PoolConfig, existing: uint128): uint128 {
    WrapAdd(existing, WrapMul(existing, cfg.replacementFeeBumpBps) / BPS)
  }

  /**
   * The verdict on an addition. A replacement is judged on its fee alone: capacity limits
   * only ever concern an operation under a new id.
   */
  ghost function AddVerdict(cfg: PoolConfig, h: Hasher, c: Contents, uo: UserOperation): Result<B256, PoolError> {
    var hash, id := uo.Hash(h), uo.Id();
    if HoldsHash(c, hash) then Err(AlreadyKnown(hash))
    else if id in c then
      if uo.maxFeePerGas < MinReplacementFee(cfg, c[id].uo.maxFeePerGas)
      then Err(ReplacementUnderpriced(c[id].uo.maxFeePerGas, uo.maxFeePerGas))
      else Ok(hash)
    else if |OfSender(c, id.sender)| >= cfg.maxOpsPerSender
    then Err(SenderFull(id.sender, |OfSender(c, id.sender)|, cfg.maxOpsPerSender))
    else if |c| >= cfg.maxSize then Err(PoolFull(cfg.maxSize))
    else Ok(hash)
  }

  /** Contents after dropping every entry with one of the given digests. */
  ghost function DropHashes(c: Contents, hashes: seq<B256>): Contents {
    map id | id in c && c[id].hash !in hashes :: c[id]
  }

  /** Contents after dropping every entry under one of the given ids. */
  ghost function DropIds(c: Contents, ids: seq<UserOperationId>): Contents {
    map id | id in c && id !in ids :: c[id]
  }

  // ---------------------------------------------------------------- calls and runs

  datatype PoolState = PoolState(contents: Contents, nextSequence: nat)

  datatype PoolCall =
    | Add(uo: UserOperation, baseFee: uint128)
    | RemoveByHash(hash: B256)
    | RemoveById(id: UserOperationId)
    | Clear

  ghost function Apply(cfg: PoolConfig, h: Hasher, p: PoolState, call: PoolCall): PoolState {
    match call
    case Add(uo, baseFee) =>
      if AddVerdict(cfg, h, p.contents, uo).Err? then p
      else PoolState(p.contents[uo.Id() := NewEntry(h, uo, baseFee, p.nextSequence)],
                     Min(p.nextSequence + 1, U64_MAX))
    case RemoveByHash(hash) => p.(contents := DropHashes(p.contents, [hash]))
    case RemoveById(id) => p.(contents := DropIds(p.contents, [id]))
    case Clear => p.(contents := map[])
  }

  ghost function Run(cfg: PoolConfig, h: Hasher, p: PoolState, calls: seq<PoolCall>): PoolState {
    if calls == [] then p
    else Apply(cfg, h, Run(cfg, h, p, calls[..|calls| - 1]), calls[|calls| - 1])
  }

  /** Each entry sits under its own id and carries its own digest; digests are unique. */
  ghost predicate Keyed(h: Hasher, c: Contents) {
    && (forall id :: id in c ==>
          c[id].id == id && c[id].uo.Id() == id && c[id].hash == c[id].uo.Hash(h))
    && (forall a, b :: a in c && b in c && c[a].hash == c[b].hash ==> a == b)
  }

  ghost predicate WithinLimits(cfg: PoolConfig, c: Contents) {
    && |c| <= cfg.maxSize
    && (forall sender :: |OfSender(c, sender)| <= cfg.maxOpsPerSender)
  }

  /** Sequence numbers handed out so far stay below the next one until the counter saturates. */
  ghost predicate Sequenced(p: PoolState) {
    && p.nextSequence <= U64_MAX
    && (forall id :: id in p.contents ==>
          && p.contents[id].sequence <= p.nextSequence
          && (p.nextSequence < U64_MAX ==> p.contents[id].sequence < p.nextSequence))
  }

  ghost predicate WellFormed(cfg: PoolConfig, h: Hasher, p: PoolState) {
    Keyed(h, p.contents) && WithinLimits(cfg, p.contents) && Sequenced(p)
  }

  lemma InsertCounts(c: Contents, id: UserOperationId, e: PoolEntry, sender: Address)
    ensures |OfSender(c[id := e], sender)|
         == |OfSender(c, sender)| + if id !in c && id.sender == sender then 1 else 0
    ensures |c[id := e]| == |c| + if id in c then 0 else 1
  {
    if id !in c && id.sender == sender {
      assert OfSender(c[id := e], sender) == OfSender(c, sender) + {id};
    } else {
      assert OfSender(c[id := e], sender) == OfSender(c, sender);
    }
    assert c[id := e].Keys == c.Keys + {id};
    assert id in c ==> c.Keys + {id} == c.Keys;
    assert |c[id := e]| == |c[id := e].Keys| && |c| == |c.Keys|;
  }

  lemma SubsetSize<T>(a: set<T>, b: set<T>)
    requires a <= b
    ensures |a| <= |b|
  {
    assert b == a + (b - a);
  }

  lemma SubmapKeepsLimits(cfg: PoolConfig, h: Hasher, c: Contents, d: Contents)
    requires Keyed(h, c) && WithinLimits(cfg, c)
    requires d.Keys <= c.Keys && forall id :: id in d ==> d[id] == c[id]
    ensures Keyed(h, d) && WithinLimits(cfg, d)
  {
    SubsetSize(d.Keys, c.Keys);
    forall sender
      ensures |OfSender(d, sender)| <= cfg.maxOpsPerSender
    {
      SubsetSize(OfSender(d, sender), OfSender(c, sender));
    }
  }

  lemma AddKeepsLimits(cfg: PoolConfig, h: Hasher, c: Contents, uo: UserOperation, e: PoolEntry)
    requires WithinLimits(cfg, c) && AddVerdict(cfg, h, c, uo).Ok?
    ensures WithinLimits(cfg, c[uo.Id() := e])
  {
    var id := uo.Id();
    var d := c[id := e];
    InsertCounts(c, id, e, id.sender);
    forall sender
      ensures |OfSender(d, sender)| <= cfg.maxOpsPerSender
    {
      InsertCounts(c, id, e, sender);
    }
  }

  lemma AddKeepsWellFormed(cfg: PoolConfig, h: Hasher, p: PoolState, uo: UserOperation, baseFee: uint128)
    requires WellFormed(cfg, h, p)
    ensures WellFormed(cfg, h, Apply(cfg, h, p, PoolCall.Add(uo, baseFee)))
  {
    if AddVerdict(cfg, h, p.contents, uo).Ok? {
      AddKeepsLimits(cfg, h, p.contents, uo, NewEntry(h, uo, baseFee, p.nextSequence));
    }
  }

  lemma ApplyKeepsWellFormed(cfg: PoolConfig, h: Hasher, p: PoolState, call: PoolCall)
    requires WellFormed(cfg, h, p)
    ensures WellFormed(cfg, h, Apply(cfg, h, p, call))
  {
    var c := p.contents;
    match call
    case Add(uo, baseFee) => AddKeepsWellFormed(cfg, h, p, uo, baseFee);
    case RemoveByHash(hash) => SubmapKeepsLimits(cfg, h, c, DropHashes(c, [hash]));
    case RemoveById(id) => SubmapKeepsLimits(cfg, h, c, DropIds(c, [id]));
    case Clear => SubmapKeepsLimits(cfg, h, c, map[]);
  }

  /** Keys, limits and sequence numbers hold after every run of calls on an empty pool. */
  lemma {:induction false} ReachableWellFormed(cfg: PoolConfig, h: Hasher, calls: seq<PoolCall>)
    ensures WellFormed(cfg, h, Run(cfg, h, PoolState(map[], 0), calls))
  {
    if calls == [] {
      assert forall sender :: OfSender(map[], sender) == {};
    } else {
      ReachableWellFormed(cfg, h, calls[..|calls| - 1]);
      ApplyKeepsWellFormed(cfg, h, Run(cfg, h, PoolState(map[], 0), calls[..|calls| - 1]), calls[|calls| - 1]);
    }
  }

  // ---------------------------------------------------------------- replacements

  /** Neither the increase demanded of a replacement nor the resulting threshold leaves `u128`. */
  predicate ThresholdFits(cfg: PoolConfig, existing: uint128) {
    existing * cfg.replacementFeeBumpBps < U128_LIMIT && ExactBump(existing, cfg.replacementFeeBumpBps) < U128_LIMIT
  }

  /** The threshold is the configured bump, rounded down, exactly when it fits; otherwise it is lower. */
  lemma ThresholdExactIff(cfg: PoolConfig, existing: uint128)
    ensures MinReplacementFee(cfg, existing) <= ExactBump(existing, cfg.replacementFeeBumpBps)
    ensures MinReplacementFee(cfg, existing) == ExactBump(existing, cfg.replacementFeeBumpBps)
       <==> ThresholdFits(cfg, existing)
  {
    var product := existing * cfg.replacementFeeBumpBps;
    Reduced(product);
    if product >= U128_LIMIT {
      FarBelow(product % U128_LIMIT, product);
    }
    WrapAddMeaning(existing, WrapMul(existing, cfg.replacementFeeBumpBps) / BPS);
  }

  lemma FarBelow(wrapped: nat, product: nat)
    requires wrapped <= product - U128_LIMIT
    ensures wrapped / BPS < product / BPS
  {
  }

  /** The exception is real: over the largest fee, a tenth of it passes as a 10 percent bump. */
  lemma OverflowUndercuts(cfg: PoolConfig)
    requires cfg.replacementFeeBumpBps == 1000
    ensures MinReplacementFee(cfg, U128_LIMIT - 1) < U128_LIMIT / 10
  {
  }

  /** The call replaces the entry under `id`. */
  ghost predicate Replaces(cfg: PoolConfig, h: Hasher, c: Contents, call: PoolCall, id: UserOperationId) {
    call.Add? && call.uo.Id() == id && id in c && AddVerdict(cfg, h, c, call.uo).Ok?
  }

  /** How often a run of calls replaces the entry under `id`. */
  ghost function Replacements(cfg: PoolConfig, h: Hasher, p: PoolState, calls: seq<PoolCall>, id: UserOperationId): nat {
    if calls == [] then 0
    else
      var front := calls[..|calls| - 1];
      Replacements(cfg, h, p, front, id)
      + if Replaces(cfg, h, Run(cfg, h, p, front).contents, calls[|calls| - 1], id) then 1 else 0
  }

  /** There is an entry under `id`, and the threshold over its fee fits. */
  ghost predicate HasFitting(cfg: PoolConfig, c: Contents, id: UserOperationId) {
    id in c && ThresholdFits(cfg, c[id].uo.maxFeePerGas)
  }

  /** The entry is there all along a run of calls, and before each of them the threshold over its fee fits. */
  ghost predicate Stays(cfg: PoolConfig, h: Hasher, p: PoolState, calls: seq<PoolCall>, id: UserOperationId) {
    && id in Run(cfg, h, p, calls).contents
    && (calls != [] ==>
          && Stays(cfg, h, p, calls[..|calls| - 1], id)
          && HasFitting(cfg, Run(cfg, h, p, calls[..|calls| - 1]).contents, id))
  }

  lemma ReplacedOrSame(cfg: PoolConfig, h: Hasher, p: PoolState, call: PoolCall, id: UserOperationId)
    requires HasFitting(cfg, p.contents, id) && id in Apply(cfg, h, p, call).contents
    ensures var q, existing := Apply(cfg, h, p, call), p.contents[id].uo.maxFeePerGas;
            if Replaces(cfg, h, p.contents, call, id)
            then q.contents[id].uo.maxFeePerGas >= ExactBump(existing, cfg.replacementFeeBumpBps)
            else q.contents[id] == p.contents[id]
  {
    ThresholdExactIff(cfg, p.contents[id].uo.maxFeePerGas);
  }

  lemma StaysStep(cfg: PoolConfig, h: Hasher, p: PoolState, calls: seq<PoolCall>, id: UserOperationId)
    requires calls != [] && Stays(cfg, h, p, calls, id)
    ensures var front := calls[..|calls| - 1];
            && Stays(cfg, h, p, front, id) && HasFitting(cfg, Run(cfg, h, p, front).contents, id)
            && Run(cfg, h, p, calls) == Apply(cfg, h, Run(cfg, h, p, front), calls[|calls| - 1])
            && id in Run(cfg, h, p, calls).contents
  {
  }

  /** The fee under `id` stands at least one bump per replacement above the first. */
  ghost predicate Compounds(cfg: PoolConfig, h: Hasher, p: PoolState, calls: seq<PoolCall>, id: UserOperationId) {
    var c, k := Run(cfg, h, p, calls).contents, Replacements(cfg, h, p, calls, id);
    && id in p.contents && id in c
    && c[id].uo.maxFeePerGas >= Compounded(p.contents[id].uo.maxFeePerGas, cfg.replacementFeeBumpBps, k)
  }

  lemma CompoundStep(
    cfg: PoolConfig, h: Hasher, p: PoolState, call: PoolCall, id: UserOperationId, first: nat, k: nat)
    requires HasFitting(cfg, p.contents, id) && id in Apply(cfg, h, p, call).contents
    requires p.contents[id].uo.maxFeePerGas >= Compounded(first, cfg.replacementFeeBumpBps, k)
    ensures Apply(cfg, h, p, call).contents[id].uo.maxFeePerGas
         >= Compounded(first, cfg.replacementFeeBumpBps, k + if Replaces(cfg, h, p.contents, call, id) then 1 else 0)
  {
    ReplacedOrSame(cfg, h, p, call, id);
    ExactBumpMonotone(
      Compounded(first, cfg.replacementFeeBumpBps, k), p.contents[id].uo.maxFeePerGas, cfg.replacementFeeBumpBps);
  }

  lemma CompoundsNext(cfg: PoolConfig, h: Hasher, p: PoolState, calls: seq<PoolCall>, id: UserOperationId)
    requires calls != [] && Stays(cfg, h, p, calls, id) && Compounds(cfg, h, p, calls[..|calls| - 1], id)
    ensures Compounds(cfg, h, p, calls, id)
  {
    var front := calls[..|calls| - 1];
    StaysStep(cfg, h, p, calls, id);
    CompoundStep(cfg, h, Run(cfg, h, p, front), calls[|calls| - 1], id, p.contents[id].uo.maxFeePerGas,
                 Replacements(cfg, h, p, front, id));
  }

  /** Replacement fees compound over every run of calls that leaves an entry under `id` and fits. */
  lemma {:induction false} ReplacementsCompound(
    cfg: PoolConfig, h: Hasher, p: PoolState, calls: seq<PoolCall>, id: UserOperationId)
    requires Stays(cfg, h, p, calls, id)
    ensures Compounds(cfg, h, p, calls, id)
  {
    if calls != [] {
      ReplacementsCompound(cfg, h, p, calls[..|calls| - 1], id);
      CompoundsNext(cfg, h, p, calls, id);
    }
  }

  // ---------------------------------------------------------------- priority order

  /** `OrderEntry::cmp`: higher price, then earlier sequence, then smaller digest. */
  predicate Before(a: PoolEntry, b: PoolEntry) {
    || a.submitGasPrice > b.submitGasPrice
    || (a.submitGasPrice == b.submitGasPrice &&
        (a.sequence < b.sequence || (a.sequence == b.sequence && a.hash < b.hash)))
  }

  predicate SameKey(a: PoolEntry, b: PoolEntry) {
    a.submitGasPrice == b.submitGasPrice && a.sequence == b.sequence && a.hash == b.hash
  }

  ghost predicate Ranked(s: seq<PoolEntry>) {
    forall i, j :: 0 <= i < j < |s| ==> Before(s[i], s[j])
  }

  ghost predicate Member(c: Contents, e: PoolEntry) {
    e.id in c && c[e.id] == e
  }

  /** `r` is a best selection of at most `n` entries: ranked, and outranking everything left out. */
  ghost predicate IsBest(c: Contents, n: nat, r: seq<PoolEntry>) {
    && |r| == Min(n, |c|)
    && Ranked(r)
    && (forall e :: e in r ==> Member(c, e))
    && (forall e, x :: Member(c, e) && e !in r && x in r ==> Before(x, e))
  }

  /** Two best selections that agree so far: neither can be ahead at the next place. */
  lemma NotAhead(c: Contents, n: nat, r: seq<PoolEntry>, s: seq<PoolEntry>, k: nat)
    requires IsBest(c, n, r) && IsBest(c, n, s) && k < |r|
    requires forall i :: 0 <= i < k ==> r[i] == s[i]
    ensures !Before(r[k], s[k])
  {
    if r[k] in s {
      var m :| 0 <= m < |s| && s[m] == r[k];
    } else {
      assert r[k] in r && s[k] in s;
    }
  }

  lemma {:induction false} BestPrefixAgrees(h: Hasher, c: Contents, n: nat, r: seq<PoolEntry>, s: seq<PoolEntry>, k: nat)
    requires Keyed(h, c) && IsBest(c, n, r) && IsBest(c, n, s) && k <= |r|
    ensures forall i :: 0 <= i < k ==> r[i] == s[i]
  {
    if k > 0 {
      BestPrefixAgrees(h, c, n, r, s, k - 1);
      NotAhead(c, n, r, s, k - 1);
      NotAhead(c, n, s, r, k - 1);
      assert r[k - 1] in r && s[k - 1] in s;
    }
  }

  /** The best selection is unique. */
  lemma BestIsUnique(h: Hasher, c: Contents, n: nat, r: seq<PoolEntry>, s: seq<PoolEntry>)
    requires Keyed(h, c) && IsBest(c, n, r) && IsBest(c, n, s)
    ensures r == s
  {
    BestPrefixAgrees(h, c, n, r, s, |r|);
  }

  /** Among equal prices a later arrival never overtakes, until the sequence counter saturates. */
  lemma LateArrivalRanksLast(h: Hasher, p: PoolState, uo: UserOperation, baseFee: uint128, e: PoolEntry)
    requires Sequenced(p) && p.nextSequence < U64_MAX && Member(p.contents, e)
    requires e.submitGasPrice == uo.Fees().EffectiveGasPrice(baseFee)
    ensures Before(e, NewEntry(h, uo, baseFee, p.nextSequence))
  {
    assert p.contents[e.id].sequence < p.nextSequence;
  }

  // ---------------------------------------------------------------- where pooled entries stem from

  /** The price an operation pays at this base fee, computed on `u128`. */
  ghost predicate Pays(uo: UserOperation, baseFee: uint128, price: uint128) {
    price == Min(uo.maxFeePerGas, (baseFee + uo.maxPriorityFeePerGas) % U128_LIMIT)
  }

  /** Call `k` added the entry `e` at this base fee, and it has been pooled ever since. */
  ghost predicate AddedAt(
    cfg: PoolConfig, h: Hasher, p: PoolState, calls: seq<PoolCall>, id: UserOperationId, k: nat, e: PoolEntry)
  {
    && k < |calls| && calls[k].Add? && calls[k].uo == e.uo && e.uo.sender == id.sender && e.uo.nonce == id.nonce
    && Pays(e.uo, calls[k].baseFee, e.submitGasPrice)
    && e.sequence == Run(cfg, h, p, calls[..k]).nextSequence
    && (forall j :: k < j <= |calls| ==> Holds(Run(cfg, h, p, calls[..j]).contents, id, e))
  }

  ghost predicate Holds(c: Contents, id: UserOperationId, e: PoolEntry) {
    id in c && c[id] == e
  }

  /** One call keeps an entry, drops it, or enters it at the price its own fees and base fee give. */
  lemma ApplyEnters(cfg: PoolConfig, h: Hasher, p: PoolState, call: PoolCall, id: UserOperationId)
    requires id in Apply(cfg, h, p, call).contents
    ensures var e := Apply(cfg, h, p, call).contents[id];
            || Holds(p.contents, id, e)
            || (call.Add? && call.uo == e.uo && e.uo.sender == id.sender && e.uo.nonce == id.nonce
                && Pays(e.uo, call.baseFee, e.submitGasPrice) && e.sequence == p.nextSequence)
  {
  }

  lemma RunNext(cfg: PoolConfig, h: Hasher, p: PoolState, calls: seq<PoolCall>, j: nat)
    requires calls != [] && j < |calls|
    ensures var front := calls[..|calls| - 1];
            && front[..j] == calls[..j]
            && calls[..|calls|] == calls
            && Run(cfg, h, p, calls) == Apply(cfg, h, Run(cfg, h, p, front), calls[|calls| - 1])
  {
  }

  /** Every pooled entry carries the price of its operation at the base fee of the call that added it. */
  lemma {:induction false} EntriesTraced(cfg: PoolConfig, h: Hasher, calls: seq<PoolCall>, id: UserOperationId)
    returns (k: nat)
    requires id in Run(cfg, h, PoolState(map[], 0), calls).contents
    ensures AddedAt(cfg, h, PoolState(map[], 0), calls, id, k, Run(cfg, h, PoolState(map[], 0), calls).contents[id])
  {
    hide Apply;
    var p, n := PoolState(map[], 0), |calls|;
    if n == 0 {
      assert false;
    } else {
      var front := calls[..n - 1];
      var e := Run(cfg, h, p, calls).contents[id];
      RunNext(cfg, h, p, calls, n - 1);
      ApplyEnters(cfg, h, Run(cfg, h, p, front), calls[n - 1], id);
      if Holds(Run(cfg, h, p, front).contents, id, e) {
        k := EntriesTraced(cfg, h, front, id);
        forall j | k < j <= n
          ensures Holds(Run(cfg, h, p, calls[..j]).contents, id, e)
        {
          if j < n {
            RunNext(cfg, h, p, calls, j);
          }
        }
        RunNext(cfg, h, p, calls, k);
        assert front[k] == calls[k];
      } else {
        k := n - 1;
      }
    }
  }

  /** In a selection the entry `e` stands before `f` whenever `f` stands in it. */
  ghost predicate Precedes(r: seq<PoolEntry>, e: PoolEntry, f: PoolEntry) {
    forall j :: 0 <= j < |r| && r[j] == f ==> exists i :: 0 <= i < j && r[i] == e
  }

  /** As many as asked for and there are; higher price first, then earlier arrival, then smaller digest. */
  lemma SelectionOrder(c: Contents, n: nat, r: seq<PoolEntry>, e: PoolEntry, f: PoolEntry)
    requires IsBest(c, n, r) && Member(c, e) && Member(c, f)
    requires || e.submitGasPrice > f.submitGasPrice
             || (e.submitGasPrice == f.submitGasPrice && e.sequence < f.sequence)
             || (e.submitGasPrice == f.submitGasPrice && e.sequence == f.sequence && e.hash < f.hash)
    ensures |r| == (if n < |c| then n else |c|) && Precedes(r, e, f)
  {
    forall j | 0 <= j < |r| && r[j] == f
      ensures exists i :: 0 <= i < j && r[i] == e
    {
      assert r[j] in r;
      if e in r {
        var i :| 0 <= i < |r| && r[i] == e;
      } else {
        assert false;
      }
    }
  }

  /**
   * Of two operations pooled by a run the one paying more at the base fee of its own call stands first in every
   * selection; paying the same, the one added earlier does, until the sequence counter saturates.
   */
  lemma HigherPriceFirst(
    cfg: PoolConfig, h: Hasher, calls: seq<PoolCall>, a: UserOperationId, b: UserOperationId,
    n: nat, r: seq<PoolEntry>) returns (k: nat, l: nat)
    requires var c := Run(cfg, h, PoolState(map[], 0), calls).contents; a in c && b in c && IsBest(c, n, r)
    ensures var c := Run(cfg, h, PoolState(map[], 0), calls).contents;
            && AddedAt(cfg, h, PoolState(map[], 0), calls, a, k, c[a])
            && AddedAt(cfg, h, PoolState(map[], 0), calls, b, l, c[b])
            && (forall x, y :: Pays(calls[k].uo, calls[k].baseFee, x) && Pays(calls[l].uo, calls[l].baseFee, y) ==>
                  && (x > y ==> Precedes(r, c[a], c[b]))
                  && (x == y && k < l && Run(cfg, h, PoolState(map[], 0), calls[..l]).nextSequence < U64_MAX ==>
                        Precedes(r, c[a], c[b])))
  {
    hide Apply, Run, IsBest, WellFormed, Precedes;
    var p, c := PoolState(map[], 0), Run(cfg, h, PoolState(map[], 0), calls).contents;
    k := EntriesTraced(cfg, h, calls, a);
    l := EntriesTraced(cfg, h, calls, b);
    var e, f := c[a], c[b];
    MembersOfRun(cfg, h, calls, a, e);
    MembersOfRun(cfg, h, calls, b, f);
    if e.submitGasPrice > f.submitGasPrice {
      SelectionOrder(c, n, r, e, f);
    } else if e.submitGasPrice == f.submitGasPrice && k < l && Run(cfg, h, p, calls[..l]).nextSequence < U64_MAX {
      EarlierSequence(cfg, h, calls, a, e, k, l);
      SelectionOrder(c, n, r, e, f);
    }
  }

  lemma MembersOfRun(cfg: PoolConfig, h: Hasher, calls: seq<PoolCall>, id: UserOperationId, e: PoolEntry)
    requires Holds(Run(cfg, h, PoolState(map[], 0), calls).contents, id, e)
    ensures Member(Run(cfg, h, PoolState(map[], 0), calls).contents, e)
  {
    hide Run;
    ReachableWellFormed(cfg, h, calls);
  }

  lemma EarlierSequence(
    cfg: PoolConfig, h: Hasher, calls: seq<PoolCall>, a: UserOperationId, e: PoolEntry, k: nat, l: nat)
    requires AddedAt(cfg, h, PoolState(map[], 0), calls, a, k, e) && k < l < |calls|
    requires Run(cfg, h, PoolState(map[], 0), calls[..l]).nextSequence < U64_MAX
    ensures e.sequence < Run(cfg, h, PoolState(map[], 0), calls[..l]).nextSequence
  {
    hide Apply;
    ReachableWellFormed(cfg, h, calls[..l]);
    assert Holds(Run(cfg, h, PoolState(map[], 0), calls[..l]).contents, a, e);
  }

  // ---------------------------------------------------------------- what is admitted

  /** Admitted exactly when the digest is new, it outbids what it replaces, and the pool stays within its limits. */
  lemma AdmittedIffFits(cfg: PoolConfig, h: Hasher, c: Contents, uo: UserOperation, e: PoolEntry)
    requires Keyed(h, c) && WithinLimits(cfg, c)
    ensures var id := uo.Id();
            AddVerdict(cfg, h, c, uo).Ok? <==>
              && (forall x :: x in c ==> c[x].hash != uo.Hash(h))
              && (id in c ==> uo.maxFeePerGas >= MinReplacementFee(cfg, c[id].uo.maxFeePerGas))
              && WithinLimits(cfg, c[id := e])
  {
    var id := uo.Id();
    InsertCounts(c, id, e, id.sender);
    if AddVerdict(cfg, h, c, uo).Ok? {
      AddKeepsLimits(cfg, h, c, uo, e);
    }
  }

  /** A refusal names its reason, and the earlier check first. */
  lemma RefusalMeaning(cfg: PoolConfig, h: Hasher, c: Contents, uo: UserOperation)
    requires AddVerdict(cfg, h, c, uo).Err?
    ensures var id, known := uo.Id(), exists x :: x in c && c[x].hash == uo.Hash(h);
            match AddVerdict(cfg, h, c, uo).error
            case AlreadyKnown(hash) => known && hash == uo.Hash(h)
            case ReplacementUnderpriced(existing, offered) =>
              && !known && id in c && existing == c[id].uo.maxFeePerGas && offered == uo.maxFeePerGas
            case SenderFull(sender, count, max) =>
              && !known && id !in c && sender == uo.sender && max == cfg.maxOpsPerSender
              && count == |set x | x in c && x.sender == sender| >= max
            case PoolFull(max) => !known && id !in c && max == cfg.maxSize <= |c|
  {
    if AddVerdict(cfg, h, c, uo).error.SenderFull? {
      assert OfSender(c, uo.sender) == set x | x in c && x.sender == uo.sender;
    }
  }
}
