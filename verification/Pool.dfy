/** The operation pool with its four redundant indexes. */
module Pool {
  import opened Base
  import opened UserOperations
  import opened PoolModel

  // ---------------------------------------------------------------- hash and id indexes

  /** `byHash` and `byId` hold the same entries, each under its own key. */
  ghost predicate IndexesAgree(byHash: map<B256, PoolEntry>, byId: Contents) {
    && |byHash| == |byId|
    && (forall k :: k in byHash ==> byHash[k].hash == k && Member(byId, byHash[k]))
    && (forall id :: id in byId ==>
          byId[id].id == id && byId[id].hash in byHash && byHash[byId[id].hash] == byId[id])
  }

  lemma IndexesInsert(byHash: map<B256, PoolEntry>, byId: Contents, e: PoolEntry)
    requires IndexesAgree(byHash, byId) && e.hash !in byHash && e.id !in byId
    ensures IndexesAgree(byHash[e.hash := e], byId[e.id := e])
  {
  }

  lemma MinusSize<K, V>(m: map<K, V>, k: K)
    requires k in m
    ensures |m - {k}| == |m| - 1
  {
    assert m.Keys == (m - {k}).Keys + {k};
    assert |m| == |m.Keys| && |m - {k}| == |(m - {k}).Keys|;
  }

  lemma MinusThenPut<K, V>(m: map<K, V>, k: K, v: V)
    ensures (m - {k})[k := v] == m[k := v]
  {
  }

  lemma IndexesRemove(byHash: map<B256, PoolEntry>, byId: Contents, e: PoolEntry)
    requires IndexesAgree(byHash, byId) && Member(byId, e)
    ensures IndexesAgree(byHash - {e.hash}, byId - {e.id})
  {
    MinusSize(byHash, e.hash);
    MinusSize(byId, e.id);
  }

  // ---------------------------------------------------------------- the ordered set

  /** `BTreeSet::insert` on the ascending sequence of elements. */
  function InsertRanked(s: seq<PoolEntry>, e: PoolEntry): seq<PoolEntry> {
    if s == [] || Before(e, s[0]) then [e] + s
    else if SameKey(e, s[0]) then s
    else [s[0]] + InsertRanked(s[1..], e)
  }

  /** `BTreeSet::remove` on the ascending sequence of elements. */
  function RemoveRanked(s: seq<PoolEntry>, e: PoolEntry): seq<PoolEntry> {
    if s == [] || Before(e, s[0]) then s
    else if SameKey(e, s[0]) then s[1..]
    else [s[0]] + RemoveRanked(s[1..], e)
  }

  ghost predicate OrderAgrees(ordered: seq<PoolEntry>, byId: Contents) {
    && |ordered| == |byId|
    && Ranked(ordered)
    && (forall e :: e in ordered <==> Member(byId, e))
  }

  lemma {:induction false} InsertRankedMeaning(s: seq<PoolEntry>, e: PoolEntry)
    requires Ranked(s) && forall x :: x in s ==> x.hash != e.hash
    ensures var r := InsertRanked(s, e);
            && |r| == |s| + 1 && Ranked(r)
            && (forall x :: x in r <==> x == e || x in s)
  {
    if s == [] || Before(e, s[0]) {
    } else {
      assert s[0] in s;
      InsertRankedMeaning(s[1..], e);
      var t := InsertRanked(s[1..], e);
      forall i | 0 <= i < |t|
        ensures Before(s[0], t[i])
      {
        assert t[i] in t;
        if t[i] != e {
          var j :| 0 <= j < |s[1..]| && s[1..][j] == t[i];
          assert Before(s[0], s[j + 1]);
        }
      }
      assert forall x :: x in s <==> x == s[0] || x in s[1..];
    }
  }

  lemma {:induction false} RemoveRankedMeaning(s: seq<PoolEntry>, e: PoolEntry)
    requires Ranked(s) && e in s
    ensures var r := RemoveRanked(s, e);
            && |r| == |s| - 1 && Ranked(r)
            && (forall x :: x in r <==> x != e && x in s)
  {
    var k :| 0 <= k < |s| && s[k] == e;
    if k == 0 {
      assert forall x :: x in s <==> x == s[0] || x in s[1..];
      forall i | 0 <= i < |s[1..]|
        ensures s[1..][i] != e
      {
        assert Before(s[0], s[i + 1]);
      }
    } else {
      assert Before(s[0], s[k]);
      assert s[1..][k - 1] == e;
      RemoveRankedMeaning(s[1..], e);
      var t := RemoveRanked(s[1..], e);
      forall i | 0 <= i < |t|
        ensures Before(s[0], t[i])
      {
        assert t[i] in t;
        var j :| 0 <= j < |s[1..]| && s[1..][j] == t[i];
        assert Before(s[0], s[j + 1]);
      }
      assert forall x :: x in s <==> x == s[0] || x in s[1..];
    }
  }

  lemma OrderInsert(ordered: seq<PoolEntry>, byId: Contents, e: PoolEntry)
    requires OrderAgrees(ordered, byId) && e.id !in byId
    requires forall id :: id in byId ==> byId[id].id == id && byId[id].hash != e.hash
    ensures OrderAgrees(InsertRanked(ordered, e), byId[e.id := e])
  {
    InsertRankedMeaning(ordered, e);
  }

  lemma OrderRemove(ordered: seq<PoolEntry>, byId: Contents, e: PoolEntry)
    requires OrderAgrees(ordered, byId) && Member(byId, e)
    requires forall id :: id in byId ==> byId[id].id == id
    ensures OrderAgrees(RemoveRanked(ordered, e), byId - {e.id})
  {
    RemoveRankedMeaning(ordered, e);
    MinusSize(byId, e.id);
  }

  // ---------------------------------------------------------------- sender counters

  function CountOf(counts: map<Address, nat>, sender: Address): nat {
    if sender in counts then counts[sender] else 0
  }

  /** Counters equal the number of entries per sender, and no zero counter is kept. */
  ghost predicate CountsAgree(counts: map<Address, nat>, byId: Contents) {
    && (forall s :: CountOf(counts, s) == |OfSender(byId, s)|)
    && (forall s :: s in counts ==> counts[s] > 0)
  }

  function Decremented(counts: map<Address, nat>, sender: Address): map<Address, nat> {
    if sender !in counts then counts
    else if SaturatingSub(counts[sender], 1) == 0 then counts - {sender}
    else counts[sender := SaturatingSub(counts[sender], 1)]
  }

  lemma CountsInsert(counts: map<Address, nat>, byId: Contents, e: PoolEntry)
    requires CountsAgree(counts, byId) && e.id !in byId
    ensures CountsAgree(counts[e.id.sender := CountOf(counts, e.id.sender) + 1], byId[e.id := e])
  {
    var counts', byId' := counts[e.id.sender := CountOf(counts, e.id.sender) + 1], byId[e.id := e];
    forall s
      ensures CountOf(counts', s) == |OfSender(byId', s)|
    {
      InsertCounts(byId, e.id, e, s);
    }
  }

  lemma CountsRemove(counts: map<Address, nat>, byId: Contents, e: PoolEntry)
    requires CountsAgree(counts, byId) && Member(byId, e)
    ensures CountsAgree(Decremented(counts, e.id.sender), byId - {e.id})
  {
    var byId' := byId - {e.id};
    forall s
      ensures CountOf(Decremented(counts, e.id.sender), s) == |OfSender(byId', s)|
    {
      InsertCounts(byId', e.id, e, s);
      assert byId'[e.id := e] == byId;
    }
  }

  // ---------------------------------------------------------------- all four together

  datatype Tables = Tables(
    byHash: map<B256, PoolEntry>,
    byId: Contents,
    ordered: seq<PoolEntry>,
    senderCount: map<Address, nat>)

  /** The four structures describe one and the same pool. */
  ghost predicate Coherent(t: Tables) {
    IndexesAgree(t.byHash, t.byId) && OrderAgrees(t.ordered, t.byId) && CountsAgree(t.senderCount, t.byId)
  }

  ghost function Inserted(t: Tables, e: PoolEntry): Tables {
    Tables(
      t.byHash[e.hash := e],
      t.byId[e.id := e],
      InsertRanked(t.ordered, e),
      t.senderCount[e.id.sender := CountOf(t.senderCount, e.id.sender) + 1])
  }

  ghost function Removed(t: Tables, e: PoolEntry): Tables {
    Tables(
      t.byHash - {e.hash},
      t.byId - {e.id},
      RemoveRanked(t.ordered, e),
      Decremented(t.senderCount, e.id.sender))
  }

  datatype Added = Added(tables: Tables, nextSequence: nat, result: Result<B256, PoolError>)

  /** What the body of `add` does to the structures: removal of the replaced entry comes before the limits. */
  ghost function Adding(cfg: PoolConfig, h: Hasher, t: Tables, next: nat, uo: UserOperation, baseFee: uint128): Added {
    var id, hash := uo.Id(), uo.Hash(h);
    if hash in t.byHash then Added(t, next, Err(AlreadyKnown(hash)))
    else if id in t.byId && uo.maxFeePerGas < MinReplacementFee(cfg, t.byId[id].uo.maxFeePerGas) then
      Added(t, next, Err(ReplacementUnderpriced(t.byId[id].uo.maxFeePerGas, uo.maxFeePerGas)))
    else
      var t' := if id in t.byId then Removed(t, t.byId[id]) else t;
      var count := CountOf(t'.senderCount, id.sender);
      if count >= cfg.maxOpsPerSender then Added(t', next, Err(SenderFull(id.sender, count, cfg.maxOpsPerSender)))
      else if |t'.byHash| >= cfg.maxSize then Added(t', next, Err(PoolFull(cfg.maxSize)))
      else Added(Inserted(t', NewEntry(h, uo, baseFee, next)), Min(next + 1, U64_MAX), Ok(hash))
  }

  ghost function RemovingHash(t: Tables, hash: B256): Tables {
    if hash in t.byHash then Removed(t, t.byHash[hash]) else t
  }

  ghost function RemovingId(t: Tables, id: UserOperationId): Tables {
    if id in t.byId then Removed(t, t.byId[id]) else t
  }

  lemma InsertedCoherent(t: Tables, e: PoolEntry)
    requires Coherent(t) && e.hash !in t.byHash && e.id !in t.byId
    ensures Coherent(Inserted(t, e))
  {
    IndexesInsert(t.byHash, t.byId, e);
    OrderInsert(t.ordered, t.byId, e);
    CountsInsert(t.senderCount, t.byId, e);
  }

  lemma RemovedCoherent(t: Tables, e: PoolEntry)
    requires Coherent(t) && Member(t.byId, e)
    ensures Coherent(Removed(t, e))
  {
    IndexesRemove(t.byHash, t.byId, e);
    OrderRemove(t.ordered, t.byId, e);
    CountsRemove(t.senderCount, t.byId, e);
  }

  ghost predicate PoolOk(cfg: PoolConfig, h: Hasher, t: Tables, next: nat) {
    Coherent(t) && WellFormed(cfg, h, PoolState(t.byId, next))
  }

  /** The verdict on the tables and on the contents agree, and an error changes nothing. */
  ghost predicate AddAgrees(cfg: PoolConfig, h: Hasher, t: Tables, next: nat, uo: UserOperation, baseFee: uint128) {
    var a := Adding(cfg, h, t, next, uo, baseFee);
    && Coherent(a.tables)
    && a.result == AddVerdict(cfg, h, t.byId, uo)
    && PoolState(a.tables.byId, a.nextSequence) == Apply(cfg, h, PoolState(t.byId, next), PoolCall.Add(uo, baseFee))
    && (a.result.Err? ==> a.tables == t && a.nextSequence == next)
  }

  lemma AddKnown(cfg: PoolConfig, h: Hasher, t: Tables, next: nat, uo: UserOperation, baseFee: uint128)
    requires Coherent(t) && uo.Hash(h) in t.byHash
    ensures AddAgrees(cfg, h, t, next, uo, baseFee)
  {
    HashIndexAnswers(t, uo.Hash(h));
  }

  lemma AddReplacing(cfg: PoolConfig, h: Hasher, t: Tables, next: nat, uo: UserOperation, baseFee: uint128)
    requires Coherent(t) && WithinLimits(cfg, t.byId)
    requires uo.Hash(h) !in t.byHash && uo.Id() in t.byId
    ensures AddAgrees(cfg, h, t, next, uo, baseFee)
  {
    var e := NewEntry(h, uo, baseFee, next);
    HashIndexAnswers(t, e.hash);
    ReplacedCoherent(t, t.byId[e.id], e);
    RoomAfterRemoval(cfg, t, t.byId[e.id]);
    ReplacingVerdict(cfg, h, t, next, uo, baseFee);
  }

  /** With room after the removal, only the fee decides about a replacement. */
  lemma ReplacingVerdict(cfg: PoolConfig, h: Hasher, t: Tables, next: nat, uo: UserOperation, baseFee: uint128)
    requires uo.Hash(h) !in t.byHash && !HoldsHash(t.byId, uo.Hash(h)) && uo.Id() in t.byId
    requires |Removed(t, t.byId[uo.Id()]).byHash| < cfg.maxSize
    requires CountOf(Removed(t, t.byId[uo.Id()]).senderCount, uo.Id().sender) < cfg.maxOpsPerSender
    ensures var a := Adding(cfg, h, t, next, uo, baseFee);
            && a.result == AddVerdict(cfg, h, t.byId, uo)
            && (a.result.Err? ==> a.tables == t && a.nextSequence == next)
            && (a.result.Ok? ==>
                  && a.tables == Inserted(Removed(t, t.byId[uo.Id()]), NewEntry(h, uo, baseFee, next))
                  && a.nextSequence == Min(next + 1, U64_MAX))
  {
  }

  lemma AddFresh(cfg: PoolConfig, h: Hasher, t: Tables, next: nat, uo: UserOperation, baseFee: uint128)
    requires Coherent(t) && uo.Hash(h) !in t.byHash && uo.Id() !in t.byId
    ensures AddAgrees(cfg, h, t, next, uo, baseFee)
  {
    var e := NewEntry(h, uo, baseFee, next);
    HashIndexAnswers(t, e.hash);
    FreshCoherent(t, e);
    FreshVerdict(cfg, h, t, next, uo, baseFee);
  }

  /** Under a new id the counters decide as the contents do. */
  lemma FreshVerdict(cfg: PoolConfig, h: Hasher, t: Tables, next: nat, uo: UserOperation, baseFee: uint128)
    requires uo.Hash(h) !in t.byHash && !HoldsHash(t.byId, uo.Hash(h)) && uo.Id() !in t.byId
    requires CountOf(t.senderCount, uo.Id().sender) == |OfSender(t.byId, uo.Id().sender)| && |t.byHash| == |t.byId|
    ensures var a := Adding(cfg, h, t, next, uo, baseFee);
            && a.result == AddVerdict(cfg, h, t.byId, uo)
            && (a.result.Err? ==> a.tables == t && a.nextSequence == next)
            && (a.result.Ok? ==>
                  && a.tables == Inserted(t, NewEntry(h, uo, baseFee, next))
                  && a.nextSequence == Min(next + 1, U64_MAX))
  {
  }

  /**
   * From a coherent pool the removal of a replaced entry is never followed by a failure, so `add`
   * answers as the contents demand and every error leaves all four structures alone.
   */
  lemma AddRefines(cfg: PoolConfig, h: Hasher, t: Tables, next: nat, uo: UserOperation, baseFee: uint128)
    requires PoolOk(cfg, h, t, next)
    ensures AddAgrees(cfg, h, t, next, uo, baseFee)
    ensures PoolOk(cfg, h, Adding(cfg, h, t, next, uo, baseFee).tables, Adding(cfg, h, t, next, uo, baseFee).nextSequence)
  {
    ApplyKeepsWellFormed(cfg, h, PoolState(t.byId, next), PoolCall.Add(uo, baseFee));
    if uo.Hash(h) in t.byHash {
      AddKnown(cfg, h, t, next, uo, baseFee);
    } else if uo.Id() in t.byId {
      AddReplacing(cfg, h, t, next, uo, baseFee);
    } else {
      AddFresh(cfg, h, t, next, uo, baseFee);
    }
  }

  lemma RemoveHashRefines(cfg: PoolConfig, h: Hasher, t: Tables, next: nat, hash: B256)
    requires PoolOk(cfg, h, t, next)
    ensures hash in t.byHash <==> HoldsHash(t.byId, hash)
    ensures hash in t.byHash ==> Member(t.byId, t.byHash[hash]) && t.byHash[hash].hash == hash
    ensures PoolOk(cfg, h, RemovingHash(t, hash), next)
    ensures PoolState(RemovingHash(t, hash).byId, next) == Apply(cfg, h, PoolState(t.byId, next), PoolCall.RemoveByHash(hash))
  {
    HashIndexAnswers(t, hash);
    ApplyKeepsWellFormed(cfg, h, PoolState(t.byId, next), PoolCall.RemoveByHash(hash));
    if hash in t.byHash {
      RemovedCoherent(t, t.byHash[hash]);
    }
  }

  lemma RemoveIdRefines(cfg: PoolConfig, h: Hasher, t: Tables, next: nat, id: UserOperationId)
    requires PoolOk(cfg, h, t, next)
    ensures PoolOk(cfg, h, RemovingId(t, id), next)
    ensures PoolState(RemovingId(t, id).byId, next) == Apply(cfg, h, PoolState(t.byId, next), PoolCall.RemoveById(id))
  {
    ApplyKeepsWellFormed(cfg, h, PoolState(t.byId, next), PoolCall.RemoveById(id));
    DropOneId(t.byId, id);
    if id in t.byId {
      RemovedCoherent(t, t.byId[id]);
    }
  }

  lemma DropOneId(c: Contents, id: UserOperationId)
    ensures DropIds(c, [id]) == if id in c then c - {id} else c
  {
  }

  lemma EmptyRefines(cfg: PoolConfig, h: Hasher, next: nat)
    requires next <= U64_MAX
    ensures PoolOk(cfg, h, Tables(map[], map[], [], map[]), next)
  {
    assert forall s :: OfSender(map[], s) == {};
  }

  // ---------------------------------------------------------------- runs

  datatype Indexed = Indexed(tables: Tables, nextSequence: nat)

  /** One call on the four structures and the counter. */
  ghost function IndexedStep(cfg: PoolConfig, h: Hasher, x: Indexed, call: PoolCall): Indexed {
    match call
    case Add(uo, baseFee) =>
      var a := Adding(cfg, h, x.tables, x.nextSequence, uo, baseFee);
      Indexed(a.tables, a.nextSequence)
    case RemoveByHash(hash) => x.(tables := RemovingHash(x.tables, hash))
    case RemoveById(id) => x.(tables := RemovingId(x.tables, id))
    case Clear => x.(tables := Tables(map[], map[], [], map[]))
  }

  ghost function IndexedRun(cfg: PoolConfig, h: Hasher, calls: seq<PoolCall>): Indexed {
    if calls == [] then Indexed(Tables(map[], map[], [], map[]), 0)
    else IndexedStep(cfg, h, IndexedRun(cfg, h, calls[..|calls| - 1]), calls[|calls| - 1])
  }

  lemma IndexedStepRefines(cfg: PoolConfig, h: Hasher, x: Indexed, call: PoolCall)
    requires PoolOk(cfg, h, x.tables, x.nextSequence)
    ensures var y := IndexedStep(cfg, h, x, call);
            && PoolOk(cfg, h, y.tables, y.nextSequence)
            && PoolState(y.tables.byId, y.nextSequence) == Apply(cfg, h, PoolState(x.tables.byId, x.nextSequence), call)
  {
    match call
    case Add(uo, baseFee) => AddRefines(cfg, h, x.tables, x.nextSequence, uo, baseFee);
    case RemoveByHash(hash) => RemoveHashRefines(cfg, h, x.tables, x.nextSequence, hash);
    case RemoveById(id) => RemoveIdRefines(cfg, h, x.tables, x.nextSequence, id);
    case Clear => EmptyRefines(cfg, h, x.nextSequence);
  }

  /**
   * After every run of calls the four structures agree with each other, respect the limits, and
   * stand for what the same run does to plain contents.
   */
  lemma {:induction false} EveryRunCoherent(cfg: PoolConfig, h: Hasher, calls: seq<PoolCall>)
    ensures var x := IndexedRun(cfg, h, calls);
            && PoolOk(cfg, h, x.tables, x.nextSequence)
            && PoolState(x.tables.byId, x.nextSequence) == Run(cfg, h, PoolState(map[], 0), calls)
  {
    if calls == [] {
      EmptyRefines(cfg, h, 0);
    } else {
      EveryRunCoherent(cfg, h, calls[..|calls| - 1]);
      IndexedStepRefines(cfg, h, IndexedRun(cfg, h, calls[..|calls| - 1]), calls[|calls| - 1]);
    }
  }

  // ---------------------------------------------------------------- the pool

  class OperationPool {
    var byHash: map<B256, PoolEntry>
    var byId: map<UserOperationId, PoolEntry>
    var ordered: seq<PoolEntry>
    var senderCount: map<Address, nat>
    var nextSequence: nat
    const config: PoolConfig
    const hasher: Hasher

    ghost function All(): Tables
      reads this
    {
      Tables(byHash, byId, ordered, senderCount)
    }

    ghost function View(): PoolState
      reads this
    {
      PoolState(byId, nextSequence)
    }

    ghost predicate Valid()
      reads this
    {
      match View()
      case PoolState(_, next) => PoolOk(config, hasher, All(), next)
    }

    constructor (config: PoolConfig, hasher: Hasher)
      ensures Valid() && View() == PoolState(map[], 0)
      ensures this.config == config && this.hasher == hasher
    {
      byHash, byId, ordered, senderCount, nextSequence := map[], map[], [], map[], 0;
      this.config, this.hasher := config, hasher;
      EmptyRefines(config, hasher, 0);
    }

    /** The digest index is as large as the pool itself. */
    function Size(): (n: nat)
      reads this
      requires Valid()
      ensures n == |View().contents|
    {
      |byHash|
    }

    method Add(uo: UserOperation, baseFee: uint128) returns (r: Result<B256, PoolError>)
      requires Valid()
      modifies this
      ensures Valid()
      ensures r == AddVerdict(config, hasher, old(View()).contents, uo)
      ensures View() == Apply(config, hasher, old(View()), PoolCall.Add(uo, baseFee))
      ensures r.Err? ==> All() == old(All()) && nextSequence == old(nextSequence)
    {
      AddRefines(config, hasher, All(), nextSequence, uo, baseFee);
      r := AddInPlace(uo, baseFee);
    }

    /** The body of `add`, statement by statement, from any state of the four structures. */
    method AddInPlace(uo: UserOperation, baseFee: uint128) returns (r: Result<B256, PoolError>)
      modifies this
      ensures Added(All(), nextSequence, r) == Adding(config, hasher, old(All()), old(nextSequence), uo, baseFee)
    {
      var id, hash := uo.Id(), uo.Hash(hasher);
      if hash in byHash {
        return Err(AlreadyKnown(hash));
      }
      if id in byId {
        var entry := byId[id];
        var existingFee := entry.uo.maxFeePerGas;
        if uo.maxFeePerGas < MinReplacementFee(config, existingFee) {
          return Err(ReplacementUnderpriced(existingFee, uo.maxFeePerGas));
        }
        RemoveInner(entry);
      }
      var count := CountOf(senderCount, id.sender);
      if count >= config.maxOpsPerSender {
        return Err(SenderFull(id.sender, count, config.maxOpsPerSender));
      }
      if |byHash| >= config.maxSize {
        return Err(PoolFull(config.maxSize));
      }
      var sequence := nextSequence;
      nextSequence := Min(sequence + 1, U64_MAX);
      Insert(NewEntry(hasher, uo, baseFee, sequence));
      return Ok(hash);
    }

    /** The last block of `add`: enter the entry in all four structures. */
    method Insert(entry: PoolEntry)
      modifies `byHash, `byId, `ordered, `senderCount
      ensures All() == Inserted(old(All()), entry)
    {
      byHash := byHash[entry.hash := entry];
      byId := byId[entry.id := entry];
      ordered := InsertRanked(ordered, entry);
      senderCount := senderCount[entry.id.sender := CountOf(senderCount, entry.id.sender) + 1];
    }

    method RemoveInner(entry: PoolEntry)
      modifies `byHash, `byId, `ordered, `senderCount
      ensures All() == Removed(old(All()), entry)
    {
      byHash := byHash - {entry.hash};
      byId := byId - {entry.id};
      ordered := RemoveRanked(ordered, entry);
      senderCount := Decremented(senderCount, entry.id.sender);
    }

    method RemoveByHash(hash: B256) returns (removed: Option<PoolEntry>)
      requires Valid()
      modifies this
      ensures Valid()
      ensures View() == Apply(config, hasher, old(View()), PoolCall.RemoveByHash(hash))
      ensures removed.Some? <==> HoldsHash(old(byId), hash)
      ensures removed.Some? ==> Member(old(byId), removed.value) && removed.value.hash == hash
    {
      RemoveHashRefines(config, hasher, All(), nextSequence, hash);
      removed := RemoveByHashInPlace(hash);
    }

    method RemoveByHashInPlace(hash: B256) returns (removed: Option<PoolEntry>)
      modifies this
      ensures All() == RemovingHash(old(All()), hash) && nextSequence == old(nextSequence)
      ensures removed == if hash in old(byHash) then Some(old(byHash)[hash]) else None
    {
      if hash !in byHash {
        return None;
      }
      var entry := byHash[hash];
      RemoveInner(entry);
      return Some(entry);
    }

    method RemoveById(id: UserOperationId) returns (removed: Option<PoolEntry>)
      requires Valid()
      modifies this
      ensures Valid()
      ensures View() == Apply(config, hasher, old(View()), PoolCall.RemoveById(id))
      ensures removed == if id in old(byId) then Some(old(byId)[id]) else None
    {
      RemoveIdRefines(config, hasher, All(), nextSequence, id);
      removed := RemoveByIdInPlace(id);
    }

    method RemoveByIdInPlace(id: UserOperationId) returns (removed: Option<PoolEntry>)
      modifies this
      ensures All() == RemovingId(old(All()), id) && nextSequence == old(nextSequence)
      ensures removed == if id in old(byId) then Some(old(byId)[id]) else None
    {
      if id !in byId {
        return None;
      }
      var entry := byId[id];
      RemoveInner(entry);
      return Some(entry);
    }

    /** The first entries of the ordered set. */
    function BestOperations(maxCount: nat): (r: seq<PoolEntry>)
      requires Valid()
      reads this
      ensures IsBest(View().contents, maxCount, r)
    {
      BestOfRanked(ordered, byId, maxCount);
      ordered[..Min(maxCount, |ordered|)]
    }

    method Clear()
      requires Valid()
      modifies this
      ensures Valid()
      ensures View() == Apply(config, hasher, old(View()), PoolCall.Clear)
      ensures View().contents == map[] && nextSequence == old(nextSequence)
    {
      EmptyRefines(config, hasher, nextSequence);
      byHash, byId, ordered, senderCount := map[], map[], [], map[];
    }

    /** Highest pooled sequence under (sender, key), found by scanning the id index. */
    method MaxNonceSequence(sender: Address, nonceKey: nat) returns (max: Option<nat>)
      ensures IsMaxSequence(View().contents, sender, nonceKey, max)
    {
      max := None;
      var todo := byId.Keys;
      while todo != {}
        invariant todo <= byId.Keys
        invariant max.Some? ==> exists id :: id in byId && InChain(id, sender, nonceKey) && id.NonceSequence() == max.value
        invariant forall id :: id in byId && id !in todo && InChain(id, sender, nonceKey) ==>
                    max.Some? && id.NonceSequence() <= max.value
        decreases todo
      {
        var id :| id in todo;
        if InChain(id, sender, nonceKey) && (max.None? || max.value < id.NonceSequence()) {
          max := Some(id.NonceSequence());
        }
        todo := todo - {id};
      }
    }
  }

  /** Looking a digest up in the hash index answers for the whole pool. */
  lemma HashIndexAnswers(t: Tables, hash: B256)
    requires Coherent(t)
    ensures hash in t.byHash <==> HoldsHash(t.byId, hash)
    ensures DropHashes(t.byId, [hash])
         == if hash in t.byHash then t.byId - {t.byHash[hash].id} else t.byId
  {
    if hash in t.byHash {
      assert t.byHash[hash].id in t.byId;
    }
  }

  /** Removing one entry always leaves room for one more, in total and for its sender. */
  lemma RoomAfterRemoval(cfg: PoolConfig, t: Tables, e: PoolEntry)
    requires |t.byHash| <= cfg.maxSize && e.hash in t.byHash
    requires CountOf(t.senderCount, e.id.sender) == |OfSender(t.byId, e.id.sender)| <= cfg.maxOpsPerSender
    requires e.id in t.byId
    ensures |Removed(t, e).byHash| < cfg.maxSize
    ensures CountOf(Removed(t, e).senderCount, e.id.sender) < cfg.maxOpsPerSender
  {
    MinusSize(t.byHash, e.hash);
    assert e.id in OfSender(t.byId, e.id.sender);
  }

  lemma FreshCoherent(t: Tables, e: PoolEntry)
    requires Coherent(t) && e.hash !in t.byHash && e.id !in t.byId
    ensures Coherent(Inserted(t, e)) && Inserted(t, e).byId == t.byId[e.id := e]
    ensures CountOf(t.senderCount, e.id.sender) == |OfSender(t.byId, e.id.sender)| && |t.byHash| == |t.byId|
  {
    InsertedCoherent(t, e);
  }

  lemma ReplacedCoherent(t: Tables, e: PoolEntry, e': PoolEntry)
    requires Coherent(t) && Member(t.byId, e) && e'.id == e.id && e'.hash !in t.byHash
    ensures Coherent(Inserted(Removed(t, e), e')) && Inserted(Removed(t, e), e').byId == t.byId[e.id := e']
  {
    RemovedCoherent(t, e);
    InsertedCoherent(Removed(t, e), e');
    MinusThenPut(t.byId, e.id, e');
  }

  lemma InPrefix(s: seq<PoolEntry>, k: nat, j: nat)
    requires j < |s| && k <= |s|
    ensures j < k ==> s[j] in s[..k]
  {
    assert j < k ==> s[..k][j] == s[j];
  }

  lemma BestOfRanked(ordered: seq<PoolEntry>, byId: Contents, n: nat)
    requires OrderAgrees(ordered, byId)
    ensures IsBest(byId, n, ordered[..Min(n, |ordered|)])
  {
    var k := Min(n, |ordered|);
    var r := ordered[..k];
    forall e, x | Member(byId, e) && e !in r && x in r
      ensures Before(x, e)
    {
      var i :| 0 <= i < k && r[i] == x;
      var j :| 0 <= j < |ordered| && ordered[j] == e;
      assert j >= k by { InPrefix(ordered, k, j); }
    }
  }

  /** `id` belongs to the nonce chain (sender, key). */
  predicate InChain(id: UserOperationId, sender: Address, nonceKey: int) {
    id.sender == sender && id.NonceKey() == nonceKey
  }

  ghost predicate IsMaxSequence(c: Contents, sender: Address, nonceKey: nat, max: Option<nat>) {
    match max
    case Some(m) =>
      && (exists id :: id in c && InChain(id, sender, nonceKey) && id.NonceSequence() == m)
      && (forall id :: id in c && InChain(id, sender, nonceKey) ==> id.NonceSequence() <= m)
    case None => forall id :: id in c ==> !InChain(id, sender, nonceKey)
  }
}
