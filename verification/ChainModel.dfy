/** The chain watcher as a transition system: reorg rewinding, event scanning, bounded history. */
module ChainModel {
  import opened Base
  import opened UserOperations
  import opened PoolModel

  datatype BlockEntry = BlockEntry(number: nat, hash: B256, baseFee: uint64)

  datatype Header = Header(hash: B256, parentHash: B256, baseFeePerGas: Option<uint64>)

  datatype Log = Log(topics: seq<B256>)

  /** What the node answers during one poll; every query may fail. */
  datatype PollAnswers = PollAnswers(
    head: Result<nat, ProviderError>,
    block: nat -> Result<Option<Header>, ProviderError>,
    logs: nat -> Result<seq<Log>, ProviderError>)

  /** `parents` (the parent digest of each history entry) and `scans` are history variables. */
  datatype Watch = Watch(
    history: seq<BlockEntry>,
    parents: seq<B256>,
    lastBlock: nat,
    scans: seq<nat>,
    pool: Contents)

  /** The watcher after some work, and whether that work succeeded. */
  datatype Stepped = Stepped(watch: Watch, ok: bool)

  // ---------------------------------------------------------------- one block

  /** Search from the newest entry backwards, starting `i` entries back. */
  function DepthFrom(history: seq<BlockEntry>, parent: B256, i: nat): (d: nat)
    requires i <= |history|
    ensures i <= d <= |history|
    decreases |history| - i
  {
    if i == |history| || history[|history| - 1 - i].hash == parent then i
    else DepthFrom(history, parent, i + 1)
  }

  /** Distance from the newest entry to the newest one with digest `parent`, or the whole length. */
  function DetectReorgDepth(history: seq<BlockEntry>, parent: B256): (d: nat)
    ensures d <= |history|
  {
    DepthFrom(history, parent, 0)
  }

  /** The user operations a log list reports: logs with fewer than two topics are skipped. */
  function MinedHashes(logs: seq<Log>): seq<B256> {
    if logs == [] then [] else MinedHashes(logs[..|logs| - 1]) + LoggedHash(logs[|logs| - 1])
  }

  function LoggedHash(log: Log): seq<B256> {
    if |log.topics| < 2 then [] else [log.topics[1]]
  }

  function KeepLast<T>(s: seq<T>, n: nat): seq<T> {
    if |s| <= n then s else s[|s| - n..]
  }

  /** The next block in number does not build on the newest entry. */
  ghost predicate Reorgs(w: Watch, n: nat, h: Header) {
    && w.history != []
    && h.parentHash != w.history[|w.history| - 1].hash
    && n == w.history[|w.history| - 1].number + 1
  }

  ghost function HandleReorg(w: Watch, depth: nat): Watch
    requires depth <= |w.history| && |w.parents| == |w.history|
  {
    var k := |w.history| - depth;
    w.(history := w.history[..k], parents := w.parents[..k],
       lastBlock := if k > 0 then w.history[k - 1].number else w.lastBlock)
  }

  ghost function Rewound(w: Watch, n: nat, h: Header): (r: Watch)
    requires |w.parents| == |w.history|
    ensures |r.parents| == |r.history|
  {
    var depth := DetectReorgDepth(w.history, h.parentHash);
    if Reorgs(w, n, h) && depth > 0 then HandleReorg(w, depth) else w
  }

  /** A block without a base fee counts as 0. */
  function BlockFee(h: Header): uint64 {
    match h.baseFeePerGas case Some(f) => f case None => 0
  }

  ghost function Scanned(w: Watch, n: nat, logs: seq<Log>): Watch {
    w.(scans := w.scans + [n], pool := DropHashes(w.pool, MinedHashes(logs)))
  }

  ghost function Pushed(max: nat, w: Watch, n: nat, h: Header): (r: Watch)
    requires |w.parents| == |w.history|
    ensures |r.parents| == |r.history|
  {
    w.(history := KeepLast(w.history + [BlockEntry(n, h.hash, BlockFee(h))], max),
       parents := KeepLast(w.parents + [h.parentHash], max))
  }

  ghost function Process(max: nat, w: Watch, n: nat, a: PollAnswers): (r: Stepped)
    requires |w.parents| == |w.history|
    ensures |r.watch.parents| == |r.watch.history|
  {
    match a.block(n)
    case Ok(Some(h)) =>
      (match a.logs(n)
       case Ok(logs) => Stepped(Pushed(max, Scanned(Rewound(w, n, h), n, logs), n, h), true)
       case Err(_) => Stepped(Rewound(w, n, h), false))
    case _ => Stepped(w, false)
  }

  // ---------------------------------------------------------------- one poll

  /** Process the blocks from `n` to `head`, stopping at the first failure. */
  ghost function PollFrom(max: nat, w: Watch, n: nat, head: nat, a: PollAnswers): (r: Stepped)
    requires |w.parents| == |w.history|
    ensures |r.watch.parents| == |r.watch.history|
    decreases head + 1 - n
  {
    if n > head then Stepped(w, true)
    else
      var Stepped(w', ok) := Process(max, w, n, a);
      if ok then PollFrom(max, w', n + 1, head, a) else Stepped(w', false)
  }

  ghost function Polled(max: nat, w: Watch, a: PollAnswers): (r: Stepped)
    requires |w.parents| == |w.history|
    ensures |r.watch.parents| == |r.watch.history|
  {
    match a.head
    case Err(_) => Stepped(w, false)
    case Ok(head) =>
      if head <= w.lastBlock then Stepped(w, true)
      else
        Committed(PollFrom(max, w, w.lastBlock + 1, head, a), head)
  }

  lemma PollFromStep(max: nat, w: Watch, n: nat, head: nat, a: PollAnswers)
    requires |w.parents| == |w.history| && n <= head
    ensures PollFrom(max, w, n, head, a)
         == var Stepped(w', ok) := Process(max, w, n, a); if ok then PollFrom(max, w', n + 1, head, a) else Stepped(w', false)
  {
  }

  /** A run over blocks that succeeds does so from its second block on. */
  lemma PollFromOk(max: nat, w: Watch, n: nat, head: nat, a: PollAnswers, r: Stepped)
    requires |w.parents| == |w.history| && n <= head && r == PollFrom(max, w, n, head, a) && r.ok
    ensures Process(max, w, n, a).ok && r == PollFrom(max, Process(max, w, n, a).watch, n + 1, head, a)
  {
  }

  /** `lastBlock` reaches the head only when every block went through. */
  ghost function Committed(r: Stepped, head: nat): Stepped {
    if r.ok then r.(watch := r.watch.(lastBlock := head)) else r
  }

  /** The watcher after its start-up query, which may have failed. */
  ghost function Started(initial: Result<nat, ProviderError>, pool: Contents): Watch {
    Watch([], [], match initial { case Ok(n) => n case Err(_) => 0 }, [], pool)
  }

  /** Between polls other parties may change the pool. */
  datatype WatchEvent = Poll(answers: PollAnswers) | PoolChanged(pool: Contents)

  ghost function Observe(max: nat, w: Watch, ev: WatchEvent): (r: Watch)
    requires |w.parents| == |w.history|
    ensures |r.parents| == |r.history|
  {
    match ev
    case Poll(a) => Polled(max, w, a).watch
    case PoolChanged(pool) => w.(pool := pool)
  }

  ghost function WatchRun(max: nat, start: Watch, evs: seq<WatchEvent>): (w: Watch)
    requires |start.parents| == |start.history|
    ensures |w.parents| == |w.history|
  {
    if evs == [] then start else Observe(max, WatchRun(max, start, evs[..|evs| - 1]), evs[|evs| - 1])
  }

  // ---------------------------------------------------------------- the stored base fee

  /** The base fee is stored as soon as the header is there, whatever happens next. */
  ghost function FeeAfterBlock(a: PollAnswers, n: nat, fee: uint64): uint64 {
    match a.block(n)
    case Ok(Some(h)) => BlockFee(h)
    case _ => fee
  }

  ghost predicate Serves(a: PollAnswers, n: nat) {
    a.block(n).Ok? && a.block(n).value.Some? && a.logs(n).Ok?
  }

  /** The stored base fee after the blocks from `n` to `head`, stopping at the first failure. */
  ghost function FeeAfter(a: PollAnswers, n: nat, head: nat, fee: uint64): uint64
    decreases head + 1 - n
  {
    if n > head then fee
    else if Serves(a, n) then FeeAfter(a, n + 1, head, FeeAfterBlock(a, n, fee))
    else FeeAfterBlock(a, n, fee)
  }

  ghost function PolledFee(w: Watch, a: PollAnswers, fee: uint64): uint64 {
    if a.head.Ok? && a.head.value > w.lastBlock then FeeAfter(a, w.lastBlock + 1, a.head.value, fee) else fee
  }

  lemma ProcessServes(max: nat, w: Watch, n: nat, a: PollAnswers)
    requires |w.parents| == |w.history|
    ensures Process(max, w, n, a).ok <==> Serves(a, n)
  {
  }

  /** A successful poll over new blocks leaves the base fee of the head block stored. */
  lemma {:induction false} SuccessStoresHeadFee(max: nat, w: Watch, n: nat, head: nat, a: PollAnswers, fee: uint64)
    requires |w.parents| == |w.history| && n <= head && PollFrom(max, w, n, head, a).ok
    ensures Serves(a, head) && FeeAfter(a, n, head, fee) == BlockFee(a.block(head).value.value)
    decreases head + 1 - n
  {
    PollFromStep(max, w, n, head, a);
    ProcessServes(max, w, n, a);
    if n < head {
      SuccessStoresHeadFee(max, Process(max, w, n, a).watch, n + 1, head, a, FeeAfterBlock(a, n, fee));
    }
  }

  // ---------------------------------------------------------------- reorg depth

  lemma {:induction false} DepthFromMeaning(history: seq<BlockEntry>, parent: B256, i: nat)
    requires i <= |history|
    ensures var k := |history| - DepthFrom(history, parent, i);
            && (k > 0 ==> history[k - 1].hash == parent)
            && (forall j :: k <= j < |history| - i ==> history[j].hash != parent)
    decreases |history| - i
  {
    if i < |history| && history[|history| - 1 - i].hash != parent {
      DepthFromMeaning(history, parent, i + 1);
    }
  }

  /** Popping the detected depth exposes the newest entry with the new parent's digest, or empties the history. */
  lemma ReorgDepthMeaning(history: seq<BlockEntry>, parent: B256)
    ensures var k := |history| - DetectReorgDepth(history, parent);
            && (k > 0 ==> history[k - 1].hash == parent)
            && (forall i :: k <= i < |history| ==> history[i].hash != parent)
  {
    DepthFromMeaning(history, parent, 0);
  }

  // ---------------------------------------------------------------- scan coverage

  /** Every block after `initial` up to `n` has been scanned. */
  ghost predicate Covered(initial: nat, scans: seq<nat>, n: nat) {
    forall b :: initial < b <= n ==> b in scans
  }

  ghost predicate CoverageOk(initial: nat, w: Watch) {
    && Covered(initial, w.scans, w.lastBlock)
    && (forall i :: 0 <= i < |w.history| ==> Covered(initial, w.scans, w.history[i].number))
  }

  lemma ProcessKeepsCoverage(max: nat, initial: nat, w: Watch, n: nat, a: PollAnswers)
    requires |w.parents| == |w.history| && CoverageOk(initial, w) && n > 0 && Covered(initial, w.scans, n - 1)
    ensures CoverageOk(initial, Process(max, w, n, a).watch)
    ensures Process(max, w, n, a).ok ==> Covered(initial, Process(max, w, n, a).watch.scans, n)
  {
    if a.block(n).Ok? && a.block(n).value.Some? {
      var w' := Rewound(w, n, a.block(n).value.value);
      assert CoverageOk(initial, w');
      if a.logs(n).Ok? {
        var scans := w.scans + [n];
        assert Covered(initial, scans, n);
        forall b | Covered(initial, w.scans, b)
          ensures Covered(initial, scans, b)
        {
        }
      }
    }
  }

  lemma {:induction false} PollFromKeepsCoverage(max: nat, initial: nat, w: Watch, n: nat, head: nat, a: PollAnswers)
    requires |w.parents| == |w.history| && CoverageOk(initial, w)
    requires 0 < n <= head + 1 && Covered(initial, w.scans, n - 1)
    ensures var Stepped(w', ok) := PollFrom(max, w, n, head, a);
            CoverageOk(initial, w') && (ok ==> Covered(initial, w'.scans, head))
    decreases head + 1 - n
  {
    if n <= head {
      ProcessKeepsCoverage(max, initial, w, n, a);
      var Stepped(w', ok) := Process(max, w, n, a);
      if ok {
        PollFromKeepsCoverage(max, initial, w', n + 1, head, a);
      }
    }
  }

  lemma PolledKeepsCoverage(max: nat, initial: nat, w: Watch, a: PollAnswers)
    requires |w.parents| == |w.history| && CoverageOk(initial, w)
    ensures CoverageOk(initial, Polled(max, w, a).watch)
  {
    if a.head.Ok? && a.head.value > w.lastBlock {
      PollFromKeepsCoverage(max, initial, w, w.lastBlock + 1, a.head.value, a);
    }
  }

  /**
   * On every run, whatever fails or reorganizes, each block number after the initial one up to
   * `lastBlock` has been scanned for user-operation events.
   */
  lemma {:induction false} EveryBlockScanned(
    max: nat, initial: Result<nat, ProviderError>, pool: Contents, evs: seq<WatchEvent>)
    ensures CoverageOk(Started(initial, pool).lastBlock, WatchRun(max, Started(initial, pool), evs))
  {
    if evs != [] {
      var front, start := evs[..|evs| - 1], Started(initial, pool);
      EveryBlockScanned(max, initial, pool, front);
      if evs[|evs| - 1].Poll? {
        PolledKeepsCoverage(max, start.lastBlock, WatchRun(max, start, front), evs[|evs| - 1].answers);
      }
    }
  }

  ghost function Range(n: nat, head: nat): seq<nat> {
    if n > head then [] else seq(head + 1 - n, i requires 0 <= i < head + 1 - n => n + i)
  }

  /** The scans went on from these over the block numbers from `n` to `head`, each once and in order. */
  ghost predicate ScansOnce(before: seq<nat>, n: nat, head: nat, after: seq<nat>) {
    after == before + Range(n, head)
  }

  lemma ProcessScans(max: nat, w: Watch, n: nat, a: PollAnswers)
    requires |w.parents| == |w.history| && Process(max, w, n, a).ok
    ensures Process(max, w, n, a).watch.scans == w.scans + [n]
  {
  }

  lemma RangeHead(n: nat, head: nat)
    requires n <= head
    ensures Range(n, head) == [n] + Range(n + 1, head)
  {
  }

  lemma ScansOnceStep(max: nat, w: Watch, n: nat, head: nat, a: PollAnswers, after: seq<nat>)
    requires |w.parents| == |w.history| && n <= head && Process(max, w, n, a).ok
    requires ScansOnce(Process(max, w, n, a).watch.scans, n + 1, head, after)
    ensures ScansOnce(w.scans, n, head, after)
  {
    hide Process, Range;
    ProcessScans(max, w, n, a);
    RangeHead(n, head);
  }

  /** A successful poll scans exactly the new block numbers, each once and in order. */
  lemma {:induction false} SuccessScansOnce(max: nat, w: Watch, n: nat, head: nat, a: PollAnswers, r: Stepped)
    requires |w.parents| == |w.history| && r == PollFrom(max, w, n, head, a) && r.ok
    ensures ScansOnce(w.scans, n, head, r.watch.scans)
    decreases head + 1 - n
  {
    hide Process;
    if n <= head {
      PollFromOk(max, w, n, head, a, r);
      SuccessScansOnce(max, Process(max, w, n, a).watch, n + 1, head, a, r);
      ScansOnceStep(max, w, n, head, a, r.watch.scans);
    }
  }

  /** Some log of block `n` names the digest: it has at least two topics, and its second one is the digest. */
  ghost predicate Reports(a: PollAnswers, n: nat, hash: B256) {
    && a.logs(n).Ok?
    && exists k :: 0 <= k < |a.logs(n).value| && |a.logs(n).value[k].topics| >= 2 && a.logs(n).value[k].topics[1] == hash
  }

  /** The digests collected from a log list are the second topics of its logs that have one. */
  lemma {:induction false} MinedHashesMeaning(logs: seq<Log>, hash: B256)
    ensures hash in MinedHashes(logs)
       <==> exists k :: 0 <= k < |logs| && |logs[k].topics| >= 2 && logs[k].topics[1] == hash
  {
    if logs != [] {
      MinedHashesMeaning(logs[..|logs| - 1], hash);
    }
  }

  /** No block from `n` to `head` reports the digest as mined. */
  ghost predicate Unreported(a: PollAnswers, n: nat, head: nat, hash: B256) {
    forall b: nat :: n <= b <= head ==> !Reports(a, b, hash)
  }

  /** A processed block takes exactly the entries it reports out of the pool; a failed one takes none. */
  lemma ProcessPool(max: nat, w: Watch, n: nat, a: PollAnswers, id: UserOperationId)
    requires |w.parents| == |w.history|
    ensures var s := Process(max, w, n, a);
            && (id in s.watch.pool <==> id in w.pool && (s.ok ==> !Reports(a, n, w.pool[id].hash)))
            && (id in s.watch.pool ==> s.watch.pool[id] == w.pool[id])
  {
    if a.logs(n).Ok? && id in w.pool {
      MinedHashesMeaning(a.logs(n).value, w.pool[id].hash);
    }
  }

  /** Of the entries in `c` exactly those not reported from `n` to `head` are left in `d`, unchanged. */
  ghost predicate Cleaned(a: PollAnswers, n: nat, head: nat, c: Contents, d: Contents, id: UserOperationId) {
    && (id in d <==> id in c && Unreported(a, n, head, c[id].hash))
    && (id in d ==> d[id] == c[id])
  }

  lemma CleanedStep(max: nat, w: Watch, n: nat, head: nat, a: PollAnswers, d: Contents, id: UserOperationId)
    requires |w.parents| == |w.history| && n <= head && Process(max, w, n, a).ok
    requires Cleaned(a, n + 1, head, Process(max, w, n, a).watch.pool, d, id)
    ensures Cleaned(a, n, head, w.pool, d, id)
  {
    ProcessPool(max, w, n, a, id);
    if id in w.pool {
      UnreportedSplit(a, n, head, w.pool[id].hash);
    }
  }

  /** A successful poll leaves exactly the entries that no new block reports as mined, unchanged. */
  lemma {:induction false} SuccessCleansPool(
    max: nat, w: Watch, n: nat, head: nat, a: PollAnswers, r: Stepped, id: UserOperationId)
    requires |w.parents| == |w.history| && r == PollFrom(max, w, n, head, a) && r.ok
    ensures Cleaned(a, n, head, w.pool, r.watch.pool, id)
    decreases head + 1 - n
  {
    hide Process;
    if n <= head {
      PollFromOk(max, w, n, head, a, r);
      SuccessCleansPool(max, Process(max, w, n, a).watch, n + 1, head, a, r, id);
      CleanedStep(max, w, n, head, a, r.watch.pool, id);
    }
  }

  lemma UnreportedSplit(a: PollAnswers, n: nat, head: nat, hash: B256)
    requires n <= head
    ensures Unreported(a, n, head, hash) <==> !Reports(a, n, hash) && Unreported(a, n + 1, head, hash)
  {
  }

  // ---------------------------------------------------------------- history linkage

  /** Numbered upwards, and each entry the hash-parent of the next. */
  ghost predicate ChainOk(history: seq<BlockEntry>, parents: seq<B256>) {
    && |parents| == |history|
    && (forall i, j :: 0 <= i < j < |history| ==> history[i].number < history[j].number)
    && (forall i :: 0 < i < |history| ==> parents[i] == history[i - 1].hash)
  }

  ghost predicate Linked(max: nat, w: Watch) {
    ChainOk(w.history, w.parents) && |w.history| <= max
  }

  ghost predicate EndsAt(w: Watch, n: int) {
    w.history != [] ==> w.history[|w.history| - 1].number == n
  }

  lemma RewoundLinked(max: nat, w: Watch, n: nat, h: Header)
    requires Linked(max, w) && EndsAt(w, n - 1)
    ensures var r := Rewound(w, n, h);
            && Linked(max, r)
            && (r.history != [] ==> r.history[|r.history| - 1].hash == h.parentHash)
            && (r.history != [] ==> r.history[|r.history| - 1].number < n)
            && (Reorgs(w, n, h) ==> EndsAt(r, r.lastBlock))
            && (!Reorgs(w, n, h) ==> r == w)
  {
    ReorgDepthMeaning(w.history, h.parentHash);
  }

  lemma PushedLinked(max: nat, w: Watch, n: nat, h: Header)
    requires Linked(max, w)
    requires w.history != [] ==>
               && w.history[|w.history| - 1].number < n
               && w.history[|w.history| - 1].hash == h.parentHash
    ensures Linked(max, Pushed(max, w, n, h)) && EndsAt(Pushed(max, w, n, h), n)
    ensures max > 0 ==> Pushed(max, w, n, h).history != []
  {
    var entry := BlockEntry(n, h.hash, BlockFee(h));
    AppendLinked(w.history, w.parents, entry, h.parentHash);
    KeepLastLinked(w.history + [entry], w.parents + [h.parentHash], max);
  }

  lemma AppendLinked(history: seq<BlockEntry>, parents: seq<B256>, entry: BlockEntry, parent: B256)
    requires ChainOk(history, parents)
    requires history != [] ==>
               history[|history| - 1].number < entry.number && history[|history| - 1].hash == parent
    ensures ChainOk(history + [entry], parents + [parent])
  {
  }

  lemma KeepLastLinked(history: seq<BlockEntry>, parents: seq<B256>, max: nat)
    requires ChainOk(history, parents) && history != []
    ensures ChainOk(KeepLast(history, max), KeepLast(parents, max)) && |KeepLast(history, max)| <= max
    ensures max > 0 ==> KeepLast(history, max) != []
                        && KeepLast(history, max)[|KeepLast(history, max)| - 1] == history[|history| - 1]
  {
  }

  lemma ProcessLinked(max: nat, w: Watch, n: nat, a: PollAnswers)
    requires Linked(max, w) && EndsAt(w, n - 1)
    ensures var Stepped(w', ok) := Process(max, w, n, a);
            && Linked(max, w')
            && (ok ==> EndsAt(w', n) && (max > 0 ==> w'.history != []))
            && (!ok ==> if RewindsAt(w, n, a) then EndsAt(w', w'.lastBlock) else w' == w)
  {
    if a.block(n).Ok? && a.block(n).value.Some? {
      var h := a.block(n).value.value;
      RewoundLinked(max, w, n, h);
      if a.logs(n).Ok? {
        PushedLinked(max, Scanned(Rewound(w, n, h), n, a.logs(n).value), n, h);
      }
    }
  }

  /** A failure does no harm on the first block of a poll, or when it follows a rewind in the same block. */
  ghost predicate Harmless(max: nat, w: Watch, first: nat, n: nat, head: nat, a: PollAnswers)
    requires |w.parents| == |w.history|
    decreases head + 1 - n
  {
    n <= head ==>
      var Stepped(w', ok) := Process(max, w, n, a);
      if ok then Harmless(max, w', first, n + 1, head, a)
      else n == first || RewindsAt(w, n, a)
  }

  ghost predicate RewindsAt(w: Watch, n: nat, a: PollAnswers) {
    a.block(n).Ok? && a.block(n).value.Some? && Reorgs(w, n, a.block(n).value.value)
  }

  lemma HarmlessStep(max: nat, w: Watch, first: nat, n: nat, head: nat, a: PollAnswers)
    requires |w.parents| == |w.history| && n <= head
    ensures Harmless(max, w, first, n, head, a) <==>
              var Stepped(w', ok) := Process(max, w, n, a);
              if ok then Harmless(max, w', first, n + 1, head, a) else n == first || RewindsAt(w, n, a)
  {
  }

  /** `lastBlock` stays below the block being processed, rewound or not. */
  lemma ProcessLastBlock(max: nat, w: Watch, n: nat, a: PollAnswers)
    requires Linked(max, w) && EndsAt(w, n - 1) && w.lastBlock < n
    ensures Process(max, w, n, a).watch.lastBlock < n
  {
    if a.block(n).Ok? && a.block(n).value.Some? {
      RewoundLinked(max, w, n, a.block(n).value.value);
    }
  }

  lemma {:induction false} PollFromLinked(max: nat, w: Watch, n: nat, head: nat, a: PollAnswers)
    requires Linked(max, w) && EndsAt(w, n - 1) && 0 < n <= head + 1
    ensures var Stepped(w', ok) := PollFrom(max, w, n, head, a);
            Linked(max, w') && (ok ==> EndsAt(w', head))
    decreases head + 1 - n
  {
    if n <= head {
      PollFromStep(max, w, n, head, a);
      ProcessLinked(max, w, n, a);
      if Process(max, w, n, a).ok {
        PollFromLinked(max, Process(max, w, n, a).watch, n + 1, head, a);
      }
    }
  }

  lemma {:induction false} SuccessIsHarmless(max: nat, w: Watch, first: nat, n: nat, head: nat, a: PollAnswers)
    requires |w.parents| == |w.history| && PollFrom(max, w, n, head, a).ok
    ensures Harmless(max, w, first, n, head, a)
    decreases head + 1 - n
  {
    if n <= head {
      PollFromStep(max, w, n, head, a);
      HarmlessStep(max, w, first, n, head, a);
      SuccessIsHarmless(max, Process(max, w, n, a).watch, first, n + 1, head, a);
    }
  }

  lemma FailedProcess(max: nat, w: Watch, n: nat, a: PollAnswers)
    requires Linked(max, w) && EndsAt(w, n - 1) && !Process(max, w, n, a).ok
    requires w.lastBlock < n - 1 ==> w.history != []
    requires w.lastBlock <= n - 1
    ensures EndsAt(Process(max, w, n, a).watch, Process(max, w, n, a).watch.lastBlock)
       <==> w.lastBlock == n - 1 || RewindsAt(w, n, a)
  {
    ProcessLinked(max, w, n, a);
  }

  /** The state a poll is in before block `n`: linked, and moved below `n - 1` only by a rewind that left entries. */
  ghost predicate MidPoll(max: nat, w: Watch, first: nat, n: nat) {
    && Linked(max, w) && EndsAt(w, n - 1) && 0 < first <= n
    && if n == first then w.lastBlock == n - 1 else w.lastBlock < n - 1 && w.history != []
  }

  ghost predicate EndsIffHarmless(max: nat, w: Watch, first: nat, n: nat, head: nat, a: PollAnswers, r: Stepped)
    requires |w.parents| == |w.history|
  {
    EndsAt(r.watch, r.watch.lastBlock) <==> Harmless(max, w, first, n, head, a)
  }

  lemma HarmlessNow(max: nat, w: Watch, first: nat, n: nat, head: nat, a: PollAnswers)
    requires MidPoll(max, w, first, n) && n <= head && !Process(max, w, n, a).ok
    ensures EndsIffHarmless(max, w, first, n, head, a, Stepped(Process(max, w, n, a).watch, false))
  {
    HarmlessStep(max, w, first, n, head, a);
    FailedProcess(max, w, n, a);
  }

  lemma HarmlessNext(max: nat, w: Watch, first: nat, n: nat, head: nat, a: PollAnswers, r: Stepped)
    requires |w.parents| == |w.history| && n <= head && Process(max, w, n, a).ok
    requires EndsIffHarmless(max, Process(max, w, n, a).watch, first, n + 1, head, a, r)
    ensures EndsIffHarmless(max, w, first, n, head, a, r)
  {
    HarmlessStep(max, w, first, n, head, a);
  }

  lemma MidPollNext(max: nat, w: Watch, first: nat, n: nat, a: PollAnswers)
    requires max > 0 && MidPoll(max, w, first, n) && Process(max, w, n, a).ok
    ensures MidPoll(max, Process(max, w, n, a).watch, first, n + 1)
  {
    ProcessLinked(max, w, n, a);
    ProcessLastBlock(max, w, n, a);
  }

  /** After a failing poll a non-empty history ends at `lastBlock` exactly when the failure was harmless. */
  lemma {:induction false} FailureEndsIffHarmless(
    max: nat, w: Watch, first: nat, n: nat, head: nat, a: PollAnswers, r: Stepped)
    requires max > 0 && MidPoll(max, w, first, n) && n <= head + 1
    requires r == PollFrom(max, w, n, head, a) && !r.ok
    ensures EndsIffHarmless(max, w, first, n, head, a, r)
    decreases head + 1 - n
  {
    hide Process;
    PollFromStep(max, w, n, head, a);
    if !Process(max, w, n, a).ok {
      HarmlessNow(max, w, first, n, head, a);
    } else {
      MidPollNext(max, w, first, n, a);
      FailureEndsIffHarmless(max, Process(max, w, n, a).watch, first, n + 1, head, a, r);
      HarmlessNext(max, w, first, n, head, a, r);
    }
  }

  ghost predicate HarmlessPoll(max: nat, w: Watch, a: PollAnswers)
    requires |w.parents| == |w.history|
  {
    a.head.Ok? && a.head.value > w.lastBlock ==>
      Harmless(max, w, w.lastBlock + 1, w.lastBlock + 1, a.head.value, a)
  }

  /** Between polls: linked, and a non-empty history ends at `lastBlock`. */
  ghost predicate HistoryOk(max: nat, w: Watch) {
    Linked(max, w) && EndsAt(w, w.lastBlock)
  }

  lemma BlocksKeepHistoryIffHarmless(max: nat, w: Watch, head: nat, a: PollAnswers, r: Stepped)
    requires max > 0 && HistoryOk(max, w) && w.lastBlock < head
    requires r == PollFrom(max, w, w.lastBlock + 1, head, a)
    ensures HistoryOk(max, Committed(r, head).watch)
       <==> Harmless(max, w, w.lastBlock + 1, w.lastBlock + 1, head, a)
  {
    hide Process;
    var first := w.lastBlock + 1;
    PollFromLinked(max, w, first, head, a);
    if r.ok {
      SuccessIsHarmless(max, w, first, first, head, a);
    } else {
      FailureEndsIffHarmless(max, w, first, first, head, a, r);
    }
  }

  /** A poll keeps the history in order exactly when it does not fail past its first block without a rewind. */
  lemma PollKeepsHistoryIffHarmless(max: nat, w: Watch, a: PollAnswers)
    requires max > 0 && HistoryOk(max, w)
    ensures HistoryOk(max, Polled(max, w, a).watch) <==> HarmlessPoll(max, w, a)
  {
    if a.head.Ok? && a.head.value > w.lastBlock {
      hide Process;
      PolledNew(max, w, a);
      BlocksKeepHistoryIffHarmless(max, w, a.head.value, a, PollFrom(max, w, w.lastBlock + 1, a.head.value, a));
    }
  }

  ghost predicate HarmlessRun(max: nat, start: Watch, evs: seq<WatchEvent>)
    requires |start.parents| == |start.history|
  {
    evs != [] ==>
      && HarmlessRun(max, start, evs[..|evs| - 1])
      && (evs[|evs| - 1].Poll? ==> HarmlessPoll(max, WatchRun(max, start, evs[..|evs| - 1]), evs[|evs| - 1].answers))
  }

  /** In every run of harmless polls the history stays bounded, ascending, hash-linked and ends at `lastBlock`. */
  lemma {:induction false} HarmlessRunsKeepHistory(
    max: nat, initial: Result<nat, ProviderError>, pool: Contents, evs: seq<WatchEvent>)
    requires max > 0 && HarmlessRun(max, Started(initial, pool), evs)
    ensures HistoryOk(max, WatchRun(max, Started(initial, pool), evs))
  {
    if evs != [] {
      var front, start := evs[..|evs| - 1], Started(initial, pool);
      HarmlessRunsKeepHistory(max, initial, pool, front);
      if evs[|evs| - 1].Poll? {
        PollKeepsHistoryIffHarmless(max, WatchRun(max, start, front), evs[|evs| - 1].answers);
      }
    }
  }

  // ---------------------------------------------------------------- which rewound numbers are scanned again

  /** Entry `i` is popped by the rewind at block `n`. */
  ghost predicate Popped(w: Watch, n: nat, a: PollAnswers, i: nat)
    requires |w.parents| == |w.history|
  {
    RewindsAt(w, n, a) && |Rewound(w, n, a.block(n).value.value).history| <= i < |w.history|
  }

  /** Number of the newest entry that a rewind at block `n` leaves, if it leaves one. */
  ghost function RestAt(w: Watch, n: nat, a: PollAnswers): Option<nat>
    requires |w.parents| == |w.history|
  {
    if !RewindsAt(w, n, a) then None
    else
      var left := Rewound(w, n, a.block(n).value.value).history;
      if left == [] then None else Some(left[|left| - 1].number)
  }

  /** The same for the last rewind that leaves an entry, among the blocks from `n` on. */
  ghost function LastRest(max: nat, w: Watch, n: nat, head: nat, a: PollAnswers): Option<nat>
    requires |w.parents| == |w.history|
    decreases head + 1 - n
  {
    if n > head then None
    else
      var Stepped(w', ok) := Process(max, w, n, a);
      var later := if ok then LastRest(max, w', n + 1, head, a) else None;
      if later.Some? then later else RestAt(w, n, a)
  }

  lemma ProcessRest(max: nat, w: Watch, n: nat, a: PollAnswers)
    requires |w.parents| == |w.history|
    ensures Process(max, w, n, a).watch.lastBlock
         == match RestAt(w, n, a) case Some(k) => k case None => w.lastBlock
  {
    if RewindsAt(w, n, a) {
      ReorgDepthMeaning(w.history, a.block(n).value.value.parentHash);
    }
  }

  /** Before a poll is committed, `lastBlock` moves only to where rewinds come to rest. */
  lemma {:induction false} LastBlockRests(max: nat, w: Watch, n: nat, head: nat, a: PollAnswers, r: Stepped)
    requires |w.parents| == |w.history| && r == PollFrom(max, w, n, head, a)
    ensures r.watch.lastBlock == match LastRest(max, w, n, head, a) case Some(k) => k case None => w.lastBlock
    decreases head + 1 - n
  {
    if n <= head {
      PollFromStep(max, w, n, head, a);
      ProcessRest(max, w, n, a);
      if Process(max, w, n, a).ok {
        LastBlockRests(max, Process(max, w, n, a).watch, n + 1, head, a, r);
      }
    }
  }

  /** Processing the blocks from `m` on brings the watcher from `w` to `v` before block `n`. */
  ghost predicate Reaches(max: nat, w: Watch, m: nat, v: Watch, n: nat, a: PollAnswers)
    requires |w.parents| == |w.history|
    decreases n - m
  {
    if m >= n then m == n && w == v
    else Process(max, w, m, a).ok && Reaches(max, Process(max, w, m, a).watch, m + 1, v, n, a)
  }

  lemma {:induction false} ReachedRest(
    max: nat, w: Watch, m: nat, v: Watch, n: nat, head: nat, a: PollAnswers, r: Stepped)
    requires |w.parents| == |w.history| && Reaches(max, w, m, v, n, a) && n <= head
    requires r == PollFrom(max, w, m, head, a)
    ensures |v.parents| == |v.history| && r == PollFrom(max, v, n, head, a)
    decreases n - m
  {
    hide Process;
    if m < n {
      PollFromStep(max, w, m, head, a);
      ReachedRest(max, Process(max, w, m, a).watch, m + 1, v, n, head, a, r);
    }
  }

  /** Entry `i` of `v` is popped at block `n` of the poll of `w`. */
  ghost predicate PoppedInPoll(max: nat, w: Watch, a: PollAnswers, v: Watch, n: nat, i: nat)
    requires |w.parents| == |w.history|
  {
    && a.head.Ok? && w.lastBlock < n <= a.head.value
    && Reaches(max, w, w.lastBlock + 1, v, n, a)
    && |v.parents| == |v.history| && Popped(v, n, a, i)
  }

  lemma PolledNew(max: nat, w: Watch, a: PollAnswers)
    requires |w.parents| == |w.history| && a.head.Ok? && w.lastBlock < a.head.value
    ensures Polled(max, w, a) == Committed(PollFrom(max, w, w.lastBlock + 1, a.head.value, a), a.head.value)
    ensures Polled(max, w, a).ok == PollFrom(max, w, w.lastBlock + 1, a.head.value, a).ok
  {
  }

  /**
   * A number stands above where a poll leaves `lastBlock`: above the head when the poll succeeds, else above
   * the entry that its last rewind from block `n` on came to rest on, or above `lastBlock` when none left one.
   */
  ghost predicate EndsBelow(max: nat, w: Watch, n: nat, head: nat, a: PollAnswers, ok: bool, x: nat)
    requires |w.parents| == |w.history|
  {
    if ok then x > head
    else match LastRest(max, w, n, head, a)
      case Some(k) => x > k
      case None => x > w.lastBlock
  }

  /** In every state: which numbers popped in a poll lie above `lastBlock` afterwards. */
  lemma RewoundAboveIff(max: nat, w: Watch, a: PollAnswers, v: Watch, n: nat, i: nat)
    requires |w.parents| == |w.history| && PoppedInPoll(max, w, a, v, n, i)
    ensures v.history[i].number > Polled(max, w, a).watch.lastBlock
       <==> EndsBelow(max, v, n, a.head.value, a, Polled(max, w, a).ok, v.history[i].number)
  {
    hide Process;
    var r := PollFrom(max, w, w.lastBlock + 1, a.head.value, a);
    PolledNew(max, w, a);
    ReachedRest(max, w, w.lastBlock + 1, v, n, a.head.value, a, r);
    LastBlockRests(max, v, n, a.head.value, a, r);
  }

  /** A successful poll scans the numbers above `lastBlock` up to the head, and no others. */
  lemma PollScansRange(max: nat, w: Watch, b: PollAnswers)
    requires |w.parents| == |w.history| && Polled(max, w, b).ok
    ensures b.head.Ok? && ScansOnce(w.scans, w.lastBlock + 1, b.head.value, Polled(max, w, b).watch.scans)
  {
    hide Process;
    if b.head.value > w.lastBlock {
      PolledNew(max, w, b);
      SuccessScansOnce(max, w, w.lastBlock + 1, b.head.value, b,
                       PollFrom(max, w, w.lastBlock + 1, b.head.value, b));
    } else {
      assert w.scans + [] == w.scans;
    }
  }

  lemma InRange(n: nat, head: nat, x: nat)
    ensures x in Range(n, head) <==> n <= x <= head
  {
    if n <= x <= head {
      assert Range(n, head)[x - n] == x;
    }
  }

  /** In every state: the next successful poll that reaches a rewound number scans it again exactly then. */
  lemma RewoundRescannedIff(
    max: nat, w: Watch, a: PollAnswers, v: Watch, n: nat, i: nat, w': Watch, b: PollAnswers)
    requires |w.parents| == |w.history| && PoppedInPoll(max, w, a, v, n, i) && w' == Polled(max, w, a).watch
    requires Polled(max, w', b).ok && b.head.Ok? && v.history[i].number <= b.head.value
    ensures ScansOnce(w'.scans, w'.lastBlock + 1, b.head.value, Polled(max, w', b).watch.scans)
    ensures v.history[i].number in Range(w'.lastBlock + 1, b.head.value)
       <==> EndsBelow(max, v, n, a.head.value, a, Polled(max, w, a).ok, v.history[i].number)
  {
    hide Process;
    RewoundAboveIff(max, w, a, v, n, i);
    PollScansRange(max, w', b);
    InRange(w'.lastBlock + 1, b.head.value, v.history[i].number);
  }

  // ---------------------------------------------------------------- rewinds of an ordered history

  /** Every entry stands below `x` or was entered by block `m` or later. */
  ghost predicate Apart(history: seq<BlockEntry>, x: nat, m: nat) {
    forall i :: 0 <= i < |history| ==> history[i].number < x || history[i].number >= m
  }

  lemma KeepLastApart(history: seq<BlockEntry>, max: nat, x: nat, m: nat)
    requires Apart(history, x, m)
    ensures Apart(KeepLast(history, max), x, m)
  {
  }

  lemma ProcessApart(max: nat, w: Watch, n: nat, a: PollAnswers, x: nat, m: nat)
    requires |w.parents| == |w.history| && m <= n
    requires Apart(w.history, x, m)
             || (RewindsAt(w, n, a) && Apart(Rewound(w, n, a.block(n).value.value).history, x, m))
    ensures Process(max, w, n, a).ok ==> Apart(Process(max, w, n, a).watch.history, x, m)
  {
    if Process(max, w, n, a).ok {
      var h := a.block(n).value.value;
      KeepLastApart(Rewound(w, n, h).history + [BlockEntry(n, h.hash, BlockFee(h))], max, x, m);
    }
  }

  lemma {:induction false} RestsApart(max: nat, w: Watch, n: nat, head: nat, a: PollAnswers, x: nat, m: nat)
    requires |w.parents| == |w.history| && m <= n && Apart(w.history, x, m)
    ensures LastRest(max, w, n, head, a).Some? ==>
              LastRest(max, w, n, head, a).value < x || LastRest(max, w, n, head, a).value >= m
    decreases head + 1 - n
  {
    if n <= head {
      ProcessApart(max, w, n, a, x, m);
      if Process(max, w, n, a).ok {
        RestsApart(max, Process(max, w, n, a).watch, n + 1, head, a, x, m);
      }
    }
  }

  /** What a rewind leaves stands below what it pops. */
  lemma RewoundApart(max: nat, w: Watch, n: nat, a: PollAnswers, i: nat)
    requires Linked(max, w) && EndsAt(w, n - 1) && Popped(w, n, a, i)
    ensures w.history[i].number < n
    ensures Apart(Rewound(w, n, a.block(n).value.value).history, w.history[i].number, n)
  {
  }

  /** So later rewinds rest below that, or on newer blocks. */
  lemma RestsAroundPopped(max: nat, w: Watch, n: nat, head: nat, a: PollAnswers, i: nat)
    requires Linked(max, w) && EndsAt(w, n - 1) && n <= head && Popped(w, n, a, i)
    ensures var x := w.history[i].number;
            && x < n
            && (LastRest(max, w, n, head, a).Some? ==>
                  LastRest(max, w, n, head, a).value < x || LastRest(max, w, n, head, a).value >= n)
  {
    hide Process;
    var x := w.history[i].number;
    RewoundApart(max, w, n, a, i);
    ProcessApart(max, w, n, a, x, n);
    if Process(max, w, n, a).ok {
      RestsApart(max, Process(max, w, n, a).watch, n + 1, head, a, x, n);
    }
  }

  /** The last rewind of the poll that leaves an entry leaves one below `n`; or none does, and `x` is above `lastBlock`. */
  ghost predicate RestsBelow(max: nat, w: Watch, n: nat, head: nat, a: PollAnswers, x: nat)
    requires |w.parents| == |w.history|
  {
    match LastRest(max, w, n, head, a)
    case Some(k) => k < n
    case None => x > w.lastBlock
  }

  lemma ReachesStep(max: nat, w: Watch, m: nat, v: Watch, n: nat, a: PollAnswers)
    requires Linked(max, w) && EndsAt(w, m - 1) && Reaches(max, w, m, v, n, a) && m < n
    ensures var w' := Process(max, w, m, a).watch;
            Linked(max, w') && EndsAt(w', m) && Reaches(max, w', m + 1, v, n, a)
  {
    ProcessLinked(max, w, m, a);
  }

  lemma {:induction false} ReachedLinked(max: nat, w: Watch, m: nat, v: Watch, n: nat, a: PollAnswers)
    requires Linked(max, w) && EndsAt(w, m - 1) && Reaches(max, w, m, v, n, a)
    ensures Linked(max, v) && EndsAt(v, n - 1)
    decreases n - m
  {
    hide Process;
    if m < n {
      ReachesStep(max, w, m, v, n, a);
      ReachedLinked(max, Process(max, w, m, a).watch, m + 1, v, n, a);
    }
  }

  /** With an ordered history a rewound number lies above `lastBlock` only after a failed poll whose last rest is low enough. */
  lemma OrderedRewoundAboveIff(max: nat, w: Watch, a: PollAnswers, v: Watch, n: nat, i: nat)
    requires HistoryOk(max, w) && PoppedInPoll(max, w, a, v, n, i)
    ensures v.history[i].number > Polled(max, w, a).watch.lastBlock
       <==> !Polled(max, w, a).ok && RestsBelow(max, v, n, a.head.value, a, v.history[i].number)
  {
    hide Process;
    RewoundAboveIff(max, w, a, v, n, i);
    ReachedLinked(max, w, w.lastBlock + 1, v, n, a);
    RestsAroundPopped(max, v, n, a.head.value, a, i);
  }

  /** So it is scanned again only then. */
  lemma OrderedRewoundRescannedIff(
    max: nat, w: Watch, a: PollAnswers, v: Watch, n: nat, i: nat, w': Watch, b: PollAnswers)
    requires HistoryOk(max, w) && PoppedInPoll(max, w, a, v, n, i) && w' == Polled(max, w, a).watch
    requires Polled(max, w', b).ok && b.head.Ok? && v.history[i].number <= b.head.value
    ensures ScansOnce(w'.scans, w'.lastBlock + 1, b.head.value, Polled(max, w', b).watch.scans)
    ensures v.history[i].number in Range(w'.lastBlock + 1, b.head.value)
       <==> !Polled(max, w, a).ok && RestsBelow(max, v, n, a.head.value, a, v.history[i].number)
  {
    hide Process;
    OrderedRewoundAboveIff(max, w, a, v, n, i);
    RewoundRescannedIff(max, w, a, v, n, i, w', b);
    InRange(w'.lastBlock + 1, b.head.value, v.history[i].number);
  }

  // ---------------------------------------------------------------- what a poll comes to

  lemma {:induction false} PollFromServes(max: nat, w: Watch, n: nat, head: nat, a: PollAnswers, r: Stepped)
    requires |w.parents| == |w.history| && r == PollFrom(max, w, n, head, a)
    ensures r.ok <==> forall b: nat :: n <= b <= head ==> Serves(a, b)
    decreases head + 1 - n
  {
    hide Process;
    if n <= head {
      PollFromStep(max, w, n, head, a);
      ProcessServes(max, w, n, a);
      if Serves(a, n) {
        PollFromServes(max, Process(max, w, n, a).watch, n + 1, head, a, r);
      }
    }
  }

  /** The newest entry is this block as its header describes it, a header without a base fee counting as 0. */
  ghost predicate EndsWith(history: seq<BlockEntry>, n: nat, h: Header) {
    && history != []
    && var e := history[|history| - 1];
       && e.number == n && e.hash == h.hash
       && (h.baseFeePerGas == Some(e.baseFee) || (h.baseFeePerGas == None && e.baseFee == 0))
  }

  lemma ProcessEnds(max: nat, w: Watch, n: nat, a: PollAnswers)
    requires |w.parents| == |w.history| && max > 0 && Serves(a, n)
    ensures EndsWith(Process(max, w, n, a).watch.history, n, a.block(n).value.value)
  {
    var h := a.block(n).value.value;
    KeepLastEnd(Rewound(w, n, h).history + [BlockEntry(n, h.hash, BlockFee(h))], max);
  }

  lemma KeepLastEnd(history: seq<BlockEntry>, max: nat)
    requires history != [] && max > 0
    ensures KeepLast(history, max) != []
    ensures KeepLast(history, max)[|KeepLast(history, max)| - 1] == history[|history| - 1]
  {
  }

  lemma {:induction false} PollFromEnds(max: nat, w: Watch, n: nat, head: nat, a: PollAnswers, r: Stepped)
    requires |w.parents| == |w.history| && max > 0 && n <= head && r == PollFrom(max, w, n, head, a) && r.ok
    ensures Serves(a, head) && EndsWith(r.watch.history, head, a.block(head).value.value)
    decreases head + 1 - n
  {
    hide Process;
    PollFromOk(max, w, n, head, a, r);
    ProcessServes(max, w, n, a);
    if n < head {
      PollFromEnds(max, Process(max, w, n, a).watch, n + 1, head, a, r);
    } else {
      ProcessEnds(max, w, n, a);
    }
  }

  /**
   * A poll succeeds exactly when the head is answered and every block above `lastBlock` up to it comes with
   * header and logs. Then `lastBlock` is the higher of both, and a new head block ends the history.
   */
  lemma PollSucceedsIff(max: nat, w: Watch, a: PollAnswers)
    requires |w.parents| == |w.history|
    ensures var r := Polled(max, w, a);
            && (r.ok <==> a.head.Ok? && forall b: nat :: w.lastBlock < b <= a.head.value ==>
                            a.block(b).Ok? && a.block(b).value.Some? && a.logs(b).Ok?)
            && (r.ok ==> r.watch.lastBlock == if a.head.value > w.lastBlock then a.head.value else w.lastBlock)
            && (r.ok && a.head.value > w.lastBlock && max > 0 ==>
                  EndsWith(r.watch.history, a.head.value, a.block(a.head.value).value.value))
  {
    hide Process;
    if a.head.Ok? && a.head.value > w.lastBlock {
      var head := a.head.value;
      var r := PollFrom(max, w, w.lastBlock + 1, head, a);
      PolledNew(max, w, a);
      PollFromServes(max, w, w.lastBlock + 1, head, a, r);
      assert forall b: nat :: w.lastBlock < b <= head ==>
        (Serves(a, b) <==> a.block(b).Ok? && a.block(b).value.Some? && a.logs(b).Ok?);
      if r.ok && max > 0 {
        PollFromEnds(max, w, w.lastBlock + 1, head, a, r);
      }
    }
  }

  /** A successful poll takes out of the pool exactly the entries whose digest is the second topic of a log of a new block. */
  lemma PollCleansPool(max: nat, w: Watch, a: PollAnswers, id: UserOperationId)
    requires |w.parents| == |w.history| && Polled(max, w, a).ok
    ensures a.head.Ok?
    ensures var c := Polled(max, w, a).watch.pool;
            && (id in c <==> id in w.pool && Unreported(a, w.lastBlock + 1, a.head.value, w.pool[id].hash))
            && (id in c ==> c[id] == w.pool[id])
  {
    hide Process, Reports;
    if a.head.value > w.lastBlock {
      PolledNew(max, w, a);
      SuccessCleansPool(max, w, w.lastBlock + 1, a.head.value, a,
                        PollFrom(max, w, w.lastBlock + 1, a.head.value, a), id);
    }
  }

  /** The stored base fee after a successful poll over new blocks is that of the head's header. */
  lemma PollStoresHeadFee(max: nat, w: Watch, a: PollAnswers, fee: uint64)
    requires |w.parents| == |w.history| && Polled(max, w, a).ok && a.head.value > w.lastBlock
    ensures Serves(a, a.head.value)
    ensures match a.block(a.head.value).value.value.baseFeePerGas
            case Some(f) => PolledFee(w, a, fee) == f
            case None => PolledFee(w, a, fee) == 0
  {
    hide Process;
    PolledNew(max, w, a);
    SuccessStoresHeadFee(max, w, w.lastBlock + 1, a.head.value, a, fee);
  }

  /** Block 1 logs a mined operation: its second topic names digest 9, its first is the event. */
  ghost function LogsNine(header: Header): PollAnswers {
    PollAnswers(Ok(1), (n: nat) => Ok(Some(header)), (n: nat) => Ok([Log([7, 9, 1, 2]), Log([7])]))
  }

  /** The operation with digest 9 leaves the pool, one with digest 7 stays. */
  lemma MinedOperationLeaves(max: nat, pool: Contents, header: Header, id: UserOperationId)
    requires id in pool
    ensures var r := Polled(max, Started(Ok(0), pool), LogsNine(header));
            && r.ok
            && (pool[id].hash == 9 ==> id !in r.watch.pool)
            && (pool[id].hash == 7 ==> id in r.watch.pool)
  {
    hide Process;
    var a, w := LogsNine(header), Started(Ok(0), pool);
    PollSucceedsIff(max, w, a);
    PollCleansPool(max, w, a, id);
    if pool[id].hash == 9 {
      assert a.logs(1).value[0].topics[1] == 9;
      assert Reports(a, 1, 9);
    }
    if pool[id].hash == 7 {
      assert !Reports(a, 1, 7);
    }
  }

  // ---------------------------------------------------------------- runs with a rewind

  /** Blocks 1 and 2 entered and scanned. */
  ghost function TwoBlocks(h1: B256, h2: B256, p: B256, pool: Contents): Watch {
    Watch([BlockEntry(1, h1, 0), BlockEntry(2, h2, 0)], [p, h1], 2, [1, 2], pool)
  }

  /** Reports this head and serves this header for each block; the logs of block `failing` cannot be had. */
  ghost function Serving(head: nat, headers: nat -> Header, failing: nat): PollAnswers {
    PollAnswers(
      Ok(head),
      (n: nat) => Ok(Some(headers(n))),
      (n: nat) => if n == failing then Err(ProviderError) else Ok([]))
  }

  /** A served block that does not rewind is appended and scanned. */
  lemma GrowStep(max: nat, w: Watch, n: nat, a: PollAnswers, h: Header)
    requires |w.parents| == |w.history| < max
    requires a.block(n) == Ok(Some(h)) && a.logs(n) == Ok([]) && !Reorgs(w, n, h)
    ensures Process(max, w, n, a)
         == Stepped(w.(history := w.history + [BlockEntry(n, h.hash, BlockFee(h))],
                       parents := w.parents + [h.parentHash],
                       scans := w.scans + [n]), true)
  {
    assert Scanned(w, n, []).pool == w.pool;
  }

  /** Blocks 1 and 2 come in with the first poll. */
  lemma FirstPoll(max: nat, h1: B256, h2: B256, p: B256, pool: Contents)
    requires max >= 2
    ensures var a := Serving(2, (n: nat) => if n == 1 then Header(h1, p, None) else Header(h2, h1, None), 0);
            Polled(max, Started(Ok(0), pool), a) == Stepped(TwoBlocks(h1, h2, p, pool), true)
  {
    var a := Serving(2, (n: nat) => if n == 1 then Header(h1, p, None) else Header(h2, h1, None), 0);
    var w := Started(Ok(0), pool);
    GrowStep(max, w, 1, a, Header(h1, p, None));
    var u := Process(max, w, 1, a).watch;
    GrowStep(max, u, 2, a, Header(h2, h1, None));
    var v := Process(max, u, 2, a).watch;
    assert v.history == TwoBlocks(h1, h2, p, pool).history && v.parents == [p, h1] && v.scans == [1, 2];
    PollFromStep(max, w, 1, 2, a);
    PollFromStep(max, u, 2, 2, a);
  }

  /** What a block 3 with this parent leaves of the two. */
  lemma RewindTwo(h1: B256, h2: B256, p: B256, pool: Contents, h: Header)
    requires h1 != h2 && h.parentHash != h2
    ensures var w, r := TwoBlocks(h1, h2, p, pool), Rewound(TwoBlocks(h1, h2, p, pool), 3, h);
            && Reorgs(w, 3, h)
            && (h.parentHash == h1 ==> r == w.(history := w.history[..1], parents := w.parents[..1], lastBlock := 1))
            && (h.parentHash != h1 ==> r == w.(history := [], parents := []))
  {
    var w := TwoBlocks(h1, h2, p, pool);
    ReorgDepthMeaning(w.history, h.parentHash);
    assert w.history[0].hash == h1 && w.history[1].hash == h2;
  }

  /** Failing right after a rewind that leaves an entry: the rewound number is scanned again. */
  lemma RescannedAfterFailure(max: nat, h1: B256, h2: B256, h3: B256, p: B256, pool: Contents)
    requires max >= 2 && h1 != h2
    ensures var w := TwoBlocks(h1, h2, p, pool);
            var a := Serving(3, (n: nat) => Header(h3, h1, None), 3);
            var b := Serving(2, (n: nat) => Header(h3, h1, None), 0);
            var w' := Polled(max, w, a).watch;
            && !Polled(max, w, a).ok && w'.lastBlock == 1
            && Polled(max, w', b).watch.scans == [1, 2, 2]
  {
    var w := TwoBlocks(h1, h2, p, pool);
    var h := Header(h3, h1, None);
    var a := Serving(3, (n: nat) => Header(h3, h1, None), 3);
    var b := Serving(2, (n: nat) => Header(h3, h1, None), 0);
    RewindTwo(h1, h2, p, pool, h);
    PollFromStep(max, w, 3, 3, a);
    var w' := Polled(max, w, a).watch;
    GrowStep(max, w', 2, b, h);
    PollFromStep(max, w', 2, 2, b);
  }

  /** The same rewind in a poll that succeeds: the rewound number is passed over. */
  lemma NotRescannedAfterSuccess(max: nat, h1: B256, h2: B256, h3: B256, p: B256, pool: Contents, b: PollAnswers)
    requires max >= 2 && h1 != h2 && b.head == Ok(3)
    ensures var w := TwoBlocks(h1, h2, p, pool);
            var a := Serving(3, (n: nat) => Header(h3, h1, None), 0);
            var w' := Polled(max, w, a).watch;
            && Polled(max, w, a).ok && w'.lastBlock == 3 && w'.history == [BlockEntry(1, h1, 0), BlockEntry(3, h3, 0)]
            && Polled(max, w', b).watch.scans == [1, 2, 3]
  {
    var w := TwoBlocks(h1, h2, p, pool);
    var h := Header(h3, h1, None);
    var a := Serving(3, (n: nat) => Header(h3, h1, None), 0);
    RewindTwo(h1, h2, p, pool, h);
    PollFromStep(max, w, 3, 3, a);
  }

  /** A failed poll whose rewind empties the history: `lastBlock` stays, and nothing is scanned again. */
  lemma NotRescannedWhenEmptied(max: nat, h1: B256, h2: B256, h3: B256, p: B256, q: B256, pool: Contents, b: PollAnswers)
    requires max >= 2 && h1 != h2 && q != h1 && q != h2 && b.head == Ok(2)
    ensures var w := TwoBlocks(h1, h2, p, pool);
            var a := Serving(3, (n: nat) => Header(h3, q, None), 3);
            var w' := Polled(max, w, a).watch;
            && !Polled(max, w, a).ok && w'.lastBlock == 2 && w'.history == []
            && Polled(max, w', b).watch.scans == [1, 2]
  {
    var w := TwoBlocks(h1, h2, p, pool);
    RewindTwo(h1, h2, p, pool, Header(h3, q, None));
    PollFromStep(max, w, 3, 3, Serving(3, (n: nat) => Header(h3, q, None), 3));
  }

  /** Three blocks entered by a poll that failed on the fourth, then block 1 anew: a disordered history. */
  ghost function Disordered(h1: B256, h2: B256, h3: B256, g: B256, p: B256, pool: Contents): Watch {
    Watch([BlockEntry(1, h1, 0), BlockEntry(2, h2, 0), BlockEntry(3, h3, 0), BlockEntry(1, g, 0)],
          [p, h1, h2, p], 1, [1, 2, 3, 1], pool)
  }

  ghost function ThreeOfFour(h1: B256, h2: B256, h3: B256, p: B256): PollAnswers {
    Serving(4, (n: nat) => if n == 1 then Header(h1, p, None)
                           else if n == 2 then Header(h2, h1, None)
                           else if n == 3 then Header(h3, h2, None)
                           else Header(h3, h3, None), 4)
  }

  /** The first of the two polls. */
  lemma ThreeBlocksEntered(max: nat, h1: B256, h2: B256, h3: B256, p: B256, pool: Contents)
    requires max >= 4
    ensures var w := Watch([BlockEntry(1, h1, 0), BlockEntry(2, h2, 0), BlockEntry(3, h3, 0)],
                           [p, h1, h2], 0, [1, 2, 3], pool);
            Polled(max, Started(Ok(0), pool), ThreeOfFour(h1, h2, h3, p)) == Stepped(w, false)
  {
    var a, w0 := ThreeOfFour(h1, h2, h3, p), Started(Ok(0), pool);
    GrowStep(max, w0, 1, a, Header(h1, p, None));
    var w1 := Process(max, w0, 1, a).watch;
    GrowStep(max, w1, 2, a, Header(h2, h1, None));
    var w2 := Process(max, w1, 2, a).watch;
    GrowStep(max, w2, 3, a, Header(h3, h2, None));
    var w3 := Process(max, w2, 3, a).watch;
    assert Process(max, w3, 4, a) == Stepped(w3, false);
    PollFromStep(max, w0, 1, 4, a);
    PollFromStep(max, w1, 2, 4, a);
    PollFromStep(max, w2, 3, 4, a);
    PollFromStep(max, w3, 4, 4, a);
  }

  /** The disordered history is reached from the start by two polls. */
  lemma DisorderedReached(max: nat, h1: B256, h2: B256, h3: B256, g: B256, p: B256, pool: Contents)
    requires max >= 4
    ensures var w := Polled(max, Started(Ok(0), pool), ThreeOfFour(h1, h2, h3, p)).watch;
            Polled(max, w, Serving(1, (n: nat) => Header(g, p, None), 0))
            == Stepped(Disordered(h1, h2, h3, g, p, pool), true)
  {
    ThreeBlocksEntered(max, h1, h2, h3, p, pool);
    var w, b := Polled(max, Started(Ok(0), pool), ThreeOfFour(h1, h2, h3, p)).watch,
                Serving(1, (n: nat) => Header(g, p, None), 0);
    GrowStep(max, w, 1, b, Header(g, p, None));
    PollFromStep(max, w, 1, 1, b);
  }

  /** From there a poll over block 2, built on the first block 1, rewinds, succeeds, and leaves number 3 above `lastBlock`. */
  lemma RescannedAfterSuccess(
    max: nat, h1: B256, h2: B256, h3: B256, g: B256, h: B256, p: B256, pool: Contents)
    requires max >= 4 && h1 !in {h2, h3, g}
    ensures var w := Disordered(h1, h2, h3, g, p, pool);
            var a := Serving(2, (n: nat) => Header(h, h1, None), 0);
            var b := Serving(3, (n: nat) => Header(h, h, None), 0);
            var w' := Polled(max, w, a).watch;
            && PoppedInPoll(max, w, a, w, 2, 2) && w.history[2].number == 3
            && Polled(max, w, a).ok && w'.lastBlock == 2 && w'.scans == [1, 2, 3, 1, 2]
            && Polled(max, w', b).watch.scans == [1, 2, 3, 1, 2, 3]
  {
    var w := Disordered(h1, h2, h3, g, p, pool);
    var a := Serving(2, (n: nat) => Header(h, h1, None), 0);
    var b := Serving(3, (n: nat) => Header(h, h, None), 0);
    DisorderedRewound(h1, h2, h3, g, h, p, pool);
    PollFromStep(max, w, 2, 2, a);
    var w' := Polled(max, w, a).watch;
    assert w'.history == [BlockEntry(1, h1, 0), BlockEntry(2, h, 0)];
    GrowStep(max, w', 3, b, Header(h, h, None));
    PollFromStep(max, w', 3, 3, b);
  }

  lemma DisorderedRewound(h1: B256, h2: B256, h3: B256, g: B256, h: B256, p: B256, pool: Contents)
    requires h1 !in {h2, h3, g}
    ensures var w, header := Disordered(h1, h2, h3, g, p, pool), Header(h, h1, None);
            && Reorgs(w, 2, header)
            && Rewound(w, 2, header) == w.(history := w.history[..1], parents := w.parents[..1], lastBlock := 1)
  {
    var w := Disordered(h1, h2, h3, g, p, pool);
    ReorgDepthMeaning(w.history, h1);
    assert w.history[0].hash == h1 && w.history[1].hash == h2 && w.history[2].hash == h3 && w.history[3].hash == g;
  }

  /** Reports head 2, serves block 1 and fails on block 2. */
  ghost function FailsOnSecond(hash: B256, parent: B256): PollAnswers {
    PollAnswers(
      Ok(2),
      (n: nat) => if n == 1 then Ok(Some(Header(hash, parent, None))) else Err(ProviderError),
      (n: nat) => Ok([]))
  }

  lemma FailsOnSecondStep(max: nat, w: Watch, hash: B256, parent: B256)
    requires |w.parents| == |w.history| < max
    requires w.history != [] ==> w.history[|w.history| - 1].number == 1
    ensures var r := Process(max, w, 1, FailsOnSecond(hash, parent));
            r.ok && r.watch.history == w.history + [BlockEntry(1, hash, 0)] && r.watch.lastBlock == w.lastBlock
  {
    assert KeepLast(w.history + [BlockEntry(1, hash, 0)], max) == w.history + [BlockEntry(1, hash, 0)];
  }

  lemma FailsOnSecondPoll(max: nat, w: Watch, hash: B256, parent: B256)
    requires |w.parents| == |w.history| < max && w.lastBlock == 0
    requires w.history != [] ==> w.history[|w.history| - 1].number == 1
    ensures var r := Polled(max, w, FailsOnSecond(hash, parent)).watch;
            r.history == w.history + [BlockEntry(1, hash, 0)] && r.lastBlock == 0
  {
    var a := FailsOnSecond(hash, parent);
    FailsOnSecondStep(max, w, hash, parent);
    var w' := Process(max, w, 1, a).watch;
    assert Process(max, w', 2, a) == Stepped(w', false);
    assert PollFrom(max, w', 2, 2, a) == Stepped(w', false);
    assert PollFrom(max, w, 1, 2, a) == Stepped(w', false);
  }

  /** A failure past the first block is harmful: the next poll enters the same block number twice. */
  lemma LaterFailureDuplicates(max: nat, hash: B256, parent: B256, pool: Contents)
    requires max >= 2
    ensures var a, start := FailsOnSecond(hash, parent), Started(Ok(0), pool);
            var twice := Polled(max, Polled(max, start, a).watch, a).watch;
            && HistoryOk(max, start) && !HarmlessPoll(max, start, a)
            && |twice.history| == 2 && twice.history[0].number == twice.history[1].number == 1
  {
    var a, start := FailsOnSecond(hash, parent), Started(Ok(0), pool);
    FailsOnSecondPoll(max, start, hash, parent);
    FailsOnSecondPoll(max, Polled(max, start, a).watch, hash, parent);
    PollKeepsHistoryIffHarmless(max, start, a);
  }

  /** The length bound holds on every run, harmless or not. */
  lemma {:induction false} HistoryBounded(max: nat, start: Watch, evs: seq<WatchEvent>)
    requires |start.parents| == |start.history| <= max
    ensures |WatchRun(max, start, evs).history| <= max
  {
    if evs != [] {
      HistoryBounded(max, start, evs[..|evs| - 1]);
      if evs[|evs| - 1].Poll? {
        PolledBounded(max, WatchRun(max, start, evs[..|evs| - 1]), evs[|evs| - 1].answers);
      }
    }
  }

  lemma PolledBounded(max: nat, w: Watch, a: PollAnswers)
    requires |w.parents| == |w.history| <= max
    ensures |Polled(max, w, a).watch.history| <= max
  {
    if a.head.Ok? {
      PollFromBounded(max, w, w.lastBlock + 1, a.head.value, a);
    }
  }

  lemma ProcessBounded(max: nat, w: Watch, n: nat, a: PollAnswers)
    requires |w.parents| == |w.history| <= max
    ensures |Process(max, w, n, a).watch.history| <= max
  {
  }

  lemma {:induction false} PollFromBounded(max: nat, w: Watch, n: nat, head: nat, a: PollAnswers)
    requires |w.parents| == |w.history| <= max
    ensures |PollFrom(max, w, n, head, a).watch.history| <= max
    decreases head + 1 - n
  {
    ProcessBounded(max, w, n, a);
    if n <= head {
      PollFromStep(max, w, n, head, a);
    }
    if n <= head && Process(max, w, n, a).ok {
      PollFromBounded(max, Process(max, w, n, a).watch, n + 1, head, a);
    }
  }
}
