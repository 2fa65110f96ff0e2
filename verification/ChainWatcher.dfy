/** The chain watcher itself, proved against its transition system. */
module ChainWatchers {
  import opened Base
  import opened PoolModel
  import opened Pool
  import opened ChainModel

  lemma DropMinedAppend(c: Contents, a: seq<B256>, b: seq<B256>)
    ensures DropHashes(DropHashes(c, a), b) == DropHashes(c, a + b)
    ensures DropHashes(c, []) == c
  {
  }

  lemma DropNext<T>(s: seq<T>, k: nat)
    requires k < |s|
    ensures s[k..][1..] == s[k + 1..]
  {
  }

  class ChainWatcher {
    var blockHistory: seq<BlockEntry>
    var lastBlock: nat
    var baseFee: uint64
    const pool: OperationPool
    const historySize: nat
    /** Parent digest of each history entry, and the blocks scanned so far. */
    ghost var parents: seq<B256>
    ghost var scans: seq<nat>
    ghost predicate Valid()
      reads this, pool
    {
      match View()
      case Watch(history, parents, _, _, _) => pool.Valid() && |parents| == |history|
    }

    ghost function View(): Watch
      reads this, pool
    {
      Watch(blockHistory, parents, lastBlock, scans, pool.View().contents)
    }

    constructor (pool: OperationPool, historySize: nat, initial: Result<nat, ProviderError>)
      requires pool.Valid()
      ensures Valid() && this.pool == pool && this.historySize == historySize
      ensures View() == Started(initial, pool.View().contents) && baseFee == 0
      ensures blockHistory == [] && lastBlock == match initial { case Ok(n) => n case Err(_) => 0 }
    {
      blockHistory, parents, scans, baseFee := [], [], [], 0;
      lastBlock := if initial.Ok? then initial.value else 0;
      this.pool, this.historySize := pool, historySize;
    }

    method Poll(a: PollAnswers) returns (ok: bool)
      requires Valid()
      modifies this, pool
      ensures Valid()
      ensures Stepped(View(), ok) == Polled(historySize, old(View()), a)
      ensures baseFee == PolledFee(old(View()), a, old(baseFee))
    {
      ghost var goal := Polled(historySize, View(), a);
      if a.head.Err? {
        assert goal == Stepped(View(), false);
        return false;
      }
      var head := a.head.value;
      if head <= lastBlock {
        assert goal == Stepped(View(), true);
        return true;
      }
      ghost var blocks := PollFrom(historySize, View(), lastBlock + 1, head, a);
      assert goal == Committed(blocks, head);
      ok := PollNew(head, a, blocks);
    }

    /** Process the new blocks; only a complete pass moves `lastBlock` to the head. */
    method PollNew(head: nat, a: PollAnswers, ghost blocks: Stepped) returns (ok: bool)
      requires Valid() && lastBlock < head
      requires blocks == PollFrom(historySize, View(), lastBlock + 1, head, a)
      modifies this, pool
      ensures Valid()
      ensures Stepped(View(), ok) == Committed(blocks, head)
      ensures baseFee == FeeAfter(a, old(lastBlock) + 1, head, old(baseFee))
    {
      hide PollFrom, FeeAfter;
      ok := ProcessBlocks(lastBlock + 1, head, a);
      if ok {
        CommitTo(head);
      }
    }

    method CommitTo(head: nat)
      requires Valid()
      modifies `lastBlock
      ensures Valid()
      ensures Stepped(View(), true) == Committed(Stepped(old(View()), true), head)
    {
      lastBlock := head;
    }

    /** The loop of a poll: stops at the first failing block. */
    method ProcessBlocks(first: nat, head: nat, a: PollAnswers) returns (ok: bool)
      requires Valid() && first <= head
      modifies this, pool
      ensures Valid()
      ensures Stepped(View(), ok) == PollFrom(historySize, old(View()), first, head, a)
      ensures baseFee == FeeAfter(a, first, head, old(baseFee))
    {
      ghost var goal := PollFrom(historySize, View(), first, head, a);
      ghost var fee := FeeAfter(a, first, head, baseFee);
      for n := first to head + 1
        invariant Valid()
        invariant goal == PollFrom(historySize, View(), n, head, a)
        invariant fee == FeeAfter(a, n, head, baseFee)
      {
        PollFromStep(historySize, View(), n, head, a);
        var processed := ProcessBlock(n, a);
        if !processed {
          return false;
        }
      }
      return true;
    }

    method ProcessBlock(n: nat, a: PollAnswers) returns (ok: bool)
      requires Valid()
      modifies this, pool
      ensures Valid()
      ensures Stepped(View(), ok) == Process(historySize, old(View()), n, a)
      ensures ok == Serves(a, n) && baseFee == FeeAfterBlock(a, n, old(baseFee))
    {
      var block := a.block(n);
      if block.Err? || block.value.None? {
        return false;
      }
      var h := block.value.value;
      var fee := BlockFee(h);
      baseFee := fee;
      CheckReorg(n, h);
      ok := ScanUserOpEvents(n, a.logs(n));
      if ok {
        PushBlock(BlockEntry(n, h.hash, fee), h.parentHash);
      }
    }

    /** The reorg check of `process_block`. */
    method CheckReorg(n: nat, h: Header)
      requires Valid()
      modifies `blockHistory, `parents, `lastBlock
      ensures Valid()
      ensures View() == Rewound(old(View()), n, h)
    {
      if blockHistory != [] {
        var last := blockHistory[|blockHistory| - 1];
        if h.parentHash != last.hash && n == last.number + 1 {
          var depth := DetectReorgDepth(blockHistory, h.parentHash);
          if depth > 0 {
            RewindBy(depth);
          }
        }
      }
    }

    /** `handle_reorg`. */
    method RewindBy(depth: nat)
      requires Valid() && depth <= |blockHistory|
      modifies `blockHistory, `parents, `lastBlock
      ensures Valid()
      ensures View() == HandleReorg(old(View()), depth)
    {
      ghost var all, allParents := blockHistory, parents;
      for i := 0 to depth
        invariant blockHistory == all[..|all| - i] && parents == allParents[..|all| - i]
        invariant lastBlock == old(lastBlock)
      {
        blockHistory := blockHistory[..|blockHistory| - 1];
        parents := parents[..|parents| - 1];
      }
      if blockHistory != [] {
        lastBlock := blockHistory[|blockHistory| - 1].number;
      }
    }

    /** Append, then trim at the front. */
    method PushBlock(entry: BlockEntry, ghost parent: B256)
      requires |parents| == |blockHistory|
      modifies `blockHistory, `parents
      ensures blockHistory == KeepLast(old(blockHistory) + [entry], historySize)
      ensures parents == KeepLast(old(parents) + [parent], historySize)
    {
      blockHistory := blockHistory + [entry];
      parents := parents + [parent];
      ghost var all, allParents := blockHistory, parents;
      while |blockHistory| > historySize
        invariant |parents| == |blockHistory| <= |all|
        invariant blockHistory == all[|all| - |blockHistory|..]
        invariant parents == allParents[|all| - |blockHistory|..]
        invariant |blockHistory| >= Min(historySize, |all|)
        decreases |blockHistory|
      {
        DropNext(all, |all| - |blockHistory|);
        DropNext(allParents, |all| - |blockHistory|);
        blockHistory := blockHistory[1..];
        parents := parents[1..];
      }
    }

    /** Drop every operation a log of block `n` reports as mined. */
    method ScanUserOpEvents(n: nat, logs: Result<seq<Log>, ProviderError>) returns (ok: bool)
      requires Valid()
      modifies `scans, pool
      ensures Valid()
      ensures ok <==> logs.Ok?
      ensures View() == if ok then Scanned(old(View()), n, logs.value) else old(View())
    {
      if logs.Err? {
        return false;
      }
      RemoveMined(logs.value);
      scans := scans + [n];
      return true;
    }

    method RemoveLogged(log: Log)
      requires pool.Valid()
      modifies pool
      ensures pool.Valid()
      ensures pool.View().contents == DropHashes(old(pool.View().contents), LoggedHash(log))
    {
      if |log.topics| < 2 {
        DropMinedAppend(pool.View().contents, [], []);
        return;
      }
      var _ := pool.RemoveByHash(log.topics[1]);
    }

    method RemoveMined(logs: seq<Log>)
      requires pool.Valid()
      modifies pool
      ensures pool.Valid()
      ensures pool.View().contents == DropHashes(old(pool.View().contents), MinedHashes(logs))
    {
      ghost var before := pool.View().contents;
      DropMinedAppend(before, [], []);
      for i := 0 to |logs|
        invariant pool.Valid()
        invariant pool.View().contents == DropHashes(before, MinedHashes(logs[..i]))
      {
        RemoveLogged(logs[i]);
        DropMinedAppend(before, MinedHashes(logs[..i]), LoggedHash(logs[i]));
        assert logs[..i + 1][..i] == logs[..i];
      }
      assert logs[..|logs|] == logs;
    }
  }
}
