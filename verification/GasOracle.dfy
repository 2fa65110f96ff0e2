/** The gas oracle: a five-block fee window with per-block caching. */
module GasOracles {
  import opened Base
  import opened Gas
  import opened Subsequences

  const WINDOW: nat := 5

  datatype BlockFees = BlockFees(blockNumber: nat, baseFee: uint128, priorityFee: uint128)

  /** What the node answers while a refresh runs; each query may fail. */
  datatype RefreshAnswers = RefreshAnswers(
    blockNumber: Result<nat, ProviderError>,
    baseFee: Result<uint128, ProviderError>,
    priorityFee: Result<uint128, ProviderError>)

  // ---------------------------------------------------------------- the recorded blocks

  /** Number of the last recorded block, 0 before the first one. */
  ghost function LastBlock(recorded: seq<BlockFees>): nat {
    if recorded == [] then 0 else recorded[|recorded| - 1].blockNumber
  }

  /** The cached base fee is stored in 64 bits. */
  ghost function CachedBaseFee(recorded: seq<BlockFees>): uint64 {
    if recorded == [] then 0 else recorded[|recorded| - 1].baseFee % U64_LIMIT
  }

  ghost function LastN(s: seq<BlockFees>, n: nat): seq<BlockFees> {
    if |s| <= n then s else s[|s| - n..]
  }

  ghost predicate Succeeds(recorded: seq<BlockFees>, a: RefreshAnswers) {
    a.blockNumber.Ok? && (a.blockNumber.value > LastBlock(recorded) ==> a.baseFee.Ok? && a.priorityFee.Ok?)
  }

  /** A refresh records at most one block: a newer one whose two fee queries both succeed. */
  ghost function Refreshed(recorded: seq<BlockFees>, a: RefreshAnswers): seq<BlockFees> {
    if Succeeds(recorded, a) && a.blockNumber.value > LastBlock(recorded)
    then recorded + [BlockFees(a.blockNumber.value, a.baseFee.value, a.priorityFee.value)]
    else recorded
  }

  ghost function RefreshRun(answers: seq<RefreshAnswers>): seq<BlockFees> {
    if answers == [] then []
    else Refreshed(RefreshRun(answers[..|answers| - 1]), answers[|answers| - 1])
  }

  ghost predicate Increasing(recorded: seq<BlockFees>) {
    && (forall i, j :: 0 <= i < j < |recorded| ==> recorded[i].blockNumber < recorded[j].blockNumber)
    && (forall i :: 0 <= i < |recorded| ==> 0 < recorded[i].blockNumber)
  }

  lemma RefreshKeepsIncreasing(recorded: seq<BlockFees>, a: RefreshAnswers)
    requires Increasing(recorded)
    ensures Increasing(Refreshed(recorded, a))
  {
    if recorded != [] {
      var last := |recorded| - 1;
      assert forall i :: 0 <= i < last ==> recorded[i].blockNumber < recorded[last].blockNumber;
    }
  }

  /** Over any run of successful and failed refreshes the recorded block numbers strictly increase. */
  lemma {:induction false} RecordedIncreasing(answers: seq<RefreshAnswers>)
    ensures Increasing(RefreshRun(answers))
  {
    if answers != [] {
      RecordedIncreasing(answers[..|answers| - 1]);
      RefreshKeepsIncreasing(RefreshRun(answers[..|answers| - 1]), answers[|answers| - 1]);
    }
  }

  /** Appending to the trimmed window and trimming again is trimming the whole history. */
  lemma WindowSlides(recorded: seq<BlockFees>, entry: BlockFees)
    ensures LastN(LastN(recorded, WINDOW) + [entry], WINDOW) == LastN(recorded + [entry], WINDOW)
  {
  }

  // ---------------------------------------------------------------- the median

  function CountBelow(s: seq<nat>, m: nat): nat {
    if s == [] then 0 else CountBelow(s[1..], m) + if s[0] < m then 1 else 0
  }

  function CountUpTo(s: seq<nat>, m: nat): nat {
    if s == [] then 0 else CountUpTo(s[1..], m) + if s[0] <= m then 1 else 0
  }

  /** `m` has rank `|s| / 2`: at most that many are below it, more than that many are not above it. */
  ghost predicate IsUpperMedian(s: seq<nat>, m: nat) {
    m in s && CountBelow(s, m) <= |s| / 2 < CountUpTo(s, m)
  }

  function InsertSorted(s: seq<nat>, x: nat): seq<nat> {
    if s == [] || x <= s[0] then [x] + s else [s[0]] + InsertSorted(s[1..], x)
  }

  /** `sort_unstable` on the copied fees. */
  function Sort(s: seq<nat>): (r: seq<nat>)
    ensures |r| == |s|
  {
    if s == [] then [] else
      var t := Sort(s[1..]);
      InsertSortedLength(t, s[0]);
      InsertSorted(t, s[0])
  }

  lemma InsertSortedLength(s: seq<nat>, x: nat)
    ensures |InsertSorted(s, x)| == |s| + 1
  {
  }

  ghost predicate Ascending(s: seq<nat>) {
    forall i, j :: 0 <= i < j < |s| ==> s[i] <= s[j]
  }

  lemma {:induction false} InsertSortedPermutes(s: seq<nat>, x: nat)
    ensures multiset(InsertSorted(s, x)) == multiset(s) + multiset{x}
  {
    if s != [] && x > s[0] {
      InsertSortedPermutes(s[1..], x);
      assert s == [s[0]] + s[1..];
    }
  }

  lemma {:induction false} InsertSortedAscending(s: seq<nat>, x: nat)
    requires Ascending(s)
    ensures Ascending(InsertSorted(s, x))
    ensures forall y :: y in InsertSorted(s, x) ==> y == x || y in s
  {
    if s != [] && x > s[0] {
      InsertSortedAscending(s[1..], x);
      var t := InsertSorted(s[1..], x);
      forall i | 0 <= i < |t|
        ensures s[0] <= t[i]
      {
        assert t[i] in t;
      }
    }
  }

  lemma {:induction false} InsertSortedCounts(s: seq<nat>, x: nat, m: nat)
    ensures CountBelow(InsertSorted(s, x), m) == CountBelow(s, m) + if x < m then 1 else 0
    ensures CountUpTo(InsertSorted(s, x), m) == CountUpTo(s, m) + if x <= m then 1 else 0
  {
    if s == [] || x <= s[0] {
      assert ([x] + s)[1..] == s;
    } else {
      InsertSortedCounts(s[1..], x, m);
      assert ([s[0]] + InsertSorted(s[1..], x))[1..] == InsertSorted(s[1..], x);
    }
  }

  /** Sorting orders the fees without adding, losing or changing one. */
  lemma {:induction false} SortMeaning(s: seq<nat>)
    ensures Ascending(Sort(s)) && multiset(Sort(s)) == multiset(s)
  {
    if s != [] {
      SortMeaning(s[1..]);
      InsertSortedAscending(Sort(s[1..]), s[0]);
      InsertSortedPermutes(Sort(s[1..]), s[0]);
      assert s == [s[0]] + s[1..];
    }
  }

  lemma {:induction false} SortKeepsCounts(s: seq<nat>, m: nat)
    ensures CountBelow(Sort(s), m) == CountBelow(s, m)
    ensures CountUpTo(Sort(s), m) == CountUpTo(s, m)
  {
    if s != [] {
      SortKeepsCounts(s[1..], m);
      InsertSortedCounts(Sort(s[1..]), s[0], m);
    }
  }

  lemma {:induction false} RankInAscending(s: seq<nat>, k: nat)
    requires Ascending(s) && k < |s|
    ensures CountBelow(s, s[k]) <= k < CountUpTo(s, s[k])
  {
    if k == 0 {
      NothingBelow(s, s[0]);
    } else {
      RankInAscending(s[1..], k - 1);
    }
  }

  lemma {:induction false} NothingBelow(s: seq<nat>, m: nat)
    requires forall i :: 0 <= i < |s| ==> m <= s[i]
    ensures CountBelow(s, m) == 0
  {
    if s != [] {
      NothingBelow(s[1..], m);
    }
  }

  /** The element in the middle of the sorted copy is the upper median of the original. */
  lemma MiddleIsUpperMedian(s: seq<nat>)
    requires s != []
    ensures IsUpperMedian(s, Sort(s)[|s| / 2])
  {
    var m := Sort(s)[|s| / 2];
    SortMeaning(s);
    SortKeepsCounts(s, m);
    RankInAscending(Sort(s), |s| / 2);
    assert m in multiset(Sort(s));
  }

  lemma {:induction false} CountsNested(s: seq<nat>, a: nat, b: nat)
    requires a < b
    ensures CountUpTo(s, a) <= CountBelow(s, b)
  {
    if s != [] {
      CountsNested(s[1..], a, b);
    }
  }

  /** Rank determines the median. */
  lemma UpperMedianUnique(s: seq<nat>, a: nat, b: nat)
    requires IsUpperMedian(s, a) && IsUpperMedian(s, b)
    ensures a == b
  {
    if a < b {
      CountsNested(s, a, b);
    } else if b < a {
      CountsNested(s, b, a);
    }
  }

  // ---------------------------------------------------------------- the oracle

  function PriorityFees(s: seq<BlockFees>): seq<uint128> {
    seq(|s|, i requires 0 <= i < |s| => s[i].priorityFee)
  }

  /** The fees quoted after a history of recorded blocks. */
  ghost predicate Quoted(recorded: seq<BlockFees>, fees: GasFees) {
    && fees.maxFeePerGas == WrapAdd(CachedBaseFee(recorded), fees.maxPriorityFeePerGas)
    && if recorded == [] then fees.maxPriorityFeePerGas == CachedBaseFee(recorded) / 10
       else IsUpperMedian(PriorityFees(LastN(recorded, WINDOW)), fees.maxPriorityFeePerGas)
  }

  /** A quote keeps the tip under the cap exactly when cached base fee plus tip stays within `u128`. */
  lemma QuoteOrderedIff(recorded: seq<BlockFees>, fees: GasFees)
    requires Quoted(recorded, fees)
    ensures fees.WellOrdered() <==> CachedBaseFee(recorded) + fees.maxPriorityFeePerGas < U128_LIMIT
  {
    WrapAddMeaning(CachedBaseFee(recorded), fees.maxPriorityFeePerGas);
  }

  /** The sum of the quote over these blocks stays within `u128`. */
  ghost predicate QuoteFits(recorded: seq<BlockFees>) {
    forall fees :: Quoted(recorded, fees) ==> CachedBaseFee(recorded) + fees.maxPriorityFeePerGas < U128_LIMIT
  }

  /** The exception is real: over base fee 7 the largest tip is quoted with cap 6. */
  lemma QuoteOverflowDisorders()
    ensures var fees := GasFees(6, U128_LIMIT - 1);
            Quoted([BlockFees(1, 7, U128_LIMIT - 1)], fees) && !fees.WellOrdered()
  {
    var tips := PriorityFees(LastN([BlockFees(1, 7, U128_LIMIT - 1)], WINDOW));
    assert tips == [U128_LIMIT - 1];
    assert tips[1..] == [];
  }

  /** What the oracle answers for the base fee: the cached one when positive, else the node's. */
  ghost function BaseFeeAnswer(recorded: seq<BlockFees>, a: RefreshAnswers, direct: Result<uint128, ProviderError>)
    : Result<uint128, ProviderError>
  {
    if !Succeeds(recorded, a) then Err(ProviderError)
    else
      var cached := CachedBaseFee(Refreshed(recorded, a));
      if cached > 0 then Ok(cached) else direct
  }

  class ProviderGasOracle {
    var lastBaseFee: uint64
    var lastBlock: nat
    var feeHistory: seq<BlockFees>
    /** Every block ever recorded. */
    ghost var recorded: seq<BlockFees>

    ghost predicate Valid()
      reads this
    {
      && Increasing(recorded)
      && feeHistory == LastN(recorded, WINDOW)
      && lastBlock == LastBlock(recorded)
      && lastBaseFee == CachedBaseFee(recorded)
    }

    constructor ()
      ensures Valid() && recorded == []
    {
      lastBaseFee, lastBlock, feeHistory, recorded := 0, 0, [], [];
    }

    method RefreshIfNeeded(a: RefreshAnswers) returns (ok: bool)
      requires Valid()
      modifies this
      ensures Valid()
      ensures ok <==> Succeeds(old(recorded), a)
      ensures recorded == Refreshed(old(recorded), a)
    {
      if a.blockNumber.Err? {
        return false;
      }
      if a.blockNumber.value <= lastBlock {
        return true;
      }
      if a.baseFee.Err? || a.priorityFee.Err? {
        return false;
      }
      RefreshKeepsIncreasing(recorded, a);
      var entry := BlockFees(a.blockNumber.value, a.baseFee.value, a.priorityFee.value);
      lastBaseFee := a.baseFee.value % U64_LIMIT;
      lastBlock := a.blockNumber.value;
      recorded := recorded + [entry];
      feeHistory := feeHistory + [entry];
      TrimHistory();
      WindowSlides(old(recorded), entry);
      return true;
    }

    /** The trimming loop of a refresh. */
    method TrimHistory()
      modifies `feeHistory
      ensures feeHistory == LastN(old(feeHistory), WINDOW)
    {
      ghost var all := feeHistory;
      while |feeHistory| > WINDOW
        invariant |feeHistory| <= |all| && feeHistory == all[|all| - |feeHistory|..]
        invariant |feeHistory| >= Min(WINDOW, |all|)
        decreases |feeHistory|
      {
        feeHistory := feeHistory[1..];
      }
    }

    method MedianPriorityFee() returns (m: Option<uint128>)
      ensures feeHistory == [] ==> m == None
      ensures feeHistory != [] ==> m.Some? && IsUpperMedian(PriorityFees(feeHistory), m.value)
    {
      if feeHistory == [] {
        return None;
      }
      var fees := PriorityFees(feeHistory);
      var sorted := Sort(fees);
      MiddleIsUpperMedian(fees);
      assert sorted[|sorted| / 2] in fees;
      return Some(sorted[|sorted| / 2]);
    }

    method CurrentFees(a: RefreshAnswers) returns (r: Result<GasFees, ProviderError>)
      requires Valid()
      modifies this
      ensures Valid() && recorded == Refreshed(old(recorded), a)
      ensures r.Ok? <==> Succeeds(old(recorded), a)
      ensures r.Ok? ==>
                && Quoted(recorded, r.value)
                && (r.value.WellOrdered()
                    <==> CachedBaseFee(recorded) + r.value.maxPriorityFeePerGas < U128_LIMIT)
    {
      var ok := RefreshIfNeeded(a);
      if !ok {
        return Err(ProviderError);
      }
      var baseFee := lastBaseFee;
      var median := MedianPriorityFee();
      var priorityFee := if median.Some? then median.value else baseFee / 10;
      r := Ok(GasFees(WrapAdd(baseFee, priorityFee), priorityFee));
      QuoteOrderedIff(recorded, r.value);
    }

    /** `direct` is the node's answer when nothing positive is cached. */
    method BaseFee(a: RefreshAnswers, direct: Result<uint128, ProviderError>)
      returns (r: Result<uint128, ProviderError>)
      requires Valid()
      modifies this
      ensures Valid() && recorded == Refreshed(old(recorded), a)
      ensures r == BaseFeeAnswer(old(recorded), a, direct)
    {
      var ok := RefreshIfNeeded(a);
      if !ok {
        return Err(ProviderError);
      }
      if lastBaseFee > 0 {
        return Ok(lastBaseFee);
      }
      return direct;
    }
  }

  /** Quotes are functions of the recorded history. */
  lemma QuoteUnique(recorded: seq<BlockFees>, a: GasFees, b: GasFees)
    requires Quoted(recorded, a) && Quoted(recorded, b)
    ensures a == b
  {
    if recorded != [] {
      UpperMedianUnique(PriorityFees(LastN(recorded, WINDOW)), a.maxPriorityFeePerGas, b.maxPriorityFeePerGas);
    }
  }

  // ---------------------------------------------------------------- from the node's answers to the quote

  /** Refresh `i` was taken in: all three queries succeeded, with a block number above 0 and above all taken in before. */
  ghost predicate TakenIn(answers: seq<RefreshAnswers>, i: nat)
    decreases i
  {
    && i < |answers|
    && answers[i].blockNumber.Ok? && answers[i].baseFee.Ok? && answers[i].priorityFee.Ok?
    && answers[i].blockNumber.value > 0
    && (forall j: nat :: j < i && TakenIn(answers, j) ==>
          answers[j].blockNumber.Ok? && answers[j].blockNumber.value < answers[i].blockNumber.value)
  }

  /** `taken` lists the refreshes taken in, in order. */
  ghost predicate IsTaken(answers: seq<RefreshAnswers>, taken: seq<nat>) {
    && (forall i, j :: 0 <= i < j < |taken| ==> taken[i] < taken[j])
    && (forall i: nat :: i in taken <==> TakenIn(answers, i))
  }

  /** The recorded blocks are what the node answered to the refreshes taken in. */
  ghost predicate StandsFor(recorded: seq<BlockFees>, answers: seq<RefreshAnswers>, taken: seq<nat>) {
    && |recorded| == |taken|
    && (forall k :: 0 <= k < |taken| ==>
          && taken[k] < |answers|
          && answers[taken[k]].blockNumber == Ok(recorded[k].blockNumber)
          && answers[taken[k]].baseFee == Ok(recorded[k].baseFee)
          && answers[taken[k]].priorityFee == Ok(recorded[k].priorityFee))
  }

  lemma {:induction false} TakenInFront(answers: seq<RefreshAnswers>, last: RefreshAnswers, i: nat)
    requires i < |answers|
    ensures TakenIn(answers + [last], i) <==> TakenIn(answers, i)
    decreases i
  {
    forall j: nat | j < i
      ensures TakenIn(answers + [last], j) <==> TakenIn(answers, j)
    {
      TakenInFront(answers, last, j);
    }
  }

  /** The next refresh is taken in exactly when it succeeds on a block above the last recorded one. */
  lemma TakenInNext(answers: seq<RefreshAnswers>, last: RefreshAnswers, recorded: seq<BlockFees>, taken: seq<nat>)
    requires IsTaken(answers, taken) && StandsFor(recorded, answers, taken) && Increasing(recorded)
    ensures TakenIn(answers + [last], |answers|) <==>
              && last.blockNumber.Ok? && last.baseFee.Ok? && last.priorityFee.Ok?
              && last.blockNumber.value > LastBlock(recorded)
  {
    var all, n := answers + [last], |answers|;
    forall j: nat | j < n
      ensures TakenIn(all, j) <==> j in taken
    {
      TakenInFront(answers, last, j);
    }
    if recorded != [] {
      var k := |recorded| - 1;
      assert taken[k] in taken && TakenIn(all, taken[k]);
    }
    if last.blockNumber.Ok? && last.blockNumber.value > LastBlock(recorded) {
      forall j: nat | j < n && TakenIn(all, j)
        ensures answers[j].blockNumber.Ok? && answers[j].blockNumber.value < last.blockNumber.value
      {
        var k :| 0 <= k < |taken| && taken[k] == j;
        assert recorded[k].blockNumber <= LastBlock(recorded);
      }
    }
  }

  lemma {:induction false} RecordedStandsFor(answers: seq<RefreshAnswers>) returns (taken: seq<nat>)
    ensures IsTaken(answers, taken) && StandsFor(RefreshRun(answers), answers, taken)
  {
    if answers == [] {
      taken := [];
    } else {
      var n := |answers| - 1;
      var front, last := answers[..n], answers[n];
      taken := RecordedStandsFor(front);
      RecordedIncreasing(front);
      TakenInNext(front, last, RefreshRun(front), taken);
      assert front + [last] == answers;
      var before := taken;
      if TakenIn(answers, n) {
        taken := before + [n];
      }
      forall i: nat
        ensures i in taken <==> TakenIn(answers, i)
      {
        if i < n {
          TakenInFront(front, last, i);
        }
      }
    }
  }

  /** The tips answered to these refreshes. */
  ghost function Tips(answers: seq<RefreshAnswers>, taken: seq<nat>): seq<nat> {
    seq(|taken|, k requires 0 <= k < |taken| =>
      if taken[k] < |answers| && answers[taken[k]].priorityFee.Ok? then answers[taken[k]].priorityFee.value else 0)
  }

  /** In every ascending arrangement of the tips answered to these refreshes, `tip` is the one at half the length. */
  ghost predicate IsMedianTip(answers: seq<RefreshAnswers>, taken: seq<nat>, tip: nat) {
    forall sorted: seq<nat> ::
      multiset(sorted) == multiset(Tips(answers, taken)) && |sorted| == |taken| > 0
      && (forall i, j :: 0 <= i < j < |sorted| ==> sorted[i] <= sorted[j])
      ==> sorted[|sorted| / 2] == tip
  }

  lemma {:induction false} CountsOfPermutation(s: seq<nat>, t: seq<nat>, m: nat)
    requires multiset(s) == multiset(t)
    ensures CountBelow(s, m) == CountBelow(t, m) && CountUpTo(s, m) == CountUpTo(t, m)
  {
    if s == [] {
      assert |multiset(t)| == 0;
    } else {
      assert s[0] in multiset(t);
      var k :| 0 <= k < |t| && t[k] == s[0];
      WithoutMultiset(s, 0);
      WithoutMultiset(t, k);
      Cancel(multiset(Without(s, 0)), multiset(Without(t, k)), s[0]);
      assert Without(s, 0) == s[1..] && t == t[..k] + [t[k]] + t[k + 1..];
      CountsOfPermutation(s[1..], Without(t, k), m);
      CountsMove(t[..k], t[k], t[k + 1..], m);
    }
  }

  lemma Cancel(a: multiset<nat>, b: multiset<nat>, x: nat)
    requires a + multiset{x} == b + multiset{x}
    ensures a == b
  {
    assert a == a + multiset{x} - multiset{x};
  }

  lemma {:induction false} CountsMove(a: seq<nat>, x: nat, b: seq<nat>, m: nat)
    ensures CountBelow(a + [x] + b, m) == CountBelow(a + b, m) + if x < m then 1 else 0
    ensures CountUpTo(a + [x] + b, m) == CountUpTo(a + b, m) + if x <= m then 1 else 0
  {
    if a == [] {
      assert [] + [x] + b == [x] + b && ([x] + b)[1..] == b && a + b == b;
    } else {
      CountsMove(a[1..], x, b, m);
      assert (a + [x] + b)[1..] == a[1..] + [x] + b && (a + b)[1..] == a[1..] + b;
    }
  }

  /** Rank is the place in every ascending arrangement. */
  lemma UpperMedianIsMiddle(s: seq<nat>, sorted: seq<nat>, m: nat)
    requires IsUpperMedian(s, m) && multiset(sorted) == multiset(s) && Ascending(sorted)
    ensures |sorted| == |s| > 0 && sorted[|sorted| / 2] == m
  {
    assert |multiset(sorted)| == |sorted| && |multiset(s)| == |s|;
    var x := sorted[|sorted| / 2];
    RankInAscending(sorted, |sorted| / 2);
    CountsOfPermutation(sorted, s, x);
    assert x in multiset(s);
    UpperMedianUnique(s, x, m);
  }

  /** The last five refreshes taken in. */
  ghost function Newest(taken: seq<nat>): seq<nat> {
    if |taken| <= 5 then taken else taken[|taken| - 5..]
  }

  /**
   * After every run of refreshes, however they fail, a quote is made of the node's own answers: its tip is the
   * upper median of the tips at the last five blocks taken in, its cap that tip on top of the newest base fee.
   */
  lemma QuoteFromAnswers(answers: seq<RefreshAnswers>, fees: GasFees) returns (taken: seq<nat>)
    requires Quoted(RefreshRun(answers), fees)
    ensures IsTaken(answers, taken)
    ensures taken == [] ==> fees == GasFees(0, 0)
    ensures taken != [] ==>
              var newest := taken[|taken| - 1];
              && newest < |answers| && answers[newest].baseFee.Ok?
              && IsMedianTip(answers, Newest(taken), fees.maxPriorityFeePerGas)
              && fees.maxFeePerGas
                 == (answers[newest].baseFee.value % 0x1_0000_0000_0000_0000 + fees.maxPriorityFeePerGas) % U128_LIMIT
  {
    hide RefreshRun, IsUpperMedian, IsMedianTip, IsTaken, Newest, Tips, PriorityFees, LastN;
    var recorded := RefreshRun(answers);
    taken := RecordedStandsFor(answers);
    if taken != [] {
      WindowTips(recorded, answers, taken);
      MedianOfTips(answers, Newest(taken), fees.maxPriorityFeePerGas);
    }
  }

  lemma MedianOfTips(answers: seq<RefreshAnswers>, taken: seq<nat>, tip: nat)
    requires IsUpperMedian(Tips(answers, taken), tip)
    ensures IsMedianTip(answers, taken, tip)
  {
    forall sorted: seq<nat> |
      multiset(sorted) == multiset(Tips(answers, taken)) && |sorted| == |taken| > 0
      && (forall i, j :: 0 <= i < j < |sorted| ==> sorted[i] <= sorted[j])
      ensures sorted[|sorted| / 2] == tip
    {
      UpperMedianIsMiddle(Tips(answers, taken), sorted, tip);
    }
  }

  lemma WindowTips(recorded: seq<BlockFees>, answers: seq<RefreshAnswers>, taken: seq<nat>)
    requires StandsFor(recorded, answers, taken)
    ensures PriorityFees(LastN(recorded, WINDOW)) == Tips(answers, Newest(taken))
  {
  }

  /** A refresh succeeds when the block query does and, on a block above all taken in before, both fee queries do. */
  ghost predicate RefreshWorks(answers: seq<RefreshAnswers>, taken: seq<nat>, last: RefreshAnswers) {
    && last.blockNumber.Ok?
    && ((last.baseFee.Ok? && last.priorityFee.Ok?)
        || if taken == [] then last.blockNumber.value == 0
           else
             var newest := taken[|taken| - 1];
             && newest < |answers| && answers[newest].blockNumber.Ok?
             && last.blockNumber.value <= answers[newest].blockNumber.value)
  }

  /** Both oracle queries fail exactly when their refresh does, or the node's own base fee is asked for and fails. */
  lemma SucceedsFromAnswers(answers: seq<RefreshAnswers>, last: RefreshAnswers) returns (taken: seq<nat>)
    ensures IsTaken(answers, taken)
    ensures Succeeds(RefreshRun(answers), last) <==> RefreshWorks(answers, taken, last)
  {
    hide RefreshRun;
    taken := RecordedStandsFor(answers);
  }

  /** The base fee answered is the newest one taken in, on 64 bits, or the node's own answer when that is zero. */
  lemma BaseFeeFromAnswers(
    answers: seq<RefreshAnswers>, last: RefreshAnswers, direct: Result<uint128, ProviderError>)
    returns (before: seq<nat>, taken: seq<nat>)
    ensures IsTaken(answers, before) && IsTaken(answers + [last], taken)
    ensures taken != [] ==>
              taken[|taken| - 1] < |answers + [last]| && (answers + [last])[taken[|taken| - 1]].baseFee.Ok?
    ensures var all := answers + [last];
            var stored := if taken == [] then 0
                          else all[taken[|taken| - 1]].baseFee.value % 0x1_0000_0000_0000_0000;
            BaseFeeAnswer(RefreshRun(answers), last, direct)
            == if !RefreshWorks(answers, before, last) then Err(ProviderError)
               else if stored > 0 then Ok(stored) else direct
  {
    var all := answers + [last];
    before := SucceedsFromAnswers(answers, last);
    taken := RecordedStandsFor(all);
    assert all[..|all| - 1] == answers;
    assert RefreshRun(all) == Refreshed(RefreshRun(answers), last);
    assert taken != [] ==> taken[|taken| - 1] in taken;
  }
}
