# Verified model of the bunzo bundler

bunzo is an ERC-4337 (EntryPoint v0.7) bundler. It validates and pools user operations, selects
bundles from the pool, submits them, tracks and escalates the one pending transaction, and watches
the chain. This project models that pipeline in Dafny and proves properties that hold for every input
and every run, with the node, the signer and the submission strategy answering arbitrarily or failing.

## Layout

| file | what it holds |
|---|---|
| `Base.dfy`, `BigEndian.dfy`, `Gas.dfy`, `Subsequence.dfy` | wrappers and integer ranges, byte strings, fee pairs, order-preserving selections |
| `UserOperation.dfy` | user operations, pack/unpack, digest, replacement id |
| `Conflict.dfy`, `Serializability.dfy` | the storage conflict detector, and why admitted bundles serialize |
| `PoolModel.dfy`, `Pool.dfy` | the pool as one map, and the class with its four redundant indexes |
| `Validation.dfy` | validation in front of the pool, and nonce chains |
| `GasOracle.dfy`, `Proposer.dfy` | the fee window, and the bundle proposer's retry loop |
| `Tracker.dfy`, `SenderModel.dfy`, `SenderRuns.dfy`, `SenderTrace.dfy`, `BundlerTask.dfy` | the transaction tracker, the bundle sender as a transition system, its invariants over runs, what a run did read off its events, and the class |
| `ChainModel.dfy`, `ChainWatcher.dfy` | the chain watcher as a transition system, and the class |

Components that change in place are classes. Each method's contract ties the new state to a function
of the old one (or to the contents the indexes stand for); the run lemmas are about those functions.
Answers of the environment are parameters, so a lemma over all answers covers every failure.
`keccak256` and ABI encoding are two arbitrary functions collected in `Hasher`. History variables
(`Ledger`, `Watch.scans`, `Watch.parents`, the detector's `log`, the oracle's `recorded`) record what
a run did and never influence it.

## What the code does, where it differs from what one would expect

- An escalation signs the pending nonce minus one, not the pending nonce, except at nonce 0
  (`EscalationSignsPreviousNonce`, with a run in `PreviousNonceIsSigned`); the comment at
  `crates/builder/src/task.rs:278` describes a same-nonce replacement.
- Escalating never gives up because attempts ran out, as its log line says, but only because a fee
  query failed (`GivenUpOnlyWhenQueryFails`); with attempts used up the transaction just stays pending.
- A bundle may be returned although its last simulation failed (`ProposedIff`, `UnsimulatedBundleExists`).
- Fee arithmetic on `u128` wraps in release builds; builds with overflow checks stop there instead. The
  inclusion floor, the replacement threshold, the quote and the bump are what they are meant to be exactly
  while the sum or product at hand fits (`PaysFloorIff`, `ThresholdExactIff`, `QuoteOrderedIff`,
  `BumpExactIff`, `SafeUpToIff`); each failing case is given with its input (`OverflowUnderpays`,
  `OverflowUndercuts`, `QuoteOverflowDisorders`, `MarketOverflowDisorders`, `LinearOverflowDisorders`,
  `OverflowSignsDisordered`).
- The gas limit of a bundle is computed on 64 bits from gas limits that validation does not bound, so it can
  lie far below the gas its operations may use (`GasLimitCoversIff`, `HugeOperationUncounted`).
- Sequence 0 is accepted on top of the last `u64` sequence in release builds, which wrap
  (`AcceptedKeepsGapFreeIff`, `WrapOpensGap`); a build with overflow checks stops there instead.
- A poll that fails past its first block, without a rewind in the failing block, leaves the block
  history inconsistent with `last_block`, and the next poll enters block numbers twice
  (`PollKeepsHistoryIffHarmless`, `LaterFailureDuplicates`).
- Whether block numbers rewound by a reorg are scanned again depends on where the poll leaves `last_block`
  (`RewoundAboveIff`, `RewoundRescannedIff`, in every state). With an ordered history they are only after a
  failed poll (`OrderedRewoundAboveIff`), and not even always then: a successful poll passes over them
  (`NotRescannedAfterSuccess`), a failed one has them rescanned if its last rewind left an older entry
  (`RescannedAfterFailure`), but if the history was emptied only those that were above `last_block`
  already (`NotRescannedWhenEmptied`). A history disordered by an earlier failure can have a number
  rescanned that a successful poll rewound (`RescannedAfterSuccess`).
- The conflict detector is exact for every query only while each slot has one writing sender
  (`ReportExactIffSingleWriter`); used greedily it always is (`AdmittedIffConflictFree`).
- The confirmation depth is the constant 3; `required_confirmations` of the chain specification is not read.

## Model

| member | source | states |
|---|---|---|
| `UserOperations.NonceSplitBijection` | crates/types/src/user_operation/mod.rs:40-49 | a nonce is its 192-bit key times 2^64 plus its 64-bit sequence, and the pair ranges freely |
| `UserOperations.TotalGasLimitSums` | crates/types/src/user_operation/mod.rs:107-113 | each of the five gas limits counts once in the total, and nothing else does |
| `UserOperations.UnpackPackPair` | crates/types/src/user_operation/v0_7.rs:370-387 | two 128-bit values survive being packed into 32 bytes |
| `UserOperations.PackUnpackPair` | crates/types/src/user_operation/v0_7.rs:370-387 | every 32-byte pair survives being unpacked and packed |
| `UserOperations.UnpackOfPack` | crates/types/src/user_operation/v0_7.rs:107-192 | unpacking a packed operation yields it with the data beside an absent factory or paymaster cleared |
| `UserOperations.PackIsStable` | crates/types/src/user_operation/v0_7.rs:107-192 | packing, unpacking and packing again gives the first packed form, and the id survives, in any context |
| `UserOperations.HashSurvivesPacking` | crates/types/src/user_operation/v0_7.rs:194-216 | the digest survives the packed form under the same entry point and chain |
| `UserOperations.UnpackRestoresIffCanonical` | crates/types/src/user_operation/v0_7.rs:107-192 | unpacking restores every field exactly when an absent factory or paymaster carries no data or gas |
| `UserOperations.RepackIsIdentityIffLossless` | crates/types/src/user_operation/v0_7.rs:107-192 | repacking a packed form is the identity exactly when its gas fits 128 bits and its two optional sections are empty or long enough |
| `UserOperations.RepackMeaning` | crates/types/src/user_operation/v0_7.rs:144-192 | repacking clamps the pre-verification gas to the largest `u128`, empties a factory section under 20 and a paymaster section under 52 bytes, and keeps every other byte |
| `BigEndian.FirstByteHighest` | crates/types/src/user_operation/v0_7.rs:370-387 | the first byte of a number weighs most |
| `UserOperations.HashIgnoresSignature` | crates/types/src/user_operation/v0_7.rs:197-216 | operations differing only in signature share a digest |
| `UserOperations.HashBindsContent` | crates/types/src/user_operation/v0_7.rs:197-216 | two digests are equal exactly when the two hashed strings collide, or entry point and chain agree and the packed forms without signature are equal, encoded alike, or have colliding encodings |
| `UserOperations.PackedLayout` | crates/types/src/user_operation/v0_7.rs:107-142 | each field of the packed form is that of the operation: gas values big-endian in their halves, factory data behind its address, paymaster data behind its address and two 16-byte gas limits, empty sections when absent |
| `UserOperations.HashLayout` | crates/types/src/user_operation/v0_7.rs:197-216 | the digest is that of 84 bytes: the inner digest of the packed form without signature, the entry point, and the chain id as a 32-byte number |
| `UserOperations.CachedDigestWins` | crates/types/src/user_operation/v0_7.rs:247-249 | a cached digest is answered as it is, even a stale one; without one it is computed |
| `UserOperations.SetContextRefreshes` | crates/types/src/user_operation/v0_7.rs:219-223 | setting the context leaves a digest of the current fields and changes nothing else |
| `Gas.PaysFloorIff` | crates/types/src/gas.rs:21-32 | the effective price reaches base fee plus minimum tip exactly when the filter passes and base fee plus the operation's own tip stays within `u128` |
| `Gas.OverflowUnderpays` | crates/types/src/gas.rs:21-32 | both fees at the maximum pass the filter at base fee 7 and tip 1, at an effective price of 6 |
| `Gas.BumpExactIff` | crates/types/src/gas.rs:35-41 | a bump is the percentage rounded down exactly when its product stays within `u128`, and never more |
| `Gas.BumpNeverDropsIff` | crates/types/src/gas.rs:35-41 | up to a doubling, a bump does not lower the fee exactly when its product stays within `u128` |
| `Conflict.RecordAllMeaning` | crates/builder/src/conflict.rs:16-25 | a recorded read never hides a write: the footprint depends only on which accesses were recorded |
| `Conflict.StorageAccess.RecordRead` | crates/builder/src/conflict.rs:17-21 | a read is entered only when the slot is new |
| `Conflict.StorageAccess.RecordWrite` | crates/builder/src/conflict.rs:23-25 | a write is entered over whatever was there |
| `Conflict.ConflictDetector.CheckConflicts` | crates/builder/src/conflict.rs:54-83 | reports, over everything added since the reset, all foreign accessors of written slots and the foreign last writer of read slots |
| `Conflict.ConflictDetector.AddOperation` | crates/builder/src/conflict.rs:85-99 | the index keeps standing for the extended log of operations; the position is returned |
| `Conflict.ConflictDetector.Reset` | crates/builder/src/conflict.rs:101-105 | the index stands for the empty log |
| `Conflict.ReportedMeaning` | crates/builder/src/conflict.rs:54-83 | reported are exactly the earlier operations of other senders that recorded a slot the new one writes, or were the last to write a slot it recorded |
| `Conflict.AdmittedMeaning` | crates/builder/src/conflict.rs:54-99 | admitted are exactly the sequences in which slots shared by different senders are only read |
| `Conflict.ReportedAreConflicts` | crates/builder/src/conflict.rs:54-83 | in every state only real pairwise conflicts are reported |
| `Conflict.ReportExactIffSingleWriter` | crates/builder/src/conflict.rs:54-99 | emptiness of the report agrees with the pairwise relation for all queries exactly when each slot has one writing sender |
| `Conflict.AdmittedIffConflictFree` | crates/builder/src/conflict.rs:54-99 | adding only on an empty report admits exactly the pairwise conflict-free sequences, whose written slots have accessors of one sender |
| `Serializability.AdmittedBundlesSerialize` | crates/builder/src/conflict.rs:54-99 | admitted operations with honest footprints leave the same storage in every rearrangement that keeps each sender's order |
| `Serializability.UnguardedOrderShows` | crates/builder/src/conflict.rs:54-99 | without the guard two writers of one slot already make the order visible |
| `PoolModel.ReachableWellFormed` | crates/pool/src/pool.rs:128-242 | after every run of calls: entries under their own id and digest, unique digests, size and per-sender limits, sequence numbers below the counter |
| `PoolModel.EntriesTraced` | crates/pool/src/pool.rs:50-66 | after every run of calls each entry was entered by an addition of its own operation, at the lower of its fee cap and base fee plus tip (on `u128`) of that call, and has been pooled ever since |
| `PoolModel.HigherPriceFirst` | crates/pool/src/pool.rs:88-97 | of two entries pooled by a run the one with the higher such price precedes the other in every selection; at equal price the one added earlier, until the sequence counter saturates |
| `PoolModel.SelectionOrder` | crates/pool/src/pool.rs:88-97 | a selection holds as many entries as asked for and there are, by higher price, then lower sequence, then smaller digest |
| `PoolModel.AdmittedIffFits` | crates/pool/src/pool.rs:128-177 | an addition succeeds exactly when the digest is new, the fee reaches the threshold over what it replaces, and the contents stay within both limits |
| `PoolModel.RefusalMeaning` | crates/pool/src/pool.rs:128-177 | each error names the check that failed first, with its values |
| `PoolModel.ThresholdExactIff` | crates/pool/src/pool.rs:136-148 | the fee a replacement must offer is the configured bump rounded down exactly when increase and sum stay within `u128`; otherwise it is lower |
| `PoolModel.OverflowUndercuts` | crates/pool/src/pool.rs:136-148 | over the largest fee a tenth of it already passes as a 10 percent bump |
| `PoolModel.ReplacementsCompound` | crates/pool/src/pool.rs:136-160 | over every run of calls, after k replacements of an entry that stays and whose thresholds fit its fee is at least k compounded bumps above the first |
| `PoolModel.BestIsUnique` | crates/pool/src/pool.rs:88-97 | there is only one best selection of n entries under price, sequence and digest |
| `PoolModel.LateArrivalRanksLast` | crates/pool/src/pool.rs:69-97 | at equal price earlier arrivals rank first until the sequence counter saturates |
| `Pool.InsertRankedMeaning` | crates/pool/src/pool.rs:190 | inserting keeps the ordered set ranked and adds exactly the entry |
| `Pool.RemoveRankedMeaning` | crates/pool/src/pool.rs:264 | removing keeps the ordered set ranked and takes out exactly the entry |
| `Pool.CountsInsert` | crates/pool/src/pool.rs:191 | after an insertion the counters again equal the entries per sender |
| `Pool.CountsRemove` | crates/pool/src/pool.rs:266-272 | after a removal the counters again equal the entries per sender, with no zero kept |
| `Pool.RoomAfterRemoval` | crates/pool/src/pool.rs:136-177 | after removing a replaced entry neither the sender limit nor the size limit can be hit |
| `Pool.AddRefines` | crates/pool/src/pool.rs:128-205 | from a coherent pool, addition on the four structures gives the verdict the contents demand, stays coherent, and on every error changes nothing although removal comes first |
| `Pool.EveryRunCoherent` | crates/pool/src/pool.rs:128-273 | after every run of calls the four structures agree, and stand for what the run does to plain contents |
| `Pool.OperationPool.constructor` | crates/pool/src/pool.rs:112-121 | a new pool is coherent and empty |
| `Pool.OperationPool.Size` | crates/pool/src/pool.rs:124-126 | the digest index of a coherent pool has one entry per pooled operation |
| `Pool.OperationPool.Add` | crates/pool/src/pool.rs:128-205 | coherence is kept; verdict and new contents are those demanded of the old contents; an error leaves all structures and the counter alone |
| `Pool.OperationPool.AddInPlace` | crates/pool/src/pool.rs:128-205 | the statements of `add` have the effect `Adding` describes, from any state |
| `Pool.OperationPool.RemoveInner` | crates/pool/src/pool.rs:261-273 | one entry leaves all four structures |
| `Pool.OperationPool.RemoveByHash` | crates/pool/src/pool.rs:215-219 | coherence is kept; exactly the entry with that digest goes and is returned |
| `Pool.OperationPool.RemoveById` | crates/pool/src/pool.rs:221-225 | coherence is kept; exactly the entry with that id goes and is returned |
| `Pool.OperationPool.BestOperations` | crates/pool/src/pool.rs:227-234 | the n best entries in rank order: nothing left out outranks anything returned |
| `Pool.OperationPool.Clear` | crates/pool/src/pool.rs:236-242 | the pool is coherent and empty; the sequence counter is kept |
| `Pool.OperationPool.MaxNonceSequence` | crates/pool/src/pool.rs:252-259 | the highest pooled sequence under sender and key, or none when there is none |
| `Validation.Validator.ValidateNonce` | crates/pool/src/validation.rs:130-174 | passes exactly replacements and the successor of the highest pooled sequence, and names expected and given sequence otherwise |
| `Validation.Validator.ValidateSync` | crates/pool/src/validation.rs:40-119 | passes exactly the acceptable operations of reputable entities; the error is that of the first failing check |
| `Validation.AcceptablePays` | crates/pool/src/validation.rs:40-128 | an acceptable operation pays base fee plus minimum tip exactly unless base fee plus its own tip leaves `u128` |
| `Validation.NonceAcceptedIff` | crates/pool/src/validation.rs:130-174 | a nonce passes exactly when it is pooled, starts its chain, or its lower 64 bits follow those of the highest nonce of its chain, wrapping |
| `Validation.AcceptsIff` | crates/rpc/src/eth.rs:141-160 | an operation is accepted exactly when its fields, its fees at this base fee, its nonce, its digest, the room in the pool or the replacement threshold, and the reputation allow it |
| `Validation.StaticErrorMeaning` | crates/pool/src/validation.rs:40-97 | the static error names the first failing field |
| `Validation.GasPriceErrorMeaning` | crates/pool/src/validation.rs:99-117 | the fee error means that the floor is not met, and carries fee cap and base fee |
| `Validation.HugeGasAcceptable` | crates/pool/src/validation.rs:40-128 | validation bounds no gas limit from above: acceptable operations of 2^64 gas in all exist |
| `Validation.Validator.SendUserOperation` | crates/rpc/src/eth.rs:130-160 | accepts exactly when the entry point is the supported one and validation, reputation and pool agree, with the digest under the set context; a refusal leaves the pool alone |
| `Validation.RemovalKeepsGapFreeIffEnd` | crates/pool/src/pool.rs:221-225 | dropping a pooled operation keeps all nonce chains gap-free exactly when it is an end of its chain |
| `Validation.AcceptedKeepsGapFreeIff` | crates/pool/src/validation.rs:130-174 | an accepted operation keeps all nonce chains gap-free exactly unless the sequence wrapped over the last one with 1 missing |
| `Validation.WrapOpensGap` | crates/pool/src/validation.rs:152-164 | the wrap is accepted over the last sequence alone and leaves a gap |
| `Validation.OrderlyRunsAreGapFree` | crates/pool/src/validation.rs:130-174 | in every run of submissions and end removals, by id or by digest, in which no new operation wraps over the last sequence with 1 missing, each (sender, key) holds an interval |
| `GasOracles.RecordedIncreasing` | crates/provider/src/gas_oracle.rs:47-73 | over every run of refreshes the recorded block numbers strictly increase |
| `GasOracles.WindowSlides` | crates/provider/src/gas_oracle.rs:61-70 | trimming after each append keeps the last five of everything recorded |
| `GasOracles.MiddleIsUpperMedian` | crates/provider/src/gas_oracle.rs:82-85 | the middle of the sorted fees has the median rank in the unsorted ones |
| `GasOracles.UpperMedianUnique` | crates/provider/src/gas_oracle.rs:82-85 | rank determines the median |
| `GasOracles.ProviderGasOracle.RefreshIfNeeded` | crates/provider/src/gas_oracle.rs:47-73 | records exactly a newer block whose two fee queries succeed; the window stays the last five of all recorded blocks |
| `GasOracles.ProviderGasOracle.MedianPriorityFee` | crates/provider/src/gas_oracle.rs:75-86 | the upper median of the window by rank, none for an empty window |
| `GasOracles.ProviderGasOracle.CurrentFees` | crates/provider/src/gas_oracle.rs:91-99 | succeeds exactly when the refresh does; quotes cached base fee plus upper median on `u128`; the tip stays under the cap exactly when that sum fits |
| `GasOracles.ProviderGasOracle.BaseFee` | crates/provider/src/gas_oracle.rs:101-109 | the cached base fee when positive, the node's answer otherwise, an error when the refresh fails |
| `GasOracles.QuoteUnique` | crates/provider/src/gas_oracle.rs:91-99 | the quote is determined by the recorded blocks |
| `GasOracles.QuoteOrderedIff` | crates/provider/src/gas_oracle.rs:91-99 | a quote keeps the tip under the cap exactly when cached base fee plus tip stays within `u128` |
| `GasOracles.QuoteOverflowDisorders` | crates/provider/src/gas_oracle.rs:91-99 | over base fee 7 the largest tip is quoted with cap 6 |
| `GasOracles.QuoteFromAnswers` | crates/provider/src/gas_oracle.rs:47-99 | after every run of refreshes the quoted tip is the upper median of the tips answered at the last five block numbers taken in, and the cap is that tip on top of the base fee answered with the newest of them, on 64 and 128 bits |
| `GasOracles.BaseFeeFromAnswers` | crates/provider/src/gas_oracle.rs:47-109 | the base fee is the newest one taken in, on 64 bits, or the node's own answer when that is 0; it fails exactly when its refresh does |
| `GasOracles.SucceedsFromAnswers` | crates/provider/src/gas_oracle.rs:47-59 | a refresh works exactly when the block query does and, above all block numbers taken in, both fee queries do |
| `Proposer.BundleProposer.MakeBundle` | crates/builder/src/proposer.rs:67-204 | fees and base fee are what the oracle answers from its recorded blocks, the selection is the best of the pool, the answer is that of filter and retry loop on them, and the oracle ends with the blocks these queries recorded |
| `Proposer.BundleProposer.Assemble` | crates/builder/src/proposer.rs:81-204 | the imperative loop computes `Proposed` |
| `Proposer.AffordableMeaning` | crates/builder/src/proposer.rs:81-97 | the filter keeps candidates in order; among those whose base fee plus tip fits, exactly the ones priced at base fee plus minimum tip or more |
| `Proposer.SettleConserves` | crates/builder/src/proposer.rs:103-183 | kept plus rejected operations are the ones that entered the loop |
| `Proposer.SettleKeepsOrder` | crates/builder/src/proposer.rs:103-183 | the kept operations stand in the given order |
| `Proposer.SettleEndsIff` | crates/builder/src/proposer.rs:105-183 | exit, number of attempts and kept list are exactly those the answers call for: k failures in a row, each in range of the list it was given for, then the answer that ends the loop |
| `Proposer.ProposedIff` | crates/builder/src/proposer.rs:67-204 | a bundle is returned as simulated exactly when some answer within the budget is Success and each earlier one failed an operation in range; likewise for exhausted retries and for an index out of range |
| `Proposer.SettleConservesGas` | crates/builder/src/proposer.rs:208-218 | rejecting operations lowers the bundle's gas by exactly their share |
| `Proposer.EstimateMeaning` | crates/builder/src/proposer.rs:208-218 | the estimate is the sum of all gas limits and overheads on 64 bits, although each summand is cut first |
| `Proposer.GasLimitCoversIff` | crates/builder/src/proposer.rs:185-218 | the gas limit of a bundle reaches the gas of its operations and overheads exactly when that gas with its 5 percent buffer fits `u64` |
| `Proposer.HugeOperationUncounted` | crates/builder/src/proposer.rs:212-217 | an operation whose gas limits add up to 2^64 counts as 0, and its bundle's gas limit lies below them |
| `Proposer.BundleAccounts` | crates/builder/src/proposer.rs:67-204 | for all simulation answers a returned bundle and its rejections partition the affordable candidates, in priority order, within the retry budget, with the reason the loop ended |
| `Proposer.BundleTraced` | crates/builder/src/proposer.rs:67-204 | a returned bundle packs, for the configured beneficiary and with the quoted fees and the gas limit of what is left, the affordable candidates less the operations its simulations named one after the other; its rejected list names exactly these with digest and reason, and the last answer was Success or left no retry |
| `Proposer.FailureTraced` | crates/builder/src/proposer.rs:67-204 | a failed proposal names why: a failed query, no candidate left after the operations its simulations named, or a simulation that answered with an aggregator or a revert |
| `Proposer.BundlePartition` | crates/builder/src/proposer.rs:81-204 | packed operations and rejected digests of a returned bundle are together the affordable candidates |
| `Proposer.FirstRejected` | crates/builder/src/proposer.rs:141-169 | of two candidates the first of which fails once, the bundle keeps the second and rejects the first with its reason |
| `Proposer.BundlePriced` | crates/builder/src/proposer.rs:81-97 | every bundled operation pays at least the base fee used plus the minimum tip, exactly unless base fee plus its own tip leaves `u128` |
| `Proposer.BundleComesFromPool` | crates/builder/src/proposer.rs:71-204 | bundled operations are ranked pool entries priced against the oracle's base fee, rejected digests belong to pool entries, fees are the oracle's quote |
| `Proposer.ProposedFeesOrderedIff` | crates/builder/src/proposer.rs:67-69 | a proposed tip stays under its cap exactly when the base fee quoted plus the tip fits `u128` |
| `Proposer.ProposalUnique` | crates/builder/src/proposer.rs:67-204 | pool contents, recorded blocks and answers determine the proposal |
| `Proposer.InputsFromAnswers` | crates/builder/src/proposer.rs:67-69 | the proposal refreshes first for the fees, then for the base fee, and uses what the oracle holds after each |
| `Proposer.UnsimulatedBundleExists` | crates/builder/src/proposer.rs:144-203 | a node that always names an index out of range gets a bundle returned that never simulated |
| `Tracker.TransactionTracker.Initialize` | crates/builder/src/tracker.rs:86-94 | the nonce is taken from the node, or nothing changes |
| `Tracker.TransactionTracker.RecordSubmission` | crates/builder/src/tracker.rs:104-124 | a fresh pending transaction with no escalations; the account nonce stays |
| `Tracker.TransactionTracker.CheckPending` | crates/builder/src/tracker.rs:126-166 | receipt, then chain nonce decide between mined, dropped and pending; failed queries change nothing |
| `Tracker.TransactionTracker.RecordEscalation` | crates/builder/src/tracker.rs:229-247 | the pending transaction takes the new digest and fees and one more escalation |
| `Tracker.TransactionTracker.ClearPending` | crates/builder/src/tracker.rs:249-251 | nothing is pending; the account nonce stays |
| `Tracker.EscalationWellOrdered` | crates/builder/src/tracker.rs:187-227 | escalated fees keep the tip under the cap whatever the network answers, while no product or sum leaves `u128` |
| `Tracker.EscalationExact` | crates/builder/src/tracker.rs:187-227 | escalation then computes the larger of bump and market price with premium, in exact arithmetic |
| `Tracker.SafeUpToIff` | crates/builder/src/tracker.rs:187-227 | for all pending fees and market prices up to given bounds an escalation keeps the tip under the cap exactly when the bump product of the one and, under network tracking, the premium product of the other fit `u128` |
| `Tracker.LinearOverflowDisorders` | crates/builder/src/tracker.rs:195-201 | for any percentage, a cap one wei past the largest whose bump fits, with the tip one less, is bumped out of order |
| `Tracker.MarketOverflowDisorders` | crates/builder/src/tracker.rs:207-227 | base fee 11500 with a tip of a 11500th of the maximum gives cap 13224, far below the tip |
| `Tracker.EscalationClearsBump` | crates/builder/src/tracker.rs:187-227 | both escalated fees clear the exact minimum bump and never drop, while both bumps fit `u128` |
| `Tracker.BumpRisesIff` | crates/builder/src/tracker.rs:195-199 | a bump of at most a doubling raises a fee exactly when the unrounded increase reaches one wei and the product fits `u128` |
| `Tracker.DefaultBumpThresholds` | crates/builder/src/tracker.rs:51-61 | at the default 12.5 percent, while the product fits, a fee rises exactly from 8 wei on, and by 10 percent from 32 wei on but not at 31 |
| `SenderRuns.EscalationRaises` | crates/builder/src/tracker.rs:187-247 | an escalation whose bumps fit keeps both fees one more floored bump above the originals |
| `SenderRuns.EveryRun` | crates/builder/src/task.rs:114-389 | the sender's invariant holds after every run, for all answers and all pool changes by others |
| `SenderRuns.StatesAndDeadBranches` | crates/builder/src/task.rs:114-389 | pending, bundle and mined block are set exactly in their states, cancelling is never reached, and the branches marked as not happening are dead |
| `SenderRuns.NonceDiscipline` | crates/builder/src/tracker.rs:104-166 | the account nonce equals the pending nonce, never decreases, and rises exactly when the transaction is mined or dropped |
| `SenderRuns.SharedNonceMeansGivenUp` | crates/builder/src/task.rs:259-315 | two submissions share a nonce only if the earlier was given up while escalating |
| `SenderRuns.GivenUpOnlyWhenQueryFails` | crates/builder/src/task.rs:260-267 | a step from Escalating abandons exactly when network tracking meets a failed fee query |
| `SenderRuns.EscalationSignsPreviousNonce` | crates/builder/src/task.rs:278-283 | the replacement carries the pending nonce minus one, saturating, so it reuses the nonce exactly at zero |
| `SenderRuns.PreviousNonceIsSigned` | crates/builder/src/task.rs:143-283 | from any starting nonce four steps reach Escalating with that nonce pending, and the replacement is signed one below it: at 7, with 6 |
| `SenderRuns.SignedFeesWellOrdered` | crates/builder/src/task.rs:151-315 | in every run whose proposals are the proposer's from pool, recorded blocks and answers, and whose quotes and escalations stay within `u128`, every bundle or replacement signed has its tip under its fee cap (Specification section of EIP-1559) |
| `SenderRuns.SignsOrderedWithinIff` | crates/builder/src/task.rs:178-315 | all runs with ordered proposals, and pending caps and market prices up to given bounds, sign ordered fees exactly when the products at the bounds stay within `u128` |
| `SenderRuns.OverflowSignsDisordered` | crates/builder/src/task.rs:259-315 | in a run whose market price leaves `u128` a replacement is signed with its tip above its cap |
| `SenderRuns.EscalationsBounded` | crates/builder/src/tracker.rs:169-247 | at most `max_attempts` escalations per submission in every run, counted alike by the pending transaction |
| `SenderRuns.EscalationBounds` | crates/builder/src/tracker.rs:169-247 | after k escalations whose bumps fit, whatever the market and the proposals, both fees are at least k compounded floored bumps up |
| `SenderRuns.PendingFeesNeverDrop` | crates/builder/src/tracker.rs:187-247 | while a transaction stays pending its nonce is fixed and, while bumps fit, its fees never drop and an escalation lifts both by the bump |
| `SenderRuns.LinearNeverDropsIff` | crates/builder/src/tracker.rs:194-201 | a recorded linear escalation of at most a doubling drops neither fee exactly when both bumps fit `u128` |
| `SenderRuns.ConfirmedDeepEnough` | crates/builder/src/task.rs:361-389 | every confirmation was reported at least 3 blocks above the recorded mined block |
| `SenderRuns.ConfirmedIsRecorded` | crates/builder/src/task.rs:361-389 | entering Confirmed always goes through such a report, for the block of the last submission |
| `SenderRuns.MinedCleansPool` | crates/builder/src/task.rs:225-233 | after the step that observes Mined the pool holds no entry under sender and nonce of a bundled operation, replaced or not, and every other entry is untouched |
| `SenderTraces.ConfirmationsTraced` | crates/builder/src/task.rs:225-389 | every recorded confirmation stems from an earlier step whose receipt answer carried its mined block (0 when left out), and was reported at least three blocks above it |
| `SenderTraces.ConfirmedIff` | crates/builder/src/task.rs:361-389 | a step from Confirming ends in Confirmed exactly when it reports a block at least three above the block in the receipt that started confirming |
| `SenderTraces.SignedTraced` | crates/builder/src/task.rs:151-315 | every transaction signed in any run carries operations, beneficiary and gas limit of a bundle proposed earlier in it; a first submission also its fees, at the account nonce, a replacement one below |
| `SenderTraces.BundleTraced` | crates/builder/src/task.rs:151-175 | the bundle held is the last proposal taken, unchanged since |
| `SenderTraces.NonceStep` | crates/builder/src/tracker.rs:126-166 | the account nonce moves one past the pending nonce on a receipt, to the chain's nonce when that passed the pending one, and never otherwise |
| `SenderTraces.BuildingStep` | crates/builder/src/task.rs:151-175 | a non-empty proposal is kept and exactly the entries whose digests it rejects leave the pool |
| `SenderTraces.SubmittingStep` | crates/builder/src/task.rs:178-222 | what is signed and pending after Submitting, for each answer of signer and network |
| `SenderTraces.AwaitingStep` | crates/builder/src/task.rs:225-256 | the four outcomes of waiting, by receipt, chain nonce and elapsed time |
| `SenderTraces.EscalatingStep` | crates/builder/src/task.rs:259-315 | what is signed and pending after Escalating, for each answer of node, signer and network |
| `SenderTraces.RestingStep` | crates/builder/src/task.rs:114-148 | Idle builds exactly on a non-empty pool; the terminal states reset bundle and mined block |
| `BundlerTasks.BundlerTask.constructor` | crates/builder/src/task.rs:51-78 | the sender starts idle, with nothing pending |
| `BundlerTasks.BundlerTask.Step` | crates/builder/src/task.rs:114-140 | a step is the transition for these answers and signs exactly the transaction stated; in Building it takes the one proposal that pool, recorded blocks and answers determine |
| `BundlerTasks.BundlerTask.HandleIdle` | crates/builder/src/task.rs:143-148 | builds exactly when the pool is not empty |
| `BundlerTasks.BundlerTask.HandleBuilding` | crates/builder/src/task.rs:151-175 | the proposal of pool, recorded blocks and answers: a non-empty one is kept and its rejected operations leave the pool; anything else returns to idle |
| `BundlerTasks.BundlerTask.HandleSubmitting` | crates/builder/src/task.rs:178-222 | signs at the account nonce with the bundle's fees; only a submitted transaction becomes pending |
| `BundlerTasks.BundlerTask.HandlePending` | crates/builder/src/task.rs:225-256 | follows the tracker's answer; on Mined records the block and cleans the pool |
| `BundlerTasks.BundlerTask.HandleEscalating` | crates/builder/src/task.rs:259-315 | gives up without fees or bundle, else signs the replacement and records it only when submitted |
| `BundlerTasks.BundlerTask.HandleConfirming` | crates/builder/src/task.rs:361-389 | confirms exactly at depth 3, and waits on a failed query |
| `BundlerTasks.BundlerTask.RemoveBundledOps` | crates/builder/src/task.rs:429-444 | exactly the entries under the ids of the unpacked bundled operations leave the pool |
| `ChainModel.ReorgDepthMeaning` | crates/pool/src/chain.rs:238-246 | popping the detected depth exposes the newest entry that is the new block's parent, or empties the history |
| `ChainModel.EveryBlockScanned` | crates/pool/src/chain.rs:95-180 | on every run, under all failures and reorgs, every block number after the initial one up to `last_block` was scanned |
| `ChainModel.SuccessScansOnce` | crates/pool/src/chain.rs:102-106 | a successful poll scans the new block numbers once each, in order, and no others |
| `ChainModel.LastBlockRests` | crates/pool/src/chain.rs:102-109 | in every state, a poll before its commit has moved `last_block` exactly to where its last rewind that left an entry came to rest |
| `ChainModel.RewoundAboveIff` | crates/pool/src/chain.rs:95-109 | in every state, the number of an entry popped in a poll lies above `last_block` afterwards exactly when it lies above the head (poll succeeded), or above where the last rewind that left an entry came to rest (poll failed; above `last_block` as it was when none left one) |
| `ChainModel.RewoundRescannedIff` | crates/pool/src/chain.rs:95-109 | in every state, the next successful poll that reaches a rewound number scans it again exactly under that condition |
| `ChainModel.OrderedRewoundAboveIff` | crates/pool/src/chain.rs:95-109 | with an ordered history ending at `last_block`, that is the case exactly when the poll failed and its last rewind that left an entry left one below the popping block (or, when none did, the number was above already) |
| `ChainModel.OrderedRewoundRescannedIff` | crates/pool/src/chain.rs:95-109 | with such a history a rewound number is scanned again exactly then |
| `ChainModel.FirstPoll` | crates/pool/src/chain.rs:95-180 | a first poll over two linked blocks leaves the state the next three runs start from |
| `ChainModel.RescannedAfterFailure` | crates/pool/src/chain.rs:119-150 | a logs failure right after a rewind to block 1 makes the following poll scan block 2 again: 1, 2, 2 |
| `ChainModel.NotRescannedAfterSuccess` | crates/pool/src/chain.rs:102-109 | the same rewind in a poll that succeeds up to block 3 passes over block 2: 1, 2, 3 |
| `ChainModel.NotRescannedWhenEmptied` | crates/pool/src/chain.rs:250-257 | a failed poll whose rewind empties the history leaves `last_block` alone, so nothing is scanned again: 1, 2 |
| `ChainModel.DisorderedReached` | crates/pool/src/chain.rs:95-163 | a poll that fails on its fourth block and one that reports head 1 leave the numbers 1, 2, 3, 1 in the history |
| `ChainModel.RescannedAfterSuccess` | crates/pool/src/chain.rs:95-180 | from there a poll over block 2 rewinds to the first block 1 and succeeds, and number 3, popped by it, is scanned again: 1, 2, 3, 1, 2, 3 |
| `ChainModel.SuccessStoresHeadFee` | crates/pool/src/chain.rs:127-129 | a successful poll over new blocks leaves the base fee of the head block stored |
| `ChainModel.SuccessCleansPool` | crates/pool/src/chain.rs:182-235 | a run over blocks that succeeds leaves in the pool exactly the entries that are the second topic of no log of these blocks |
| `ChainModel.PollSucceedsIff` | crates/pool/src/chain.rs:95-180 | a poll succeeds exactly when the head and, for every block number above `last_block` up to it, header and logs are answered; then `last_block` is the higher of both and the head block, as its header describes it, ends the history |
| `ChainModel.PollCleansPool` | crates/pool/src/chain.rs:182-235 | a successful poll takes out exactly the entries whose digest is the second topic of a log of a new block |
| `ChainModel.PollStoresHeadFee` | crates/pool/src/chain.rs:127-129 | and leaves the base fee of the head's header stored, 0 when the header has none |
| `ChainModel.MinedOperationLeaves` | crates/pool/src/chain.rs:203-207 | a log with topics 7, 9, 1, 2 removes the operation with digest 9, not one with digest 7 |
| `ChainModel.PollKeepsHistoryIffHarmless` | crates/pool/src/chain.rs:95-180 | a poll keeps the history bounded, ascending, hash-linked and ending at `last_block` exactly when it does not fail past its first block without a rewind |
| `ChainModel.HarmlessRunsKeepHistory` | crates/pool/src/chain.rs:95-180 | so does every run of such polls |
| `ChainModel.LaterFailureDuplicates` | crates/pool/src/chain.rs:95-163 | a failure on the second block makes the next poll enter the first block again |
| `ChainModel.HistoryBounded` | crates/pool/src/chain.rs:158-163 | the history never exceeds its bound on any run |
| `ChainWatchers.ChainWatcher.constructor` | crates/pool/src/chain.rs:40-73 | the watcher starts at the node's block number, or at 0 when that query fails |
| `ChainWatchers.ChainWatcher.Poll` | crates/pool/src/chain.rs:95-109 | a poll is the transition for these answers, pool and stored base fee included |
| `ChainWatchers.ChainWatcher.ProcessBlocks` | crates/pool/src/chain.rs:102-104 | the loop stops at the first failing block |
| `ChainWatchers.ChainWatcher.ProcessBlock` | crates/pool/src/chain.rs:111-180 | one block: base fee stored with the header, reorg check, scan, append and trim; a failed scan keeps fee and rewind |
| `ChainWatchers.ChainWatcher.RewindBy` | crates/pool/src/chain.rs:250-257 | that many entries are popped and `last_block` moves to the newest left, if any |
| `ChainWatchers.ChainWatcher.PushBlock` | crates/pool/src/chain.rs:153-163 | the block is appended and the oldest entries beyond the bound go |
| `ChainWatchers.ChainWatcher.ScanUserOpEvents` | crates/pool/src/chain.rs:182-235 | the pool loses exactly the operations reported by logs with two topics or more |

## Left out

- `SenderRuns.SignedFeesWellOrdered`: for runs in which no quote or escalation leaves `u128`; a single wrapped cap may still happen to lie above a wrapped tip. The exact conditions are `Proposer.ProposedFeesOrderedIff` for each proposal, and `SenderRuns.SignsOrderedWithinIff` for bounds on pending caps and markets over all runs.
- `Tracker.EscalationWellOrdered`: sufficient for a single escalation, for the same reason; `Tracker.SafeUpToIff` is exact for bounds under both strategies.
- `SenderRuns.PendingFeesNeverDrop`: the converse is stated for linear escalation only (`LinearNeverDropsIff`), because under network tracking the market price may hide a wrapped bump.
- `PoolModel.ReplacementsCompound`: for entries whose thresholds fit; `PoolModel.ThresholdExactIff` says when one does.
- Wrap-around of `u64` block numbers, account nonces and pool sizes, which are unbounded numbers here; fees, gas sums, the replacement threshold, the nonce sequence, the saturating counters and the truncating casts have their source width.
- Lock-level interleavings inside one pool method, and between validation and addition: each is one atomic step.
- `BundlerTasks.BundlerTask.HandleCancelling`: the cancellation transaction it would sign is not part of the model, because no state leads there.
- Set context: `UserOperation` is a value, so setting the context yields the updated value instead of changing it in place.
- `BTreeSet`, `HashMap` and `sort_unstable`: the ordered set is its ascending sequence, hash maps are maps, sorting is insertion sort.
- Validation without a pool, which skips the nonce check; the server always attaches one.
- Entity reputation, its counters and the inclusion records of the watcher: one arbitrary accept-or-refuse answer.
- Wall-clock time, tickers, shutdown, logging, metrics, published events and status maps; the elapsed wait is an arbitrary boolean.
- The submission strategies, the signers, the RPC server, the node clients and the ABI bindings: arbitrary answers.
- Calldata encoding of `handleOps` and the destination address: a transaction is its operations, beneficiary, nonce, gas limit and fees.
- Re-adding operations of reorganized blocks, which the source leaves as an open item.
- Gas estimation over RPC and operations with optional gas fields: defaults only.
