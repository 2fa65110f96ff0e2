/** The bundle sender itself: its handlers, proved against the transition system. */
module BundlerTasks {
  import opened Base
  import opened Gas
  import opened UserOperations
  import opened PoolModel
  import opened Pool
  import opened GasOracles
  import opened Proposer
  import opened Tracker
  import opened SenderModel
  import opened SenderRuns

  /** The pool after the first `i` rejections. */
  ghost function AfterRejecting(c: Contents, b: Bundle, i: nat): Contents
    requires i <= |b.rejectedOps|
  {
    DropHashes(c, RejectedHashes(b)[..i])
  }

  /** The pool after the first `i` bundled operations were dropped. */
  ghost function AfterDropping(cfg: TaskConfig, c: Contents, b: Bundle, i: nat): Contents
    requires i <= |b.ops|
  {
    DropIds(c, BundledIds(cfg, b)[..i])
  }

  lemma RejectNext(c: Contents, b: Bundle, i: nat)
    requires i < |b.rejectedOps|
    ensures DropHashes(AfterRejecting(c, b, i), [b.rejectedOps[i].hash]) == AfterRejecting(c, b, i + 1)
  {
    var hashes := RejectedHashes(b);
    assert hashes[..i + 1] == hashes[..i] + [hashes[i]];
  }

  lemma RejectEnds(c: Contents, b: Bundle)
    ensures AfterRejecting(c, b, 0) == c
    ensures AfterRejecting(c, b, |b.rejectedOps|) == DropHashes(c, RejectedHashes(b))
  {
    assert RejectedHashes(b)[..|b.rejectedOps|] == RejectedHashes(b);
  }

  lemma DropNext(cfg: TaskConfig, c: Contents, b: Bundle, i: nat)
    requires i < |b.ops|
    ensures DropIds(AfterDropping(cfg, c, b, i), [BundledId(cfg, b.ops[i])]) == AfterDropping(cfg, c, b, i + 1)
  {
    var ids := BundledIds(cfg, b);
    assert ids[..i + 1] == ids[..i] + [ids[i]];
  }

  lemma DropEnds(cfg: TaskConfig, c: Contents, b: Bundle)
    ensures AfterDropping(cfg, c, b, 0) == c
    ensures AfterDropping(cfg, c, b, |b.ops|) == DropIds(c, BundledIds(cfg, b))
  {
    assert BundledIds(cfg, b)[..|b.ops|] == BundledIds(cfg, b);
  }

  class BundlerTask {
    var state: SenderState
    var currentBundle: Option<Bundle>
    var minedBlock: Option<nat>
    const tracker: TransactionTracker
    const pool: OperationPool
    const proposer: BundleProposer
    const config: TaskConfig

    ghost predicate Valid()
      reads this, pool, proposer.oracle
    {
      && pool.Valid() && proposer.oracle.Valid()
      && proposer.pool == pool && tracker.config == config.escalation
    }

    ghost function View(): World
      reads this, tracker, pool
    {
      World(state, currentBundle, minedBlock, tracker.View(), pool.View().contents)
    }

    constructor (tracker: TransactionTracker, pool: OperationPool, proposer: BundleProposer, config: TaskConfig)
      requires pool.Valid() && proposer.oracle.Valid() && proposer.pool == pool
      requires tracker.config == config.escalation && tracker.pending.None?
      ensures Valid() && this.tracker == tracker && this.pool == pool && this.proposer == proposer && this.config == config
      ensures View() == Start(tracker.currentNonce, pool.View().contents).world
    {
      state, currentBundle, minedBlock := Idle, None, None;
      this.tracker, this.pool, this.proposer, this.config := tracker, pool, proposer, config;
    }

    /**
     * One step of the state machine. `tx` is the bundle transaction it gets signed; the proposal made
     * in Building is reported as `built`.
     */
    method Step(a: Answers, proposal: ProposalAnswers) returns (tx: Option<SignedTx>, ghost built: Built)
      requires Valid()
      modifies this, tracker, pool, proposer.oracle
      ensures Valid()
      ensures View() == Next(config, old(View()), a, built)
      ensures tx == Signs(config, old(View()), a)
      ensures old(state).Building? ==>
                ProposedFrom(proposer.config, old(pool.View().contents), old(proposer.oracle.recorded), proposal, built)
      ensures proposer.oracle.recorded
           == if old(state).Building? then RecordedAfter(old(proposer.oracle.recorded), proposal)
              else old(proposer.oracle.recorded)
    {
      built := Err(Other);
      tx := None;
      var next: SenderState;
      match state {
        case Idle => next := HandleIdle();
        case Building => next, built := HandleBuilding(proposal);
        case Submitting => next, tx := HandleSubmitting(a);
        case AwaitingReceipt => next := HandlePending(a);
        case Escalating => next, tx := HandleEscalating(a);
        case Cancelling => next := HandleCancelling();
        case Confirming => next := HandleConfirming(a);
        case Confirmed =>
          currentBundle, minedBlock := None, None;
          next := Idle;
        case Abandoned =>
          currentBundle, minedBlock := None, None;
          next := Idle;
      }
      state := next;
    }

    method HandleIdle() returns (next: SenderState)
      requires pool.Valid()
      ensures View().(state := next) == NextIdle(View())
    {
      return if pool.Size() == 0 then Idle else Building;
    }

    method HandleBuilding(proposal: ProposalAnswers) returns (next: SenderState, ghost built: Built)
      requires Valid()
      modifies `currentBundle, pool, proposer.oracle
      ensures Valid()
      ensures View().(state := next) == NextBuilding(old(View()), built)
      ensures ProposedFrom(proposer.config, old(pool.View().contents), old(proposer.oracle.recorded), proposal, built)
      ensures proposer.oracle.recorded == RecordedAfter(old(proposer.oracle.recorded), proposal)
    {
      var r := Propose(proposal);
      built := r;
      if r.Err? || r.value.ops == [] {
        return Idle, r;
      }
      TakeBundle(r.value);
      return Submitting, r;
    }

    /** Keep the bundle, and drop from the pool what its simulation rejected. */
    method TakeBundle(bundle: Bundle)
      requires Valid() && bundle.ops != []
      modifies `currentBundle, pool
      ensures Valid()
      ensures View().(state := Submitting) == NextBuilding(old(View()), Ok(bundle))
    {
      RemoveRejected(bundle);
      currentBundle := Some(bundle);
    }

    method Propose(proposal: ProposalAnswers) returns (r: Built)
      requires Valid()
      modifies proposer.oracle
      ensures Valid()
      ensures ProposedFrom(proposer.config, pool.View().contents, old(proposer.oracle.recorded), proposal, r)
      ensures proposer.oracle.recorded == RecordedAfter(old(proposer.oracle.recorded), proposal)
    {
      ghost var n;
      r, n := proposer.MakeBundle(proposal);
      assert IsInputs(proposer.config, pool.View().contents, old(proposer.oracle.recorded), proposal, n);
    }

    method DropHash(hash: B256)
      requires pool.Valid()
      modifies pool
      ensures pool.Valid()
      ensures pool.View().contents == DropHashes(old(pool.View().contents), [hash])
    {
      var _ := pool.RemoveByHash(hash);
    }

    method DropId(id: UserOperationId)
      requires pool.Valid()
      modifies pool
      ensures pool.Valid()
      ensures pool.View().contents == DropIds(old(pool.View().contents), [id])
    {
      var _ := pool.RemoveById(id);
    }

    method RemoveRejected(bundle: Bundle)
      requires pool.Valid()
      modifies pool
      ensures pool.Valid()
      ensures pool.View().contents == DropHashes(old(pool.View().contents), RejectedHashes(bundle))
    {
      ghost var before := pool.View().contents;
      RejectEnds(before, bundle);
      for i := 0 to |bundle.rejectedOps|
        invariant pool.Valid()
        invariant pool.View().contents == AfterRejecting(before, bundle, i)
      {
        RejectNext(before, bundle, i);
        DropHash(bundle.rejectedOps[i].hash);
      }
    }

    method HandleSubmitting(a: Answers) returns (next: SenderState, tx: Option<SignedTx>)
      requires state.Submitting?
      modifies tracker
      ensures View().(state := next) == NextSubmitting(old(View()), a)
      ensures tx == Signs(config, old(View()), a)
    {
      if currentBundle.None? {
        return Idle, None;
      }
      var bundle := currentBundle.value;
      var nonce := tracker.currentNonce;
      var built := BuildBundleTx(bundle, nonce);
      if !a.signed {
        return Abandoned, None;
      }
      tx := Some(SignedTx(built, false));
      if a.submitted.None? {
        return Abandoned, tx;
      }
      tracker.RecordSubmission(a.submitted.value, nonce, bundle.gasFees);
      return AwaitingReceipt, tx;
    }

    method HandlePending(a: Answers) returns (next: SenderState)
      requires pool.Valid() && tracker.config == config.escalation
      modifies `minedBlock, tracker, pool
      ensures pool.Valid()
      ensures View().(state := next) == NextAwaiting(config, old(View()), a)
    {
      var r := tracker.CheckPending(a.tracker);
      match r {
        case Err(_) => return AwaitingReceipt;
        case Ok(None) => return Idle;
        case Ok(Some(Mined(block))) =>
          minedBlock := Some(block);
          RemoveBundledOps();
          return Confirming;
        case Ok(Some(Dropped)) => return Abandoned;
        case Ok(Some(Pending)) =>
          if tracker.NeedsEscalation(a.waited) {
            return Escalating;
          }
          return AwaitingReceipt;
      }
    }

    method HandleEscalating(a: Answers) returns (next: SenderState, tx: Option<SignedTx>)
      requires state.Escalating? && tracker.config == config.escalation
      modifies tracker
      ensures View().(state := next) == NextEscalating(config, old(View()), a)
      ensures tx == Signs(config, old(View()), a)
    {
      var fees := EscalatedFees(tracker.config, tracker.pending, a.fees);
      if fees.None? {
        tracker.ClearPending();
        return Abandoned, None;
      }
      if currentBundle.None? {
        tracker.ClearPending();
        return Abandoned, None;
      }
      var nonce := SaturatingSub(tracker.currentNonce, 1);
      var replacement := BuildBundleTx(currentBundle.value, nonce).(fees := fees.value);
      if !a.signed {
        return AwaitingReceipt, None;
      }
      tx := Some(SignedTx(replacement, true));
      if a.submitted.None? {
        return AwaitingReceipt, tx;
      }
      tracker.RecordEscalation(a.submitted.value, fees.value);
      return AwaitingReceipt, tx;
    }

    /** Signing failure and both outcomes of the cancellation end alike. */
    method HandleCancelling() returns (next: SenderState)
      modifies tracker
      ensures View().(state := next) == NextCancelling(old(View()))
    {
      if tracker.pending.None? {
        return Idle;
      }
      tracker.ClearPending();
      return Abandoned;
    }

    method HandleConfirming(a: Answers) returns (next: SenderState)
      ensures View().(state := next) == NextConfirming(View(), a)
    {
      if minedBlock.None? {
        return Confirmed;
      }
      if a.blockNumber.Err? {
        return Confirming;
      }
      var confirmations := SaturatingSub(a.blockNumber.value, minedBlock.value);
      return if confirmations >= CONFIRMATION_DEPTH then Confirmed else Confirming;
    }

    /** Drop every bundled operation from the pool by the id of its unpacked form. */
    method RemoveBundledOps()
      requires pool.Valid()
      modifies pool
      ensures pool.Valid()
      ensures pool.View().contents ==
              if currentBundle.None? then old(pool.View().contents)
              else DropIds(old(pool.View().contents), BundledIds(config, currentBundle.value))
    {
      if currentBundle.None? {
        return;
      }
      var bundle := currentBundle.value;
      ghost var before := pool.View().contents;
      DropEnds(config, before, bundle);
      for i := 0 to |bundle.ops|
        invariant pool.Valid()
        invariant pool.View().contents == AfterDropping(config, before, bundle, i)
      {
        DropNext(config, before, bundle, i);
        DropId(BundledId(config, bundle.ops[i]));
      }
    }
  }
}
