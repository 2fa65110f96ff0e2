/** What the bundle sender keeps over whole runs, whatever the environment answers. */
module SenderRuns {
  import opened Base
  import opened Gas
  import opened UserOperations
  import opened PoolModel
  import opened GasOracles
  import opened Proposer
  import opened Tracker
  import opened SenderModel

  // ---------------------------------------------------------------- runs

  /** Between steps other parties may change the pool in any way. */
  datatype Event =
    | Step(answers: Answers, built: Built)
    | PoolChanged(pool: Contents)

  datatype Run = Run(world: World, ledger: Ledger)

  ghost function Start(nonce: nat, pool: Contents): Run {
    Run(World(Idle, None, None, TrackerState(None, nonce), pool), Ledger([], [], []))
  }

  ghost function Advance(cfg: TaskConfig, r: Run, ev: Event): Run {
    match ev
    case Step(a, built) => Run(Next(cfg, r.world, a, built), Recorded(cfg, r.ledger, r.world, a))
    case PoolChanged(pool) => r.(world := r.world.(pool := pool))
  }

  ghost function RunAll(cfg: TaskConfig, start: Run, evs: seq<Event>): Run {
    if evs == [] then start else Advance(cfg, RunAll(cfg, start, evs[..|evs| - 1]), evs[|evs| - 1])
  }

  // ---------------------------------------------------------------- the invariant

  ghost predicate HoldsBundle(s: SenderState) {
    !s.Idle? && !s.Building?
  }

  /** Which fields are set in which state. */
  ghost predicate StateOk(cfg: TaskConfig, w: World) {
    && !w.state.Cancelling?
    && (w.tracker.pending.Some? <==> w.state.AwaitingReceipt? || w.state.Escalating?)
    && (w.bundle.Some? <==> HoldsBundle(w.state))
    && (w.bundle.Some? ==> w.bundle.value.ops != [])
    && (w.minedBlock.Some? <==> w.state.Confirming? || w.state.Confirmed?)
    && (w.state.Escalating? ==> w.tracker.pending.value.escalationCount < cfg.escalation.maxAttempts)
  }

  /** The pending transaction stems from this submission. */
  ghost predicate Tracks(cfg: TaskConfig, s: Submission, p: PendingTransaction) {
    && s.fate.InFlight? && s.nonce == p.nonce
    && s.escalations == p.escalationCount <= cfg.escalation.maxAttempts
  }

  /** A later submission has a larger nonce, or the same one if the earlier was given up. */
  ghost predicate Ordered(s: seq<Submission>) {
    forall i, j :: 0 <= i < j < |s| ==>
      s[i].nonce < s[j].nonce || (s[i].nonce == s[j].nonce && s[i].fate.GivenUp?)
  }

  ghost predicate Spent(s: Submission) {
    s.fate.MinedAt? || s.fate.DroppedOut?
  }

  ghost predicate Bounded(cfg: TaskConfig, s: seq<Submission>, currentNonce: nat) {
    forall i :: 0 <= i < |s| ==>
      && s[i].nonce <= currentNonce
      && (Spent(s[i]) ==> s[i].nonce < currentNonce)
      && (s[i].fate.InFlight? ==> i == |s| - 1)
      && s[i].escalations <= cfg.escalation.maxAttempts
  }

  ghost predicate SubmissionsOk(cfg: TaskConfig, s: seq<Submission>, t: TrackerState) {
    && Ordered(s)
    && Bounded(cfg, s, t.currentNonce)
    && match t.pending
       case Some(p) => s != [] && Tracks(cfg, Last(s), p) && p.nonce == t.currentNonce
       case None => s != [] ==> !Last(s).fate.InFlight?
  }

  ghost predicate ConfirmationsOk(s: seq<Confirmation>) {
    forall i :: 0 <= i < |s| ==> s[i].reportedAt >= s[i].minedAt + CONFIRMATION_DEPTH
  }

  /** While confirming, the mined block is the one the last submission was mined in. */
  ghost predicate MinedOk(w: World, s: seq<Submission>) {
    w.minedBlock.Some? ==> s != [] && Last(s).fate == MinedAt(w.minedBlock.value)
  }

  ghost predicate Inv(cfg: TaskConfig, r: Run) {
    && StateOk(cfg, r.world)
    && SubmissionsOk(cfg, r.ledger.submissions, r.world.tracker)
    && ConfirmationsOk(r.ledger.confirmations)
    && MinedOk(r.world, r.ledger.submissions)
  }

  // ---------------------------------------------------------------- submissions

  lemma SubmitKeeps(cfg: TaskConfig, s: seq<Submission>, t: TrackerState, hash: B256, fees: GasFees)
    requires SubmissionsOk(cfg, s, t) && t.pending.None?
    ensures SubmissionsOk(cfg, s + [Submission(t.currentNonce, fees, 0, InFlight)],
                          t.(pending := Some(PendingTransaction(hash, t.currentNonce, 0, fees))))
  {
  }

  lemma SettleKeeps(cfg: TaskConfig, s: seq<Submission>, t: TrackerState, fate: Fate, nonce: nat)
    requires SubmissionsOk(cfg, s, t) && t.pending.Some?
    requires !fate.InFlight? && (fate.GivenUp? ==> nonce == t.currentNonce) && (!fate.GivenUp? ==> nonce > t.currentNonce)
    ensures SubmissionsOk(cfg, WithLast(s, Last(s).(fate := fate)), TrackerState(None, nonce))
  {
  }

  lemma EscalateKeeps(cfg: TaskConfig, s: seq<Submission>, t: TrackerState, fees: GasFees, hash: B256)
    requires SubmissionsOk(cfg, s, t) && t.pending.Some?
    requires t.pending.value.escalationCount < cfg.escalation.maxAttempts
    ensures SubmissionsOk(cfg, WithLast(s, Last(s).(escalations := Last(s).escalations + 1)),
                          t.(pending := Some(Escalated(t.pending.value, hash, fees))))
  {
  }

  // ---------------------------------------------------------------- preservation

  lemma SubmittingKeeps(cfg: TaskConfig, r: Run, a: Answers, built: Built)
    requires Inv(cfg, r) && r.world.state.Submitting?
    ensures Inv(cfg, Advance(cfg, r, Step(a, built)))
  {
    if a.signed && a.submitted.Some? {
      SubmitKeeps(cfg, r.ledger.submissions, r.world.tracker, a.submitted.value, r.world.bundle.value.gasFees);
    }
  }

  lemma MinedKeeps(cfg: TaskConfig, r: Run, a: Answers, built: Built)
    requires Inv(cfg, r) && r.world.state.AwaitingReceipt?
    requires a.tracker.receipt.Ok? && a.tracker.receipt.value.Some?
    ensures Inv(cfg, Advance(cfg, r, Step(a, built)))
  {
    var t := r.world.tracker;
    var status := Checked(t, a.tracker).1.value.value;
    SettleKeeps(cfg, r.ledger.submissions, t, MinedAt(status.blockNumber), t.currentNonce + 1);
  }

  lemma UnminedKeeps(cfg: TaskConfig, r: Run, a: Answers, built: Built)
    requires Inv(cfg, r) && r.world.state.AwaitingReceipt?
    requires !(a.tracker.receipt.Ok? && a.tracker.receipt.value.Some?)
    ensures Inv(cfg, Advance(cfg, r, Step(a, built)))
  {
    var t := r.world.tracker;
    if Checked(t, a.tracker).1 == Ok(Some(Dropped)) {
      SettleKeeps(cfg, r.ledger.submissions, t, DroppedOut, a.tracker.chainNonce.value);
    }
  }

  lemma GivingUpKeeps(cfg: TaskConfig, r: Run, a: Answers, built: Built)
    requires Inv(cfg, r) && r.world.state.Escalating?
    requires EscalatedFees(cfg.escalation, r.world.tracker.pending, a.fees).None?
    ensures Inv(cfg, Advance(cfg, r, Step(a, built)))
  {
    SettleKeeps(cfg, r.ledger.submissions, r.world.tracker, GivenUp, r.world.tracker.currentNonce);
  }

  lemma ReplacingKeeps(cfg: TaskConfig, r: Run, a: Answers, built: Built)
    requires Inv(cfg, r) && r.world.state.Escalating?
    requires EscalatedFees(cfg.escalation, r.world.tracker.pending, a.fees).Some?
    ensures Inv(cfg, Advance(cfg, r, Step(a, built)))
  {
    var fees := EscalatedFees(cfg.escalation, r.world.tracker.pending, a.fees).value;
    EscalateKeeps(cfg, r.ledger.submissions, r.world.tracker, fees,
                  if a.submitted.Some? then a.submitted.value else 0);
  }

  lemma ConfirmingKeeps(cfg: TaskConfig, r: Run, a: Answers, built: Built)
    requires Inv(cfg, r) && r.world.state.Confirming?
    ensures Inv(cfg, Advance(cfg, r, Step(a, built)))
  {
  }

  lemma UnpendedKeeps(cfg: TaskConfig, r: Run, a: Answers, built: Built)
    requires Inv(cfg, r)
    requires !r.world.state.Submitting? && !r.world.state.AwaitingReceipt?
    requires !r.world.state.Escalating? && !r.world.state.Confirming?
    ensures Inv(cfg, Advance(cfg, r, Step(a, built)))
  {
  }

  lemma AdvanceKeeps(cfg: TaskConfig, r: Run, ev: Event)
    requires Inv(cfg, r)
    ensures Inv(cfg, Advance(cfg, r, ev))
  {
    match ev
    case PoolChanged(_) =>
    case Step(a, built) =>
      var state := r.world.state;
      if state.Submitting? {
        SubmittingKeeps(cfg, r, a, built);
      } else if state.AwaitingReceipt? {
        if a.tracker.receipt.Ok? && a.tracker.receipt.value.Some? {
          MinedKeeps(cfg, r, a, built);
        } else {
          UnminedKeeps(cfg, r, a, built);
        }
      } else if state.Escalating? {
        if EscalatedFees(cfg.escalation, r.world.tracker.pending, a.fees).None? {
          GivingUpKeeps(cfg, r, a, built);
        } else {
          ReplacingKeeps(cfg, r, a, built);
        }
      } else if state.Confirming? {
        ConfirmingKeeps(cfg, r, a, built);
      } else {
        UnpendedKeeps(cfg, r, a, built);
      }
  }

  /** The invariant holds after every run of events from a fresh sender. */
  lemma {:induction false} EveryRun(cfg: TaskConfig, nonce: nat, pool: Contents, evs: seq<Event>)
    ensures Inv(cfg, RunAll(cfg, Start(nonce, pool), evs))
  {
    if evs != [] {
      EveryRun(cfg, nonce, pool, evs[..|evs| - 1]);
      AdvanceKeeps(cfg, RunAll(cfg, Start(nonce, pool), evs[..|evs| - 1]), evs[|evs| - 1]);
    }
  }

  // ---------------------------------------------------------------- theorems about reachable states

  ghost predicate Reachable(cfg: TaskConfig, r: Run) {
    exists nonce: nat, pool, evs: seq<Event> :: r == RunAll(cfg, Start(nonce, pool), evs)
  }

  lemma ReachableInv(cfg: TaskConfig, r: Run)
    requires Reachable(cfg, r)
    ensures Inv(cfg, r)
  {
    var nonce: nat, pool, evs: seq<Event> :| r == RunAll(cfg, Start(nonce, pool), evs);
    EveryRun(cfg, nonce, pool, evs);
  }

  /** The branches the source marks as not happening, and the exhausted-attempts exit of escalation. */
  ghost predicate TakesDeadBranch(cfg: TaskConfig, w: World) {
    || w.state.Cancelling?
    || (w.state.Submitting? && w.bundle.None?)
    || (w.state.AwaitingReceipt? && w.tracker.pending.None?)
    || (w.state.AwaitingReceipt? && w.bundle.None?)
    || (w.state.Escalating? && w.bundle.None?)
    || (w.state.Escalating? && w.tracker.pending.None?)
    || (w.state.Escalating? && w.tracker.pending.value.escalationCount >= cfg.escalation.maxAttempts)
    || (w.state.Confirming? && w.minedBlock.None?)
  }

  /** Fields are set exactly in their states, and the impossible branches are never taken. */
  lemma StatesAndDeadBranches(cfg: TaskConfig, r: Run)
    requires Reachable(cfg, r)
    ensures StateOk(cfg, r.world)
    ensures !TakesDeadBranch(cfg, r.world)
  {
    ReachableInv(cfg, r);
  }

  /** The account nonce never decreases, equals the pending nonce, and rises on every mined or dropped transaction. */
  lemma NonceDiscipline(cfg: TaskConfig, r: Run, a: Answers, built: Built)
    requires Reachable(cfg, r)
    ensures r.world.tracker.pending.Some? ==> r.world.tracker.pending.value.nonce == r.world.tracker.currentNonce
    ensures var w' := Next(cfg, r.world, a, built);
            && w'.tracker.currentNonce >= r.world.tracker.currentNonce
            && (w'.tracker.currentNonce > r.world.tracker.currentNonce
                <==> r.world.state.AwaitingReceipt? && w'.tracker.pending.None?)
  {
    ReachableInv(cfg, r);
  }

  /** Two recorded submissions share a nonce only if the earlier one was given up while escalating. */
  lemma SharedNonceMeansGivenUp(cfg: TaskConfig, r: Run, i: nat, j: nat)
    requires Reachable(cfg, r) && i < j < |r.ledger.submissions|
    requires r.ledger.submissions[i].nonce == r.ledger.submissions[j].nonce
    ensures r.ledger.submissions[i].fate.GivenUp?
  {
    ReachableInv(cfg, r);
  }

  /** Giving up happens only in a step from Escalating whose fee query failed under network tracking. */
  lemma GivenUpOnlyWhenQueryFails(cfg: TaskConfig, r: Run, a: Answers, built: Built)
    requires Reachable(cfg, r) && r.world.state.Escalating?
    ensures Next(cfg, r.world, a, built).state.Abandoned?
       <==> cfg.escalation.strategy.NetworkTracking? && (a.fees.baseFee.Err? || a.fees.priorityFee.Err?)
  {
    ReachableInv(cfg, r);
  }

  /**
   * The replacement signed while escalating carries the pending nonce minus one, saturating at zero:
   * it reuses the pending nonce exactly when that nonce is zero.
   */
  lemma EscalationSignsPreviousNonce(cfg: TaskConfig, r: Run, a: Answers)
    requires Reachable(cfg, r) && r.world.state.Escalating? && Signs(cfg, r.world, a).Some?
    ensures var tx, p := Signs(cfg, r.world, a).value, r.world.tracker.pending.value;
            && tx.escalation && tx.tx.nonce == SaturatingSub(p.nonce, 1)
            && (tx.tx.nonce == p.nonce <==> p.nonce == 0)
  {
    ReachableInv(cfg, r);
  }

  /** At most `maxAttempts` escalations per submission, and the pending transaction counts those of the last. */
  lemma EscalationsBounded(cfg: TaskConfig, r: Run, i: nat)
    requires Reachable(cfg, r) && i < |r.ledger.submissions|
    ensures r.ledger.submissions[i].escalations <= cfg.escalation.maxAttempts
    ensures r.world.tracker.pending.Some? ==>
              r.world.tracker.pending.value.escalationCount == Last(r.ledger.submissions).escalations
  {
    ReachableInv(cfg, r);
  }

  /** While a transaction stays pending its fees never drop, and an escalation lifts both by the bump, while bumps fit. */
  lemma PendingFeesNeverDrop(cfg: TaskConfig, r: Run, a: Answers, built: Built)
    requires Reachable(cfg, r)
    requires r.world.tracker.pending.Some? && Next(cfg, r.world, a, built).tracker.pending.Some?
    requires r.world.state.Escalating? ==> BumpsFit(cfg.escalation, r.world.tracker.pending.value.fees)
    ensures var p, q := r.world.tracker.pending.value, Next(cfg, r.world, a, built).tracker.pending.value;
            && q.nonce == p.nonce
            && q.fees.maxFeePerGas >= p.fees.maxFeePerGas
            && q.fees.maxPriorityFeePerGas >= p.fees.maxPriorityFeePerGas
            && (q.escalationCount != p.escalationCount ==>
                  && q.fees.maxFeePerGas >= ExactBump(p.fees.maxFeePerGas, cfg.escalation.feeBumpBps)
                  && q.fees.maxPriorityFeePerGas >= ExactBump(p.fees.maxPriorityFeePerGas, cfg.escalation.feeBumpBps))
  {
    ReachableInv(cfg, r);
    var p := r.world.tracker.pending.value;
    if r.world.state.Escalating? && EscalatedFees(cfg.escalation, Some(p), a.fees).Some? {
      EscalationClearsBump(cfg.escalation, p, a.fees);
    }
  }

  /** A linear escalation of at most a doubling that is recorded keeps both fees up exactly when both bumps fit. */
  lemma LinearNeverDropsIff(cfg: TaskConfig, r: Run, a: Answers, built: Built)
    requires Reachable(cfg, r) && r.world.state.Escalating? && a.signed && a.submitted.Some?
    requires cfg.escalation.strategy.Linear? && cfg.escalation.feeBumpBps <= BPS
    ensures r.world.tracker.pending.Some? && Next(cfg, r.world, a, built).tracker.pending.Some?
    ensures var p, q := r.world.tracker.pending.value, Next(cfg, r.world, a, built).tracker.pending.value;
            q.fees.maxFeePerGas >= p.fees.maxFeePerGas && q.fees.maxPriorityFeePerGas >= p.fees.maxPriorityFeePerGas
            <==> BumpsFit(cfg.escalation, p.fees)
  {
    ReachableInv(cfg, r);
    var p := r.world.tracker.pending.value;
    BumpNeverDropsIff(p.fees.maxFeePerGas, cfg.escalation.feeBumpBps);
    BumpNeverDropsIff(p.fees.maxPriorityFeePerGas, cfg.escalation.feeBumpBps);
  }

  /** Every confirmation was reported at least the required depth above the block its bundle was mined in. */
  lemma ConfirmedDeepEnough(cfg: TaskConfig, r: Run, i: nat)
    requires Reachable(cfg, r) && i < |r.ledger.confirmations|
    ensures r.ledger.confirmations[i].reportedAt >= r.ledger.confirmations[i].minedAt + CONFIRMATION_DEPTH
  {
    ReachableInv(cfg, r);
  }

  /** Entering Confirmed always records a confirmation for the block of the last submission. */
  lemma ConfirmedIsRecorded(cfg: TaskConfig, r: Run, a: Answers, built: Built)
    requires Reachable(cfg, r)
    requires !r.world.state.Confirmed? && Next(cfg, r.world, a, built).state.Confirmed?
    ensures var l := Recorded(cfg, r.ledger, r.world, a);
            && |l.confirmations| == |r.ledger.confirmations| + 1
            && r.ledger.submissions != []
            && Last(r.ledger.submissions).fate == MinedAt(l.confirmations[|l.confirmations| - 1].minedAt)
  {
    ReachableInv(cfg, r);
  }

  // ---------------------------------------------------------------- how far escalations raise the fees

  /** At least one bump per escalation above the fees submitted. */
  ghost predicate RaisedFrom(cfg: TaskConfig, first: GasFees, p: PendingTransaction) {
    && p.fees.maxFeePerGas >= Compounded(first.maxFeePerGas, cfg.escalation.feeBumpBps, p.escalationCount)
    && p.fees.maxPriorityFeePerGas
       >= Compounded(first.maxPriorityFeePerGas, cfg.escalation.feeBumpBps, p.escalationCount)
  }

  ghost predicate Raised(cfg: TaskConfig, r: Run) {
    r.world.tracker.pending.Some? ==>
      r.ledger.submissions != [] && RaisedFrom(cfg, Last(r.ledger.submissions).fees, r.world.tracker.pending.value)
  }

  /** At this event neither bump of the pending fees leaves `u128`. */
  ghost predicate BumpsFitAt(cfg: TaskConfig, r: Run, ev: Event) {
    ev.Step? && r.world.state.Escalating? && r.world.tracker.pending.Some? ==>
      BumpsFit(cfg.escalation, r.world.tracker.pending.value.fees)
  }

  ghost predicate BumpsFitRun(cfg: TaskConfig, start: Run, evs: seq<Event>) {
    evs != [] ==>
      && BumpsFitRun(cfg, start, evs[..|evs| - 1])
      && BumpsFitAt(cfg, RunAll(cfg, start, evs[..|evs| - 1]), evs[|evs| - 1])
  }

  /** One more escalation adds one more bump. */
  lemma EscalationRaises(cfg: TaskConfig, first: GasFees, p: PendingTransaction, a: FeeAnswers, hash: B256)
    requires RaisedFrom(cfg, first, p) && EscalatedFees(cfg.escalation, Some(p), a).Some?
    requires BumpsFit(cfg.escalation, p.fees)
    ensures RaisedFrom(cfg, first, Escalated(p, hash, EscalatedFees(cfg.escalation, Some(p), a).value))
  {
    var k, bps := p.escalationCount, cfg.escalation.feeBumpBps;
    EscalationClearsBump(cfg.escalation, p, a);
    ExactBumpMonotone(Compounded(first.maxFeePerGas, bps, k), p.fees.maxFeePerGas, bps);
    ExactBumpMonotone(Compounded(first.maxPriorityFeePerGas, bps, k), p.fees.maxPriorityFeePerGas, bps);
  }

  lemma EscalatingKeepsRaised(cfg: TaskConfig, r: Run, a: Answers, built: Built)
    requires Inv(cfg, r) && Raised(cfg, r) && BumpsFitAt(cfg, r, Step(a, built)) && r.world.state.Escalating?
    ensures Raised(cfg, Advance(cfg, r, Step(a, built)))
  {
    var p := r.world.tracker.pending.value;
    if EscalatedFees(cfg.escalation, Some(p), a.fees).Some? {
      EscalationRaises(cfg, Last(r.ledger.submissions).fees, p, a.fees,
                       if a.submitted.Some? then a.submitted.value else 0);
    }
  }

  lemma OthersKeepRaised(cfg: TaskConfig, r: Run, a: Answers, built: Built)
    requires Inv(cfg, r) && Raised(cfg, r) && !r.world.state.Escalating?
    ensures Raised(cfg, Advance(cfg, r, Step(a, built)))
  {
  }

  lemma {:induction false} BumpsFitRunsRaise(cfg: TaskConfig, nonce: nat, pool: Contents, evs: seq<Event>)
    requires BumpsFitRun(cfg, Start(nonce, pool), evs)
    ensures Raised(cfg, RunAll(cfg, Start(nonce, pool), evs))
  {
    if evs != [] {
      var front, r := evs[..|evs| - 1], RunAll(cfg, Start(nonce, pool), evs[..|evs| - 1]);
      BumpsFitRunsRaise(cfg, nonce, pool, front);
      EveryRun(cfg, nonce, pool, front);
      match evs[|evs| - 1]
      case PoolChanged(_) =>
      case Step(a, built) =>
        if r.world.state.Escalating? {
          EscalatingKeepsRaised(cfg, r, a, built);
        } else {
          OthersKeepRaised(cfg, r, a, built);
        }
    }
  }

  /** After `k` escalations, each with fitting bumps, both pending fees stand at least `k` bumps above those submitted. */
  lemma EscalationBounds(cfg: TaskConfig, nonce: nat, pool: Contents, evs: seq<Event>)
    requires BumpsFitRun(cfg, Start(nonce, pool), evs)
    requires RunAll(cfg, Start(nonce, pool), evs).world.tracker.pending.Some?
    ensures var r := RunAll(cfg, Start(nonce, pool), evs);
            && r.ledger.submissions != []
            && var s, p := Last(r.ledger.submissions), r.world.tracker.pending.value;
               && p.fees.maxFeePerGas >= Compounded(s.fees.maxFeePerGas, cfg.escalation.feeBumpBps, s.escalations)
               && p.fees.maxPriorityFeePerGas
                  >= Compounded(s.fees.maxPriorityFeePerGas, cfg.escalation.feeBumpBps, s.escalations)
  {
    BumpsFitRunsRaise(cfg, nonce, pool, evs);
    EveryRun(cfg, nonce, pool, evs);
  }

  // ---------------------------------------------------------------- the order of fees

  ghost predicate SignedOk(s: seq<SignedTx>) {
    forall i :: 0 <= i < |s| ==> s[i].tx.fees.WellOrdered()
  }

  /** Everything signed, kept or pending offers a tip no larger than its cap. */
  ghost predicate FeesOrdered(r: Run) {
    && SignedOk(r.ledger.signed)
    && (r.world.bundle.Some? ==> r.world.bundle.value.gasFees.WellOrdered())
    && (r.world.tracker.pending.Some? ==> r.world.tracker.pending.value.fees.WellOrdered())
  }

  /** The proposal taken at this event, if any, carries ordered fees. */
  ghost predicate TakesOrdered(r: Run, ev: Event) {
    ev.Step? && r.world.state.Building? && ev.built.Ok? ==> ev.built.value.gasFees.WellOrdered()
  }

  /** Nothing the escalation at this event computes, if it is one, leaves `u128`. */
  ghost predicate EscalationFitsAt(cfg: TaskConfig, r: Run, ev: Event) {
    ev.Step? && r.world.state.Escalating? && r.world.tracker.pending.Some? ==>
      EscalationFits(cfg.escalation, r.world.tracker.pending.value.fees, ev.answers.fees)
  }

  lemma EscalatingKeepsOrder(cfg: TaskConfig, r: Run, a: Answers, built: Built)
    requires Inv(cfg, r) && FeesOrdered(r) && r.world.state.Escalating?
    requires EscalatedFees(cfg.escalation, r.world.tracker.pending, a.fees).Some? ==>
               EscalatedFees(cfg.escalation, r.world.tracker.pending, a.fees).value.WellOrdered()
    ensures FeesOrdered(Advance(cfg, r, Step(a, built)))
  {
  }

  lemma OthersKeepOrder(cfg: TaskConfig, r: Run, a: Answers, built: Built)
    requires Inv(cfg, r) && FeesOrdered(r) && TakesOrdered(r, Step(a, built)) && !r.world.state.Escalating?
    ensures FeesOrdered(Advance(cfg, r, Step(a, built)))
  {
  }

  lemma AdvanceKeepsOrder(cfg: TaskConfig, r: Run, ev: Event)
    requires Inv(cfg, r) && FeesOrdered(r) && TakesOrdered(r, ev) && EscalationFitsAt(cfg, r, ev)
    ensures FeesOrdered(Advance(cfg, r, ev))
  {
    match ev
    case PoolChanged(_) =>
    case Step(a, built) =>
      if r.world.state.Escalating? {
        var p := r.world.tracker.pending.value;
        if EscalatedFees(cfg.escalation, Some(p), a.fees).Some? {
          EscalationWellOrdered(cfg.escalation, p, a.fees);
        }
        EscalatingKeepsOrder(cfg, r, a, built);
      } else {
        OthersKeepOrder(cfg, r, a, built);
      }
  }

  // ---------------------------------------------------------------- from the oracle to the signature

  /** The sender together with the blocks its oracle has recorded. */
  datatype System = System(run: Run, recorded: seq<BlockFees>)

  /** A step of the sender with the answers to its proposal; others may change the pool or refresh the oracle between. */
  datatype SystemEvent =
    | SenderStep(answers: Answers, proposal: ProposalAnswers, built: Built)
    | OthersChangePool(pool: Contents)
    | OthersRefresh(refresh: RefreshAnswers)

  ghost function SystemNext(cfg: TaskConfig, s: System, ev: SystemEvent): System {
    match ev
    case SenderStep(a, proposal, built) =>
      System(Advance(cfg, s.run, Step(a, built)),
             if s.run.world.state.Building? then RecordedAfter(s.recorded, proposal) else s.recorded)
    case OthersChangePool(pool) => s.(run := Advance(cfg, s.run, PoolChanged(pool)))
    case OthersRefresh(refresh) => s.(recorded := Refreshed(s.recorded, refresh))
  }

  ghost function SystemRun(cfg: TaskConfig, start: System, evs: seq<SystemEvent>): System {
    if evs == [] then start else SystemNext(cfg, SystemRun(cfg, start, evs[..|evs| - 1]), evs[|evs| - 1])
  }

  /** A proposal is what the proposer makes of pool, recorded blocks and answers, as a step of the sender guarantees. */
  ghost predicate Follows(proposer: ProposerConfig, s: System, ev: SystemEvent) {
    ev.SenderStep? && s.run.world.state.Building? ==>
      ProposedFrom(proposer, s.run.world.pool, s.recorded, ev.proposal, ev.built)
  }

  /** Neither the quote taken nor the escalation computed at this event leaves `u128`. */
  ghost predicate InRange(cfg: TaskConfig, s: System, ev: SystemEvent) {
    ev.SenderStep? ==>
      && (s.run.world.state.Building? && ev.built.Ok? ==> QuoteFits(QuotedFrom(s.recorded, ev.proposal)))
      && EscalationFitsAt(cfg, s.run, Step(ev.answers, ev.built))
  }

  ghost predicate SystemRunOk(cfg: TaskConfig, proposer: ProposerConfig, start: System, evs: seq<SystemEvent>) {
    evs != [] ==>
      && SystemRunOk(cfg, proposer, start, evs[..|evs| - 1])
      && var s, ev := SystemRun(cfg, start, evs[..|evs| - 1]), evs[|evs| - 1];
         Follows(proposer, s, ev) && InRange(cfg, s, ev)
  }

  lemma FollowedIsOrdered(cfg: TaskConfig, proposer: ProposerConfig, s: System, ev: SystemEvent)
    requires ev.SenderStep? && Follows(proposer, s, ev) && InRange(cfg, s, ev)
    ensures TakesOrdered(s.run, Step(ev.answers, ev.built))
  {
    if s.run.world.state.Building? && ev.built.Ok? {
      var b := ev.built.value;
      var kept := BundleComesFromPool(proposer, s.run.world.pool, s.recorded, ev.proposal, b);
      ProposedFeesOrderedIff(proposer, s.run.world.pool, s.recorded, ev.proposal, b);
    }
  }

  lemma SystemNextKeeps(cfg: TaskConfig, proposer: ProposerConfig, s: System, ev: SystemEvent)
    requires Inv(cfg, s.run) && FeesOrdered(s.run) && Follows(proposer, s, ev) && InRange(cfg, s, ev)
    ensures Inv(cfg, SystemNext(cfg, s, ev).run) && FeesOrdered(SystemNext(cfg, s, ev).run)
  {
    match ev
    case SenderStep(a, _, built) =>
      FollowedIsOrdered(cfg, proposer, s, ev);
      AdvanceKeeps(cfg, s.run, Step(a, built));
      AdvanceKeepsOrder(cfg, s.run, Step(a, built));
    case OthersChangePool(pool) => AdvanceKeeps(cfg, s.run, PoolChanged(pool));
    case OthersRefresh(_) =>
  }

  lemma {:induction false} SystemRunsKeep(
    cfg: TaskConfig, proposer: ProposerConfig, nonce: nat, pool: Contents, recorded: seq<BlockFees>, evs: seq<SystemEvent>)
    requires SystemRunOk(cfg, proposer, System(Start(nonce, pool), recorded), evs)
    ensures var run := SystemRun(cfg, System(Start(nonce, pool), recorded), evs).run;
            Inv(cfg, run) && FeesOrdered(run)
  {
    var start := System(Start(nonce, pool), recorded);
    if evs == [] {
      EveryRun(cfg, nonce, pool, []);
    } else {
      var front := evs[..|evs| - 1];
      SystemRunsKeep(cfg, proposer, nonce, pool, recorded, front);
      SystemNextKeeps(cfg, proposer, SystemRun(cfg, start, front), evs[|evs| - 1]);
    }
  }

  /**
   * From the oracle through any number of escalations: in every run whose proposals are the proposer's, and
   * whose quotes and escalations stay within `u128`, every transaction signed has its tip under its cap.
   */
  lemma SignedFeesWellOrdered(
    cfg: TaskConfig, proposer: ProposerConfig, nonce: nat, pool: Contents, recorded: seq<BlockFees>,
    evs: seq<SystemEvent>, i: nat)
    requires SystemRunOk(cfg, proposer, System(Start(nonce, pool), recorded), evs)
    requires i < |SystemRun(cfg, System(Start(nonce, pool), recorded), evs).run.ledger.signed|
    ensures SystemRun(cfg, System(Start(nonce, pool), recorded), evs).run.ledger.signed[i].tx.fees.WellOrdered()
  {
    SystemRunsKeep(cfg, proposer, nonce, pool, recorded, evs);
  }

  // ---------------------------------------------------------------- runs that escalate

  /** A signed and submitted bundle stays pending until escalation is due. */
  ghost predicate KeepsPending(a: Answers, nonce: nat) {
    a.signed && a.submitted.Some? && a.tracker == TrackerAnswers(Ok(None), Ok(nonce)) && a.waited
  }

  /** Idle, Building, Submitting, AwaitingReceipt, then Escalating: four steps with the same answers. */
  ghost function FourSteps(a: Answers, b: Bundle): seq<Event> {
    [Step(a, Ok(b)), Step(a, Ok(b)), Step(a, Ok(b)), Step(a, Ok(b))]
  }

  lemma FourStepsRun(cfg: TaskConfig, start: Run, a: Answers, b: Bundle)
    ensures var ev := Step(a, Ok(b));
            RunAll(cfg, start, FourSteps(a, b))
            == Advance(cfg, Advance(cfg, Advance(cfg, Advance(cfg, start, ev), ev), ev), ev)
  {
    var ev, evs := Step(a, Ok(b)), FourSteps(a, b);
    assert evs[..3] == [ev, ev, ev] && [ev, ev, ev][..2] == [ev, ev] && [ev, ev][..1] == [ev] && [ev][..0] == [];
    assert RunAll(cfg, start, [ev]) == Advance(cfg, start, ev);
    assert RunAll(cfg, start, [ev, ev]) == Advance(cfg, Advance(cfg, start, ev), ev);
    assert RunAll(cfg, start, [ev, ev, ev]) == Advance(cfg, Advance(cfg, Advance(cfg, start, ev), ev), ev);
  }

  /** The pending transaction of such a run. */
  lemma EscalatingAfterFourSteps(cfg: TaskConfig, nonce: nat, pool: Contents, a: Answers, b: Bundle)
    requires cfg.escalation.maxAttempts > 0 && |pool| > 0 && b.ops != [] && KeepsPending(a, nonce)
    ensures var r := RunAll(cfg, Start(nonce, pool), FourSteps(a, b));
            && Reachable(cfg, r) && r.world.state.Escalating?
            && r.world.bundle == Some(b)
            && r.world.tracker == TrackerState(Some(PendingTransaction(a.submitted.value, nonce, 0, b.gasFees)), nonce)
  {
    FourStepsRun(cfg, Start(nonce, pool), a, b);
  }

  /** From any nonce the escalating state is reached, and the replacement is signed one below it: at 7, with 6. */
  lemma PreviousNonceIsSigned(cfg: TaskConfig, nonce: nat, pool: Contents, a: Answers, b: Bundle)
    requires cfg.escalation.maxAttempts > 0 && |pool| > 0 && b.ops != [] && KeepsPending(a, nonce)
    requires a.fees.baseFee.Ok? && a.fees.priorityFee.Ok?
    ensures var r := RunAll(cfg, Start(nonce, pool), FourSteps(a, b));
            && Reachable(cfg, r) && r.world.state.Escalating?
            && r.world.tracker.pending.Some? && r.world.tracker.pending.value.nonce == nonce
            && Signs(cfg, r.world, a).Some? && Signs(cfg, r.world, a).value.tx.nonce == SaturatingSub(nonce, 1)
    ensures nonce == 7 ==> Signs(cfg, RunAll(cfg, Start(nonce, pool), FourSteps(a, b)).world, a).value.tx.nonce == 6
  {
    EscalatingAfterFourSteps(cfg, nonce, pool, a, b);
  }

  // ---------------------------------------------------------------- bounds under which runs are safe

  /** Ordered proposals, and at each escalation a pending cap and a market within these bounds. */
  ghost predicate WithinAt(cfg: TaskConfig, r: Run, ev: Event, cap: nat, market: nat) {
    && TakesOrdered(r, ev)
    && (ev.Step? && r.world.state.Escalating? && r.world.tracker.pending.Some? ==>
          r.world.tracker.pending.value.fees.maxFeePerGas <= cap && MarketWithin(ev.answers.fees, market))
  }

  ghost predicate WithinRun(cfg: TaskConfig, start: Run, evs: seq<Event>, cap: nat, market: nat) {
    evs != [] ==>
      && WithinRun(cfg, start, evs[..|evs| - 1], cap, market)
      && WithinAt(cfg, RunAll(cfg, start, evs[..|evs| - 1]), evs[|evs| - 1], cap, market)
  }

  lemma WithinFits(cfg: TaskConfig, r: Run, ev: Event, cap: nat, market: nat)
    requires Inv(cfg, r) && FeesOrdered(r) && WithinAt(cfg, r, ev, cap, market) && BoundsFit(cfg.escalation, cap, market)
    ensures FeesOrdered(Advance(cfg, r, ev))
  {
    if ev.Step? && r.world.state.Escalating? {
      var p, a := r.world.tracker.pending.value, ev.answers.fees;
      if EscalatedFees(cfg.escalation, Some(p), a).Some? {
        BoundsSuffice(cfg.escalation, p, a, cap, market);
        EscalationWellOrdered(cfg.escalation, p, a);
      }
      EscalatingKeepsOrder(cfg, r, ev.answers, ev.built);
    } else {
      AdvanceKeepsOrder(cfg, r, ev);
    }
  }

  lemma {:induction false} WithinRunsKeepOrder(
    cfg: TaskConfig, nonce: nat, pool: Contents, evs: seq<Event>, cap: nat, market: nat)
    requires WithinRun(cfg, Start(nonce, pool), evs, cap, market) && BoundsFit(cfg.escalation, cap, market)
    ensures FeesOrdered(RunAll(cfg, Start(nonce, pool), evs))
  {
    if evs != [] {
      var front := evs[..|evs| - 1];
      WithinRunsKeepOrder(cfg, nonce, pool, front, cap, market);
      EveryRun(cfg, nonce, pool, front);
      WithinFits(cfg, RunAll(cfg, Start(nonce, pool), front), evs[|evs| - 1], cap, market);
    }
  }

  /** All runs within the bounds, from this start, sign ordered fees only. */
  ghost predicate SignsOrderedWithin(cfg: TaskConfig, start: Run, cap: nat, market: nat) {
    forall evs: seq<Event> :: WithinRun(cfg, start, evs, cap, market) ==> SignedOk(RunAll(cfg, start, evs).ledger.signed)
  }

  /** The bundle and the answers of a run that goes out of order when the bounds do not fit. */
  ghost function DisorderingBundle(cfg: TaskConfig, op: PackedUserOperation, cap: nat): Bundle {
    Bundle([op], seq(20, _ => 0 as byte), 0, Disordering(cfg.escalation, cap).0, [])
  }

  ghost function DisorderingAnswers(cfg: TaskConfig, nonce: nat, cap: nat): Answers {
    Answers(true, Some(0), TrackerAnswers(Ok(None), Ok(nonce)), true, Disordering(cfg.escalation, cap).1, Ok(0))
  }

  lemma DisorderingRun(cfg: TaskConfig, nonce: nat, pool: Contents, op: PackedUserOperation, cap: nat, market: nat)
    returns (evs: seq<Event>)
    requires |pool| > 0 && !BoundsFit(cfg.escalation, cap, market)
    ensures WithinRun(cfg, Start(nonce, pool), evs, cap, market)
    ensures !SignedOk(RunAll(cfg, Start(nonce, pool), evs).ledger.signed)
  {
    hide Disordering, BoundsFit;
    var a, b := DisorderingAnswers(cfg, nonce, cap), DisorderingBundle(cfg, op, cap);
    var start, four := Start(nonce, pool), FourSteps(a, b);
    DisorderingWorks(cfg.escalation, cap, market, PendingTransaction(0, nonce, 0, b.gasFees));
    BoundedAttempts(cfg.escalation, cap, market);
    EscalatingAfterFourSteps(cfg, nonce, pool, a, b);
    FourStepsWithin(cfg, nonce, pool, a, b, cap, market);
    evs := four + [Step(a, Ok(b))];
    assert evs[..|evs| - 1] == four;
    SignsLast(cfg, RunAll(cfg, start, four), a, Ok(b));
  }

  lemma BoundedAttempts(cfg: EscalationConfig, cap: nat, market: nat)
    requires !BoundsFit(cfg, cap, market)
    ensures cfg.maxAttempts > 0
  {
  }

  lemma SignsLast(cfg: TaskConfig, r: Run, a: Answers, built: Built)
    requires Signs(cfg, r.world, a).Some? && !Signs(cfg, r.world, a).value.tx.fees.WellOrdered()
    ensures !SignedOk(Advance(cfg, r, Step(a, built)).ledger.signed)
  {
    var signed := Advance(cfg, r, Step(a, built)).ledger.signed;
    assert signed[|signed| - 1] == Signs(cfg, r.world, a).value;
  }

  /** Before it escalates such a run keeps within all bounds. */
  lemma FourStepsWithin(cfg: TaskConfig, nonce: nat, pool: Contents, a: Answers, b: Bundle, cap: nat, market: nat)
    requires |pool| > 0 && b.ops != [] && KeepsPending(a, nonce) && b.gasFees.WellOrdered()
    ensures WithinRun(cfg, Start(nonce, pool), FourSteps(a, b), cap, market)
  {
    var ev, evs, start := Step(a, Ok(b)), FourSteps(a, b), Start(nonce, pool);
    assert evs[..3] == [ev, ev, ev] && [ev, ev, ev][..2] == [ev, ev] && [ev, ev][..1] == [ev] && [ev][..0] == [];
    assert RunAll(cfg, start, [ev]) == Advance(cfg, start, ev);
    assert RunAll(cfg, start, [ev, ev]) == Advance(cfg, Advance(cfg, start, ev), ev);
    assert RunAll(cfg, start, [ev, ev, ev]) == Advance(cfg, Advance(cfg, Advance(cfg, start, ev), ev), ev);
    assert WithinRun(cfg, start, [], cap, market);
    assert WithinRun(cfg, start, [ev], cap, market);
    assert WithinRun(cfg, start, [ev, ev], cap, market);
    assert WithinRun(cfg, start, [ev, ev, ev], cap, market);
  }

  /**
   * All runs with ordered proposals whose pending caps and markets stay within given bounds sign ordered fees
   * exactly when the products at the bounds stay within `u128`.
   */
  lemma SignsOrderedWithinIff(
    cfg: TaskConfig, nonce: nat, pool: Contents, op: PackedUserOperation, cap: nat, market: nat)
    requires |pool| > 0
    ensures SignsOrderedWithin(cfg, Start(nonce, pool), cap, market) <==> BoundsFit(cfg.escalation, cap, market)
  {
    if BoundsFit(cfg.escalation, cap, market) {
      forall evs: seq<Event> | WithinRun(cfg, Start(nonce, pool), evs, cap, market)
        ensures SignedOk(RunAll(cfg, Start(nonce, pool), evs).ledger.signed)
      {
        WithinRunsKeepOrder(cfg, nonce, pool, evs, cap, market);
      }
    } else {
      var evs := DisorderingRun(cfg, nonce, pool, op, cap, market);
    }
  }

  /** Without the fit a run signs a tip above its cap: base fee 11500 and a tip near the top. */
  lemma OverflowSignsDisordered(cfg: TaskConfig, nonce: nat, pool: Contents, a: Answers, b: Bundle)
    requires cfg.escalation == DEFAULT_ESCALATION && |pool| > 0 && b.ops != [] && KeepsPending(a, nonce)
    requires b.gasFees == GasFees(2, 1) && a.fees == OVERFLOWING_MARKET
    ensures var r := RunAll(cfg, Start(nonce, pool), FourSteps(a, b));
            && Reachable(cfg, r)
            && Signs(cfg, r.world, a).Some? && !Signs(cfg, r.world, a).value.tx.fees.WellOrdered()
  {
    hide NetworkFees;
    EscalatingAfterFourSteps(cfg, nonce, pool, a, b);
    MarketOverflowDisorders(PendingTransaction(a.submitted.value, nonce, 0, b.gasFees));
  }

  // ---------------------------------------------------------------- mined cleanup

  /**
   * The step that observes the bundle mined leaves no pool entry under the id of a bundled operation,
   * even one that replaced it meanwhile, and leaves every other entry alone.
   */
  lemma MinedCleansPool(cfg: TaskConfig, r: Run, a: Answers, built: Built)
    requires Reachable(cfg, r) && r.world.state.AwaitingReceipt?
    requires Next(cfg, r.world, a, built).state.Confirming?
    ensures r.world.bundle.Some?
    ensures var c, d := r.world.pool, Next(cfg, r.world, a, built).pool;
            forall id :: id in d <==>
              id in c && forall op :: op in r.world.bundle.value.ops ==> id != UserOperationId(op.sender, op.nonce)
    ensures var c, d := r.world.pool, Next(cfg, r.world, a, built).pool;
            forall id :: id in d ==> d[id] == c[id]
  {
    ReachableInv(cfg, r);
    var b := r.world.bundle.value;
    forall id
      ensures id in BundledIds(cfg, b) <==> exists op :: op in b.ops && id == UserOperationId(op.sender, op.nonce)
    {
      BundledIdsMeaning(cfg, b, id);
    }
  }

  /** Unpacking keeps sender and nonce. */
  lemma BundledIdsMeaning(cfg: TaskConfig, b: Bundle, id: UserOperationId)
    ensures id in BundledIds(cfg, b) <==> exists op :: op in b.ops && id == UserOperationId(op.sender, op.nonce)
  {
    var ids := BundledIds(cfg, b);
    assert forall i :: 0 <= i < |ids| ==> ids[i] == UserOperationId(b.ops[i].sender, b.ops[i].nonce);
    if op :| op in b.ops && id == UserOperationId(op.sender, op.nonce) {
      var i :| 0 <= i < |b.ops| && b.ops[i] == op;
      assert ids[i] == id;
    }
  }
}
