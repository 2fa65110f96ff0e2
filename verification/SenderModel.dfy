/** The bundle sender as a transition system over its own fields, its tracker and the pool. */
module SenderModel {
  import opened Base
  import opened Gas
  import opened UserOperations
  import opened PoolModel
  import opened Proposer
  import opened Tracker

  datatype SenderState =
    | Idle
    | Building
    | Submitting
    | AwaitingReceipt
    | Escalating
    | Cancelling
    | Confirming
    | Confirmed
    | Abandoned

  /** Confirmations waited for; the chain specification's own setting is not consulted. */
  const CONFIRMATION_DEPTH: nat := 3

  datatype TaskConfig = TaskConfig(
    escalation: EscalationConfig,
    entryPoint: Address,
    chainId: uint64,
    hasher: Hasher)

  datatype World = World(
    state: SenderState,
    bundle: Option<Bundle>,
    minedBlock: Option<nat>,
    tracker: TrackerState,
    pool: Contents)

  /** Environment answers to one step; a step looks only at those its state asks for. */
  datatype Answers = Answers(
    signed: bool,
    submitted: Option<B256>,
    tracker: TrackerAnswers,
    waited: bool,
    fees: FeeAnswers,
    blockNumber: Result<nat, ProviderError>)

  type Built = Result<Bundle, ProposerError>

  ghost function RejectedHashes(b: Bundle): seq<B256> {
    seq(|b.rejectedOps|, i requires 0 <= i < |b.rejectedOps| => b.rejectedOps[i].hash)
  }

  function BundledId(cfg: TaskConfig, op: PackedUserOperation): UserOperationId {
    Unpack(cfg.hasher, op, cfg.entryPoint, cfg.chainId).Id()
  }

  /** Ids of the bundled operations, as recovered from their packed form. */
  ghost function BundledIds(cfg: TaskConfig, b: Bundle): seq<UserOperationId> {
    seq(|b.ops|, i requires 0 <= i < |b.ops| => BundledId(cfg, b.ops[i]))
  }

  // ---------------------------------------------------------------- one step

  ghost function NextIdle(w: World): World {
    w.(state := if |w.pool| == 0 then Idle else Building)
  }

  ghost function NextBuilding(w: World, built: Built): World {
    if built.Err? || built.value.ops == [] then w.(state := Idle)
    else w.(state := Submitting, bundle := Some(built.value),
            pool := DropHashes(w.pool, RejectedHashes(built.value)))
  }

  ghost function NextSubmitting(w: World, a: Answers): World {
    if w.bundle.None? then w.(state := Idle)
    else if !a.signed || a.submitted.None? then w.(state := Abandoned)
    else
      var p := PendingTransaction(a.submitted.value, w.tracker.currentNonce, 0, w.bundle.value.gasFees);
      w.(state := AwaitingReceipt, tracker := w.tracker.(pending := Some(p)))
  }

  ghost function NextAwaiting(cfg: TaskConfig, w: World, a: Answers): World {
    var (t, r) := Checked(w.tracker, a.tracker);
    var w' := w.(tracker := t);
    match r
    case Err(_) => w'.(state := AwaitingReceipt)
    case Ok(None) => w'.(state := Idle)
    case Ok(Some(Mined(block))) =>
      w'.(state := Confirming, minedBlock := Some(block),
          pool := if w.bundle.None? then w.pool else DropIds(w.pool, BundledIds(cfg, w.bundle.value)))
    case Ok(Some(Dropped)) => w'.(state := Abandoned)
    case Ok(Some(Pending)) =>
      w'.(state := if a.waited && t.pending.Some? && t.pending.value.escalationCount < cfg.escalation.maxAttempts
                   then Escalating else AwaitingReceipt)
  }

  ghost function NextEscalating(cfg: TaskConfig, w: World, a: Answers): World {
    var fees := EscalatedFees(cfg.escalation, w.tracker.pending, a.fees);
    if fees.None? || w.bundle.None? then w.(state := Abandoned, tracker := w.tracker.(pending := None))
    else if !a.signed || a.submitted.None? then w.(state := AwaitingReceipt)
    else
      var p := match w.tracker.pending
               case Some(p) => Some(Escalated(p, a.submitted.value, fees.value))
               case None => None;
      w.(state := AwaitingReceipt, tracker := w.tracker.(pending := p))
  }

  ghost function NextCancelling(w: World): World {
    if w.tracker.pending.None? then w.(state := Idle)
    else w.(state := Abandoned, tracker := w.tracker.(pending := None))
  }

  ghost function NextConfirming(w: World, a: Answers): World {
    w.(state :=
       if w.minedBlock.None? then Confirmed
       else if a.blockNumber.Err? then Confirming
       else if SaturatingSub(a.blockNumber.value, w.minedBlock.value) >= CONFIRMATION_DEPTH then Confirmed
       else Confirming)
  }

  ghost function Next(cfg: TaskConfig, w: World, a: Answers, built: Built): World {
    match w.state
    case Idle => NextIdle(w)
    case Building => NextBuilding(w, built)
    case Submitting => NextSubmitting(w, a)
    case AwaitingReceipt => NextAwaiting(cfg, w, a)
    case Escalating => NextEscalating(cfg, w, a)
    case Cancelling => NextCancelling(w)
    case Confirming => NextConfirming(w, a)
    case Confirmed => w.(state := Idle, bundle := None, minedBlock := None)
    case Abandoned => w.(state := Idle, bundle := None, minedBlock := None)
  }

  // ---------------------------------------------------------------- what a step signs and records

  /** The `handleOps` transaction: calldata arguments, nonce, gas limit and fees. */
  datatype BundleTx = BundleTx(
    ops: seq<PackedUserOperation>,
    beneficiary: Address,
    nonce: nat,
    gasLimit: nat,
    fees: GasFees)

  datatype SignedTx = SignedTx(tx: BundleTx, escalation: bool)

  function BuildBundleTx(b: Bundle, nonce: nat): BundleTx {
    BundleTx(b.ops, b.beneficiary, nonce, b.gasEstimate, b.gasFees)
  }

  /** The bundle transaction a step gets signed, if any. */
  ghost function Signs(cfg: TaskConfig, w: World, a: Answers): Option<SignedTx> {
    if !a.signed || w.bundle.None? then None
    else match w.state
      case Submitting => Some(SignedTx(BuildBundleTx(w.bundle.value, w.tracker.currentNonce), false))
      case Escalating =>
        var fees := EscalatedFees(cfg.escalation, w.tracker.pending, a.fees);
        if fees.None? then None
        else Some(SignedTx(
                    BuildBundleTx(w.bundle.value, SaturatingSub(w.tracker.currentNonce, 1)).(fees := fees.value),
                    true))
      case _ => None
  }

  datatype Fate = InFlight | MinedAt(block: nat) | DroppedOut | GivenUp

  datatype Submission = Submission(nonce: nat, fees: GasFees, escalations: nat, fate: Fate)

  datatype Confirmation = Confirmation(minedAt: nat, reportedAt: nat)

  /** History of a run. */
  datatype Ledger = Ledger(
    submissions: seq<Submission>,
    signed: seq<SignedTx>,
    confirmations: seq<Confirmation>)

  ghost function WithLast(s: seq<Submission>, x: Submission): seq<Submission> {
    if s == [] then s else s[..|s| - 1] + [x]
  }

  ghost function Last(s: seq<Submission>): Submission
    requires s != []
  {
    s[|s| - 1]
  }

  ghost function SubmissionsAfter(cfg: TaskConfig, s: seq<Submission>, w: World, a: Answers): seq<Submission> {
    match w.state
    case Submitting =>
      if w.bundle.Some? && a.signed && a.submitted.Some?
      then s + [Submission(w.tracker.currentNonce, w.bundle.value.gasFees, 0, InFlight)] else s
    case AwaitingReceipt =>
      if s == [] then s
      else (match Checked(w.tracker, a.tracker).1
            case Ok(Some(Mined(block))) => WithLast(s, Last(s).(fate := MinedAt(block)))
            case Ok(Some(Dropped)) => WithLast(s, Last(s).(fate := DroppedOut))
            case _ => s)
    case Escalating =>
      if s == [] then s
      else if EscalatedFees(cfg.escalation, w.tracker.pending, a.fees).None? || w.bundle.None?
      then WithLast(s, Last(s).(fate := GivenUp))
      else if a.signed && a.submitted.Some? then WithLast(s, Last(s).(escalations := Last(s).escalations + 1))
      else s
    case _ => s
  }

  ghost function ConfirmationsAfter(s: seq<Confirmation>, w: World, a: Answers): seq<Confirmation> {
    if w.state.Confirming? && NextConfirming(w, a).state.Confirmed? && w.minedBlock.Some? && a.blockNumber.Ok?
    then s + [Confirmation(w.minedBlock.value, a.blockNumber.value)] else s
  }

  ghost function Recorded(cfg: TaskConfig, l: Ledger, w: World, a: Answers): Ledger {
    Ledger(
      SubmissionsAfter(cfg, l.submissions, w, a),
      match Signs(cfg, w, a) { case Some(tx) => l.signed + [tx] case None => l.signed },
      ConfirmationsAfter(l.confirmations, w, a))
  }
}
