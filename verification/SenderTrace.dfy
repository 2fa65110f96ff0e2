/** What a run of the sender did, read off its events and the worlds between them. */
module SenderTraces {
  import opened Base
  import opened Gas
  import opened UserOperations
  import opened PoolModel
  import opened Proposer
  import opened Tracker
  import opened SenderModel
  import opened SenderRuns

  /** The run before event `n`. */
  ghost function Upto(cfg: TaskConfig, start: Run, evs: seq<Event>, n: nat): Run
    requires n <= |evs|
  {
    RunAll(cfg, start, evs[..n])
  }

  lemma UptoNext(cfg: TaskConfig, start: Run, evs: seq<Event>, n: nat)
    requires n < |evs|
    ensures Upto(cfg, start, evs, n + 1) == Advance(cfg, Upto(cfg, start, evs, n), evs[n])
  {
    assert evs[..n + 1][..n] == evs[..n];
  }

  lemma UptoInv(cfg: TaskConfig, nonce: nat, pool: Contents, evs: seq<Event>, n: nat)
    requires n <= |evs|
    ensures Inv(cfg, Upto(cfg, Start(nonce, pool), evs, n))
  {
    EveryRun(cfg, nonce, pool, evs[..n]);
  }

  // ---------------------------------------------------------------- one step at a time

  /** The receipt answered is that of a transaction mined in block `b`; a receipt without a block number counts as block 0. */
  ghost predicate Carries(a: Answers, b: nat) {
    || a.tracker.receipt == Ok(Some(Receipt(Some(b))))
    || (b == 0 && a.tracker.receipt == Ok(Some(Receipt(None))))
  }

  /** The chain nonce answered, without a receipt, has passed the pending one. */
  ghost predicate Overtakes(a: Answers, nonce: nat, chainNonce: nat) {
    a.tracker == TrackerAnswers(Ok(None), Ok(chainNonce)) && chainNonce > nonce
  }

  /** Idle waits for the pool; the terminal states reset. */
  lemma RestingStep(cfg: TaskConfig, r: Run, a: Answers, built: Built)
    requires Inv(cfg, r) && (r.world.state.Idle? || r.world.state.Confirmed? || r.world.state.Abandoned?)
    ensures var w, w' := r.world, Advance(cfg, r, Step(a, built)).world;
            && w'.state == (if w.state.Idle? && w.pool != map[] then Building else Idle)
            && w'.bundle == None && w'.minedBlock == None && w'.tracker == w.tracker && w'.pool == w.pool
  {
  }

  /** A non-empty proposal is kept, and exactly the entries it rejects leave the pool. */
  lemma BuildingStep(cfg: TaskConfig, r: Run, a: Answers, built: Built, id: UserOperationId)
    requires Inv(cfg, r) && r.world.state.Building?
    ensures var w, w' := r.world, Advance(cfg, r, Step(a, built)).world;
            && w'.tracker == w.tracker && w'.minedBlock == None
            && (if built.Ok? && built.value.ops != [] then
                  && w'.state == Submitting && w'.bundle == Some(built.value)
                  && (id in w'.pool <==>
                        id in w.pool && forall x :: x in built.value.rejectedOps ==> x.hash != w.pool[id].hash)
                  && (id in w'.pool ==> w'.pool[id] == w.pool[id])
                else
                  w'.state == Idle && w'.bundle == None && w'.pool == w.pool)
  {
    if built.Ok? {
      RejectedHashesMeaning(built.value);
    }
  }

  lemma RejectedHashesMeaning(b: Bundle)
    ensures forall hash :: hash in RejectedHashes(b) <==> exists x :: x in b.rejectedOps && x.hash == hash
  {
    var hashes := RejectedHashes(b);
    forall hash
      ensures hash in hashes <==> exists x :: x in b.rejectedOps && x.hash == hash
    {
      if hash in hashes {
        var i :| 0 <= i < |hashes| && hashes[i] == hash;
        assert b.rejectedOps[i] in b.rejectedOps;
      }
      if x :| x in b.rejectedOps && x.hash == hash {
        var i :| 0 <= i < |b.rejectedOps| && b.rejectedOps[i] == x;
        assert hashes[i] == hash;
      }
    }
  }

  /** The transaction of a bundle at this nonce, field by field. */
  ghost predicate IsBundleTx(tx: BundleTx, b: Bundle, nonce: nat, fees: GasFees) {
    && tx.ops == b.ops && tx.beneficiary == b.beneficiary && tx.gasLimit == b.gasEstimate
    && tx.nonce == nonce && tx.fees == fees
  }

  /** The ledger gains this one signed transaction. */
  ghost predicate SignsOne(before: Ledger, after: Ledger, b: Bundle, nonce: nat, fees: GasFees, escalation: bool) {
    && |after.signed| == |before.signed| + 1 && after.signed[..|before.signed|] == before.signed
    && var s := after.signed[|before.signed|];
       IsBundleTx(s.tx, b, nonce, fees) && s.escalation == escalation
  }

  /** Submitting signs at the account nonce; what the network takes becomes pending under its digest. */
  lemma SubmittingStep(cfg: TaskConfig, r: Run, a: Answers, built: Built)
    requires Inv(cfg, r) && r.world.state.Submitting?
    ensures r.world.bundle.Some?
    ensures var w, r' := r.world, Advance(cfg, r, Step(a, built));
            var w', b := r'.world, w.bundle.value;
            && w'.bundle == w.bundle && w'.pool == w.pool && w'.tracker.currentNonce == w.tracker.currentNonce
            && (if a.signed then
                  && SignsOne(r.ledger, r'.ledger, b, w.tracker.currentNonce, b.gasFees, false)
                  && Signs(cfg, w, a) == Some(r'.ledger.signed[|r.ledger.signed|])
                else
                  r'.ledger.signed == r.ledger.signed && Signs(cfg, w, a) == None)
            && (if a.signed && a.submitted.Some? then
                  && w'.state == AwaitingReceipt
                  && w'.tracker.pending
                     == Some(PendingTransaction(a.submitted.value, w.tracker.currentNonce, 0, b.gasFees))
                else
                  w'.state == Abandoned && w'.tracker.pending == None)
  {
  }

  /** Awaiting a receipt: mined, overtaken, failed query, or still pending. */
  lemma AwaitingStep(cfg: TaskConfig, r: Run, a: Answers, built: Built, b: nat)
    requires Inv(cfg, r) && r.world.state.AwaitingReceipt?
    ensures r.world.tracker.pending.Some?
    ensures var w, w' := r.world, Advance(cfg, r, Step(a, built)).world;
            var p := w.tracker.pending.value;
            && w'.bundle == w.bundle
            && (Carries(a, b) ==>
                  w'.state == Confirming && w'.minedBlock == Some(b) && w'.tracker == TrackerState(None, p.nonce + 1))
            && (Overtakes(a, p.nonce, b) ==>
                  w'.state == Abandoned && w'.tracker == TrackerState(None, b) && w'.pool == w.pool)
            && (a.tracker.receipt.Err? || (a.tracker.receipt == Ok(None) && a.tracker.chainNonce.Err?) ==>
                  w' == w)
            && (a.tracker == TrackerAnswers(Ok(None), Ok(b)) && b <= p.nonce ==>
                  w' == w.(state := if a.waited && p.escalationCount < cfg.escalation.maxAttempts
                                    then Escalating else AwaitingReceipt))
  {
  }

  /** Escalating: the replacement carries the bundle again, at the account nonce minus one, with the escalated fees. */
  lemma EscalatingStep(cfg: TaskConfig, r: Run, a: Answers, built: Built)
    requires Inv(cfg, r) && r.world.state.Escalating?
    ensures r.world.tracker.pending.Some? && r.world.bundle.Some?
    ensures var w, r' := r.world, Advance(cfg, r, Step(a, built));
            var w', p, fees := r'.world, w.tracker.pending.value, EscalatedFees(cfg.escalation, w.tracker.pending, a.fees);
            && w'.bundle == w.bundle && w'.pool == w.pool && w'.tracker.currentNonce == w.tracker.currentNonce
            && (if fees.None? then
                  && w'.state == Abandoned && w'.tracker.pending == None
                  && r'.ledger.signed == r.ledger.signed && Signs(cfg, w, a) == None
                else
                  && w'.state == AwaitingReceipt
                  && (if a.signed then
                        && SignsOne(r.ledger, r'.ledger, w.bundle.value,
                                    if w.tracker.currentNonce == 0 then 0 else w.tracker.currentNonce - 1, fees.value, true)
                        && Signs(cfg, w, a) == Some(r'.ledger.signed[|r.ledger.signed|])
                      else
                        r'.ledger.signed == r.ledger.signed && Signs(cfg, w, a) == None)
                  && w'.tracker.pending
                     == Some(if a.signed && a.submitted.Some?
                             then PendingTransaction(a.submitted.value, p.nonce, p.escalationCount + 1, fees.value)
                             else p))
  {
  }

  /** Confirming ends exactly on a reported block three above the mined one. */
  lemma ConfirmingStep(cfg: TaskConfig, r: Run, a: Answers, built: Built)
    requires Inv(cfg, r) && r.world.state.Confirming?
    ensures r.world.minedBlock.Some?
    ensures var w, w' := r.world, Advance(cfg, r, Step(a, built)).world;
            w' == w.(state := if a.blockNumber.Ok? && a.blockNumber.value >= w.minedBlock.value + 3
                              then Confirmed else Confirming)
  {
  }

  // ---------------------------------------------------------------- the account nonce

  /** The account nonce moves only on answers: one past the pending nonce when mined, to the chain's when overtaken. */
  lemma NonceStep(cfg: TaskConfig, r: Run, a: Answers, built: Built)
    requires Inv(cfg, r)
    ensures var t, t' := r.world.tracker, Advance(cfg, r, Step(a, built)).world.tracker;
            t'.currentNonce
            == if !r.world.state.AwaitingReceipt? then t.currentNonce
               else if a.tracker.receipt.Ok? && a.tracker.receipt.value.Some? then t.currentNonce + 1
               else if a.tracker.receipt.Ok? && a.tracker.chainNonce.Ok? && a.tracker.chainNonce.value > t.currentNonce
               then a.tracker.chainNonce.value
               else t.currentNonce
  {
  }

  // ---------------------------------------------------------------- where things stem from

  /** The bundle held before event `n` is the proposal taken at event `i`, and it was held ever since. */
  ghost predicate ProposedAt(cfg: TaskConfig, start: Run, evs: seq<Event>, n: nat, i: nat, b: Bundle)
    requires n <= |evs|
  {
    && i < n && evs[i].Step? && evs[i].built == Ok(b)
    && Upto(cfg, start, evs, i).world.state.Building?
    && (forall j :: i < j <= n ==> Upto(cfg, start, evs, j).world.bundle == Some(b))
  }

  lemma BundleStep(cfg: TaskConfig, r: Run, a: Answers, built: Built)
    requires Inv(cfg, r) && Advance(cfg, r, Step(a, built)).world.bundle.Some?
    ensures var b := Advance(cfg, r, Step(a, built)).world.bundle.value;
            (r.world.state.Building? && built == Ok(b)) || r.world.bundle == Some(b)
  {
  }

  lemma {:induction false} BundleTraced(cfg: TaskConfig, nonce: nat, pool: Contents, evs: seq<Event>, n: nat) returns (i: nat)
    requires n <= |evs| && Upto(cfg, Start(nonce, pool), evs, n).world.bundle.Some?
    ensures ProposedAt(cfg, Start(nonce, pool), evs, n, i, Upto(cfg, Start(nonce, pool), evs, n).world.bundle.value)
  {
    hide Advance;
    var start := Start(nonce, pool);
    if n == 0 {
      assert false;
    } else {
      var r := Upto(cfg, start, evs, n - 1);
      UptoNext(cfg, start, evs, n - 1);
      UptoInv(cfg, nonce, pool, evs, n - 1);
      HeldOrTaken(cfg, r, evs[n - 1]);
      if r.world.bundle.None? || (evs[n - 1].Step? && r.world.state.Building?) {
        i := n - 1;
      } else {
        i := BundleTraced(cfg, nonce, pool, evs, n - 1);
      }
    }
  }

  lemma HeldOrTaken(cfg: TaskConfig, r: Run, ev: Event)
    requires Inv(cfg, r) && Advance(cfg, r, ev).world.bundle.Some?
    ensures var b := Advance(cfg, r, ev).world.bundle.value;
            if r.world.bundle.None? || (ev.Step? && r.world.state.Building?)
            then ev.Step? && r.world.state.Building? && ev.built == Ok(b)
            else r.world.bundle == Some(b)
  {
    if ev.Step? {
      BundleStep(cfg, r, ev.answers, ev.built);
    }
  }

  /** The signed transaction `s` was signed at event `m`, from the proposal of event `i`, at that time's account nonce. */
  ghost predicate SignedAt(cfg: TaskConfig, start: Run, evs: seq<Event>, s: SignedTx, i: nat, m: nat)
    requires m < |evs|
  {
    var r := Upto(cfg, start, evs, m);
    && i < m && evs[i].Step? && evs[i].built.Ok? && Upto(cfg, start, evs, i).world.state.Building?
    && evs[m].Step? && evs[m].answers.signed
    && var b, nonce := evs[i].built.value, r.world.tracker.currentNonce;
       && s.tx.ops == b.ops && s.tx.beneficiary == b.beneficiary && s.tx.gasLimit == b.gasEstimate
       && (if s.escalation then
             r.world.state.Escalating? && s.tx.nonce == if nonce == 0 then 0 else nonce - 1
           else
             r.world.state.Submitting? && s.tx.nonce == nonce && s.tx.fees == b.gasFees)
  }

  lemma SignedStep(cfg: TaskConfig, r: Run, ev: Event, k: nat)
    requires Inv(cfg, r) && k < |Advance(cfg, r, ev).ledger.signed|
    ensures var s := Advance(cfg, r, ev).ledger.signed[k];
            if k < |r.ledger.signed| then s == r.ledger.signed[k]
            else
              && ev.Step? && ev.answers.signed && r.world.bundle.Some?
              && var b, nonce := r.world.bundle.value, r.world.tracker.currentNonce;
                 && s.tx.ops == b.ops && s.tx.beneficiary == b.beneficiary && s.tx.gasLimit == b.gasEstimate
                 && (if s.escalation then
                       r.world.state.Escalating? && s.tx.nonce == if nonce == 0 then 0 else nonce - 1
                     else
                       r.world.state.Submitting? && s.tx.nonce == nonce && s.tx.fees == b.gasFees)
  {
  }

  /**
   * Every transaction signed in any run carries operations, beneficiary and gas limit of a bundle proposed
   * earlier in it: a first submission with the bundle's fees at the account nonce, a replacement one below.
   */
  lemma {:induction false} SignedTraced(
    cfg: TaskConfig, nonce: nat, pool: Contents, evs: seq<Event>, n: nat, k: nat) returns (i: nat, m: nat)
    requires n <= |evs| && k < |Upto(cfg, Start(nonce, pool), evs, n).ledger.signed|
    ensures m < n && SignedAt(cfg, Start(nonce, pool), evs, Upto(cfg, Start(nonce, pool), evs, n).ledger.signed[k], i, m)
  {
    hide Advance;
    var start := Start(nonce, pool);
    if n == 0 {
      assert false;
    } else {
      var r := Upto(cfg, start, evs, n - 1);
      UptoNext(cfg, start, evs, n - 1);
      UptoInv(cfg, nonce, pool, evs, n - 1);
      SignedStep(cfg, r, evs[n - 1], k);
      if k < |r.ledger.signed| {
        i, m := SignedTraced(cfg, nonce, pool, evs, n - 1, k);
      } else {
        m := n - 1;
        i := BundleTraced(cfg, nonce, pool, evs, n - 1);
      }
    }
  }

  // ---------------------------------------------------------------- confirmations

  /** The receipt answered at event `i` carried block `b`, and the sender has been confirming ever since. */
  ghost predicate MinedIn(cfg: TaskConfig, start: Run, evs: seq<Event>, n: nat, i: nat, b: nat)
    requires n <= |evs|
  {
    && i < n && evs[i].Step? && Carries(evs[i].answers, b)
    && Upto(cfg, start, evs, i).world.state.AwaitingReceipt?
    && (forall j :: i < j <= n ==> Upto(cfg, start, evs, j).world.state.Confirming?)
  }

  lemma StartsConfirming(cfg: TaskConfig, r: Run, ev: Event)
    requires Inv(cfg, r) && Advance(cfg, r, ev).world.state.Confirming?
    ensures var mined := Advance(cfg, r, ev).world.minedBlock;
            && mined.Some?
            && (r.world.state.Confirming? ==> r.world.minedBlock == mined)
            && (!r.world.state.Confirming? ==>
                  ev.Step? && r.world.state.AwaitingReceipt? && Carries(ev.answers, mined.value))
  {
  }

  lemma {:induction false} MinedTraced(cfg: TaskConfig, nonce: nat, pool: Contents, evs: seq<Event>, n: nat) returns (i: nat)
    requires n <= |evs| && Upto(cfg, Start(nonce, pool), evs, n).world.state.Confirming?
    ensures Upto(cfg, Start(nonce, pool), evs, n).world.minedBlock.Some?
    ensures MinedIn(cfg, Start(nonce, pool), evs, n, i, Upto(cfg, Start(nonce, pool), evs, n).world.minedBlock.value)
  {
    hide Advance;
    var start := Start(nonce, pool);
    if n == 0 {
      assert false;
    } else {
      var r := Upto(cfg, start, evs, n - 1);
      UptoNext(cfg, start, evs, n - 1);
      UptoInv(cfg, nonce, pool, evs, n - 1);
      StartsConfirming(cfg, r, evs[n - 1]);
      if r.world.state.Confirming? {
        i := MinedTraced(cfg, nonce, pool, evs, n - 1);
      } else {
        i := n - 1;
      }
    }
  }

  /**
   * A step from Confirming ends in Confirmed exactly when the block it reports is at least three above the
   * block in the receipt that started confirming.
   */
  lemma ConfirmedIff(cfg: TaskConfig, nonce: nat, pool: Contents, evs: seq<Event>, n: nat) returns (i: nat, b: nat)
    requires n < |evs| && evs[n].Step? && Upto(cfg, Start(nonce, pool), evs, n).world.state.Confirming?
    ensures MinedIn(cfg, Start(nonce, pool), evs, n, i, b)
    ensures Upto(cfg, Start(nonce, pool), evs, n + 1).world.state.Confirmed?
       <==> evs[n].answers.blockNumber.Ok? && evs[n].answers.blockNumber.value >= b + 3
  {
    var start := Start(nonce, pool);
    i := MinedTraced(cfg, nonce, pool, evs, n);
    b := Upto(cfg, start, evs, n).world.minedBlock.value;
    UptoNext(cfg, start, evs, n);
    UptoInv(cfg, nonce, pool, evs, n);
    ConfirmingStep(cfg, Upto(cfg, start, evs, n), evs[n].answers, evs[n].built);
  }

  /** The confirmation `c` was reported at event `m` for the receipt of event `i`. */
  ghost predicate ConfirmedAt(cfg: TaskConfig, start: Run, evs: seq<Event>, c: Confirmation, i: nat, m: nat)
    requires m < |evs|
  {
    && MinedIn(cfg, start, evs, m, i, c.minedAt)
    && evs[m].Step? && evs[m].answers.blockNumber == Ok(c.reportedAt)
    && c.reportedAt >= c.minedAt + 3
  }

  lemma ConfirmationStep(cfg: TaskConfig, r: Run, ev: Event, k: nat)
    requires Inv(cfg, r) && k < |Advance(cfg, r, ev).ledger.confirmations|
    ensures var c := Advance(cfg, r, ev).ledger.confirmations[k];
            if k < |r.ledger.confirmations| then c == r.ledger.confirmations[k]
            else
              && r.world.state.Confirming? && r.world.minedBlock == Some(c.minedAt)
              && ev.Step? && ev.answers.blockNumber == Ok(c.reportedAt) && c.reportedAt >= c.minedAt + 3
  {
  }

  /** Every recorded confirmation stems from an earlier receipt that named its block, and was reported three blocks above. */
  lemma {:induction false} ConfirmationsTraced(
    cfg: TaskConfig, nonce: nat, pool: Contents, evs: seq<Event>, n: nat, k: nat) returns (i: nat, m: nat)
    requires n <= |evs| && k < |Upto(cfg, Start(nonce, pool), evs, n).ledger.confirmations|
    ensures m < n && ConfirmedAt(cfg, Start(nonce, pool), evs, Upto(cfg, Start(nonce, pool), evs, n).ledger.confirmations[k], i, m)
  {
    hide Advance;
    var start := Start(nonce, pool);
    if n == 0 {
      assert false;
    } else {
      var r := Upto(cfg, start, evs, n - 1);
      UptoNext(cfg, start, evs, n - 1);
      UptoInv(cfg, nonce, pool, evs, n - 1);
      ConfirmationStep(cfg, r, evs[n - 1], k);
      if k < |r.ledger.confirmations| {
        i, m := ConfirmationsTraced(cfg, nonce, pool, evs, n - 1, k);
      } else {
        m := n - 1;
        i := MinedTraced(cfg, nonce, pool, evs, n - 1);
      }
    }
  }
}
