/** After a crash: exactly when the orchestrator, nobody else helping, can still bring an intent to its
    confirmation. */
module Recovery {
  import opened Options
  import opened ArbitrumLedger
  import opened SettledLedger
  import opened Settlement
  import opened SettlementSafety
  import opened SettlementTheorems
  import opened SettlementProgress
  import opened ProtocolRuns
  import opened Stranded
  import ConfirmRetry
  import TaskRuns
  import Poller = SlashPoller
  import IM = IntentManager

  /** As every crash leaves it. */
  predicate AtRest(s: State) {
    s.main.Idle? && s.aux == map[]
  }

  ghost predicate CanConfirm(s: State) {
    exists s' :: LeadsAlone(s, s') && StageIs(s', Confirmed)
  }

  /** The contract takes a collateral and the gate lets a sequence through. */
  predicate GateOpen(s: State)
    requires s.history != []
  {
    Current(s).solver == ZERO && s.now + s.margin < s.expiry
  }

  predicate ConfirmOnItsWay(s: State) {
    exists h :: h in s.txs && s.txs[h] == Tx(ConfirmTx, Sent)
  }

  predicate PostingRecoverable(s: State, e: Entry)
    requires s.history != []
  {
    && e.collateralTx.Some? && e.collateralTx.value in s.txs
    && match s.txs[e.collateralTx.value].fate
       case Signed => false
       case Sent => Current(s).solver == ZERO && s.now < s.expiry
       case Succeeded => true
       case Reverted => GateOpen(s)
  }

  /** Seen on the ledgers, the clock and the chains, before anything is tried. */
  predicate Recoverable(s: State)
    requires s.history != []
  {
    Current(s).status == IM.Pending &&
    match s.arb
    case None => GateOpen(s)
    case Some(e) =>
      match e.stage
      case CollateralFailed => GateOpen(s)
      case PostingCollateral => PostingRecoverable(s, e)
      case CollateralPosted => s.pay.None? || s.released != {}
      case AwaitingExpirySlash => s.released != {}
      case _ => ConfirmOnItsWay(s)
  }

  /** An intent not settled on chain, whatever crash left it there: it can still be confirmed if and only if it
      is recoverable. Stranded are a posting or confirmation signed and never broadcast, a payout signature
      recorded and never released, an intent given up before any payout, and one with no collateral for which
      it is too late or which has a solver already. */
  lemma RecoverableExactly(s: State)
    requires Reachable(s) && AtRest(s) && s.history != [] && Current(s).status != IM.Settled
    ensures CanConfirm(s) <==> Recoverable(s)
  {
    ReachableHolds(s);
    if Recoverable(s) {
      Recovers(s);
    } else if Current(s).status != IM.Pending {
      forall s' | LeadsAlone(s, s')
        ensures !StageIs(s', Confirmed)
      {
        EndedStaysEnded(s, s');
      }
    } else {
      NotRecoverableIsStuck(s);
      forall s' | LeadsAlone(s, s')
        ensures !StageIs(s', Confirmed)
      {
        var steps :| Runs(s, steps, s') && Alone(steps);
        StuckForever(s, steps, s');
      }
    }
  }

  /** An intent somebody settled while the orchestrator was down is noticed at boot. */
  lemma SettledIsNoticed(s: State)
    requires Inv(s) && s.main.Idle? && s.arb.Some? && s.arb.value.stage in MID_SEQUENCE && Current(s).status == IM.Settled
    ensures CanConfirm(s)
  {
    Stay(s);
    BootRuns(s, s, NoReceipt);
  }

  /** In particular a crash between signing and broadcasting strands the intent: the ledger names a transaction
      that nobody will ever send, and boot only asks for a review. */
  lemma CrashBeforeBroadcastStrands(s: State)
    requires Reachable(s) && s.history != [] && Current(s).status == IM.Pending
    requires || (s.main.PostSigned? && PostingIs(s, Signed))
             || (s.main.ConfirmSigned? && StageIs(s, Confirming) && NoConfirmSent(s))
    ensures Enabled(s, Crash) && !CanConfirm(Do(s, Crash))
  {
    ReachableHolds(s);
    CrashKeeps(s);
    var s1 := Do(s, Crash);
    NotRecoverableIsStuck(s1);
    forall s' | LeadsAlone(s1, s')
      ensures !StageIs(s', Confirmed)
    {
      var steps :| Runs(s1, steps, s') && Alone(steps);
      StuckForever(s1, steps, s');
    }
  }

  // ------------------------------------------------------------------ no way

  lemma EndedStaysEnded(s: State, s': State)
    requires Inv(s) && LeadsAlone(s, s') && Current(s).status !in {IM.Pending, IM.Settled}
    ensures !StageIs(s', Confirmed)
  {
    var steps :| Runs(s, steps, s');
    RunKeeps(s, steps, s');
  }

  lemma NotRecoverableIsStuck(s: State)
    requires Inv(s) && AtRest(s) && Current(s).status == IM.Pending && !Recoverable(s)
    ensures Stuck(s)
  {
  }

  // ------------------------------------------------------------------ boot

  /** What boot's reconciliation makes of the ledger, given that receipt and a fresh read. */
  function Booted(s: State, receipt: Receipt): State
    requires s.history != [] && s.arb.Some?
  {
    Resolve(s.(main := ReceiptRead(s.arb.value, receipt)), Current(s))
  }

  /** Boot believes the chain before the receipt, and the receipt only about a posting; anything else it leaves
      for a review, sending nothing again. */
  lemma BootResolves(s: State, receipt: Receipt)
    requires s.history != [] && s.main.Idle? && s.arb.Some?
    ensures var (e, s', status) := (s.arb.value, Booted(s, receipt), Current(s).status);
            && s' == s.(arb := s'.arb) && s'.arb.Some?
            && s'.arb.value.stage ==
                 (if status == IM.Settled then Confirmed
                  else if status == IM.Slashed then Slashed
                  else if status == IM.Refunded || e.stage != PostingCollateral || receipt == NoReceipt then e.stage
                  else if receipt == Success then CollateralPosted else CollateralFailed)
            && s'.arb.value.solver == e.solver && s'.arb.value.expiry == e.expiry
            && s'.arb.value.confirmTx == (if status != IM.Settled || e.confirmTx.Some? || e.stage == Confirming then e.confirmTx
                                          else if e.stage == PostingCollateral then e.collateralTx else e.slashTx)
            && s'.arb.value.slashTx == (if status != IM.Slashed || e.slashTx.Some? then e.slashTx
                                        else if e.stage == PostingCollateral then e.collateralTx
                                        else if e.stage == Confirming then e.confirmTx else e.slashTx)
            && (e.stage == PostingCollateral ==> s'.arb.value.collateralTx == e.collateralTx)
  {
  }

  /** The receipt boot asks for is that of the transaction the stage is about. */
  lemma BootAsksAbout(s: State, e: Entry)
    requires s.history != [] && s.main == Reconciling(e) && e.stage in MID_SEQUENCE
    ensures var hash := if e.stage == PostingCollateral then e.collateralTx
                        else if e.stage == Confirming then e.confirmTx else e.slashTx;
            && (Enabled(s, ReadReceipt(Success)) <==> hash.Some? && hash.value in s.txs && s.txs[hash.value].fate == Succeeded)
            && (Enabled(s, ReadReceipt(Failure)) <==> hash.Some? && hash.value in s.txs && s.txs[hash.value].fate == Reverted)
  {
  }

  lemma BootRuns(s0: State, s: State, receipt: Receipt)
    requires LeadsAlone(s0, s) && s.history != [] && s.main.Idle? && s.arb.Some? && s.arb.value.stage in MID_SEQUENCE
    requires ReceiptOf(s, ReconcileHash(s.arb.value), receipt)
    ensures LeadsAlone(s0, Booted(s, receipt))
  {
    var s1 := s.(main := Reconciling(s.arb.value));
    Take(s0, s, StartReconcile, s1);
    var s2 := s.(main := ReceiptRead(s.arb.value, receipt));
    Take(s0, s1, ReadReceipt(receipt), s2);
    assert Current(s) in s2.history;
    Take(s0, s2, ReadStatus(Current(s)), Booted(s, receipt));
  }

  // ------------------------------------------------------------------ from each stage

  /** From the gate: post, pay, confirm. */
  lemma RecoversFromGate(s0: State, s: State)
    requires LeadsAlone(s0, s) && Inv(s) && Startable(s) && Current(s).status == IM.Pending && GateOpen(s)
    ensures CanConfirm(s0)
  {
    Posts(s, 1);
    var b :| PostedAndPaying(s, b, 1);
    LeadsOn(s0, s, b);
    PaysAndConfirms(s0, b, 1, 0);
  }

  /** From collateral_posted with no payout begun: check the chain, pay, confirm. */
  lemma RecoversUnpaid(s0: State, s: State)
    requires LeadsAlone(s0, s) && Inv(s) && s.main.Idle? && Current(s).status == IM.Pending
    requires StageIs(s, CollateralPosted) && s.pay.None?
    ensures CanConfirm(s0)
  {
    var solver := Current(s).solver;
    var s1 := s.(main := Verifying(solver));
    Take(s0, s, Resume, s1);
    assert Current(s) in s1.history;
    var s2 := s.(main := Paying(solver));
    Take(s0, s1, Verify(Current(s)), s2);
    PaysAndConfirms(s0, s2, solver, 0);
  }

  /** The payout was released: it may land. */
  lemma PayoutLands(s: State)
    requires Inv(s) && s.released != {}
    ensures s.pay.Some? && SigOf(s.pay.value).Some?
    ensures var s' := s.(landed := s.landed + {SigOf(s.pay.value).value});
            LeadsAlone(s, s') && Inv(s') && PayoutLanded(s')
  {
    OnlyRecorded(s);
    var sig := SigOf(s.pay.value).value;
    Stay(s);
    Take(s, s, Land(sig), Do(s, Land(sig)));
    LandKeeps(s, sig);
  }

  /** From collateral_posted with the payout landed: settle the record if need be, resume, confirm. */
  lemma RecoversSettled(s0: State, s: State)
    requires LeadsAlone(s0, s) && Inv(s) && AtRest(s) && Current(s).status == IM.Pending
    requires StageIs(s, CollateralPosted) && IsSettled(s)
    ensures CanConfirm(s0)
  {
    var s1 := s.(main := ConfirmLoop);
    Take(s0, s, Resume, s1);
    Confirms(s0, s1, Main);
  }

  lemma RecoversSettling(s0: State, s: State)
    requires LeadsAlone(s0, s) && Inv(s) && AtRest(s) && Current(s).status == IM.Pending
    requires StageIs(s, CollateralPosted) && PayoutLanded(s) && !IsSettled(s)
    ensures CanConfirm(s0)
  {
    var s1 := ReconciledPayout(s, 0);
    Take(s0, s, ReconcilePayout(0), s1);
    var s2 := ResumedPayout(s1, 0);
    Take(s0, s1, ResumeSettled(0), s2);
    Confirms(s0, s2, Aux(0));
  }

  /** From awaiting_expiry_slash with the payout landed: the poller finds it and confirms instead of slashing. */
  lemma RecoversAwaiting(s0: State, s: State)
    requires LeadsAlone(s0, s) && Inv(s) && AtRest(s) && Current(s).status == IM.Pending
    requires StageIs(s, AwaitingExpirySlash) && PayoutLanded(s)
    ensures CanConfirm(s0)
  {
    var late := s.(now := s.now + s.expiry);
    Take(s0, s, Tick(s.expiry), late);
    var plan := ConfirmRetry.Plan(0, 0, 0, [], _ => ConfirmRetry.Attempt(0, None, 0, ConfirmRetry.Failed(None)));
    var turn := Poller.Turn(late.now, Landed, true, true, plan, ConfirmRetry.Failed(None));
    TaskRuns.CheckFindsDelivery(late, 0, turn);
    LeadsOn(s0, late, TaskRuns.Averted(late, 0));
    Confirms(s0, TaskRuns.Averted(late, 0), Aux(0));
  }

  /** From posting_collateral: the posting succeeded, and boot finds out. */
  lemma RecoversPosted(s0: State, s: State)
    requires LeadsAlone(s0, s) && Inv(s) && AtRest(s) && Current(s).status == IM.Pending && PostingIs(s, Succeeded)
    ensures CanConfirm(s0)
  {
    BootRuns(s0, s, Success);
    var s' := Booted(s, Success);
    BootKeeps(s, Success);
    RecoversUnpaid(s0, s');
  }

  lemma BootKeeps(s: State, receipt: Receipt)
    requires Inv(s) && s.main.Idle? && s.arb.Some? && s.arb.value.stage in MID_SEQUENCE
    requires ReceiptOf(s, ReconcileHash(s.arb.value), receipt)
    ensures Inv(Booted(s, receipt))
  {
    var s1 := s.(main := Reconciling(s.arb.value));
    StartReconcileKeeps(s);
    ReceiptKeeps(s1, receipt);
    ResolveKeeps(s.(main := ReceiptRead(s.arb.value, receipt)), Current(s));
  }

  /** The posting is still on its way: it may be mined. */
  lemma RecoversSent(s: State)
    requires Inv(s) && AtRest(s) && Current(s) == OnChain(IM.Pending, ZERO) && s.now < s.expiry && PostingIs(s, Sent)
    ensures CanConfirm(s)
  {
    var h := s.arb.value.collateralTx.value;
    var s' := Do(s, Mine(h, true));
    Stay(s);
    Take(s, s, Mine(h, true), s');
    MineKeeps(s, h, true);
    RecoversPosted(s, s');
  }

  /** The posting reverted: boot finds out, and the intent may be dispatched again. */
  lemma RecoversReverted(s: State)
    requires Inv(s) && AtRest(s) && Current(s).status == IM.Pending && GateOpen(s) && PostingIs(s, Reverted)
    ensures CanConfirm(s)
  {
    Stay(s);
    BootRuns(s, s, Failure);
    BootKeeps(s, Failure);
    RecoversFromGate(s, Booted(s, Failure));
  }

  /** A confirmation is on its way: it may be mined, and boot finds the intent settled. */
  lemma RecoversConfirming(s: State)
    requires Inv(s) && AtRest(s) && Current(s).status == IM.Pending && ConfirmOnItsWay(s)
    requires StageIs(s, Confirming) || StageIs(s, Slashing)
    ensures CanConfirm(s)
  {
    var h :| h in s.txs && s.txs[h] == Tx(ConfirmTx, Sent);
    var s' := Do(s, Mine(h, true));
    Stay(s);
    Take(s, s, Mine(h, true), s');
    BootRuns(s, s', NoReceipt);
  }

  lemma RecoversReleased(s: State)
    requires Inv(s) && AtRest(s) && Current(s).status == IM.Pending && s.released != {}
    requires StageIs(s, CollateralPosted) || StageIs(s, AwaitingExpirySlash)
    ensures CanConfirm(s)
  {
    PayoutLands(s);
    var s' := s.(landed := s.landed + {SigOf(s.pay.value).value});
    if StageIs(s, CollateralPosted) {
      if IsSettled(s') {
        RecoversSettled(s, s');
      } else {
        RecoversSettling(s, s');
      }
    } else {
      RecoversAwaiting(s, s');
    }
  }

  lemma RecoversPosting(s: State)
    requires Inv(s) && AtRest(s) && Current(s).status == IM.Pending
    requires StageIs(s, PostingCollateral) && PostingRecoverable(s, s.arb.value)
    ensures CanConfirm(s)
  {
    Stay(s);
    match s.txs[s.arb.value.collateralTx.value].fate
    case Sent => RecoversSent(s);
    case Succeeded => RecoversPosted(s, s);
    case Reverted => RecoversReverted(s);
    case Signed => assert false;
  }

  lemma Recovers(s: State)
    requires Inv(s) && AtRest(s) && Recoverable(s)
    ensures CanConfirm(s)
  {
    Stay(s);
    if s.arb.None? || s.arb.value.stage == CollateralFailed {
      RecoversFromGate(s, s);
    } else {
      match s.arb.value.stage
      case PostingCollateral => RecoversPosting(s);
      case CollateralPosted =>
        if s.pay.None? {
          RecoversUnpaid(s, s);
        } else {
          RecoversReleased(s);
        }
      case AwaitingExpirySlash => RecoversReleased(s);
      case _ => RecoversConfirming(s);
    }
  }
}
