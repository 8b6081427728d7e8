/** Where the orchestrator, left alone, can never confirm any more: states no step of its own leads out of. */
module Stranded {
  import opened Options
  import opened ArbitrumLedger
  import opened SettledLedger
  import opened Settlement
  import opened SettlementSafety
  import opened SettlementTheorems
  import opened ProtocolRuns
  import IM = IntentManager

  // ------------------------------------------------------------------ the ways to be stranded

  /** The main task rests, or boot reconciliation looks at the ledger. */
  predicate LookingOnly(pc: Pc) {
    pc.Idle? || pc.Reconciling? || pc.ReceiptRead?
  }

  predicate NoSuccessSeen(pc: Pc) {
    pc.ReceiptRead? ==> pc.receipt != Success
  }

  /** What became of the posting the ledger names. */
  predicate PostingIs(s: State, fate: Fate) {
    && StageIs(s, PostingCollateral) && s.arb.value.collateralTx.Some?
    && s.arb.value.collateralTx.value in s.txs && s.txs[s.arb.value.collateralTx.value].fate == fate
  }

  /** A signature is on record that was never released. */
  predicate Unreleased(s: State) {
    s.pay.Some? && s.released == {} && !s.main.Recorded?
  }

  /** Given up before any payout. */
  predicate Abandoned(s: State) {
    && s.pay.None? && LookingOnly(s.main)
    && (StageIs(s, AwaitingExpirySlash) || StageIs(s, Slashing) || StageIs(s, Slashed))
  }

  /** No collateral is up and the contract takes none any more. */
  ghost predicate Blocked(s: State)
    requires s.history != []
  {
    && Early(s) && (Current(s).solver != ZERO || s.now >= s.expiry) && !PostingIs(s, Succeeded)
    && (LookingOnly(s.main) || s.main.Gated? || s.main.PostSigned? || s.main.PostSent?) && NoSuccessSeen(s.main)
  }

  /** No collateral is up and the gate lets no sequence through any more. */
  predicate TooLate(s: State) {
    && s.now + s.margin >= s.expiry && (NothingPosted(s) || PostingIs(s, Reverted))
    && LookingOnly(s.main) && NoSuccessSeen(s.main)
  }

  /** The posting on record was signed and never broadcast. */
  predicate PostingUnsent(s: State) {
    && PostingIs(s, Signed) && LookingOnly(s.main) && (s.main.ReceiptRead? ==> s.main.receipt == NoReceipt)
  }

  predicate NoConfirmSent(s: State) {
    forall h :: h in s.txs ==> s.txs[h] != Tx(ConfirmTx, Sent)
  }

  /** A confirmation or slash was begun, and no confirmation is on its way. */
  predicate ConfirmUnsent(s: State) {
    && (StageIs(s, Confirming) || StageIs(s, Slashing) || StageIs(s, Slashed)) && LookingOnly(s.main)
    && (forall n :: n in s.aux ==> s.aux[n].Resumable?) && NoConfirmSent(s)
  }

  ghost predicate Stuck(s: State)
    requires s.history != []
  {
    && Current(s).status != IM.Settled
    && (Unreleased(s) || Abandoned(s) || Blocked(s) || TooLate(s) || PostingUnsent(s) || ConfirmUnsent(s))
  }

  // ------------------------------------------------------------------ nobody settles

  lemma UnpaidSignsNothing(s: State)
    requires Inv(s) && (s.released == {} || Early(s) || s.pay.None?)
    ensures !Paid(s) && NoConfirmSent(s)
  {
    forall h | h in s.txs
      ensures s.txs[h] != Tx(ConfirmTx, Sent)
    {
      assert TxOk(s, s.txs[h]);
    }
  }

  lemma StuckSendsNothing(s: State)
    requires Inv(s) && Stuck(s)
    ensures NoConfirmSent(s)
  {
    if !ConfirmUnsent(s) {
      UnpaidSignsNothing(s);
    }
  }

  predicate OnChainOnly(step: Step) {
    step.Mine? || step.OtherParty?
  }

  /** A step of the sequence, of a confirmation, or of the slash poller. */
  predicate Tasks(step: Step) {
    Sequencing(step) || PayingOut(step) || Closing(step) || Slashes(step)
  }

  lemma SequenceLeavesChain(s: State, step: Step)
    requires s.history != [] && Enabled(s, step) && (Sequencing(step) || PayingOut(step))
    ensures Do(s, step).history == s.history
  {
  }

  lemma ClosingLeavesChain(s: State, step: Step)
    requires s.history != [] && Enabled(s, step) && Closing(step)
    ensures Do(s, step).history == s.history
  {
  }

  lemma PassLeavesChain(s: State, step: Step)
    requires s.history != [] && Enabled(s, step) && Slashes(step)
    ensures Do(s, step).history == s.history
  {
  }

  lemma OthersLeaveChain(s: State, step: Step)
    requires s.history != [] && Enabled(s, step) && !OnChainOnly(step)
    ensures Do(s, step).history == s.history
  {
    if Sequencing(step) || PayingOut(step) {
      SequenceLeavesChain(s, step);
    } else if Closing(step) {
      ClosingLeavesChain(s, step);
    } else if Slashes(step) {
      PassLeavesChain(s, step);
    }
  }

  lemma UnsettledStays(s: State, step: Step)
    requires s.history != [] && Enabled(s, step) && !step.OtherParty?
    requires Current(s).status != IM.Settled && NoConfirmSent(s)
    ensures Do(s, step).history != [] && Current(Do(s, step)).status != IM.Settled
  {
    if !step.Mine? {
      OthersLeaveChain(s, step);
    }
  }

  lemma NoneSawSettled(s: State, view: OnChain)
    requires Inv(s) && view in s.history && Current(s).status != IM.Settled
    ensures view.status != IM.Settled
  {
    SeenIsLatched(s, view);
  }

  // ------------------------------------------------------------------ who can still act

  lemma AbandonedActors(s: State, step: Step)
    requires Inv(s) && Abandoned(s) && Enabled(s, step)
    ensures Tasks(step) ==> Slashes(step) || (step.SendTx? && step.slot.Aux?)
  {
    UnpaidSignsNothing(s);
    if Closing(step) {
      assert step.slot.Aux? && step.slot.n in s.aux && AuxPcOk(s, s.aux[step.slot.n]);
    }
  }

  lemma BlockedActors(s: State, step: Step)
    requires Inv(s) && Blocked(s) && Enabled(s, step)
    ensures Tasks(step) ==> Sequencing(step) || step == SendTx(Main)
  {
  }

  lemma TooLateActors(s: State, step: Step)
    requires Inv(s) && TooLate(s) && Enabled(s, step)
    ensures Tasks(step) ==> step == Refuse
  {
  }

  lemma PostingUnsentActors(s: State, step: Step)
    requires Inv(s) && PostingUnsent(s) && Enabled(s, step)
    ensures !Tasks(step)
  {
  }

  lemma ConfirmUnsentActors(s: State, step: Step)
    requires Inv(s) && ConfirmUnsent(s) && Enabled(s, step)
    ensures !Tasks(step)
  {
  }

  // ------------------------------------------------------------------ no step leads out

  lemma UnreleasedInSequencing(s: State, step: Step)
    requires Inv(s) && Enabled(s, step) && Unreleased(s) && Sequencing(step)
    ensures Unreleased(Do(s, step))
  {
  }

  lemma UnreleasedInPayingOut(s: State, step: Step)
    requires Inv(s) && Enabled(s, step) && Unreleased(s) && PayingOut(step)
    ensures Unreleased(Do(s, step))
  {
  }

  lemma UnreleasedInClosing(s: State, step: Step)
    requires Inv(s) && Enabled(s, step) && Unreleased(s) && Closing(step)
    ensures Unreleased(Do(s, step))
  {
  }

  lemma UnreleasedInPass(s: State, step: Step)
    requires Inv(s) && Enabled(s, step) && Unreleased(s) && Slashes(step)
    ensures Unreleased(Do(s, step))
  {
  }

  lemma UnreleasedInResolving(s: State, step: Step)
    requires Inv(s) && Enabled(s, step) && Unreleased(s) && step.ReadStatus?
    ensures Unreleased(Do(s, step))
  {
  }

  lemma UnreleasedInRecovering(s: State, step: Step)
    requires Inv(s) && Enabled(s, step) && Unreleased(s) && Recovering(step) && !step.ReadStatus?
    ensures Unreleased(Do(s, step))
  {
  }

  lemma UnreleasedInWorld(s: State, step: Step)
    requires Inv(s) && Enabled(s, step) && Unreleased(s) && !Recovering(step) && !Tasks(step)
    ensures Unreleased(Do(s, step))
  {
  }

  lemma UnreleasedStays(s: State, step: Step)
    requires Inv(s) && Enabled(s, step) && Unreleased(s)
    ensures Unreleased(Do(s, step))
  {
    if Sequencing(step) {
      UnreleasedInSequencing(s, step);
    } else if PayingOut(step) {
      UnreleasedInPayingOut(s, step);
    } else if Closing(step) {
      UnreleasedInClosing(s, step);
    } else if Slashes(step) {
      UnreleasedInPass(s, step);
    } else if step.ReadStatus? {
      UnreleasedInResolving(s, step);
    } else if Recovering(step) && !step.ReadStatus? {
      UnreleasedInRecovering(s, step);
    } else {
      UnreleasedInWorld(s, step);
    }
  }

  lemma AbandonedInSending(s: State, step: Step)
    requires Inv(s) && Enabled(s, step) && Abandoned(s) && Current(s).status != IM.Settled && step.SendTx? && step.slot.Aux?
    ensures Abandoned(Do(s, step))
  {
  }

  lemma AbandonedInPass(s: State, step: Step)
    requires Inv(s) && Enabled(s, step) && Abandoned(s) && Current(s).status != IM.Settled && Slashes(step)
    ensures Abandoned(Do(s, step))
  {
  }

  lemma AbandonedInResolving(s: State, step: Step)
    requires Inv(s) && Enabled(s, step) && Abandoned(s) && Current(s).status != IM.Settled && step.ReadStatus?
    ensures Abandoned(Do(s, step))
  {
    NoneSawSettled(s, step.view);
  }

  lemma AbandonedInRecovering(s: State, step: Step)
    requires Inv(s) && Enabled(s, step) && Abandoned(s)
    requires Current(s).status != IM.Settled && Recovering(step) && !step.ReadStatus?
    ensures Abandoned(Do(s, step))
  {
  }

  lemma AbandonedInWorld(s: State, step: Step)
    requires Inv(s) && Enabled(s, step) && Abandoned(s) && Current(s).status != IM.Settled && !Recovering(step) && !Tasks(step)
    ensures Abandoned(Do(s, step))
  {
  }

  lemma AbandonedStays(s: State, step: Step)
    requires Inv(s) && Enabled(s, step) && Abandoned(s) && Current(s).status != IM.Settled
    ensures Abandoned(Do(s, step))
  {
    AbandonedActors(s, step);
    if step.SendTx? && step.slot.Aux? {
      AbandonedInSending(s, step);
    } else if Slashes(step) {
      AbandonedInPass(s, step);
    } else if step.ReadStatus? {
      AbandonedInResolving(s, step);
    } else if Recovering(step) && !step.ReadStatus? {
      AbandonedInRecovering(s, step);
    } else {
      AbandonedInWorld(s, step);
    }
  }

  lemma BlockedInSequencing(s: State, step: Step)
    requires Inv(s) && Enabled(s, step) && Blocked(s) && Current(s).status != IM.Settled && Sequencing(step)
    ensures Do(s, step).history != [] && (Blocked(Do(s, step)) || Abandoned(Do(s, step)))
  {
  }

  lemma BlockedInSending(s: State, step: Step)
    requires Inv(s) && Enabled(s, step) && Blocked(s) && Current(s).status != IM.Settled && step == SendTx(Main)
    ensures Do(s, step).history != [] && (Blocked(Do(s, step)) || Abandoned(Do(s, step)))
  {
  }

  lemma BlockedInResolving(s: State, step: Step)
    requires Inv(s) && Enabled(s, step) && Blocked(s) && Current(s).status != IM.Settled && step.ReadStatus?
    ensures Do(s, step).history != [] && (Blocked(Do(s, step)) || Abandoned(Do(s, step)))
  {
    NoneSawSettled(s, step.view);
  }

  lemma BlockedInRecovering(s: State, step: Step)
    requires Inv(s) && Enabled(s, step) && Blocked(s) && Current(s).status != IM.Settled && Recovering(step) && !step.ReadStatus?
    ensures Do(s, step).history != [] && (Blocked(Do(s, step)) || Abandoned(Do(s, step)))
  {
  }

  lemma BlockedInWorld(s: State, step: Step)
    requires Inv(s) && Enabled(s, step) && !step.OtherParty? && Blocked(s)
    requires Current(s).status != IM.Settled && !Recovering(step) && !Tasks(step)
    ensures Do(s, step).history != [] && (Blocked(Do(s, step)) || Abandoned(Do(s, step)))
  {
  }

  lemma BlockedStays(s: State, step: Step)
    requires Inv(s) && Enabled(s, step) && !step.OtherParty? && Blocked(s) && Current(s).status != IM.Settled
    ensures Do(s, step).history != [] && (Blocked(Do(s, step)) || Abandoned(Do(s, step)))
  {
    BlockedActors(s, step);
    if Sequencing(step) {
      BlockedInSequencing(s, step);
    } else if step == SendTx(Main) {
      BlockedInSending(s, step);
    } else if step.ReadStatus? {
      BlockedInResolving(s, step);
    } else if Recovering(step) && !step.ReadStatus? {
      BlockedInRecovering(s, step);
    } else {
      BlockedInWorld(s, step);
    }
  }

  lemma TooLateInRefusing(s: State, step: Step)
    requires Inv(s) && Enabled(s, step) && TooLate(s) && Current(s).status != IM.Settled && step == Refuse
    ensures TooLate(Do(s, step)) || Abandoned(Do(s, step))
  {
  }

  lemma TooLateInResolving(s: State, step: Step)
    requires Inv(s) && Enabled(s, step) && TooLate(s) && Current(s).status != IM.Settled && step.ReadStatus?
    ensures TooLate(Do(s, step)) || Abandoned(Do(s, step))
  {
    NoneSawSettled(s, step.view);
  }

  lemma TooLateInRecovering(s: State, step: Step)
    requires Inv(s) && Enabled(s, step) && TooLate(s) && Current(s).status != IM.Settled && Recovering(step) && !step.ReadStatus?
    ensures TooLate(Do(s, step)) || Abandoned(Do(s, step))
  {
  }

  lemma TooLateInWorld(s: State, step: Step)
    requires Inv(s) && Enabled(s, step) && !step.OtherParty? && TooLate(s)
    requires Current(s).status != IM.Settled && !Recovering(step) && !Tasks(step)
    ensures TooLate(Do(s, step)) || Abandoned(Do(s, step))
  {
  }

  lemma TooLateStays(s: State, step: Step)
    requires Inv(s) && Enabled(s, step) && !step.OtherParty? && TooLate(s) && Current(s).status != IM.Settled
    ensures TooLate(Do(s, step)) || Abandoned(Do(s, step))
  {
    TooLateActors(s, step);
    if step == Refuse {
      TooLateInRefusing(s, step);
    } else if step.ReadStatus? {
      TooLateInResolving(s, step);
    } else if Recovering(step) && !step.ReadStatus? {
      TooLateInRecovering(s, step);
    } else {
      TooLateInWorld(s, step);
    }
  }

  lemma PostingUnsentInResolving(s: State, step: Step)
    requires Inv(s) && Enabled(s, step) && PostingUnsent(s) && Current(s).status != IM.Settled && step.ReadStatus?
    ensures PostingUnsent(Do(s, step)) || Abandoned(Do(s, step))
  {
    NoneSawSettled(s, step.view);
  }

  lemma PostingUnsentInRecovering(s: State, step: Step)
    requires Inv(s) && Enabled(s, step) && PostingUnsent(s)
    requires Current(s).status != IM.Settled && Recovering(step) && !step.ReadStatus?
    ensures PostingUnsent(Do(s, step)) || Abandoned(Do(s, step))
  {
  }

  lemma PostingUnsentInWorld(s: State, step: Step)
    requires Inv(s) && Enabled(s, step) && PostingUnsent(s)
    requires Current(s).status != IM.Settled && !Recovering(step) && !Tasks(step)
    ensures PostingUnsent(Do(s, step)) || Abandoned(Do(s, step))
  {
  }

  lemma PostingUnsentStays(s: State, step: Step)
    requires Inv(s) && Enabled(s, step) && PostingUnsent(s) && Current(s).status != IM.Settled
    ensures PostingUnsent(Do(s, step)) || Abandoned(Do(s, step))
  {
    PostingUnsentActors(s, step);
    if step.ReadStatus? {
      PostingUnsentInResolving(s, step);
    } else if Recovering(step) && !step.ReadStatus? {
      PostingUnsentInRecovering(s, step);
    } else {
      PostingUnsentInWorld(s, step);
    }
  }

  lemma ConfirmUnsentInResolving(s: State, step: Step)
    requires Inv(s) && Enabled(s, step) && ConfirmUnsent(s) && Current(s).status != IM.Settled && step.ReadStatus?
    ensures ConfirmUnsent(Do(s, step))
  {
    NoneSawSettled(s, step.view);
  }

  lemma ConfirmUnsentInRecovering(s: State, step: Step)
    requires Inv(s) && Enabled(s, step) && ConfirmUnsent(s)
    requires Current(s).status != IM.Settled && Recovering(step) && !step.ReadStatus?
    ensures ConfirmUnsent(Do(s, step))
  {
  }

  lemma ConfirmUnsentInWorld(s: State, step: Step)
    requires Inv(s) && Enabled(s, step) && !step.OtherParty? && ConfirmUnsent(s)
    requires Current(s).status != IM.Settled && !Recovering(step) && !Tasks(step)
    ensures ConfirmUnsent(Do(s, step))
  {
  }

  lemma ConfirmUnsentStays(s: State, step: Step)
    requires Inv(s) && Enabled(s, step) && !step.OtherParty? && ConfirmUnsent(s) && Current(s).status != IM.Settled
    ensures ConfirmUnsent(Do(s, step))
  {
    ConfirmUnsentActors(s, step);
    if step.ReadStatus? {
      ConfirmUnsentInResolving(s, step);
    } else if Recovering(step) && !step.ReadStatus? {
      ConfirmUnsentInRecovering(s, step);
    } else {
      ConfirmUnsentInWorld(s, step);
    }
  }

  lemma StuckStays(s: State, step: Step)
    requires Inv(s) && Enabled(s, step) && !step.OtherParty? && Stuck(s)
    ensures Inv(Do(s, step)) && Stuck(Do(s, step))
  {
    StuckSendsNothing(s);
    UnsettledStays(s, step);
    StepKeeps(s, step);
    if Unreleased(s) {
      UnreleasedStays(s, step);
    } else if Abandoned(s) {
      AbandonedStays(s, step);
    } else if Blocked(s) {
      BlockedStays(s, step);
    } else if TooLate(s) {
      TooLateStays(s, step);
    } else if PostingUnsent(s) {
      PostingUnsentStays(s, step);
    } else {
      ConfirmUnsentStays(s, step);
    }
  }

  /** Left alone, a stuck intent is never confirmed, whatever crashes and however the chains answer. */
  lemma {:induction false} StuckForever(s: State, steps: seq<Step>, s': State)
    requires Inv(s) && Stuck(s) && Runs(s, steps, s') && Alone(steps)
    ensures s'.history != [] && Stuck(s') && !StageIs(s', Confirmed)
    decreases |steps|
  {
    if steps != [] {
      StuckStays(s, steps[0]);
      StuckForever(Do(s, steps[0]), steps[1..], s');
    }
  }
}
