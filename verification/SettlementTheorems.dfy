/** The promises of the settlement protocol, for every run from an initial state. */
module SettlementTheorems {
  import opened Options
  import opened ArbitrumLedger
  import opened SettledLedger
  import opened Settlement
  import opened SettlementSafety
  import IM = IntentManager
  import Safety = IntentManagerSafety
  import IMRuns = IntentManagerRuns

  ghost predicate Reachable(s: State) {
    exists s0, steps :: Initial(s0) && Runs(s0, steps, s)
  }

  lemma ReachableHolds(s: State)
    requires Reachable(s)
    ensures Inv(s)
  {
    var s0, steps :| Initial(s0) && Runs(s0, steps, s);
    InitialHolds(s0);
    RunKeeps(s0, steps, s);
  }

  /** Whatever the ledger claims is true of the chain at that moment, not merely of some stale read. */
  lemma StageImpliesChainFact(s: State)
    requires Reachable(s)
    ensures s.history != []
    ensures StageIs(s, Confirmed) ==> Current(s).status == IM.Settled
    ensures StageIs(s, Slashed) ==> Current(s).status == IM.Slashed
    ensures StageIs(s, CollateralPosted) || StageIs(s, AwaitingExpirySlash) || StageIs(s, Confirming) || StageIs(s, Slashing)
            ==> Current(s).solver != ZERO
  {
    ReachableHolds(s);
  }

  /** Over every run, crashes at any point included, at most one payout signature is ever released for
      broadcast, it is the one durably recorded, and the record never changes afterwards. */
  lemma AtMostOnePayout(s: State, steps: seq<Step>, s': State)
    requires Reachable(s) && Runs(s, steps, s')
    ensures |s'.released| <= 1 && s'.landed <= s'.released
    ensures forall sig :: sig in s'.released ==> s'.pay.Some? && SigOf(s'.pay.value) == Some(sig)
    ensures s.pay.Some? ==> s'.pay.Some? && SigOf(s'.pay.value) == SigOf(s.pay.value)
    ensures s.released != {} ==> s'.released == s.released
  {
    ReachableHolds(s);
    RunKeeps(s, steps, s');
    OnlyRecorded(s');
    if s.released != {} {
      OnlyRecorded(s);
    }
  }

  lemma OnlyRecorded(s: State)
    requires Inv(s)
    ensures |s.released| <= 1
    ensures s.released != {} ==> s.pay.Some? && SigOf(s.pay.value).Some? && s.released == {SigOf(s.pay.value).value}
  {
    if s.released != {} {
      var sig :| sig in s.released;
      assert s.released == {sig};
    }
  }

  /** No one is paid before a solver's collateral is on chain, and confirmSettlement is never even signed
      unless the payout has landed. */
  lemma PaidBeforeConfirmed(s: State)
    requires Reachable(s)
    ensures s.history != []
    ensures s.released != {} ==> Current(s).solver != ZERO
    ensures forall h :: h in s.txs && s.txs[h].kind == ConfirmTx ==> IsSettled(s) && PayoutLanded(s)
    ensures IsSettled(s) ==> PayoutLanded(s)
  {
    ReachableHolds(s);
  }

  /** A crash between signing and receipt loses nothing: the ledger names the transaction in flight, and
      boot reconciliation will find it. */
  lemma InFlightPostSurvivesCrash(s: State)
    requires Reachable(s) && (s.main.PostSigned? || s.main.PostSent?)
    ensures var s' := s.(main := Idle, aux := map[]);
            && StageIs(s', PostingCollateral) && s'.arb.value.collateralTx == Some(s.main.hash)
            && s'.arb.value.solver == Some(s.main.solver) && s.history != [] && Enabled(s', StartReconcile)
  {
    ReachableHolds(s);
  }

  // ------------------------------------------------------------------ slashing

  /** The payout has landed and no pass is past its own check. */
  ghost predicate Spared(s: State) {
    PayoutLanded(s) && forall n :: n in s.aux ==> !s.aux[n].SlashReady?
  }

  ghost predicate NoNewSlash(s: State, s': State) {
    forall h :: h in s'.txs && s'.txs[h].kind == SlashTx ==> h in s.txs && s.txs[h].kind == SlashTx
  }

  /** No pass newly passes its check, no slash is newly signed. */
  ghost predicate Harmless(s: State, s': State) {
    && NoNewSlash(s, s')
    && forall n :: n in s'.aux && s'.aux[n].SlashReady? ==> n in s.aux && s.aux[n].SlashReady?
  }

  lemma HarmlessSpares(s: State, s': State)
    requires Grows(s, s') && Spared(s) && Harmless(s, s')
    ensures Spared(s')
  {
  }

  lemma GotoIsHarmless(s: State, s1: State, slot: Slot, pc: Pc)
    requires NoNewSlash(s, s1) && s1.aux == s.aux && !pc.SlashReady?
    ensures Harmless(s, Goto(s1, slot, pc))
  {
  }

  lemma SendIsHarmless(s: State, slot: Slot)
    ensures Harmless(s, SendFrom(s, slot))
  {
    match PcAt(s, slot)
    case PostSigned(solver, h) => GotoIsHarmless(s, MarkSent(s, h), slot, PostSent(solver, h));
    case ConfirmSigned(h) => GotoIsHarmless(s, MarkSent(s, h), slot, ConfirmSent(h));
    case SlashSigned(h) => GotoIsHarmless(s, MarkSent(s, h), slot, SlashSent(h));
    case _ =>
  }

  lemma ReadIsHarmless(s: State, slot: Slot, view: OnChain)
    ensures Harmless(s, BeforeConfirm(s, slot, view))
  {
    var patch := NO_PATCH.(expiry := Put(Some(s.expiry)));
    GotoIsHarmless(s, SetStage(s, Confirmed, patch), slot, Idle);
    GotoIsHarmless(s, s, slot, Idle);
    GotoIsHarmless(s, s, slot, ConfirmReady);
  }

  lemma SignConfirmIsHarmless(s: State, slot: Slot, h: TxHash)
    requires s.history != [] && Enabled(s, SignConfirm(slot, h))
    ensures Harmless(s, Do(s, SignConfirm(slot, h)))
  {
    var patch := NO_PATCH.(confirmTx := Put(Some(h)), expiry := Put(Some(s.expiry)));
    GotoIsHarmless(s, SetStage(Sign(s, h, ConfirmTx), Confirming, patch), slot, ConfirmSigned(h));
  }

  lemma ConfirmDoneIsHarmless(s: State, slot: Slot, ok: bool, retry: bool)
    ensures Harmless(s, FinishConfirm(s, slot, ok, retry))
  {
    GotoIsHarmless(s, s, slot, if retry then ConfirmLoop else Idle);
    if ok && PcAt(s, slot).ConfirmSent? {
      var patch := NO_PATCH.(confirmTx := Put(Some(PcAt(s, slot).hash)), expiry := Put(Some(s.expiry)));
      GotoIsHarmless(s, SetStage(s, Confirmed, patch), slot, Idle);
    }
  }

  lemma ClosingIsHarmless(s: State, step: Step)
    requires s.history != [] && Enabled(s, step) && Closing(step)
    ensures Harmless(s, Do(s, step))
  {
    match step
    case SendTx(slot) => SendIsHarmless(s, slot);
    case ReadBeforeConfirm(slot, view) => ReadIsHarmless(s, slot, view);
    case SignConfirm(slot, h) => SignConfirmIsHarmless(s, slot, h);
    case ConfirmDone(slot, ok, retry) => ConfirmDoneIsHarmless(s, slot, ok, retry);
  }

  lemma CheckIsHarmless(s: State, n: nat)
    requires PayoutLanded(s) && PcAt(s, Aux(n)).PassStarted?
    ensures Harmless(s, CheckedPayout(s, n))
  {
    GotoIsHarmless(s, s, Aux(n), ConfirmLoop);
    GotoIsHarmless(s, s.(pay := Some(MarkedSettled(s.pay))), Aux(n), ConfirmLoop);
  }

  lemma SlashDoneIsHarmless(s: State, n: nat, ok: bool)
    ensures Harmless(s, FinishSlash(s, n, ok))
  {
    GotoIsHarmless(s, s, Aux(n), Idle);
    if ok && PcAt(s, Aux(n)).SlashSent? {
      GotoIsHarmless(s, SetStage(s, Slashed, NO_PATCH.(slashTx := Put(Some(PcAt(s, Aux(n)).hash)))), Aux(n), Idle);
    }
  }

  /** A pass that begins once the payout has landed goes to confirmation instead. */
  lemma PassIsHarmless(s: State, step: Step)
    requires Inv(s) && Enabled(s, step) && Spared(s) && Slashes(step)
    ensures Harmless(s, Do(s, step))
  {
    match step
    case ListForSlash(n) => GotoIsHarmless(s, s, Aux(n), Listed(s.expiry));
    case StartPass(n) => GotoIsHarmless(s, s, Aux(n), PassStarted);
    case CheckPayout(n) => CheckIsHarmless(s, n);
    case SlashDone(n, ok) => SlashDoneIsHarmless(s, n, ok);
    case SignSlash(n, h) =>
  }

  lemma WorldIsHarmless(s: State, step: Step)
    requires s.history != [] && Enabled(s, step) && !Slashes(step) && !Closing(step) && !Recovering(step)
    requires !Sequencing(step) && !PayingOut(step)
    ensures Harmless(s, Do(s, step))
  {
    match step
    case Mine(h, accepted) =>
    case Throw(slot) => GotoIsHarmless(s, s, slot, Idle);
    case _ =>
  }

  lemma SequencingIsHarmless(s: State, step: Step)
    requires s.history != [] && Enabled(s, step) && Sequencing(step)
    ensures Harmless(s, Do(s, step))
  {
    match step
    case SignPost(h) =>
    case PostDone(ok, reported) =>
    case _ =>
  }

  lemma PayingOutIsHarmless(s: State, step: Step)
    requires s.history != [] && Enabled(s, step) && PayingOut(step)
    ensures Harmless(s, Do(s, step))
  {
    match step
    case Attempt(c) =>
    case ReleaseChild =>
    case _ =>
  }

  lemma RecoveringIsHarmless(s: State, step: Step)
    requires s.history != [] && Enabled(s, step) && Recovering(step)
    ensures Harmless(s, Do(s, step))
  {
    match step
    case ReconcilePayout(n) => GotoIsHarmless(s, s.(pay := Some(MarkedSettled(s.pay))), Aux(n), Resumable);
    case ResumeSettled(n) => GotoIsHarmless(s, s, Aux(n), if StageIs(s, CollateralPosted) then ConfirmLoop else Idle);
    case ReadStatus(view) => ResolveIsHarmless(s, view);
    case Resume =>
    case StartReconcile =>
    case ReadReceipt(_) =>
  }

  lemma ResolveIsHarmless(s: State, view: OnChain)
    requires s.main.ReceiptRead?
    ensures Harmless(s, Resolve(s, view))
  {
  }

  lemma OtherStepIsHarmless(s: State, step: Step)
    requires s.history != [] && Enabled(s, step) && !Slashes(step)
    ensures Harmless(s, Do(s, step))
  {
    if Closing(step) {
      ClosingIsHarmless(s, step);
    } else if Recovering(step) {
      RecoveringIsHarmless(s, step);
    } else if Sequencing(step) {
      SequencingIsHarmless(s, step);
    } else if PayingOut(step) {
      PayingOutIsHarmless(s, step);
    } else {
      WorldIsHarmless(s, step);
    }
  }

  lemma StepSpares(s: State, step: Step)
    requires Inv(s) && Enabled(s, step) && Spared(s)
    ensures Harmless(s, Do(s, step)) && Spared(Do(s, step))
  {
    StepKeeps(s, step);
    if Slashes(step) {
      PassIsHarmless(s, step);
    } else {
      OtherStepIsHarmless(s, step);
    }
    HarmlessSpares(s, Do(s, step));
  }

  /** A solver who delivered is safe: once the payout has landed and any pass already past its check is done,
      no later run signs another slash, however the pollers overlap and whatever crashes. */
  lemma {:induction false} DeliveredIsNeverSlashed(s: State, steps: seq<Step>, s': State)
    requires Inv(s) && Spared(s) && Runs(s, steps, s')
    ensures NoNewSlash(s, s') && Spared(s')
    decreases |steps|
  {
    if steps != [] {
      var mid := Do(s, steps[0]);
      StepKeeps(s, steps[0]);
      StepSpares(s, steps[0]);
      DeliveredIsNeverSlashed(mid, steps[1..], s');
    }
  }

  // ------------------------------------------------------------------ what a slash was signed on

  /** From s on, through all of steps, pass n stands past its check and has not signed yet. */
  ghost predicate StaysReady(s: State, steps: seq<Step>, n: nat)
    decreases |steps|
  {
    && PcAt(s, Aux(n)).SlashReady?
    && (steps != [] ==> s.history != [] && Enabled(s, steps[0]) && StaysReady(Do(s, steps[0]), steps[1..], n))
  }

  /** Step i of the run is the check that pass n still stands on, and at that moment the expiry had passed
      while the payout was neither settled nor landed. */
  ghost predicate CheckedAt(s: State, steps: seq<Step>, n: nat, i: nat, mid: State) {
    && i < |steps| && steps[i] == CheckPayout(n) && Runs(s, steps[..i], mid)
    && mid.history != [] && Enabled(mid, steps[i])
    && mid.now >= mid.expiry && !IsSettled(mid) && !PayoutLanded(mid)
    && StaysReady(Do(mid, steps[i]), steps[i + 1..], n)
  }

  /** Pass n becomes ready only by its own check finding, once due, nothing settled and nothing landed. */
  ghost predicate ReadiedByCheck(s: State, s': State, step: Step, n: nat) {
    PcAt(s', Aux(n)).SlashReady? ==>
      || PcAt(s, Aux(n)).SlashReady?
      || (step == CheckPayout(n) && s.now >= s.expiry && !IsSettled(s) && !PayoutLanded(s))
  }

  lemma OnlyTheCheckReadies(s: State, step: Step, n: nat)
    requires Inv(s) && Enabled(s, step)
    ensures ReadiedByCheck(s, Do(s, step), step, n)
  {
    if Slashes(step) {
      PassReadies(s, step, n);
    } else {
      OtherStepIsHarmless(s, step);
      HarmlessReadiesNobody(s, Do(s, step), step, n);
    }
  }

  lemma HarmlessReadiesNobody(s: State, s': State, step: Step, n: nat)
    requires Harmless(s, s')
    ensures ReadiedByCheck(s, s', step, n)
  {
  }

  lemma PassReadies(s: State, step: Step, n: nat)
    requires Inv(s) && Enabled(s, step) && Slashes(step)
    ensures ReadiedByCheck(s, Do(s, step), step, n)
  {
    match step
    case CheckPayout(m) => CheckReadies(s, m, n);
    case SlashDone(m, ok) => SlashDoneIsHarmless(s, m, ok);
    case _ =>
  }

  lemma CheckReadies(s: State, m: nat, n: nat)
    requires Inv(s) && PcAt(s, Aux(m)).PassStarted?
    ensures ReadiedByCheck(s, CheckedPayout(s, m), CheckPayout(m), n)
  {
    assert AuxPcOk(s, s.aux[m]);
  }

  lemma CheckedLater(s: State, steps: seq<Step>, n: nat, i: nat, mid: State)
    requires steps != [] && s.history != [] && Enabled(s, steps[0])
    requires CheckedAt(Do(s, steps[0]), steps[1..], n, i, mid)
    ensures CheckedAt(s, steps, n, i + 1, mid)
  {
    var rest := steps[1..];
    assert steps[..i + 1][0] == steps[0] && steps[..i + 1][1..] == rest[..i];
    assert steps[i + 2..] == rest[i + 1..];
  }

  lemma {:induction false} ReadyIsChecked(s: State, steps: seq<Step>, s': State, n: nat)
    requires Inv(s) && Runs(s, steps, s') && PcAt(s', Aux(n)).SlashReady?
    ensures StaysReady(s, steps, n) || exists i, mid :: CheckedAt(s, steps, n, i, mid)
    decreases |steps|
  {
    if steps != [] {
      var (next, rest) := (Do(s, steps[0]), steps[1..]);
      StepKeeps(s, steps[0]);
      ReadyIsChecked(next, rest, s', n);
      if StaysReady(next, rest, n) {
        if !PcAt(s, Aux(n)).SlashReady? {
          OnlyTheCheckReadies(s, steps[0], n);
          assert CheckedAt(s, steps, n, 0, s);
        }
      } else {
        var i: nat, mid :| CheckedAt(next, rest, n, i, mid);
        CheckedLater(s, steps, n, i, mid);
      }
    }
  }

  /** Whenever a slash is signed the recorded expiry has passed, and the same pass has checked, after the
      expiry, that the payout was neither settled nor landed. */
  lemma SlashIsDue(s: State, steps: seq<Step>, s': State, n: nat, h: TxHash)
    requires Initial(s) && Runs(s, steps, s') && s'.history != [] && Enabled(s', SignSlash(n, h))
    ensures s'.now >= s'.expiry && Current(s').solver != ZERO
    ensures exists i, mid :: CheckedAt(s, steps, n, i, mid)
  {
    InitialHolds(s);
    RunKeeps(s, steps, s');
    assert AuxPcOk(s', s'.aux[n]);
    ReadyIsChecked(s, steps, s', n);
  }

  /** In particular after any restart. */
  lemma RestartSpares(s: State, steps: seq<Step>, s': State)
    requires Reachable(s) && PayoutLanded(s) && s.history != [] && Runs(Do(s, Crash), steps, s')
    ensures NoNewSlash(s, s')
  {
    ReachableHolds(s);
    CrashKeeps(s);
    DeliveredIsNeverSlashed(Do(s, Crash), steps, s');
  }

  // ------------------------------------------------------------------ the chain is the contract

  ghost function ViewOf(s: IM.State, id: IM.IntentId): OnChain
    requires id in s.intents
  {
    OnChain(s.intents[id].status, s.intents[id].solver)
  }

  /** Every transaction and every tick of IntentManager moves an intent's view as the protocol assumes. */
  lemma ContractMoves(s: IM.State, e: IM.Event, id: IM.IntentId)
    requires Safety.Inv(s) && id in s.intents
    ensures id in IM.Step(s, e).intents
    ensures ContractMove(ViewOf(s, id), ViewOf(IM.Step(s, e), id), s.now, s.intents[id].expiry)
    ensures ViewOf(s, id).status != IM.Pending && ViewOf(s, id).solver == ZERO ==> s.now >= s.intents[id].expiry
  {
    IMRuns.StepEvolves(s, e);
  }

  /** The three calls the orchestrator makes succeed only under the checks assumed of them, with the effect assumed. */
  lemma ContractAcceptsAsAssumed(s: IM.State, tx: IM.Tx, id: IM.IntentId)
    requires Safety.Inv(s) && id in s.intents && IM.Apply(s, tx).Some?
    requires tx.call.PostCollateral? || tx.call.ConfirmSettlement? || tx.call.SlashSolver?
    requires tx.call.id == id
    ensures var (s', v) := (IM.Apply(s, tx).value, ViewOf(s, id));
            var kind := if tx.call.PostCollateral? then PostTx(tx.sender)
                        else if tx.call.ConfirmSettlement? then ConfirmTx else SlashTx;
            && id in s'.intents && ViewOf(s', id) == AfterSuccess(v, kind)
            && (kind.PostTx? ==> v.solver == ZERO && s.now < s.intents[id].expiry)
            && (!kind.PostTx? ==> v.status == IM.Pending && v.solver != ZERO)
            && (kind == SlashTx ==> s.now >= s.intents[id].expiry)
  {
    match tx.call
    case PostCollateral(_) => IMRuns.PostSetsSolver(s, tx);
    case ConfirmSettlement(_, _, _, _) => Safety.ConfirmEffect(s, tx);
    case SlashSolver(_, release) => Safety.ForfeitEffect(s, id, IM.Slashed, release);
  }
}
