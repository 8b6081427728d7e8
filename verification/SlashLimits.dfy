/** How far the promise goes that a payout which landed is never punished. */
module SlashLimits {
  import opened Options
  import opened ArbitrumLedger
  import opened SettledLedger
  import opened Settlement
  import opened SettlementSafety
  import opened SettlementTheorems
  import opened SettlementProgress
  import opened ProtocolRuns
  import ConfirmRetry
  import TaskRuns
  import Poller = SlashPoller
  import IM = IntentManager

  // ------------------------------------------------------------------ exactly when a landed payout is safe

  /** With the payout landed no run signs another slash if and only if no pass is past its own check. */
  lemma SparedExactly(s: State)
    requires Inv(s) && PayoutLanded(s)
    ensures Spared(s) <==> forall steps, s' :: Runs(s, steps, s') ==> NoNewSlash(s, s')
  {
    if Spared(s) {
      forall steps, s' | Runs(s, steps, s')
        ensures NoNewSlash(s, s')
      {
        DeliveredIsNeverSlashed(s, steps, s');
      }
    } else {
      var n :| n in s.aux && s.aux[n].SlashReady?;
      ReadyPassSlashes(s, n);
    }
  }

  lemma ReadyPassSlashes(s: State, n: nat)
    requires s.history != [] && n in s.aux && s.aux[n].SlashReady?
    ensures exists steps, s' :: Runs(s, steps, s') && !NoNewSlash(s, s')
  {
    FreshKey(s.txs);
    var h :| Below(s.txs, h);
    var s' := Do(s, SignSlash(n, h));
    RunOne(s, SignSlash(n, h));
    assert h !in s.txs && s'.txs[h] == Tx(SlashTx, Signed);
  }

  // ------------------------------------------------------------------ a run that punishes a delivery

  /** Nobody else touching the intent, a slash is signed after the payout landed, and succeeds. */
  ghost predicate DeliveryPunished(s: State) {
    exists mid, s', h :: && LeadsAlone(s, mid) && mid.history != [] && PayoutLanded(mid) && Current(mid).status == IM.Pending
                         && LeadsAlone(mid, s') && h !in mid.txs && h in s'.txs && s'.txs[h] == Tx(SlashTx, Succeeded)
                         && s'.history != [] && Current(s').status == IM.Slashed
  }

  /** From every open intent: the payout is broadcast, its child fails, the sequence gives up, and the payout
      lands just after the poller's check found nothing. */
  lemma DeliveredCanBeSlashed(s: State, solver: Address, sig: Signature)
    requires OpenAndIdle(s) && solver != ZERO
    ensures DeliveryPunished(s)
  {
    Posts(s, solver);
    var b :| PostedAndPaying(s, b, solver);
    PayoutIsBroadcast(b, solver, 0, sig);
    var c := PayoutSent(b, solver, 0, sig);
    LeadsOn(s, b, c);
    BroadcastOutlivesChild(c, solver, 0, sig);
    var lost := ChildLost(c, solver, 0);
    LeadsOn(s, c, lost);
    GivingUpUnpaid(s, lost, solver);
    LandsAfterCheck(s, GivenUp(lost), sig);
  }

  lemma LandsAfterCheck(s: State, given: State, sig: Signature)
    requires LeadsAlone(s, given) && given.history != [] && given.aux == map[] && given.now >= given.expiry
    requires StageIs(given, AwaitingExpirySlash) && given.arb.value.expiry == Some(given.expiry)
    requires given.pay == Some(Settling(sig)) && sig in given.released && sig !in given.landed
    requires Current(given).status == IM.Pending && Current(given).solver != ZERO
    ensures DeliveryPunished(s)
  {
    var plan := ConfirmRetry.Plan(0, 0, 0, [], _ => ConfirmRetry.Attempt(0, None, 0, ConfirmRetry.Failed(None)));
    var turn := Poller.Turn(given.now, NotLanded, true, true, plan, ConfirmRetry.Failed(None));
    TaskRuns.CheckFindsNothing(given, 0, turn);
    LeadsOn(s, given, Goto(given, Aux(0), SlashReady));
    LandsAndIsSlashed(s, given, sig);
  }

  lemma LandsAndIsSlashed(s: State, given: State, sig: Signature)
    requires LeadsAlone(s, Goto(given, Aux(0), SlashReady)) && given.history != [] && given.aux == map[] && given.now >= given.expiry
    requires given.arb.Some? && given.pay == Some(Settling(sig)) && sig in given.released
    requires Current(given).status == IM.Pending && Current(given).solver != ZERO
    ensures DeliveryPunished(s)
  {
    var late := given.(landed := given.landed + {sig});
    var mid := Goto(late, Aux(0), SlashReady);
    Take(s, Goto(given, Aux(0), SlashReady), Land(sig), mid);
    FreshKey(late.txs);
    var h :| Below(late.txs, h);
    TaskRuns.SlashRun(late, 0, ConfirmRetry.Landed(h));
    SlashSucceeds(late, h);
    Punishes(s, mid, TaskRuns.SlashCalled(late, ConfirmRetry.Landed(h)), h);
  }

  lemma SlashSucceeds(s: State, h: TxHash)
    requires s.arb.Some? && s.history != []
    ensures var s' := TaskRuns.SlashCalled(s, ConfirmRetry.Landed(h));
            && h in s'.txs && s'.txs[h] == Tx(SlashTx, Succeeded) && s'.history != [] && Current(s').status == IM.Slashed
  {
  }

  lemma Punishes(s: State, mid: State, s': State, h: TxHash)
    requires LeadsAlone(s, mid) && mid.history != [] && PayoutLanded(mid) && Current(mid).status == IM.Pending
    requires LeadsAlone(mid, s') && h !in mid.txs && h in s'.txs && s'.txs[h] == Tx(SlashTx, Succeeded)
    requires s'.history != [] && Current(s').status == IM.Slashed
    ensures DeliveryPunished(s)
  {
  }
}
