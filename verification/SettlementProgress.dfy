/** The protocol is not safe by standing still: from any open intent a run pays out once and confirms. */
module SettlementProgress {
  import opened Options
  import opened ArbitrumLedger
  import opened SettledLedger
  import opened Settlement
  import opened SettlementSafety
  import opened SettlementTheorems
  import opened ProtocolRuns
  import ConfirmRetry
  import TaskRuns
  import IM = IntentManager

  ghost predicate OpenAndIdle(s: State) {
    && Initial(s) && Current(s) == OnChain(IM.Pending, ZERO) && s.now + s.margin < s.expiry
  }

  /** The gate lets a sequence through, and the contract will take its collateral. */
  ghost predicate Dispatchable(s: State) {
    s.history != [] && Startable(s) && Current(s) == OnChain(IM.Pending, ZERO) && s.now + s.margin < s.expiry
  }

  /** The posting signed and recorded, and perhaps broadcast. */
  function Posting(s: State, solver: Address, h: TxHash, fate: Fate): State {
    var patch := NO_PATCH.(collateralTx := Put(Some(h)), expiry := Put(Some(s.expiry)), solver := Put(Some(solver)));
    SetStage(s, PostingCollateral, patch).(txs := s.txs[h := Tx(PostTx(solver), fate)],
                                           main := if fate.Signed? then PostSigned(solver, h) else PostSent(solver, h))
  }

  lemma PostingIsSigned(s: State, solver: Address, h: TxHash)
    requires Dispatchable(s) && solver != ZERO && h !in s.txs
    ensures LeadsAlone(s, Posting(s, solver, h, Signed))
  {
    Stay(s);
    Take(s, s, Start(solver), s.(main := Gated(solver)));
    Take(s, s.(main := Gated(solver)), SignPost(h), Posting(s, solver, h, Signed));
  }

  lemma PostingIsSent(s: State, solver: Address, h: TxHash)
    requires Dispatchable(s) && solver != ZERO && h !in s.txs
    ensures LeadsAlone(s, Posting(s, solver, h, Sent))
  {
    PostingIsSigned(s, solver, h);
    assert s.txs[h := Tx(PostTx(solver), Signed)][h := Tx(PostTx(solver), Sent)] == s.txs[h := Tx(PostTx(solver), Sent)];
    Take(s, Posting(s, solver, h, Signed), SendTx(Main), Posting(s, solver, h, Sent));
  }

  /** It is mined, reported and verified on chain. */
  lemma PostingIsVerified(s: State, solver: Address, h: TxHash)
    requires s.history != [] && s.main == PostSent(solver, h) && h in s.txs && s.txs[h] == Tx(PostTx(solver), Sent)
    requires Current(s) == OnChain(IM.Pending, ZERO) && s.now < s.expiry && solver != ZERO
    ensures exists s' :: LeadsAlone(s, s') && s'.main == Paying(solver) && s'.history != [] && Current(s') == OnChain(IM.Pending, solver)
              && s' == s.(main := s'.main, arb := s'.arb, txs := s'.txs, history := s'.history)
  {
    Stay(s);
    var s1 := Do(s, Mine(h, true));
    Take(s, s, Mine(h, true), s1);
    var s2 := Do(s1, PostDone(true, true));
    Take(s, s1, PostDone(true, true), s2);
    assert Current(s2) in s2.history;
    var s3 := Do(s2, Verify(Current(s2)));
    Take(s, s2, Verify(Current(s2)), s3);
    assert s3 == s.(main := s3.main, arb := s3.arb, txs := s3.txs, history := s3.history);
  }

  /** The payout on its way: the child has signed, been recorded, been released, and has broadcast. */
  function PayoutSent(s: State, solver: Address, c: ChildId, sig: Signature): State {
    s.(main := Released(solver, c, sig), pay := Some(Settling(sig)), children := s.children[c := Broadcast(sig)],
       released := s.released + {sig})
  }

  lemma PayoutIsBroadcast(s: State, solver: Address, c: ChildId, sig: Signature)
    requires s.history != [] && s.main == Paying(solver) && s.pay.None? && c !in s.children
    ensures LeadsAlone(s, PayoutSent(s, solver, c, sig))
  {
    Stay(s);
    var s1 := s.(children := s.children[c := Born], main := Spawned(solver, c));
    Take(s, s, Attempt(c), s1);
    var s2 := s.(children := s.children[c := Ready(sig)], main := Spawned(solver, c));
    assert s1.children[c := Ready(sig)] == s2.children;
    Take(s, s1, ChildSigns(c, sig), s2);
    ReleaseFollows(s, solver, c, sig);
  }

  lemma ReleaseFollows(s: State, solver: Address, c: ChildId, sig: Signature)
    requires s.history != [] && LeadsAlone(s, s.(children := s.children[c := Ready(sig)], main := Spawned(solver, c)))
    ensures LeadsAlone(s, PayoutSent(s, solver, c, sig))
  {
    var s2 := s.(children := s.children[c := Ready(sig)], main := Spawned(solver, c));
    var s3 := s2.(pay := Some(Settling(sig)), main := Recorded(solver, c, sig));
    Take(s, s2, RecordSignature, s3);
    assert s3.children[c := Broadcast(sig)] == s.children[c := Broadcast(sig)];
    GoFollows(s, s3, solver, c, sig);
  }

  lemma GoFollows(s: State, s3: State, solver: Address, c: ChildId, sig: Signature)
    requires s3.history != [] && LeadsAlone(s, s3) && s3.main == Recorded(solver, c, sig)
    requires c in s3.children && s3.children[c] == Ready(sig)
    ensures LeadsAlone(s, s3.(main := Released(solver, c, sig), children := s3.children[c := Broadcast(sig)],
                              released := s3.released + {sig}))
  {
    var s4 := s3.(main := Released(solver, c, sig), children := s3.children[c := Go(sig)], released := s3.released + {sig});
    Take(s, s3, ReleaseChild, s4);
    assert s4.children[c := Broadcast(sig)] == s3.children[c := Broadcast(sig)];
    Take(s, s4, ChildBroadcasts(c), s4.(children := s3.children[c := Broadcast(sig)]));
  }

  /** It lands, the child exits, the record is settled. */
  function PayoutDone(s: State, c: ChildId, sig: Signature): State {
    s.(main := ConfirmLoop, pay := Some(Settled(Some(sig))), children := s.children[c := Exited(true)], landed := s.landed + {sig})
  }

  lemma PayoutIsSettled(s: State, solver: Address, c: ChildId, sig: Signature)
    requires s.history != [] && s.main == Released(solver, c, sig) && s.pay == Some(Settling(sig))
    requires c in s.children && s.children[c] == Broadcast(sig) && sig in s.released
    ensures LeadsAlone(s, PayoutDone(s, c, sig))
  {
    Stay(s);
    var s1 := s.(landed := s.landed + {sig});
    Take(s, s, Land(sig), s1);
    var s2 := s1.(children := s.children[c := Exited(true)]);
    Take(s, s1, ChildExits(c, true), s2);
    Take(s, s2, ChildClosed, PayoutDone(s, c, sig));
  }

  /** The same broadcast may instead outlive its child: the child fails, the sequence gives up and hands the
      intent to the slash poller, and only then does the payout land. */
  lemma PayoutLandsLate(s: State, solver: Address, c: ChildId, sig: Signature)
    requires s.history != [] && s.main == Released(solver, c, sig) && s.pay == Some(Settling(sig))
    requires c in s.children && s.children[c] == Broadcast(sig) && sig in s.released
    ensures exists s' :: LeadsAlone(s, s') && s'.main == Idle && StageIs(s', AwaitingExpirySlash) && s'.now >= s'.expiry
              && s'.pay == Some(Settling(sig)) && sig in s'.landed && s'.history == s.history
  {
    BroadcastOutlivesChild(s, solver, c, sig);
    SequenceGivesUp(s, ChildLost(s, solver, c), solver, sig);
  }

  function ChildLost(s: State, solver: Address, c: ChildId): State {
    s.(children := s.children[c := Exited(false)], main := Paying(solver))
  }

  lemma BroadcastOutlivesChild(s: State, solver: Address, c: ChildId, sig: Signature)
    requires s.history != [] && s.main == Released(solver, c, sig) && c in s.children && s.children[c] == Broadcast(sig)
    ensures LeadsAlone(s, ChildLost(s, solver, c))
  {
    Stay(s);
    var s1 := s.(children := s.children[c := Exited(false)]);
    Take(s, s, ChildExits(c, false), s1);
    Take(s, s1, ChildClosed, ChildLost(s, solver, c));
  }

  lemma SequenceGivesUp(s: State, s2: State, solver: Address, sig: Signature)
    requires LeadsAlone(s, s2) && s2.history != [] && s2.main == Paying(solver) && s2.pay == Some(Settling(sig)) && sig in s2.released
    ensures exists s' :: LeadsAlone(s, s') && s'.main == Idle && StageIs(s', AwaitingExpirySlash) && s'.now >= s'.expiry
              && s'.pay == Some(Settling(sig)) && sig in s'.landed && s'.history == s2.history
  {
    var s4 := GivenUp(s2);
    GivingUpUnpaid(s, s2, solver);
    Take(s, s4, Land(sig), s4.(landed := s4.landed + {sig}));
  }

  /** After the expiry the sequence has handed the intent to the slash poller. */
  function GivenUp(s: State): State {
    SetStage(s.(now := s.now + s.expiry, main := Idle), AwaitingExpirySlash, NO_PATCH.(expiry := Put(Some(s.expiry))))
  }

  lemma GivingUpUnpaid(s: State, s2: State, solver: Address)
    requires LeadsAlone(s, s2) && s2.history != [] && s2.main == Paying(solver)
    ensures LeadsAlone(s, GivenUp(s2))
  {
    var s3 := s2.(now := s2.now + s2.expiry);
    Take(s, s2, Tick(s2.expiry), s3);
    Take(s, s3, GiveUp, GivenUp(s2));
  }

  ghost predicate Below<V>(m: map<nat, V>, n: nat) {
    forall h :: h in m ==> h < n
  }

  /** There is always a transaction hash, or a child, not used yet. */
  lemma {:induction false} FreshKey<V>(m: map<nat, V>)
    ensures exists n :: Below(m, n)
    decreases |m|
  {
    if m == map[] {
      assert Below(m, 0);
    } else {
      var h :| h in m;
      FreshKey(m - {h});
      var n :| Below(m - {h}, n);
      var n' := if h < n then n else h + 1;
      forall x | x in m
        ensures x < n'
      {
        assert x == h || x in m - {h};
      }
      assert Below(m, n');
    }
  }

  /** The posting is done, nothing of the payout has begun. */
  ghost predicate PostedAndPaying(s: State, b: State, solver: Address) {
    && LeadsAlone(s, b) && b.main == Paying(solver) && b.history != [] && Current(b) == OnChain(IM.Pending, solver)
    && b == s.(main := b.main, arb := b.arb, txs := b.txs, history := b.history)
  }

  lemma Posts(s: State, solver: Address)
    requires Dispatchable(s) && solver != ZERO
    ensures exists b :: PostedAndPaying(s, b, solver)
  {
    FreshKey(s.txs);
    var h :| Below(s.txs, h);
    PostingIsSent(s, solver, h);
    var a := Posting(s, solver, h, Sent);
    PostingIsVerified(a, solver, h);
    var b :| LeadsAlone(a, b) && b.main == Paying(solver) && b.history != [] && Current(b) == OnChain(IM.Pending, solver)
      && b == a.(main := b.main, arb := b.arb, txs := b.txs, history := b.history);
    LeadsOn(s, a, b);
    assert PostedAndPaying(s, b, solver);
  }

  /** Confirmation can begin, and the contract will accept it. */
  ghost predicate Confirmable(s: State, slot: Slot) {
    && s.history != [] && PcAt(s, slot) == ConfirmLoop
    && Current(s).status == IM.Pending && Current(s).solver != ZERO
  }

  /** A sequence with no payout recorded pays with any signature and stands before its confirmation. */
  lemma PaysOut(b: State, solver: Address, sig: Signature)
    requires b.history != [] && b.main == Paying(solver) && b.pay.None?
    requires Current(b).status == IM.Pending && Current(b).solver != ZERO
    ensures exists d :: LeadsAlone(b, d) && Confirmable(d, Main) && d.released == b.released + {sig}
  {
    FreshKey(b.children);
    var child :| Below(b.children, child);
    PayoutIsBroadcast(b, solver, child, sig);
    var c := PayoutSent(b, solver, child, sig);
    PayoutIsSettled(c, solver, child, sig);
    var d := PayoutDone(c, child, sig);
    LeadsOn(b, c, d);
    assert Confirmable(d, Main);
  }

  /** Some run in which nobody else helps ends confirmed, with just these payouts released. */
  ghost predicate CanEndConfirmed(s: State, released: set<Signature>) {
    exists s' :: LeadsAlone(s, s') && StageIs(s', Confirmed) && s'.released == released
  }

  lemma Confirms(s: State, d: State, slot: Slot)
    requires LeadsAlone(s, d) && Confirmable(d, slot)
    ensures CanEndConfirmed(s, d.released)
  {
    FreshKey(d.txs);
    var h :| Below(d.txs, h);
    assert Current(d) in d.history;
    var last := ConfirmRetry.Attempt(0, Some(IM.Pending), 0, ConfirmRetry.Landed(h));
    TaskRuns.AttemptIsARun(d, slot, Current(d), last, false);
    LeadsOn(s, d, TaskRuns.Attempted(d, slot, last, false));
  }

  lemma PaysAndConfirms(s: State, b: State, solver: Address, sig: Signature)
    requires LeadsAlone(s, b) && b.history != [] && b.main == Paying(solver) && b.pay.None?
    requires Current(b).status == IM.Pending && Current(b).solver != ZERO
    ensures CanEndConfirmed(s, b.released + {sig})
  {
    PaysOut(b, solver, sig);
    var d :| LeadsAlone(b, d) && Confirmable(d, Main) && d.released == b.released + {sig};
    LeadsOn(s, b, d);
    Confirms(s, d, Main);
  }

  /** Every open intent with nothing recorded can be settled, nobody else helping: some run pays with one
      signature and confirms. */
  lemma SettlementCanComplete(s: State, solver: Address, sig: Signature)
    requires OpenAndIdle(s) && solver != ZERO
    ensures exists s' :: LeadsAlone(s, s') && StageIs(s', Confirmed) && s'.released == {sig}
  {
    Posts(s, solver);
    var b :| PostedAndPaying(s, b, solver);
    PaysAndConfirms(s, b, solver, sig);
    assert CanEndConfirmed(s, {sig});
  }
}
