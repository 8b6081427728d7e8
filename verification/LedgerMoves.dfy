/** How the durable records of the settlement move: each change with the condition it needs, said on ledgers,
    clock, children and chains alone, whichever task makes it. */
module LedgerMoves {
  import opened Options
  import opened ArbitrumLedger
  import opened SettledLedger
  import opened Settlement
  import opened SettlementSafety
  import opened Stranded
  import IM = IntentManager

  // ------------------------------------------------------------------ one change of the Arbitrum ledger

  /** The entry a change starts from. */
  function Before(s: State, stage: Stage): Entry {
    match s.arb
    case Some(e) => e
    case None => Entry(stage, None, None, None, None, None, None)
  }

  /** The one transaction signed in this change, not broadcast yet, is the one the ledger now names. */
  predicate NamesNew(s: State, s': State, hash: Option<TxHash>, kind: Kind) {
    hash.Some? && hash.value !in s.txs && s'.txs == s.txs[hash.value := Tx(kind, Signed)]
  }

  ghost predicate EntryMoves(s: State, s': State, e': Entry)
    requires s.history != []
  {
    var e := Before(s, e'.stage);
    match e'.stage
    case PostingCollateral =>
      && NothingPosted(s) && e'.solver.Some? && e'.solver.value != ZERO
      && e' == e.(stage := PostingCollateral, collateralTx := e'.collateralTx, expiry := Some(s.expiry), solver := e'.solver)
      && NamesNew(s, s', e'.collateralTx, PostTx(e'.solver.value))
    case CollateralFailed =>
      && (NothingPosted(s) || e.stage == PostingCollateral) && s'.txs == s.txs
      && e' == e.(stage := CollateralFailed, collateralTx := e'.collateralTx, expiry := e'.expiry)
      && e'.collateralTx in {e.collateralTx, None} && e'.expiry in {e.expiry, Some(s.expiry)}
    case CollateralPosted =>
      && e.stage == PostingCollateral && s'.txs == s.txs
      && e' == e.(stage := CollateralPosted, expiry := e'.expiry) && e'.expiry in {e.expiry, Some(s.expiry)}
      && e.solver == Some(Current(s).solver)
    case AwaitingExpirySlash =>
      && !Early(s) && s.now + s.margin >= s.expiry && s'.txs == s.txs
      && e' == e.(stage := AwaitingExpirySlash, expiry := Some(s.expiry))
    case Confirming =>
      && !Early(s) && Paid(s)
      && e' == e.(stage := Confirming, confirmTx := e'.confirmTx, expiry := Some(s.expiry))
      && NamesNew(s, s', e'.confirmTx, ConfirmTx)
    case Confirmed =>
      && Current(s).status == IM.Settled && s'.txs == s.txs
      && e' == e.(stage := Confirmed, confirmTx := e'.confirmTx, expiry := e'.expiry)
    case Slashing =>
      && !Early(s) && s.now >= s.expiry
      && e' == e.(stage := Slashing, slashTx := e'.slashTx)
      && NamesNew(s, s', e'.slashTx, SlashTx)
    case Slashed =>
      && Current(s).status == IM.Slashed && s'.txs == s.txs
      && e' == e.(stage := Slashed, slashTx := e'.slashTx)
  }

  ghost predicate ArbMoves(s: State, s': State)
    requires s.history != []
  {
    s'.arb == s.arb || (s'.arb.Some? && EntryMoves(s, s', s'.arb.value))
  }

  lemma PostedMoves(s: State, ok: bool, reported: bool)
    requires Inv(s) && Enabled(s, PostDone(ok, reported))
    ensures ArbMoves(s, FinishPost(s, ok, reported))
  {
    if ok {
      assert TxOk(s, s.txs[s.main.hash]);
    }
  }

  lemma SequencingMoves(s: State, step: Step)
    requires Inv(s) && Enabled(s, step) && Sequencing(step)
    ensures ArbMoves(s, Do(s, step))
  {
    if step.PostDone? {
      PostedMoves(s, step.ok, step.reported);
    }
  }

  lemma PayoutLeavesArb(s: State, step: Step)
    requires Inv(s) && Enabled(s, step) && PayingOut(step)
    ensures Do(s, step).arb == s.arb
  {
  }

  lemma ReadingMoves(s: State, slot: Slot, view: OnChain)
    requires Inv(s) && Enabled(s, ReadBeforeConfirm(slot, view))
    ensures ArbMoves(s, BeforeConfirm(s, slot, view))
  {
    SeenIsLatched(s, view);
  }

  lemma SigningMoves(s: State, slot: Slot, h: TxHash)
    requires Inv(s) && Enabled(s, SignConfirm(slot, h))
    ensures ArbMoves(s, Do(s, SignConfirm(slot, h)))
  {
    TasksAreLate(s, slot);
  }

  lemma ConfirmedMoves(s: State, slot: Slot, ok: bool, retry: bool)
    requires Inv(s) && Enabled(s, ConfirmDone(slot, ok, retry))
    ensures ArbMoves(s, FinishConfirm(s, slot, ok, retry))
  {
    if ok {
      TasksAreLate(s, slot);
      assert TxOk(s, s.txs[PcAt(s, slot).hash]);
    }
  }

  lemma SendingLeavesArb(s: State, slot: Slot)
    ensures SendFrom(s, slot).arb == s.arb
  {
  }

  lemma ClosingMoves(s: State, step: Step)
    requires Inv(s) && Enabled(s, step) && Closing(step)
    ensures ArbMoves(s, Do(s, step))
  {
    match step
    case SendTx(slot) => SendingLeavesArb(s, slot);
    case ReadBeforeConfirm(slot, view) => ReadingMoves(s, slot, view);
    case SignConfirm(slot, h) => SigningMoves(s, slot, h);
    case ConfirmDone(slot, ok, retry) => ConfirmedMoves(s, slot, ok, retry);
  }

  lemma SigningSlashMoves(s: State, n: nat, h: TxHash)
    requires Inv(s) && Enabled(s, SignSlash(n, h))
    ensures ArbMoves(s, Do(s, SignSlash(n, h)))
  {
    assert AuxPcOk(s, s.aux[n]);
  }

  lemma SlashedMoves(s: State, n: nat, ok: bool)
    requires Inv(s) && Enabled(s, SlashDone(n, ok))
    ensures ArbMoves(s, FinishSlash(s, n, ok))
  {
    if ok {
      assert TxOk(s, s.txs[PcAt(s, Aux(n)).hash]);
    }
  }

  lemma SlashingMoves(s: State, step: Step)
    requires Inv(s) && Enabled(s, step) && Slashes(step)
    ensures ArbMoves(s, Do(s, step))
  {
    match step
    case SignSlash(n, h) => SigningSlashMoves(s, n, h);
    case SlashDone(n, ok) => SlashedMoves(s, n, ok);
    case CheckPayout(n) => assert CheckedPayout(s, n).arb == s.arb;
    case ListForSlash(_) =>
    case StartPass(_) =>
  }

  lemma ResolvingMoves(s: State, view: OnChain)
    requires Inv(s) && Enabled(s, ReadStatus(view))
    ensures ArbMoves(s, Resolve(s, view))
  {
    SeenIsLatched(s, view);
  }

  lemma RecoveringMoves(s: State, step: Step)
    requires Inv(s) && Enabled(s, step) && Recovering(step)
    ensures ArbMoves(s, Do(s, step))
  {
    if step.ReadStatus? {
      ResolvingMoves(s, step.view);
    } else {
      assert Do(s, step).arb == s.arb;
    }
  }

  lemma WorldLeavesArb(s: State, step: Step)
    requires Inv(s) && Enabled(s, step)
    requires !Sequencing(step) && !PayingOut(step) && !Closing(step) && !Slashes(step) && !Recovering(step)
    ensures Do(s, step).arb == s.arb
  {
  }

  /** Every change of the Arbitrum ledger, by whichever step: its stage is entered only where its condition
      holds, the fields it does not own stay, and what it signs is what it names. */
  lemma StepMovesArb(s: State, step: Step)
    requires Inv(s) && Enabled(s, step)
    ensures ArbMoves(s, Do(s, step))
  {
    if Sequencing(step) {
      SequencingMoves(s, step);
    } else if PayingOut(step) {
      PayoutLeavesArb(s, step);
    } else if Closing(step) {
      ClosingMoves(s, step);
    } else if Slashes(step) {
      SlashingMoves(s, step);
    } else if Recovering(step) {
      RecoveringMoves(s, step);
    } else {
      WorldLeavesArb(s, step);
    }
  }

  // ------------------------------------------------------------------ handing over to the slash poller

  lemma TasksKeepMargin(s: State, step: Step)
    requires s.history != [] && Enabled(s, step) && (Sequencing(step) || PayingOut(step) || Recovering(step))
    ensures Do(s, step).margin == s.margin
  {
  }

  lemma ClosingKeepsMargin(s: State, step: Step)
    requires s.history != [] && Enabled(s, step) && Closing(step)
    ensures Do(s, step).margin == s.margin
  {
  }

  lemma SameMargin(s: State, step: Step)
    requires s.history != [] && Enabled(s, step)
    ensures Do(s, step).margin == s.margin
  {
    if Sequencing(step) || PayingOut(step) || Recovering(step) {
      TasksKeepMargin(s, step);
    } else if Closing(step) {
      ClosingKeepsMargin(s, step);
    }
  }

  /** An intent waits to be slashed only once the time for delivering has run out. */
  ghost predicate GivenUpInTime(s: State) {
    StageIs(s, AwaitingExpirySlash) ==> s.now + s.margin >= s.expiry
  }

  lemma {:induction false} RunGivesUpInTime(s: State, steps: seq<Step>, s': State)
    requires Inv(s) && GivenUpInTime(s) && Runs(s, steps, s')
    ensures GivenUpInTime(s')
    decreases |steps|
  {
    if steps != [] {
      var next := Do(s, steps[0]);
      StepKeeps(s, steps[0]);
      StepMovesArb(s, steps[0]);
      SameMargin(s, steps[0]);
      RunGivesUpInTime(next, steps[1..], s');
    }
  }

  /** Over every run: while delivery time is left no intent is handed to the slash poller. */
  lemma NeverGivenUpEarly(s: State, steps: seq<Step>, s': State)
    requires Initial(s) && Runs(s, steps, s')
    ensures StageIs(s', AwaitingExpirySlash) ==> s'.now + s'.margin >= s'.expiry
  {
    InitialHolds(s);
    RunGivesUpInTime(s, steps, s');
  }

  // ------------------------------------------------------------------ one change of the payout record

  /** The record appears from a child's signature, and is settled only once that signature has landed. */
  ghost predicate PayMoves(s: State, s': State) {
    || s'.pay == s.pay
    || (s.pay.None? && s'.pay.Some? && s'.pay.value.Settling? && s'.released == s.released
        && exists c :: c in s.children && s.children[c] == Ready(s'.pay.value.sig))
    || (s.pay.Some? && s.pay.value.Settling? && s'.pay == Some(Settled(Some(s.pay.value.sig))) && s.pay.value.sig in s.landed)
  }

  /** The only signature ever released is one recorded beforehand, to the child that still waits with it, and none
      was released before it. */
  ghost predicate ReleaseMoves(s: State, s': State) {
    || s'.released == s.released
    || (s.pay.Some? && s.pay.value.Settling? && s.released == {} && s'.released == {s.pay.value.sig} && s'.pay == s.pay
        && exists c :: c in s.children && s.children[c] == Ready(s.pay.value.sig) && s'.children == s.children[c := Go(s.pay.value.sig)])
  }

  /** A child is started only while no payout is on record. */
  predicate SpawnMoves(s: State, s': State) {
    s.children.Keys <= s'.children.Keys && (s'.children.Keys != s.children.Keys ==> s.pay.None? && s'.pay.None?)
  }

  ghost predicate MoneyMoves(s: State, s': State) {
    PayMoves(s, s') && ReleaseMoves(s, s') && SpawnMoves(s, s')
  }

  predicate MoneyStays(s: State, s': State) {
    s'.pay == s.pay && s'.released == s.released && s'.children.Keys == s.children.Keys
  }

  lemma PayoutMovesMoney(s: State, step: Step)
    requires Inv(s) && Enabled(s, step) && PayingOut(step)
    ensures MoneyMoves(s, Do(s, step))
  {
  }

  lemma ClosingLeavesMoney(s: State, step: Step)
    requires s.history != [] && Enabled(s, step) && Closing(step)
    ensures MoneyStays(s, Do(s, step))
  {
  }

  lemma SequenceLeavesMoney(s: State, step: Step)
    requires s.history != [] && Enabled(s, step) && Sequencing(step)
    ensures MoneyStays(s, Do(s, step))
  {
  }

  lemma PassMovesMoney(s: State, step: Step)
    requires Inv(s) && Enabled(s, step) && Slashes(step)
    ensures MoneyMoves(s, Do(s, step))
  {
  }

  lemma ResolvingLeavesMoney(s: State, view: OnChain)
    requires s.main.ReceiptRead?
    ensures MoneyStays(s, Resolve(s, view))
  {
  }

  lemma RecoveryMovesMoney(s: State, step: Step)
    requires Inv(s) && Enabled(s, step) && Recovering(step)
    ensures MoneyMoves(s, Do(s, step))
  {
    if step.ReadStatus? {
      ResolvingLeavesMoney(s, step.view);
    }
  }

  lemma WorldLeavesMoney(s: State, step: Step)
    requires s.history != [] && Enabled(s, step)
    requires !Sequencing(step) && !PayingOut(step) && !Closing(step) && !Slashes(step) && !Recovering(step)
    ensures MoneyStays(s, Do(s, step))
  {
  }

  /** Every change of what the payout rests on, by whichever step. */
  lemma StepMovesMoney(s: State, step: Step)
    requires Inv(s) && Enabled(s, step)
    ensures MoneyMoves(s, Do(s, step))
  {
    if Sequencing(step) {
      SequenceLeavesMoney(s, step);
    } else if PayingOut(step) {
      PayoutMovesMoney(s, step);
    } else if Closing(step) {
      ClosingLeavesMoney(s, step);
    } else if Slashes(step) {
      PassMovesMoney(s, step);
    } else if Recovering(step) {
      RecoveryMovesMoney(s, step);
    } else {
      WorldLeavesMoney(s, step);
    }
  }

  // ------------------------------------------------------------------ paying only what was seen open

  predicate PaysFor(pc: Pc, solver: Address) {
    match pc
    case Paying(a) => a == solver
    case Spawned(a, _) => a == solver
    case Recorded(a, _, _) => a == solver
    case Released(a, _, _) => a == solver
    case _ => false
  }

  /** Some moment of the chain showed the intent pending with that solver's collateral. */
  ghost predicate WasOpen(s: State, solver: Address) {
    solver != ZERO && OnChain(IM.Pending, solver) in s.history
  }

  ghost predicate SeenOpen(s: State) {
    && (forall a :: PaysFor(s.main, a) ==> WasOpen(s, a))
    && (s.released != {} ==> exists a :: WasOpen(s, a))
  }

  predicate HistoryExtends(s: State, s': State) {
    s.history <= s'.history
  }

  lemma HistoryOnlyExtends(s: State, step: Step)
    requires s.history != [] && Enabled(s, step)
    ensures HistoryExtends(s, Do(s, step))
  {
    if !OnChainOnly(step) {
      OthersLeaveChain(s, step);
    }
  }

  lemma SequenceSeesOpen(s: State, step: Step)
    requires Inv(s) && Enabled(s, step) && Sequencing(step)
    ensures forall a :: PaysFor(Do(s, step).main, a) ==> PaysFor(s.main, a) || WasOpen(s, a)
  {
  }

  lemma PayoutKeepsSolver(s: State, step: Step)
    requires Inv(s) && Enabled(s, step) && PayingOut(step)
    ensures forall a :: PaysFor(Do(s, step).main, a) ==> PaysFor(s.main, a)
  {
  }

  lemma ClosingNeverPays(s: State, step: Step)
    requires Inv(s) && Enabled(s, step) && Closing(step)
    ensures forall a :: PaysFor(Do(s, step).main, a) ==> PaysFor(s.main, a)
  {
  }

  lemma OthersNeverPay(s: State, step: Step)
    requires Inv(s) && Enabled(s, step) && !Sequencing(step) && !PayingOut(step) && !Closing(step)
    ensures forall a :: PaysFor(Do(s, step).main, a) ==> PaysFor(s.main, a)
  {
  }

  lemma StepPaysOnlyOpen(s: State, step: Step)
    requires Inv(s) && Enabled(s, step)
    ensures forall a :: PaysFor(Do(s, step).main, a) ==> PaysFor(s.main, a) || WasOpen(s, a)
  {
    if Sequencing(step) {
      SequenceSeesOpen(s, step);
    } else if PayingOut(step) {
      PayoutKeepsSolver(s, step);
    } else if Closing(step) {
      ClosingNeverPays(s, step);
    } else {
      OthersNeverPay(s, step);
    }
  }

  /** A release is the sequence's, which pays for the solver it saw. */
  lemma OnlyTheSequenceReleases(s: State, step: Step)
    requires Inv(s) && Enabled(s, step) && Do(s, step).released != s.released
    ensures s.main.Recorded? && Do(s, step).history == s.history
  {
    if PayingOut(step) {
      PayoutReleases(s, step);
    } else {
      OthersReleaseNothing(s, step);
    }
  }

  lemma PayoutReleases(s: State, step: Step)
    requires Inv(s) && Enabled(s, step) && PayingOut(step)
    ensures Do(s, step).released != s.released ==> s.main.Recorded? && Do(s, step).history == s.history
  {
  }

  lemma PassReleasesNothing(s: State, step: Step)
    requires s.history != [] && Enabled(s, step) && Slashes(step)
    ensures Do(s, step).released == s.released
  {
  }

  lemma RecoveryReleasesNothing(s: State, step: Step)
    requires s.history != [] && Enabled(s, step) && Recovering(step)
    ensures Do(s, step).released == s.released
  {
    if step.ReadStatus? {
      ResolvingLeavesMoney(s, step.view);
    }
  }

  lemma OthersReleaseNothing(s: State, step: Step)
    requires Inv(s) && Enabled(s, step) && !PayingOut(step)
    ensures Do(s, step).released == s.released
  {
    if Closing(step) {
      ClosingLeavesMoney(s, step);
    } else if Sequencing(step) {
      SequenceLeavesMoney(s, step);
    } else if Slashes(step) {
      PassReleasesNothing(s, step);
    } else if Recovering(step) {
      RecoveryReleasesNothing(s, step);
    } else {
      WorldLeavesMoney(s, step);
    }
  }

  lemma StepSeesOpen(s: State, step: Step)
    requires Inv(s) && Enabled(s, step) && SeenOpen(s)
    ensures SeenOpen(Do(s, step))
  {
    var s' := Do(s, step);
    HistoryOnlyExtends(s, step);
    StepPaysOnlyOpen(s, step);
    if s'.released != s.released {
      OnlyTheSequenceReleases(s, step);
      assert PaysFor(s.main, s.main.solver);
    }
    OpenStays(s, s');
  }

  lemma OpenStays(s: State, s': State)
    requires SeenOpen(s) && HistoryExtends(s, s')
    requires forall a :: PaysFor(s'.main, a) ==> PaysFor(s.main, a) || WasOpen(s, a)
    requires s'.released != s.released ==> exists a :: WasOpen(s, a)
    ensures SeenOpen(s')
  {
    assert forall a :: WasOpen(s, a) ==> WasOpen(s', a);
  }

  lemma {:induction false} RunSeesOpen(s: State, steps: seq<Step>, s': State)
    requires Inv(s) && SeenOpen(s) && Runs(s, steps, s')
    ensures SeenOpen(s')
    decreases |steps|
  {
    if steps != [] {
      StepKeeps(s, steps[0]);
      StepSeesOpen(s, steps[0]);
      RunSeesOpen(Do(s, steps[0]), steps[1..], s');
    }
  }

  /** Over every run: a payout is released only for an intent the chain has shown pending with a solver's collateral. */
  lemma PaidOnlyIfSeenOpen(s: State, steps: seq<Step>, s': State)
    requires Initial(s) && Runs(s, steps, s') && s'.released != {}
    ensures exists a :: WasOpen(s', a)
  {
    InitialHolds(s);
    RunSeesOpen(s, steps, s');
  }

  // ------------------------------------------------------------------ what the sequence does next

  /** A payout attempt: a new child exactly when nothing is on record, straight to confirmation exactly when the
      payout is settled, nothing at all while a signature is in doubt. */
  lemma AttemptGoes(s: State, child: ChildId)
    requires s.history != [] && Enabled(s, Attempt(child))
    ensures var s' := Do(s, Attempt(child));
            && s' == s.(main := s'.main, children := s'.children)
            && (s.pay.None? <==> s'.main == Spawned(s.main.solver, child))
            && (IsSettled(s) <==> s'.main == ConfirmLoop)
            && (s.pay.Some? && !IsSettled(s) <==> s' == s)
            && s'.children == if s.pay.None? then s.children[child := Born] else s.children
  {
  }

  /** GO reaches a child that still waits, and releases its signature; a child already gone releases nothing. */
  lemma ReleaseGoes(s: State)
    requires Inv(s) && Enabled(s, ReleaseChild)
    ensures var (s', c, sig) := (Do(s, ReleaseChild), s.main.child, s.main.sig);
            && s' == s.(main := Released(s.main.solver, c, sig), children := s'.children, released := s'.released)
            && s.children[c] in {Ready(sig), Exited(false)}
            && (s.children[c] == Ready(sig) ==> s'.released == {sig} && s'.children == s.children[c := Go(sig)])
            && (s.children[c] == Exited(false) ==> s'.released == {} && s'.children == s.children)
  {
  }

  /** When the child is done: its zero exit settles the record and goes on to confirm, any other exit goes back to paying. */
  lemma ChildClosedGoes(s: State)
    requires Inv(s) && Enabled(s, ChildClosed)
    ensures var s' := Do(s, ChildClosed);
            && s' == s.(main := s'.main, pay := s'.pay)
            && (s.children[s.main.child] == Exited(true) ==>
                  s'.main == ConfirmLoop && IsSettled(s') && SigOf(s'.pay.value) == SigOf(s.pay.value))
            && (s.children[s.main.child] == Exited(false) ==> s'.main == Paying(s.main.solver) && s'.pay == s.pay)
  {
  }

  /** The check after posting: on to paying exactly when that view shows our own solver on a pending intent. */
  lemma VerifyGoes(s: State, view: OnChain)
    requires s.history != [] && Enabled(s, Verify(view))
    ensures var s' := Do(s, Verify(view));
            && s' == s.(main := s'.main)
            && s'.main == if view == OnChain(IM.Pending, s.main.solver) then Paying(s.main.solver) else Idle
  {
  }

  /** The end of a posting: collateral_posted exactly when it succeeded; otherwise the sequence is over. */
  lemma PostDoneGoes(s: State, ok: bool, reported: bool)
    requires s.history != [] && Enabled(s, PostDone(ok, reported))
    ensures var s' := Do(s, PostDone(ok, reported));
            && s' == s.(main := s'.main, arb := s'.arb) && s'.arb.Some? && s'.arb.value.expiry == Some(s.expiry)
            && s'.arb.value.collateralTx == (if s.main.PostSent? && (ok || reported) then Some(s.main.hash) else None)
            && (ok ==> StageIs(s', CollateralPosted) && s'.main == Verifying(s.main.solver))
            && (!ok ==> StageIs(s', CollateralFailed) && s'.main == Idle)
  {
  }

  /** A refused intent is recorded as failed, with its expiry, and nothing is posted. */
  lemma RefuseGoes(s: State)
    requires s.history != [] && Enabled(s, Refuse)
    ensures var s' := Do(s, Refuse);
            && s' == s.(main := Idle, arb := s'.arb)
            && StageIs(s', CollateralFailed) && s'.arb.value.expiry == Some(s.expiry)
            && s'.arb.value.collateralTx == (if s.arb.None? then None else s.arb.value.collateralTx)
  {
  }
}
