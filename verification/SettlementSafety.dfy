/** What every run of the settlement protocol keeps, crashes, lagging reads and overlapping pollers included. */
module SettlementSafety {
  import opened Options
  import opened ArbitrumLedger
  import opened SettledLedger
  import opened Settlement
  import IM = IntentManager

  // ------------------------------------------------------------------ the invariant

  ghost predicate ChainOk(s: State) {
    && s.history != []
    && forall i, j :: 0 <= i <= j < |s.history| ==> Latch(s.history[i], s.history[j])
  }

  ghost predicate HasSolver(s: State)
    requires s.history != []
  {
    Current(s).solver != ZERO
  }

  /** The payout is recorded as settled and really landed. */
  ghost predicate Paid(s: State) {
    IsSettled(s) && PayoutLanded(s)
  }

  ghost predicate TxOk(s: State, t: Tx)
    requires s.history != []
  {
    && (t.fate == Succeeded ==>
          match t.kind
          case PostTx(solver) => solver != ZERO && Current(s).solver == solver
          case ConfirmTx => Current(s).status == IM.Settled
          case SlashTx => Current(s).status == IM.Slashed)
    && (t.kind == ConfirmTx ==> Paid(s))
  }

  ghost predicate TxsOk(s: State)
    requires s.history != []
  {
    forall h :: h in s.txs ==> TxOk(s, s.txs[h])
  }

  /** At most one signature is ever released, and it is the one on record. */
  ghost predicate PayoutOk(s: State)
    requires s.history != []
  {
    && s.landed <= s.released
    && (forall sig :: sig in s.released ==> s.pay.Some? && SigOf(s.pay.value) == Some(sig) && HasSolver(s))
    && (IsSettled(s) ==> PayoutLanded(s)) && (s.pay.Some? ==> !Early(s))
    && (forall c :: c in s.children && (s.children[c].Go? || s.children[c].Broadcast?) ==> s.children[c].sig in s.released)
  }

  /** A ledger stage implies its chain fact. */
  ghost predicate EntryOk(s: State, e: Entry)
    requires s.history != []
  {
    (e.solver.Some? ==> e.solver.value != ZERO) &&
    match e.stage
    case CollateralFailed => true
    case PostingCollateral =>
      && e.collateralTx.Some? && e.collateralTx.value in s.txs && e.solver.Some?
      && s.txs[e.collateralTx.value].kind == PostTx(e.solver.value)
    case CollateralPosted => HasSolver(s) && e.solver == Some(Current(s).solver)
    case Confirmed => Current(s).status == IM.Settled
    case Slashed => Current(s).status == IM.Slashed
    case AwaitingExpirySlash => HasSolver(s) && e.expiry == Some(s.expiry)
    case _ => HasSolver(s)
  }

  /** No collateral known to be on chain yet: only the main task may be at work. */
  ghost predicate Early(s: State) {
    s.arb.None? || s.arb.value.stage == CollateralFailed || s.arb.value.stage == PostingCollateral
  }

  ghost predicate ConfirmPcOk(s: State, pc: Pc)
    requires s.history != []
  {
    && HasSolver(s) && Paid(s)
    && (pc.ConfirmSigned? || pc.ConfirmSent? ==> pc.hash in s.txs && s.txs[pc.hash].kind == ConfirmTx)
  }

  ghost predicate MainOk(s: State)
    requires s.history != []
  {
    match s.main
    case Idle => true
    case Gated(solver) => solver != ZERO && (s.arb.None? || StageIs(s, CollateralFailed))
    case PostSigned(solver, h) => PostInFlight(s, solver, h)
    case PostSent(solver, h) => PostInFlight(s, solver, h)
    case Verifying(solver) => solver != ZERO && HasSolver(s) && !Early(s)
    case Paying(solver) => solver != ZERO && Current(s).solver == solver && !Early(s)
    case Spawned(solver, c) =>
      && solver != ZERO && Current(s).solver == solver && !Early(s)
      && s.pay.None? && c in s.children && (s.children[c] in {Born, Exited(false)} || s.children[c].Ready?)
    case Recorded(solver, c, sig) =>
      && solver != ZERO && Current(s).solver == solver && !Early(s)
      && s.pay == Some(Settling(sig)) && s.released == {}
      && c in s.children && s.children[c] in {Ready(sig), Exited(false)}
    case Released(solver, c, sig) =>
      && solver != ZERO && Current(s).solver == solver && !Early(s)
      && s.pay.Some? && SigOf(s.pay.value) == Some(sig) && c in s.children
      && (s.children[c] in {Go(sig), Broadcast(sig), Exited(false)} || (s.children[c] == Exited(true) && sig in s.landed))
    case ConfirmLoop => ConfirmPcOk(s, s.main) && !Early(s)
    case ConfirmReady => ConfirmPcOk(s, s.main) && !Early(s)
    case ConfirmSigned(_) => ConfirmPcOk(s, s.main) && !Early(s)
    case ConfirmSent(_) => ConfirmPcOk(s, s.main) && !Early(s)
    case Reconciling(e) => EntryOk(s, e) && SnapshotOk(s, e)
    case ReceiptRead(e, r) =>
      EntryOk(s, e) && SnapshotOk(s, e) && (e.stage == PostingCollateral && r == Success ==> e.solver == Some(Current(s).solver))
    case _ => false
  }

  /** An in-flight postCollateral is the one the ledger names, so a crash cannot lose it. */
  ghost predicate PostInFlight(s: State, solver: Address, h: TxHash) {
    && solver != ZERO && h in s.txs && s.txs[h].kind == PostTx(solver)
    && StageIs(s, PostingCollateral) && s.arb.value.collateralTx == Some(h) && s.arb.value.solver == Some(solver)
  }

  ghost predicate SnapshotOk(s: State, e: Entry) {
    && e.stage in MID_SEQUENCE
    && (if e.stage == PostingCollateral then s.arb == Some(e) else !Early(s))
  }

  ghost predicate AuxPcOk(s: State, pc: Pc)
    requires s.history != []
  {
    match pc
    case ConfirmLoop => ConfirmPcOk(s, pc)
    case ConfirmReady => ConfirmPcOk(s, pc)
    case ConfirmSigned(_) => ConfirmPcOk(s, pc)
    case ConfirmSent(_) => ConfirmPcOk(s, pc)
    case Listed(expiry) => HasSolver(s) && expiry == s.expiry
    case PassStarted => HasSolver(s) && s.now >= s.expiry
    case SlashReady => HasSolver(s) && s.now >= s.expiry
    case Resumable => HasSolver(s) && Paid(s)
    case SlashSigned(h) => HasSolver(s) && h in s.txs && s.txs[h].kind == SlashTx
    case SlashSent(h) => HasSolver(s) && h in s.txs && s.txs[h].kind == SlashTx
    case _ => false
  }

  ghost predicate AuxOk(s: State)
    requires s.history != []
  {
    && (forall n :: n in s.aux ==> AuxPcOk(s, s.aux[n]))
    && (Early(s) ==> s.aux == map[])
  }

  ghost predicate Inv(s: State) {
    && ChainOk(s) && Punctual(s) && s.defaultSolver != ZERO && TxsOk(s) && PayoutOk(s) && MainOk(s) && AuxOk(s)
    && (s.arb.Some? ==> EntryOk(s, s.arb.value))
  }

  // ------------------------------------------------------------------ facts only accumulate

  /** How every step moves: chain latched, transactions and landings kept, the recorded signature fixed. */
  ghost predicate Grows(s: State, s': State) {
    && s.history != [] && s'.history != [] && Latch(Current(s), Current(s'))
    && (forall h :: h in s.txs ==> h in s'.txs && s'.txs[h].kind == s.txs[h].kind)
    && s.landed <= s'.landed && s.released <= s'.released && s.now <= s'.now && s'.expiry == s.expiry && s'.defaultSolver == s.defaultSolver
    && (s.pay.Some? ==> s'.pay.Some? && SigOf(s'.pay.value) == SigOf(s.pay.value))
    && (IsSettled(s) ==> IsSettled(s'))
  }

  lemma GrowsTransitive(a: State, b: State, c: State)
    requires Grows(a, b) && Grows(b, c)
    ensures Grows(a, c)
  {
  }

  lemma EntryGrows(s: State, s': State, e: Entry)
    requires Grows(s, s') && EntryOk(s, e)
    ensures EntryOk(s', e)
  {
  }

  lemma AuxPcGrows(s: State, s': State, pc: Pc)
    requires Grows(s, s') && AuxPcOk(s, pc)
    ensures AuxPcOk(s', pc)
  {
  }

  lemma AuxGrows(s: State, s': State)
    requires Grows(s, s') && AuxOk(s) && s'.aux == s.aux && (Early(s') ==> Early(s))
    ensures AuxOk(s')
  {
    forall n | n in s'.aux
      ensures AuxPcOk(s', s'.aux[n])
    {
      AuxPcGrows(s, s', s.aux[n]);
    }
  }

  lemma SeenIsLatched(s: State, view: OnChain)
    requires ChainOk(s) && view in s.history
    ensures Latch(view, Current(s))
  {
    var i :| 0 <= i < |s.history| && s.history[i] == view;
  }

  lemma ChainExtends(s: State, next: OnChain)
    requires ChainOk(s) && Latch(Current(s), next)
    ensures ChainOk(s.(history := s.history + [next]))
  {
  }

  // ------------------------------------------------------------------ the world's steps

  /** A step that leaves ledgers, tasks and children alone. */
  lemma WorldKeeps(s: State, s': State)
    requires Inv(s) && Grows(s, s') && ChainOk(s') && Punctual(s') && TxsOk(s') && PayoutOk(s')
    requires s'.arb == s.arb && s'.pay == s.pay && s'.main == s.main && s'.aux == s.aux && s'.children == s.children
    requires s'.released == s.released
    ensures Inv(s')
  {
    AuxGrows(s, s');
    if s.arb.Some? {
      EntryGrows(s, s', s.arb.value);
    }
    MainGrows(s, s');
  }

  lemma MainGrows(s: State, s': State)
    requires Grows(s, s') && MainOk(s) && s'.released == s.released
    requires s'.arb == s.arb && s'.pay == s.pay && s'.main == s.main && s'.children == s.children
    ensures MainOk(s')
  {
    match s.main
    case Reconciling(e) => EntryGrows(s, s', e);
    case ReceiptRead(e, _) => EntryGrows(s, s', e);
    case _ =>
  }

  lemma ChainMoves(s: State, s': State, next: OnChain)
    requires Inv(s) && Latch(Current(s), next)
    requires s' == s.(history := s.history + [next]) && Punctual(s')
    ensures Inv(s') && Grows(s, s')
  {
    ChainExtends(s, next);
    WorldKeeps(s, s');
  }

  lemma MineKeeps(s: State, h: TxHash, accepted: bool)
    requires Inv(s) && h in s.txs && s.txs[h].fate == Sent && (accepted ==> ContractAccepts(s, s.txs[h].kind))
    ensures Inv(MineTx(s, h, accepted)) && Grows(s, MineTx(s, h, accepted))
  {
    var s' := MineTx(s, h, accepted);
    var kind := s.txs[h].kind;
    if accepted {
      var next := AfterSuccess(Current(s), kind);
      var mid := s.(history := s.history + [next]);
      ChainMoves(s, mid, next);
      assert TxsOk(s') by {
        assert forall x :: x in s'.txs ==> x in s.txs && (x == h || s'.txs[x] == mid.txs[x]);
        assert TxOk(mid, mid.txs[h]);
      }
      WorldKeeps(s, s');
    } else {
      assert TxOk(s, s.txs[h]);
      WorldKeeps(s, s');
    }
  }

  lemma ChildKeeps(s: State, s': State, c: ChildId)
    requires Inv(s) && c in s.children && c in s'.children && s' == s.(children := s.children[c := s'.children[c]])
    requires var (x, y) := (s.children[c], s'.children[c]);
             || (x == Born && y.Ready?)
             || (x.Go? && y == Broadcast(x.sig))
             || (!x.Exited? && y == Exited(false))
             || (x.Broadcast? && x.sig in s.landed && y == Exited(true))
    ensures Inv(s') && Grows(s, s')
  {
    AuxGrows(s, s');
    if s.arb.Some? {
      EntryGrows(s, s', s.arb.value);
    }
  }

  lemma LandKeeps(s: State, sig: Signature)
    requires Inv(s) && Enabled(s, Land(sig))
    ensures Inv(Do(s, Land(sig))) && Grows(s, Do(s, Land(sig)))
  {
    WorldKeeps(s, Do(s, Land(sig)));
  }

  lemma CrashKeeps(s: State)
    requires Inv(s)
    ensures Inv(Do(s, Crash)) && Grows(s, Do(s, Crash))
  {
    var s' := Do(s, Crash);
    if s.arb.Some? {
      EntryGrows(s, s', s.arb.value);
    }
  }

  lemma ChildStepKeeps(s: State, step: Step)
    requires Inv(s) && Enabled(s, step)
    requires step.ChildSigns? || step.ChildBroadcasts? || step.ChildExits?
    ensures Inv(Do(s, step)) && Grows(s, Do(s, step))
  {
    match step
    case ChildSigns(c, _) => ChildKeeps(s, Do(s, step), c);
    case ChildBroadcasts(c) => ChildKeeps(s, Do(s, step), c);
    case ChildExits(c, _) => ChildKeeps(s, Do(s, step), c);
  }

  lemma WorldStepKeeps(s: State, step: Step)
    requires Inv(s) && Enabled(s, step)
    requires step.Tick? || step.OtherParty? || step.Mine? || step.Land? || step.Crash? || step.Throw?
    ensures Inv(Do(s, step)) && Grows(s, Do(s, step))
  {
    match step
    case Tick(_) => WorldKeeps(s, Do(s, step));
    case OtherParty(view) => ChainMoves(s, Do(s, step), view);
    case Mine(h, accepted) => MineKeeps(s, h, accepted);
    case Land(sig) => LandKeeps(s, sig);
    case Crash => CrashKeeps(s);
    case Throw(slot) => SlotMoves(s, Do(s, step), slot, Idle);
  }

  // ------------------------------------------------------------------ the main task's steps

  /** A main step that changes neither chain nor transactions nor payout state. */
  lemma MainStepKeeps(s: State, s': State)
    requires Inv(s)
    requires s' == s.(main := s'.main, arb := s'.arb)
    requires MainOk(s') && (Early(s') ==> Early(s)) && (s'.arb.Some? ==> EntryOk(s', s'.arb.value))
    ensures Inv(s') && Grows(s, s')
  {
    AuxGrows(s, s');
  }

  lemma SignPostKeeps(s: State, h: TxHash)
    requires Inv(s) && Enabled(s, SignPost(h))
    ensures Inv(Do(s, SignPost(h))) && Grows(s, Do(s, SignPost(h)))
  {
    var s' := Do(s, SignPost(h));
    AuxGrows(s, s');
    assert s'.txs == s.txs[h := Tx(PostTx(s.main.solver), Signed)];
    assert TxsOk(s');
  }

  lemma PostSentKeeps(s: State, solver: Address, h: TxHash)
    requires Inv(s) && s.main == PostSigned(solver, h)
    ensures Inv(s.(main := PostSent(solver, h))) && Grows(s, s.(main := PostSent(solver, h)))
  {
    MainStepKeeps(s, s.(main := PostSent(solver, h)));
  }

  lemma ConfirmSentKeeps(s: State, h: TxHash)
    requires Inv(s) && s.main == ConfirmSigned(h)
    ensures Inv(s.(main := ConfirmSent(h))) && Grows(s, s.(main := ConfirmSent(h)))
  {
    MainStepKeeps(s, s.(main := ConfirmSent(h)));
  }

  lemma MainNeverSlashes(s: State)
    requires Inv(s)
    ensures !s.main.SlashSigned?
  {
  }

  lemma SendFromMain(s: State)
    requires Inv(s) && (s.main.PostSigned? || s.main.ConfirmSigned? || s.main.SlashSigned?)
    ensures Inv(SendFrom(s, Main)) && Grows(s, SendFrom(s, Main))
  {
    var h := s.main.hash;
    var mid := MarkSent(s, h);
    MarkSentKeeps(s, h);
    assert mid == s.(txs := mid.txs);
    if s.main.PostSigned? {
      PostSentKeeps(mid, s.main.solver, h);
      GrowsTransitive(s, mid, mid.(main := PostSent(s.main.solver, h)));
    } else {
      MainNeverSlashes(s);
      ConfirmSentKeeps(mid, h);
      GrowsTransitive(s, mid, mid.(main := ConfirmSent(h)));
    }
  }

  lemma SendFromAux(s: State, n: nat)
    requires Inv(s) && (PcAt(s, Aux(n)).PostSigned? || PcAt(s, Aux(n)).ConfirmSigned? || PcAt(s, Aux(n)).SlashSigned?)
    ensures Inv(SendFrom(s, Aux(n))) && Grows(s, SendFrom(s, Aux(n)))
  {
    var s' := SendFrom(s, Aux(n));
    TasksAreLate(s, Aux(n));
    var h := PcAt(s, Aux(n)).hash;
    var mid := MarkSent(s, h);
    var next := if PcAt(s, Aux(n)).ConfirmSigned? then ConfirmSent(h) else SlashSent(h);
    MarkSentKeeps(s, h);
    assert s' == Goto(mid, Aux(n), next);
    SlotMoves(mid, s', Aux(n), next);
    GrowsTransitive(s, mid, s');
  }

  /** Sending changes only one transaction's fate. */
  lemma SendKeeps(s: State, slot: Slot)
    requires Inv(s) && Enabled(s, SendTx(slot))
    ensures Inv(Do(s, SendTx(slot))) && Grows(s, Do(s, SendTx(slot)))
  {
    match slot
    case Main => SendFromMain(s);
    case Aux(n) => SendFromAux(s, n);
  }

  lemma MarkSentKeeps(s: State, h: TxHash)
    requires Inv(s)
    ensures Inv(MarkSent(s, h)) && Grows(s, MarkSent(s, h))
  {
    assert TxsOk(MarkSent(s, h)) by {
      assert h in s.txs ==> TxOk(s, s.txs[h]);
    }
    WorldKeeps(s, MarkSent(s, h));
  }

  /** A confirmation or slash task moving within its own program points. */
  lemma SlotMoves(s: State, s': State, slot: Slot, pc: Pc)
    requires Inv(s) && s' == Goto(s, slot, pc)
    requires slot.Aux? ==> (PcAt(s, slot) != Idle || !Early(s)) && (pc.Idle? || AuxPcOk(s, pc))
    requires slot.Main? ==> MainOk(s')
    ensures Inv(s') && Grows(s, s')
  {
    if s.arb.Some? {
      EntryGrows(s, s', s.arb.value);
    }
    if slot.Aux? {
      assert forall n :: n in s'.aux ==> s'.aux[n] == pc || (n in s.aux && s'.aux[n] == s.aux[n]);
      forall n | n in s'.aux
        ensures AuxPcOk(s', s'.aux[n])
      {
        AuxPcGrows(s, s', s'.aux[n]);
      }
      MainGrows(s, s');
    } else {
      AuxGrows(s, s');
    }
  }

  lemma PostDoneKeeps(s: State, ok: bool, reported: bool)
    requires Inv(s) && Enabled(s, PostDone(ok, reported))
    ensures Inv(Do(s, PostDone(ok, reported))) && Grows(s, Do(s, PostDone(ok, reported)))
  {
    if ok {
      assert TxOk(s, s.txs[s.main.hash]);
    }
    MainStepKeeps(s, Do(s, PostDone(ok, reported)));
  }

  lemma VerifyKeeps(s: State, view: OnChain)
    requires Inv(s) && Enabled(s, Verify(view))
    ensures Inv(Do(s, Verify(view))) && Grows(s, Do(s, Verify(view)))
  {
    SeenIsLatched(s, view);
    MainStepKeeps(s, Do(s, Verify(view)));
  }

  lemma AttemptKeeps(s: State, c: ChildId)
    requires Inv(s) && s.main.Paying? && c !in s.children
    ensures Inv(AttemptPayout(s, c)) && Grows(s, AttemptPayout(s, c))
  {
    if s.pay.None? {
      SpawnKeeps(s, c);
    } else {
      MainStepKeeps(s, AttemptPayout(s, c));
    }
  }

  lemma SpawnKeeps(s: State, c: ChildId)
    requires Inv(s) && s.main.Paying? && s.pay.None? && c !in s.children
    ensures var s' := s.(children := s.children[c := Born], main := Spawned(s.main.solver, c));
            Inv(s') && Grows(s, s')
  {
    var s' := s.(children := s.children[c := Born], main := Spawned(s.main.solver, c));
    AuxGrows(s, s');
    if s.arb.Some? {
      EntryGrows(s, s', s.arb.value);
    }
  }

  lemma RecordKeeps(s: State)
    requires Inv(s) && Enabled(s, RecordSignature)
    ensures Inv(Do(s, RecordSignature)) && Grows(s, Do(s, RecordSignature))
  {
    var s' := Do(s, RecordSignature);
    assert forall sig :: sig !in s.released;
    assert s.released == {};
    AuxGrows(s, s');
    if s.arb.Some? {
      EntryGrows(s, s', s.arb.value);
    }
    forall h | h in s'.txs
      ensures TxOk(s', s'.txs[h])
    {
      assert TxOk(s, s.txs[h]);
    }
  }

  lemma ReleaseKeeps(s: State)
    requires Inv(s) && s.main.Recorded?
    ensures Inv(Release(s)) && Grows(s, Release(s))
  {
    var s' := Release(s);
    AuxGrows(s, s');
    if s.arb.Some? {
      EntryGrows(s, s', s.arb.value);
    }
  }

  lemma PaySettles(s: State, s': State)
    requires Inv(s) && PayoutLanded(s) && s' == s.(pay := Some(MarkedSettled(s.pay)), main := s'.main)
    requires MainOk(s')
    ensures Inv(s') && Grows(s, s')
  {
    AuxGrows(s, s');
    if s.arb.Some? {
      EntryGrows(s, s', s.arb.value);
    }
    forall h | h in s'.txs
      ensures TxOk(s', s'.txs[h])
    {
      assert TxOk(s, s.txs[h]);
    }
  }

  lemma ChildClosedKeeps(s: State)
    requires Inv(s) && (s.main.Spawned? || s.main.Recorded? || s.main.Released?)
    requires s.main.child in s.children && s.children[s.main.child].Exited?
    ensures Inv(CloseChild(s)) && Grows(s, CloseChild(s))
  {
    if s.children[s.main.child] == Exited(true) {
      PaySettles(s, CloseChild(s));
    } else {
      MainStepKeeps(s, CloseChild(s));
    }
  }

  lemma ResolveKeeps(s: State, view: OnChain)
    requires Inv(s) && s.main.ReceiptRead? && view in s.history
    ensures Inv(Resolve(s, view)) && Grows(s, Resolve(s, view))
  {
    SeenIsLatched(s, view);
    MainStepKeeps(s, Resolve(s, view));
  }

  lemma ReceiptKeeps(s: State, r: Receipt)
    requires Inv(s) && Enabled(s, ReadReceipt(r))
    ensures Inv(Do(s, ReadReceipt(r))) && Grows(s, Do(s, ReadReceipt(r)))
  {
    if r == Success && s.main.entry.stage == PostingCollateral {
      assert TxOk(s, s.txs[s.main.entry.collateralTx.value]);
    }
    MainStepKeeps(s, Do(s, ReadReceipt(r)));
  }

  // ------------------------------------------------------------------ confirmation and slashing

  /** A task with a ledger write at a late stage. */
  lemma LateWrite(s: State, s': State, stage: Stage, patch: Patch)
    requires Inv(s) && s' == SetStage(s, stage, patch) && !Early(s)
    requires stage in {CollateralPosted, Confirming, Confirmed, Slashing, Slashed} && EntryOk(s', s'.arb.value)
    ensures Inv(s') && Grows(s, s')
  {
    AuxGrows(s, s');
    match s.main
    case Reconciling(e) => EntryGrows(s, s', e);
    case ReceiptRead(e, _) => EntryGrows(s, s', e);
    case _ =>
  }

  /** A task that signs a transaction it is entitled to. */
  lemma SignKeeps(s: State, s': State, h: TxHash, kind: Kind)
    requires Inv(s) && h !in s.txs && s' == Sign(s, h, kind) && (kind == ConfirmTx ==> Paid(s))
    ensures Inv(s') && Grows(s, s')
  {
    assert TxsOk(s') by {
      forall x | x in s'.txs
        ensures TxOk(s', s'.txs[x])
      {
        assert x != h ==> TxOk(s, s.txs[x]);
      }
    }
    WorldKeeps(s, s');
  }

  lemma TasksAreLate(s: State, slot: Slot)
    requires Inv(s) && PcAt(s, slot) != Idle
    requires slot.Aux? || s.main.ConfirmLoop? || s.main.ConfirmReady? || s.main.ConfirmSigned? || s.main.ConfirmSent?
    ensures !Early(s) && (slot.Aux? ==> AuxPcOk(s, PcAt(s, slot))) && HasSolver(s)
  {
  }

  /** The ledger write after a reading that shows the intent settled. */
  lemma SettlementNoted(s: State, slot: Slot, view: OnChain, patch: Patch)
    requires Inv(s) && PcAt(s, slot).ConfirmLoop? && view in s.history && view.status == IM.Settled
    requires patch == NO_PATCH.(expiry := Put(Some(s.expiry)))
    ensures Inv(SetStage(s, Confirmed, patch)) && Grows(s, SetStage(s, Confirmed, patch))
  {
    TasksAreLate(s, slot);
    SeenIsLatched(s, view);
    LateWrite(s, SetStage(s, Confirmed, patch), Confirmed, patch);
  }

  lemma ConfirmTaskMoves(s: State, slot: Slot, pc: Pc)
    requires Inv(s) && PcAt(s, slot).ConfirmLoop? && (pc.Idle? || pc.ConfirmReady?)
    ensures Inv(Goto(s, slot, pc)) && Grows(s, Goto(s, slot, pc))
  {
    TasksAreLate(s, slot);
    SlotMoves(s, Goto(s, slot, pc), slot, pc);
  }

  lemma ReadBeforeConfirmKeeps(s: State, slot: Slot, view: OnChain)
    requires Inv(s) && PcAt(s, slot).ConfirmLoop? && view in s.history
    ensures Inv(BeforeConfirm(s, slot, view)) && Grows(s, BeforeConfirm(s, slot, view))
  {
    if view.status == IM.Settled {
      var patch := NO_PATCH.(expiry := Put(Some(s.expiry)));
      var mid := SetStage(s, Confirmed, patch);
      SettlementNoted(s, slot, view, patch);
      ConfirmTaskMoves(mid, slot, Idle);
      GrowsTransitive(s, mid, Goto(mid, slot, Idle));
    } else {
      ConfirmTaskMoves(s, slot, Idle);
      ConfirmTaskMoves(s, slot, ConfirmReady);
    }
  }

  /** The signature and the ledger write, before the task itself moves. */
  lemma ConfirmNoted(s: State, slot: Slot, h: TxHash, patch: Patch, s2: State)
    requires Inv(s) && PcAt(s, slot).ConfirmReady? && h !in s.txs
    requires s2 == SetStage(Sign(s, h, ConfirmTx), Confirming, patch)
    requires patch == NO_PATCH.(confirmTx := Put(Some(h)), expiry := Put(Some(s.expiry)))
    ensures Inv(s2) && Grows(s, s2)
  {
    var s1 := Sign(s, h, ConfirmTx);
    TasksAreLate(s, slot);
    SignKeeps(s, s1, h, ConfirmTx);
    LateWrite(s1, s2, Confirming, patch);
    GrowsTransitive(s, s1, s2);
  }

  lemma SignConfirmKeeps(s: State, slot: Slot, h: TxHash)
    requires Inv(s) && Enabled(s, SignConfirm(slot, h))
    ensures Inv(Do(s, SignConfirm(slot, h))) && Grows(s, Do(s, SignConfirm(slot, h)))
  {
    var s', patch := Do(s, SignConfirm(slot, h)), NO_PATCH.(confirmTx := Put(Some(h)), expiry := Put(Some(s.expiry)));
    var s2 := SetStage(Sign(s, h, ConfirmTx), Confirming, patch);
    ConfirmNoted(s, slot, h, patch, s2);
    SlotMoves(s2, s', slot, ConfirmSigned(h));
    GrowsTransitive(s, s2, s');
  }

  /** The ledger write after a confirmation that succeeded. */
  lemma ConfirmationNoted(s: State, slot: Slot, patch: Patch)
    requires Inv(s) && PcAt(s, slot).ConfirmSent? && PcAt(s, slot).hash in s.txs && s.txs[PcAt(s, slot).hash].fate == Succeeded
    requires patch == NO_PATCH.(confirmTx := Put(Some(PcAt(s, slot).hash)), expiry := Put(Some(s.expiry)))
    ensures Inv(SetStage(s, Confirmed, patch)) && Grows(s, SetStage(s, Confirmed, patch))
  {
    TasksAreLate(s, slot);
    assert TxOk(s, s.txs[PcAt(s, slot).hash]);
    LateWrite(s, SetStage(s, Confirmed, patch), Confirmed, patch);
  }

  lemma ConfirmDoneKeeps(s: State, slot: Slot, ok: bool, retry: bool)
    requires Inv(s) && Enabled(s, ConfirmDone(slot, ok, retry))
    ensures Inv(FinishConfirm(s, slot, ok, retry)) && Grows(s, FinishConfirm(s, slot, ok, retry))
  {
    var s' := FinishConfirm(s, slot, ok, retry);
    TasksAreLate(s, slot);
    if ok {
      var patch := NO_PATCH.(confirmTx := Put(Some(PcAt(s, slot).hash)), expiry := Put(Some(s.expiry)));
      var mid := SetStage(s, Confirmed, patch);
      ConfirmationNoted(s, slot, patch);
      SlotMoves(mid, s', slot, Idle);
      GrowsTransitive(s, mid, s');
    } else {
      SlotMoves(s, s', slot, if retry then ConfirmLoop else Idle);
    }
  }

  lemma CheckPayoutKeeps(s: State, n: nat)
    requires Inv(s) && PcAt(s, Aux(n)).PassStarted?
    ensures Inv(CheckedPayout(s, n)) && Grows(s, CheckedPayout(s, n))
  {
    var s' := CheckedPayout(s, n);
    TasksAreLate(s, Aux(n));
    if s.pay.Some? && s.pay.value.Settling? && s.pay.value.sig in s.landed {
      var mid := s.(pay := Some(MarkedSettled(s.pay)));
      SettlingResolves(s, mid);
      SlotMoves(mid, s', Aux(n), ConfirmLoop);
      GrowsTransitive(s, mid, s');
    } else {
      SlotMoves(s, s', Aux(n), PcAt(s', Aux(n)));
    }
  }

  /** While the parent has not written GO, nothing of this payout can have landed. */
  lemma NotYetReleased(s: State)
    requires Inv(s) && s.main.Recorded?
    ensures s.landed == {}
  {
  }

  /** Settling the record disturbs no main task: before GO nothing can have landed, after it only the status matters. */
  lemma SettlingKeepsMain(s: State, s': State)
    requires Inv(s) && Grows(s, s') && PayoutLanded(s)
    requires s' == s.(pay := Some(MarkedSettled(s.pay)))
    ensures MainOk(s')
  {
    match s.main
    case Recorded(_, _, _) => NotYetReleased(s);
    case Reconciling(e) => EntryGrows(s, s', e);
    case ReceiptRead(e, _) => EntryGrows(s, s', e);
    case _ =>
  }

  lemma SettlingResolves(s: State, s': State)
    requires Inv(s) && s.pay.Some? && s.pay.value.Settling? && s.pay.value.sig in s.landed
    requires s' == s.(pay := Some(MarkedSettled(s.pay)))
    ensures Inv(s') && Grows(s, s') && Paid(s')
  {
    assert Grows(s, s');
    SettlingKeepsMain(s, s');
    PaySettles(s, s');
  }

  /** The signature and the ledger write, before the task itself moves. */
  lemma SlashNoted(s: State, n: nat, h: TxHash, patch: Patch, s2: State)
    requires Inv(s) && Enabled(s, SignSlash(n, h)) && patch == NO_PATCH.(slashTx := Put(Some(h)))
    requires s2 == SetStage(Sign(s, h, SlashTx), Slashing, patch)
    ensures Inv(s2) && Grows(s, s2)
  {
    var s1 := Sign(s, h, SlashTx);
    TasksAreLate(s, Aux(n));
    SignKeeps(s, s1, h, SlashTx);
    LateWrite(s1, s2, Slashing, patch);
    GrowsTransitive(s, s1, s2);
  }

  lemma SignSlashKeeps(s: State, n: nat, h: TxHash)
    requires Inv(s) && Enabled(s, SignSlash(n, h))
    ensures Inv(Do(s, SignSlash(n, h))) && Grows(s, Do(s, SignSlash(n, h)))
  {
    var s', patch := Do(s, SignSlash(n, h)), NO_PATCH.(slashTx := Put(Some(h)));
    var s2 := SetStage(Sign(s, h, SlashTx), Slashing, patch);
    SlashNoted(s, n, h, patch, s2);
    SlotMoves(s2, s', Aux(n), SlashSigned(h));
    GrowsTransitive(s, s2, s');
  }

  lemma SlashDoneKeeps(s: State, n: nat, ok: bool)
    requires Inv(s) && Enabled(s, SlashDone(n, ok))
    ensures Inv(Do(s, SlashDone(n, ok))) && Grows(s, Do(s, SlashDone(n, ok)))
  {
    var s' := Do(s, SlashDone(n, ok));
    TasksAreLate(s, Aux(n));
    if ok {
      var h := PcAt(s, Aux(n)).hash;
      assert TxOk(s, s.txs[h]);
      var patch := NO_PATCH.(slashTx := Put(Some(h)));
      var mid := SetStage(s, Slashed, patch);
      LateWrite(s, mid, Slashed, patch);
      SlotMoves(mid, s', Aux(n), Idle);
      GrowsTransitive(s, mid, s');
    } else {
      SlotMoves(s, s', Aux(n), Idle);
    }
  }

  lemma StartPassKeeps(s: State, n: nat)
    requires Inv(s) && Enabled(s, StartPass(n))
    ensures Inv(Do(s, StartPass(n))) && Grows(s, Do(s, StartPass(n)))
  {
    SlotMoves(s, Do(s, StartPass(n)), Aux(n), PassStarted);
  }

  lemma ListForSlashKeeps(s: State, n: nat)
    requires Inv(s) && Enabled(s, ListForSlash(n))
    ensures Inv(Do(s, ListForSlash(n))) && Grows(s, Do(s, ListForSlash(n)))
  {
    SlotMoves(s, Do(s, ListForSlash(n)), Aux(n), Listed(s.expiry));
  }

  lemma ReconcilePayoutKeeps(s: State, n: nat)
    requires Inv(s) && n !in s.aux && s.pay.Some? && s.pay.value.Settling? && s.pay.value.sig in s.landed
    ensures Inv(ReconciledPayout(s, n)) && Grows(s, ReconciledPayout(s, n))
  {
    var s', mid := ReconciledPayout(s, n), s.(pay := Some(MarkedSettled(s.pay)));
    SettlingResolves(s, mid);
    SlotMoves(mid, s', Aux(n), Resumable);
    GrowsTransitive(s, mid, s');
  }

  lemma ResumeSettledKeeps(s: State, n: nat)
    requires Inv(s) && PcAt(s, Aux(n)).Resumable?
    ensures Inv(ResumedPayout(s, n)) && Grows(s, ResumedPayout(s, n))
  {
    TasksAreLate(s, Aux(n));
    SlotMoves(s, ResumedPayout(s, n), Aux(n), if StageIs(s, CollateralPosted) then ConfirmLoop else Idle);
  }

  // ------------------------------------------------------------------ every step, every run

  lemma StartKeeps(s: State, solver: Address)
    requires Inv(s) && Enabled(s, Start(solver))
    ensures Inv(Do(s, Start(solver))) && Grows(s, Do(s, Start(solver)))
  {
    MainStepKeeps(s, Do(s, Start(solver)));
  }

  lemma RefuseKeeps(s: State)
    requires Inv(s) && Enabled(s, Refuse)
    ensures Inv(Do(s, Refuse)) && Grows(s, Do(s, Refuse))
  {
    MainStepKeeps(s, Do(s, Refuse));
  }

  lemma GiveUpKeeps(s: State)
    requires Inv(s) && Enabled(s, GiveUp)
    ensures Inv(Do(s, GiveUp)) && Grows(s, Do(s, GiveUp))
  {
    MainStepKeeps(s, Do(s, GiveUp));
  }

  lemma ResumeKeeps(s: State)
    requires Inv(s) && Enabled(s, Resume)
    ensures Inv(Do(s, Resume)) && Grows(s, Do(s, Resume))
  {
    MainStepKeeps(s, Do(s, Resume));
  }

  lemma StartReconcileKeeps(s: State)
    requires Inv(s) && Enabled(s, StartReconcile)
    ensures Inv(Do(s, StartReconcile)) && Grows(s, Do(s, StartReconcile))
  {
    MainStepKeeps(s, Do(s, StartReconcile));
  }

  predicate Sequencing(step: Step) {
    step.Start? || step.Refuse? || step.SignPost? || step.PostDone? || step.Verify? || step.GiveUp?
  }

  predicate PayingOut(step: Step) {
    step.Attempt? || step.RecordSignature? || step.ReleaseChild? || step.ChildClosed?
  }

  predicate Recovering(step: Step) {
    step.Resume? || step.StartReconcile? || step.ReadReceipt? || step.ReadStatus? || step.ReconcilePayout? || step.ResumeSettled?
  }

  predicate Closing(step: Step) {
    step.SendTx? || step.ReadBeforeConfirm? || step.SignConfirm? || step.ConfirmDone?
  }

  predicate Slashes(step: Step) {
    step.ListForSlash? || step.StartPass? || step.CheckPayout? || step.SignSlash? || step.SlashDone?
  }

  lemma SequencingKeeps(s: State, step: Step)
    requires Inv(s) && Enabled(s, step) && Sequencing(step)
    ensures Inv(Do(s, step)) && Grows(s, Do(s, step))
  {
    match step
    case Start(solver) => StartKeeps(s, solver);
    case Refuse => RefuseKeeps(s);
    case SignPost(h) => SignPostKeeps(s, h);
    case PostDone(ok, reported) => PostDoneKeeps(s, ok, reported);
    case Verify(view) => VerifyKeeps(s, view);
    case GiveUp => GiveUpKeeps(s);
  }

  lemma PayingOutKeeps(s: State, step: Step)
    requires Inv(s) && Enabled(s, step) && PayingOut(step)
    ensures Inv(Do(s, step)) && Grows(s, Do(s, step))
  {
    match step
    case Attempt(c) => AttemptKeeps(s, c);
    case RecordSignature => RecordKeeps(s);
    case ReleaseChild => ReleaseKeeps(s);
    case ChildClosed => ChildClosedKeeps(s);
  }

  lemma RecoveringKeeps(s: State, step: Step)
    requires Inv(s) && Enabled(s, step) && Recovering(step)
    ensures Inv(Do(s, step)) && Grows(s, Do(s, step))
  {
    match step
    case Resume => ResumeKeeps(s);
    case StartReconcile => StartReconcileKeeps(s);
    case ReadReceipt(r) => ReceiptKeeps(s, r);
    case ReadStatus(view) => ResolveKeeps(s, view);
    case ReconcilePayout(n) => ReconcilePayoutKeeps(s, n);
    case ResumeSettled(n) => ResumeSettledKeeps(s, n);
  }

  lemma ClosingKeeps(s: State, step: Step)
    requires Inv(s) && Enabled(s, step) && Closing(step)
    ensures Inv(Do(s, step)) && Grows(s, Do(s, step))
  {
    match step
    case SendTx(slot) => SendKeeps(s, slot);
    case ReadBeforeConfirm(slot, view) => ReadBeforeConfirmKeeps(s, slot, view);
    case SignConfirm(slot, h) => SignConfirmKeeps(s, slot, h);
    case ConfirmDone(slot, ok, retry) => ConfirmDoneKeeps(s, slot, ok, retry);
  }

  lemma SlashesKeep(s: State, step: Step)
    requires Inv(s) && Enabled(s, step) && Slashes(step)
    ensures Inv(Do(s, step)) && Grows(s, Do(s, step))
  {
    match step
    case ListForSlash(n) => ListForSlashKeeps(s, n);
    case StartPass(n) => StartPassKeeps(s, n);
    case CheckPayout(n) => CheckPayoutKeeps(s, n);
    case SignSlash(n, h) => SignSlashKeeps(s, n, h);
    case SlashDone(n, ok) => SlashDoneKeeps(s, n, ok);
  }

  lemma StepKeeps(s: State, step: Step)
    requires Inv(s) && Enabled(s, step)
    ensures Inv(Do(s, step)) && Grows(s, Do(s, step))
  {
    if Sequencing(step) {
      SequencingKeeps(s, step);
    } else if PayingOut(step) {
      PayingOutKeeps(s, step);
    } else if Recovering(step) {
      RecoveringKeeps(s, step);
    } else if Closing(step) {
      ClosingKeeps(s, step);
    } else if Slashes(step) {
      SlashesKeep(s, step);
    } else if step.ChildSigns? || step.ChildBroadcasts? || step.ChildExits? {
      ChildStepKeeps(s, step);
    } else {
      WorldStepKeeps(s, step);
    }
  }

  lemma InitialHolds(s: State)
    requires Initial(s)
    ensures Inv(s)
  {
  }

  lemma {:induction false} RunKeeps(s: State, steps: seq<Step>, s': State)
    requires Inv(s) && Runs(s, steps, s')
    ensures Inv(s') && Grows(s, s')
    decreases |steps|
  {
    if steps != [] {
      var mid := Do(s, steps[0]);
      StepKeeps(s, steps[0]);
      RunKeeps(mid, steps[1..], s');
      GrowsTransitive(s, mid, s');
    }
  }
}
