/** The settlement protocol for one intent, as steps over two durable ledgers, volatile tasks, child
    processes and two chains. A crash wipes the tasks; reads of Arbitrum may lag; the slash poller and
    the periodic reconciliation run beside the main task, which the job queue keeps unique. */
module Settlement {
  import opened Options
  import opened ArbitrumLedger
  import opened SettledLedger
  import IM = IntentManager

  type ChildId = nat
  const ZERO: Address := 0

  /** What intents(id) shows of one intent. */
  datatype OnChain = OnChain(status: IM.Status, solver: Address)

  /** The contract's latch on that view: see IntentManagerRuns.RunLatched. */
  predicate Latch(a: OnChain, b: OnChain) {
    && (a.status != IM.Pending ==> b == a)
    && (a.solver != ZERO ==> b.solver == a.solver)
  }

  /** One transaction's effect on that view: see IntentManagerRuns.StepEvolves. */
  predicate ContractMove(a: OnChain, b: OnChain, now: nat, expiry: nat) {
    && Latch(a, b)
    && (b.status != a.status ==> (b.status == IM.Expired <==> a.solver == ZERO) && (b.status == IM.Settled || now >= expiry))
  }

  datatype Kind = PostTx(solver: Address) | ConfirmTx | SlashTx
  datatype Fate = Signed | Sent | Succeeded | Reverted
  datatype Tx = Tx(kind: Kind, fate: Fate)

  /** settle_intent.js: signs, prints the signature, waits for GO, broadcasts, polls. */
  datatype Child = Born | Ready(sig: Signature) | Go(sig: Signature) | Broadcast(sig: Signature) | Exited(ok: bool)

  /** Where a task stands. */
  datatype Pc =
    | Idle
    | Gated(solver: Address)
    | PostSigned(solver: Address, hash: TxHash)
    | PostSent(solver: Address, hash: TxHash)
    | Verifying(solver: Address)
    | Paying(solver: Address)
    | Spawned(solver: Address, child: ChildId)
    | Recorded(solver: Address, child: ChildId, sig: Signature)
    | Released(solver: Address, child: ChildId, sig: Signature)
    | ConfirmLoop
    | ConfirmReady
    | ConfirmSigned(hash: TxHash)
    | ConfirmSent(hash: TxHash)
    | Listed(expiry: nat)
    | PassStarted
    | SlashReady
    | Resumable
    | SlashSigned(hash: TxHash)
    | SlashSent(hash: TxHash)
    | Reconciling(entry: Entry)
    | ReceiptRead(entry: Entry, receipt: Receipt)

  datatype Receipt = Success | Failure | NoReceipt

  datatype Slot = Main | Aux(n: nat)

  datatype State = State(
    arb: Option<Entry>, pay: Option<PayEntry>,
    main: Pc, aux: map<nat, Pc>,
    children: map<ChildId, Child>,
    txs: map<TxHash, Tx>, history: seq<OnChain>,
    released: set<Signature>, landed: set<Signature>,
    now: nat, expiry: nat, margin: nat, defaultSolver: Address)

  function Current(s: State): OnChain
    requires s.history != []
  {
    s.history[|s.history| - 1]
  }

  function PcAt(s: State, slot: Slot): Pc {
    match slot
    case Main => s.main
    case Aux(n) => if n in s.aux then s.aux[n] else Idle
  }

  function Goto(s: State, slot: Slot, pc: Pc): State {
    match slot
    case Main => s.(main := pc)
    case Aux(n) => s.(aux := if pc.Idle? then s.aux - {n} else s.aux[n := pc])
  }

  function SetStage(s: State, stage: Stage, patch: Patch): State {
    s.(arb := Some(Merge(s.arb, patch, stage)))
  }

  predicate StageIs(s: State, stage: Stage) {
    s.arb.Some? && s.arb.value.stage == stage
  }

  /** The recorded payout signature has landed on Solana. */
  predicate PayoutLanded(s: State) {
    s.pay.Some? && SigOf(s.pay.value).Some? && SigOf(s.pay.value).value in s.landed
  }

  predicate IsSettled(s: State) {
    s.pay.Some? && s.pay.value.Settled?
  }

  datatype Step =
    // the world
    | Tick(seconds: nat)
    | OtherParty(view: OnChain)
    | Mine(hash: TxHash, accepted: bool)
    | Land(sig: Signature)
    | Crash
    | Throw(slot: Slot)
    | ChildSigns(child: ChildId, sig: Signature)
    | ChildBroadcasts(child: ChildId)
    | ChildExits(child: ChildId, ok: bool)
    // the sequence; Start is a gate passed on the clock, the gate's other checks may still refuse
    | Start(solver: Address)
    | Refuse
    | SignPost(hash: TxHash)
    | SendTx(slot: Slot)
    | PostDone(ok: bool, reported: bool)
    | Verify(view: OnChain)
    | Attempt(child: ChildId)
    | RecordSignature
    | ReleaseChild
    | ChildClosed
    | GiveUp
    // confirmation, on any task
    | ReadBeforeConfirm(slot: Slot, view: OnChain)
    | SignConfirm(slot: Slot, hash: TxHash)
    | ConfirmDone(slot: Slot, ok: bool, retry: bool)
    // the slash poller
    | ListForSlash(n: nat)
    | StartPass(n: nat)
    | CheckPayout(n: nat)
    | SignSlash(n: nat, hash: TxHash)
    | SlashDone(n: nat, ok: bool)
    // reconciliation
    | ReconcilePayout(n: nat)
    | ResumeSettled(n: nat)
    | Resume
    | StartReconcile
    | ReadReceipt(receipt: Receipt)
    | ReadStatus(view: OnChain)

  function ReconcileHash(e: Entry): Option<TxHash> {
    match e.stage
    case PostingCollateral => e.collateralTx
    case Confirming => e.confirmTx
    case _ => e.slashTx
  }

  predicate ReceiptOf(s: State, hash: Option<TxHash>, receipt: Receipt) {
    match receipt
    case NoReceipt => true
    case Success => hash.Some? && hash.value in s.txs && s.txs[hash.value].fate == Succeeded
    case Failure => hash.Some? && hash.value in s.txs && s.txs[hash.value].fate == Reverted
  }

  /** postCollateral, confirmSettlement and slashSolver succeed only when these checks of the contract do;
      others, such as approval, a pause or a rotated role, may still make them revert. */
  predicate ContractAccepts(s: State, kind: Kind)
    requires s.history != []
  {
    var c := Current(s);
    match kind
    case PostTx(solver) => solver != ZERO && c.solver == ZERO && s.now < s.expiry
    case ConfirmTx => c.status == IM.Pending && c.solver != ZERO
    case SlashTx => c.status == IM.Pending && c.solver != ZERO && s.now >= s.expiry
  }

  function AfterSuccess(c: OnChain, kind: Kind): OnChain {
    match kind
    case PostTx(solver) => c.(solver := solver)
    case ConfirmTx => c.(status := IM.Settled)
    case SlashTx => c.(status := IM.Slashed)
  }

  predicate NothingPosted(s: State) {
    s.arb.None? || StageIs(s, CollateralFailed)
  }

  /** No sequence runs and none has got anywhere. */
  predicate Startable(s: State) {
    s.main.Idle? && NothingPosted(s)
  }

  predicate Enabled(s: State, step: Step)
    requires s.history != []
  {
    match step
    case Tick(_) => true
    case OtherParty(view) => ContractMove(Current(s), view, s.now, s.expiry)
    case Mine(h, accepted) =>
      h in s.txs && s.txs[h].fate == Sent && (accepted ==> ContractAccepts(s, s.txs[h].kind))
    case Land(sig) => sig in s.released
    case Crash => true
    case Throw(slot) => PcAt(s, slot) != Idle
    case ChildSigns(c, _) => c in s.children && s.children[c] == Born
    case ChildBroadcasts(c) => c in s.children && s.children[c].Go?
    case ChildExits(c, ok) =>
      c in s.children && !s.children[c].Exited? && (ok ==> s.children[c].Broadcast? && s.children[c].sig in s.landed)
    case Start(solver) => Startable(s) && solver != ZERO && s.now + s.margin < s.expiry
    case Refuse => Startable(s) || s.main.Gated?
    case SignPost(h) => s.main.Gated? && h !in s.txs
    case SendTx(slot) => PcAt(s, slot).PostSigned? || PcAt(s, slot).ConfirmSigned? || PcAt(s, slot).SlashSigned?
    case PostDone(ok, reported) =>
      if ok then s.main.PostSent? && s.main.hash in s.txs && s.txs[s.main.hash].fate == Succeeded
      else if reported then s.main.PostSent? && s.main.hash in s.txs && s.txs[s.main.hash].fate == Reverted
      else s.main.Gated? || s.main.PostSigned? || s.main.PostSent?
    case Verify(view) => s.main.Verifying? && view in s.history
    case Attempt(c) => s.main.Paying? && c !in s.children
    case RecordSignature => s.main.Spawned? && s.main.child in s.children && s.children[s.main.child].Ready?
    case ReleaseChild => s.main.Recorded?
    case ChildClosed =>
      (s.main.Spawned? || s.main.Recorded? || s.main.Released?) && s.main.child in s.children && s.children[s.main.child].Exited?
    case GiveUp => s.main.Paying? && s.now + s.margin >= s.expiry
    case ReadBeforeConfirm(slot, view) => PcAt(s, slot).ConfirmLoop? && view in s.history
    case SignConfirm(slot, h) => PcAt(s, slot).ConfirmReady? && h !in s.txs
    case ConfirmDone(slot, ok, _) =>
      if ok then PcAt(s, slot).ConfirmSent? && PcAt(s, slot).hash in s.txs && s.txs[PcAt(s, slot).hash].fate == Succeeded
      else PcAt(s, slot).ConfirmReady? || PcAt(s, slot).ConfirmSigned? || PcAt(s, slot).ConfirmSent?
    case ListForSlash(n) => n !in s.aux && StageIs(s, AwaitingExpirySlash) && s.arb.value.expiry.Some?
    case StartPass(n) => PcAt(s, Aux(n)).Listed? && s.now >= PcAt(s, Aux(n)).expiry
    case CheckPayout(n) => PcAt(s, Aux(n)).PassStarted?
    case SignSlash(n, h) => PcAt(s, Aux(n)).SlashReady? && h !in s.txs
    case SlashDone(n, ok) =>
      if ok then PcAt(s, Aux(n)).SlashSent? && PcAt(s, Aux(n)).hash in s.txs && s.txs[PcAt(s, Aux(n)).hash].fate == Succeeded
      else PcAt(s, Aux(n)).SlashReady? || PcAt(s, Aux(n)).SlashSigned? || PcAt(s, Aux(n)).SlashSent?
    case ReconcilePayout(n) => n !in s.aux && s.pay.Some? && s.pay.value.Settling? && s.pay.value.sig in s.landed
    case ResumeSettled(n) => PcAt(s, Aux(n)).Resumable?
    case Resume => s.main.Idle? && StageIs(s, CollateralPosted)
    case StartReconcile => s.main.Idle? && s.arb.Some? && s.arb.value.stage in MID_SEQUENCE
    case ReadReceipt(r) => s.main.Reconciling? && ReceiptOf(s, ReconcileHash(s.main.entry), r)
    case ReadStatus(view) => s.main.ReceiptRead? && view in s.history
  }

  // ------------------------------------------------------------------ effects

  function MineTx(s: State, h: TxHash, accepted: bool): State
    requires s.history != [] && h in s.txs
  {
    var kind := s.txs[h].kind;
    if accepted then
      s.(txs := s.txs[h := Tx(kind, Succeeded)], history := s.history + [AfterSuccess(Current(s), kind)])
    else s.(txs := s.txs[h := Tx(kind, Reverted)])
  }

  function Sign(s: State, h: TxHash, kind: Kind): State {
    s.(txs := s.txs[h := Tx(kind, Signed)])
  }

  function SendFrom(s: State, slot: Slot): State {
    var pc := PcAt(s, slot);
    match pc
    case PostSigned(solver, h) => Goto(MarkSent(s, h), slot, PostSent(solver, h))
    case ConfirmSigned(h) => Goto(MarkSent(s, h), slot, ConfirmSent(h))
    case SlashSigned(h) => Goto(MarkSent(s, h), slot, SlashSent(h))
    case _ => s
  }

  function MarkSent(s: State, h: TxHash): State {
    if h in s.txs && s.txs[h].fate == Signed then s.(txs := s.txs[h := Tx(s.txs[h].kind, Sent)]) else s
  }

  function FinishPost(s: State, ok: bool, reported: bool): State {
    var known := if (ok || reported) && s.main.PostSent? then Some(s.main.hash) else None;
    var patch := NO_PATCH.(collateralTx := Put(known), expiry := Put(Some(s.expiry)));
    if ok && s.main.PostSent? then SetStage(s, CollateralPosted, patch).(main := Verifying(s.main.solver))
    else SetStage(s, CollateralFailed, patch).(main := Idle)
  }

  function AttemptPayout(s: State, c: ChildId): State
    requires s.main.Paying?
  {
    match s.pay
    case Some(Settled(_)) => s.(main := ConfirmLoop)
    case Some(Settling(_)) => s
    case None => s.(children := s.children[c := Born], main := Spawned(s.main.solver, c))
  }

  function Release(s: State): State
    requires s.main.Recorded?
  {
    var (c, sig) := (s.main.child, s.main.sig);
    var s' := s.(main := Released(s.main.solver, c, sig));
    if c in s.children && s.children[c] == Ready(sig)
    then s'.(children := s.children[c := Go(sig)], released := s.released + {sig})
    else s'
  }

  function CloseChild(s: State): State
    requires s.main.Spawned? || s.main.Recorded? || s.main.Released?
  {
    if s.main.child in s.children && s.children[s.main.child] == Exited(true)
    then s.(pay := Some(MarkedSettled(s.pay)), main := ConfirmLoop)
    else s.(main := Paying(s.main.solver))
  }

  function BeforeConfirm(s: State, slot: Slot, view: OnChain): State {
    if view.status == IM.Settled then
      Goto(SetStage(s, Confirmed, NO_PATCH.(expiry := Put(Some(s.expiry)))), slot, Idle)
    else if view.status == IM.Slashed || view.status == IM.Refunded then Goto(s, slot, Idle)
    else Goto(s, slot, ConfirmReady)
  }

  function FinishConfirm(s: State, slot: Slot, ok: bool, retry: bool): State {
    if ok && PcAt(s, slot).ConfirmSent? then
      var patch := NO_PATCH.(confirmTx := Put(Some(PcAt(s, slot).hash)), expiry := Put(Some(s.expiry)));
      Goto(SetStage(s, Confirmed, patch), slot, Idle)
    else Goto(s, slot, if retry then ConfirmLoop else Idle)
  }

  function CheckedPayout(s: State, n: nat): State
    requires PcAt(s, Aux(n)).PassStarted?
  {
    match s.pay
    case None => Goto(s, Aux(n), SlashReady)
    case Some(e) =>
      if e.Settled? then Goto(s, Aux(n), ConfirmLoop)
      else if e.sig in s.landed then Goto(s.(pay := Some(MarkedSettled(s.pay))), Aux(n), ConfirmLoop)
      else Goto(s, Aux(n), SlashReady)
  }

  function FinishSlash(s: State, n: nat, ok: bool): State {
    var pc := PcAt(s, Aux(n));
    if ok && pc.SlashSent?
    then Goto(SetStage(s, Slashed, NO_PATCH.(slashTx := Put(Some(pc.hash)))), Aux(n), Idle)
    else Goto(s, Aux(n), Idle)
  }

  /** The periodic pass settles the record; the resume it triggers looks at the stage only later. */
  function ReconciledPayout(s: State, n: nat): State {
    Goto(s.(pay := Some(MarkedSettled(s.pay))), Aux(n), Resumable)
  }

  function ResumedPayout(s: State, n: nat): State {
    Goto(s, Aux(n), if StageIs(s, CollateralPosted) then ConfirmLoop else Idle)
  }

  function ResumePosted(s: State): State
    requires s.arb.Some?
  {
    if IsSettled(s) then s.(main := ConfirmLoop)
    else s.(main := Verifying(match s.arb.value.solver case Some(a) => a case None => s.defaultSolver))
  }

  function OrHash(a: Option<TxHash>, b: Option<TxHash>): Option<TxHash> {
    if a.Some? then a else b
  }

  /** The body of the boot pass after both reads. */
  function Resolve(s: State, view: OnChain): State
    requires s.main.ReceiptRead?
  {
    var (e, hash) := (s.main.entry, ReconcileHash(s.main.entry));
    var done := s.(main := Idle);
    if view.status == IM.Settled then SetStage(done, Confirmed, NO_PATCH.(confirmTx := Put(OrHash(e.confirmTx, hash))))
    else if view.status == IM.Slashed then SetStage(done, Slashed, NO_PATCH.(slashTx := Put(OrHash(e.slashTx, hash))))
    else if view.status == IM.Refunded then done
    else if e.stage == PostingCollateral then
      match s.main.receipt
      case Success => SetStage(done, CollateralPosted, NO_PATCH.(collateralTx := Put(hash)))
      case Failure => SetStage(done, CollateralFailed, NO_PATCH.(collateralTx := Put(hash)))
      case NoReceipt => done
    else done
  }

  function Do(s: State, step: Step): State
    requires s.history != [] && Enabled(s, step)
  {
    match step
    case Tick(seconds) => s.(now := s.now + seconds)
    case OtherParty(view) => s.(history := s.history + [view])
    case Mine(h, accepted) => MineTx(s, h, accepted)
    case Land(sig) => s.(landed := s.landed + {sig})
    case Crash => s.(main := Idle, aux := map[])
    case Throw(slot) => Goto(s, slot, Idle)
    case ChildSigns(c, sig) => s.(children := s.children[c := Ready(sig)])
    case ChildBroadcasts(c) => s.(children := s.children[c := Broadcast(s.children[c].sig)])
    case ChildExits(c, ok) => s.(children := s.children[c := Exited(ok)])
    case Start(solver) => s.(main := Gated(solver))
    case Refuse => SetStage(s, CollateralFailed, NO_PATCH.(expiry := Put(Some(s.expiry)))).(main := Idle)
    case SignPost(h) =>
      var patch := NO_PATCH.(collateralTx := Put(Some(h)), expiry := Put(Some(s.expiry)), solver := Put(Some(s.main.solver)));
      SetStage(Sign(s, h, PostTx(s.main.solver)), PostingCollateral, patch).(main := PostSigned(s.main.solver, h))
    case SendTx(slot) => SendFrom(s, slot)
    case PostDone(ok, reported) => FinishPost(s, ok, reported)
    case Verify(view) =>
      s.(main := if view.solver == s.main.solver && view.status == IM.Pending then Paying(s.main.solver) else Idle)
    case Attempt(c) => AttemptPayout(s, c)
    case RecordSignature =>
      var (c, sig) := (s.main.child, s.children[s.main.child].sig);
      s.(pay := Some(Settling(sig)), main := Recorded(s.main.solver, c, sig))
    case ReleaseChild => Release(s)
    case ChildClosed => CloseChild(s)
    case GiveUp => SetStage(s, AwaitingExpirySlash, NO_PATCH.(expiry := Put(Some(s.expiry)))).(main := Idle)
    case ReadBeforeConfirm(slot, view) => BeforeConfirm(s, slot, view)
    case SignConfirm(slot, h) =>
      var patch := NO_PATCH.(confirmTx := Put(Some(h)), expiry := Put(Some(s.expiry)));
      Goto(SetStage(Sign(s, h, ConfirmTx), Confirming, patch), slot, ConfirmSigned(h))
    case ConfirmDone(slot, ok, retry) => FinishConfirm(s, slot, ok, retry)
    case ListForSlash(n) => Goto(s, Aux(n), Listed(s.arb.value.expiry.value))
    case StartPass(n) => Goto(s, Aux(n), PassStarted)
    case CheckPayout(n) => CheckedPayout(s, n)
    case SignSlash(n, h) =>
      Goto(SetStage(Sign(s, h, SlashTx), Slashing, NO_PATCH.(slashTx := Put(Some(h)))), Aux(n), SlashSigned(h))
    case SlashDone(n, ok) => FinishSlash(s, n, ok)
    case ReconcilePayout(n) => ReconciledPayout(s, n)
    case ResumeSettled(n) => ResumedPayout(s, n)
    case Resume => ResumePosted(s)
    case StartReconcile => s.(main := Reconciling(s.arb.value))
    case ReadReceipt(r) => s.(main := ReceiptRead(s.main.entry, r))
    case ReadStatus(view) => Resolve(s, view)
  }

  // ------------------------------------------------------------------ runs

  /** An intent that ended without a solver ended after its expiry. */
  predicate Punctual(s: State)
    requires s.history != []
  {
    Current(s).status != IM.Pending && Current(s).solver == ZERO ==> s.now >= s.expiry
  }

  /** Nothing recorded and nothing running, whatever the chain already shows of the intent. */
  predicate Initial(s: State) {
    && s.arb.None? && s.pay.None? && s.main.Idle? && s.aux == map[] && s.children == map[] && s.txs == map[]
    && s.released == {} && s.landed == {} && s.defaultSolver != ZERO
    && |s.history| == 1 && Punctual(s)
  }

  /** Some sequence of enabled steps leads from s to s'. */
  predicate Runs(s: State, steps: seq<Step>, s': State)
    decreases |steps|
  {
    if steps == [] then s' == s
    else s.history != [] && Enabled(s, steps[0]) && Runs(Do(s, steps[0]), steps[1..], s')
  }
}
