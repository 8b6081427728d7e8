/** The confirmation loop and the slash poller's turn are runs of the settlement protocol, however their
    attempts interleave with the rest of the world; so what its runs keep, they keep. */
module TaskRuns {
  import opened Options
  import opened ArbitrumLedger
  import Pay = SettledLedger
  import opened Settlement
  import opened ProtocolRuns
  import opened ConfirmRetry
  import Poller = SlashPoller
  import IM = IntentManager

  // ------------------------------------------------------------------ one attempt of the confirmation loop

  /** Whether the attempt gets as far as signing. */
  predicate Signs(a: Attempt) {
    a.seen.Some? && a.seen.value !in {IM.Settled, IM.Slashed, IM.Refunded} && HashOf(a.sending).Some?
  }

  /** The attempt is one the world allows: the reading is some node's, the hash is new, and a success is the contract's. */
  predicate Fits(s: State, view: OnChain, a: Attempt)
    requires s.history != []
  {
    && (a.seen.Some? ==> view in s.history && a.seen.value == view.status)
    && (Signs(a) ==> HashOf(a.sending).value !in s.txs)
    && (Signs(a) && a.sending.Landed? ==> ContractAccepts(s, ConfirmTx))
  }

  function Onward(retry: bool): Pc {
    if retry then ConfirmLoop else Idle
  }

  function Broadcasting(s: State, h: TxHash, fate: Fate): State {
    s.(arb := Noted(s.arb, Confirming, Some(h), s.expiry), txs := s.txs[h := Tx(ConfirmTx, fate)])
  }

  function Mined(s: State, h: TxHash): State
    requires s.history != []
  {
    Broadcasting(s, h, Succeeded).(history := s.history + [AfterSuccess(Current(s), ConfirmTx)])
  }

  /** All that one attempt changes. */
  function Attempted(s: State, slot: Slot, a: Attempt, retry: bool): State
    requires s.history != []
  {
    if a.seen.None? || a.seen.value in {IM.Slashed, IM.Refunded} then Goto(s, slot, Idle)
    else if a.seen.value == IM.Settled then Goto(s.(arb := Noted(s.arb, Confirmed, None, s.expiry)), slot, Idle)
    else match a.sending
      case Failed(None) => Goto(s, slot, Onward(retry))
      case Failed(Some(h)) => Goto(Broadcasting(s, h, Sent), slot, Onward(retry))
      case Landed(h) => var m := Mined(s, h); Goto(m.(arb := Noted(m.arb, Confirmed, Some(h), s.expiry)), slot, Idle)
  }

  lemma GotoAgain(s: State, slot: Slot, p: Pc, q: Pc)
    ensures Goto(Goto(s, slot, p), slot, q) == Goto(s, slot, q)
    ensures p != Idle ==> PcAt(Goto(s, slot, p), slot) == p
  {
    match slot
    case Main =>
    case Aux(n) => assert Goto(Goto(s, slot, p), slot, q).aux == Goto(s, slot, q).aux;
  }

  lemma SignGoes(s: State, slot: Slot, h: TxHash)
    requires s.history != [] && h !in s.txs
    ensures var s1 := Goto(s, slot, ConfirmReady);
            && Enabled(s1, SignConfirm(slot, h))
            && Do(s1, SignConfirm(slot, h)) == Goto(Broadcasting(s, h, Signed), slot, ConfirmSigned(h))
  {
    GotoAgain(s, slot, ConfirmReady, ConfirmSigned(h));
    GotoAgain(Broadcasting(s, h, Signed), slot, ConfirmReady, ConfirmSigned(h));
  }

  lemma SendGoes(s: State, slot: Slot, h: TxHash)
    requires s.history != []
    ensures var s1 := Goto(Broadcasting(s, h, Signed), slot, ConfirmSigned(h));
            && Enabled(s1, SendTx(slot))
            && Do(s1, SendTx(slot)) == Goto(Broadcasting(s, h, Sent), slot, ConfirmSent(h))
  {
    var s1 := Goto(Broadcasting(s, h, Signed), slot, ConfirmSigned(h));
    GotoAgain(Broadcasting(s, h, Signed), slot, ConfirmSigned(h), ConfirmSent(h));
    assert s.txs[h := Tx(ConfirmTx, Signed)][h := Tx(ConfirmTx, Sent)] == s.txs[h := Tx(ConfirmTx, Sent)];
    assert MarkSent(s1, h) == Goto(Broadcasting(s, h, Sent), slot, ConfirmSigned(h));
    GotoAgain(Broadcasting(s, h, Sent), slot, ConfirmSigned(h), ConfirmSent(h));
  }

  lemma MineGoes(s: State, slot: Slot, h: TxHash)
    requires s.history != [] && ContractAccepts(s, ConfirmTx)
    ensures var s1 := Goto(Broadcasting(s, h, Sent), slot, ConfirmSent(h));
            && Enabled(s1, Mine(h, true)) && Do(s1, Mine(h, true)) == Goto(Mined(s, h), slot, ConfirmSent(h))
  {
    assert s.txs[h := Tx(ConfirmTx, Sent)][h := Tx(ConfirmTx, Succeeded)] == s.txs[h := Tx(ConfirmTx, Succeeded)];
  }

  lemma DoneGoes(s: State, slot: Slot, h: TxHash)
    requires s.history != []
    ensures var (s1, m) := (Goto(Mined(s, h), slot, ConfirmSent(h)), Mined(s, h));
            && Enabled(s1, ConfirmDone(slot, true, false))
            && Do(s1, ConfirmDone(slot, true, false)) == Goto(m.(arb := Noted(m.arb, Confirmed, Some(h), s.expiry)), slot, Idle)
  {
    var m := Mined(s, h);
    GotoAgain(m, slot, ConfirmSent(h), Idle);
    GotoAgain(m.(arb := Noted(m.arb, Confirmed, Some(h), s.expiry)), slot, ConfirmSent(h), Idle);
  }

  lemma GivingUpGoes(s: State, slot: Slot, pc: Pc, retry: bool)
    requires s.history != [] && (pc.ConfirmReady? || pc.ConfirmSent?)
    ensures var s1 := Goto(s, slot, pc);
            && Enabled(s1, ConfirmDone(slot, false, retry))
            && Do(s1, ConfirmDone(slot, false, retry)) == Goto(s, slot, Onward(retry))
  {
    GotoAgain(s, slot, pc, Onward(retry));
  }

  lemma SignedRun(s: State, slot: Slot, h: TxHash)
    requires s.history != [] && h !in s.txs
    ensures LeadsAlone(Goto(s, slot, ConfirmReady), Goto(Broadcasting(s, h, Sent), slot, ConfirmSent(h)))
  {
    var s1 := Goto(s, slot, ConfirmReady);
    Stay(s1);
    SignGoes(s, slot, h);
    Take(s1, s1, SignConfirm(slot, h), Goto(Broadcasting(s, h, Signed), slot, ConfirmSigned(h)));
    SendGoes(s, slot, h);
    Take(s1, Goto(Broadcasting(s, h, Signed), slot, ConfirmSigned(h)), SendTx(slot), Goto(Broadcasting(s, h, Sent), slot, ConfirmSent(h)));
  }

  lemma LandedRun(s: State, slot: Slot, h: TxHash)
    requires s.history != [] && h !in s.txs && ContractAccepts(s, ConfirmTx)
    ensures var m := Mined(s, h);
            LeadsAlone(Goto(s, slot, ConfirmReady), Goto(m.(arb := Noted(m.arb, Confirmed, Some(h), s.expiry)), slot, Idle))
  {
    var (s1, m) := (Goto(s, slot, ConfirmReady), Mined(s, h));
    SignedRun(s, slot, h);
    MineGoes(s, slot, h);
    Take(s1, Goto(Broadcasting(s, h, Sent), slot, ConfirmSent(h)), Mine(h, true), Goto(m, slot, ConfirmSent(h)));
    DoneGoes(s, slot, h);
    Take(s1, Goto(m, slot, ConfirmSent(h)), ConfirmDone(slot, true, false),
         Goto(m.(arb := Noted(m.arb, Confirmed, Some(h), s.expiry)), slot, Idle));
  }

  /** From the read that precedes every attempt. */
  lemma ReadyRun(s: State, slot: Slot, a: Attempt, retry: bool)
    requires s.history != [] && a.seen.Some? && a.seen.value !in {IM.Settled, IM.Slashed, IM.Refunded}
    requires Signs(a) ==> HashOf(a.sending).value !in s.txs
    requires a.sending.Landed? ==> ContractAccepts(s, ConfirmTx)
    ensures LeadsAlone(Goto(s, slot, ConfirmReady), Attempted(s, slot, a, retry))
  {
    var s1 := Goto(s, slot, ConfirmReady);
    match a.sending
    case Failed(None) =>
      Stay(s1);
      GivingUpGoes(s, slot, ConfirmReady, retry);
      Take(s1, s1, ConfirmDone(slot, false, retry), Attempted(s, slot, a, retry));
    case Failed(Some(h)) =>
      SignedRun(s, slot, h);
      GivingUpGoes(Broadcasting(s, h, Sent), slot, ConfirmSent(h), retry);
      Take(s1, Goto(Broadcasting(s, h, Sent), slot, ConfirmSent(h)), ConfirmDone(slot, false, retry), Attempted(s, slot, a, retry));
    case Landed(h) => LandedRun(s, slot, h);
  }

  /** Every attempt is a run, and changes exactly what Attempted says. */
  lemma AttemptIsARun(s: State, slot: Slot, view: OnChain, a: Attempt, retry: bool)
    requires s.history != [] && PcAt(s, slot) == ConfirmLoop && Fits(s, view, a)
    ensures LeadsAlone(s, Attempted(s, slot, a, retry))
    ensures Attempted(s, slot, a, retry).arb == AfterAttempt(s.arb, a, s.expiry)
  {
    Stay(s);
    if a.seen.None? {
      Take(s, s, Throw(slot), Attempted(s, slot, a, retry));
    } else {
      var s1 := BeforeConfirm(s, slot, view);
      Take(s, s, ReadBeforeConfirm(slot, view), s1);
      if a.seen.value !in {IM.Settled, IM.Slashed, IM.Refunded} {
        ReadyRun(s, slot, a, retry);
        LeadsOn(s, s1, Attempted(s, slot, a, retry));
      }
    }
  }

  // ------------------------------------------------------------------ the whole loop, interleaved with the world

  /** A step of somebody else that touches neither ledger nor any task. */
  predicate Bystander(step: Step) {
    step.Tick? || step.OtherParty? || step.Mine? || step.Land? || step.ChildSigns? || step.ChildBroadcasts? || step.ChildExits?
  }

  predicate OnlyWorld(steps: seq<Step>) {
    forall i :: 0 <= i < |steps| ==> Bystander(steps[i])
  }

  /** What the world leaves alone. */
  predicate TasksAlone(s: State, s': State) {
    && s'.arb == s.arb && s'.pay == s.pay && s'.main == s.main && s'.aux == s.aux
    && s'.released == s.released && s'.expiry == s.expiry
  }

  lemma {:induction false} WorldLeavesTasks(s: State, steps: seq<Step>, s': State)
    requires Runs(s, steps, s') && OnlyWorld(steps)
    ensures TasksAlone(s, s') && (s.history != [] ==> s'.history != [])
    decreases |steps|
  {
    if steps != [] {
      assert TasksAlone(s, Do(s, steps[0]));
      WorldLeavesTasks(Do(s, steps[0]), steps[1..], s');
    }
  }

  /** What happens before an attempt, and which view its read is given. */
  datatype Beat = Beat(world: seq<Step>, view: OnChain)

  /** n attempts of the loop, each after any steps of the world. */
  ghost predicate Interleaved(s: State, slot: Slot, p: Plan, beats: nat -> Beat, n: nat, s': State)
    decreases n
  {
    if n == 0 then s' == s
    else
      var (beat, a) := (beats(n - 1), p.attempts(n - 1));
      && (n > 1 ==> Retries(p, n - 2))
      && exists mid, w :: Interleaved(s, slot, p, beats, n - 1, mid) && Runs(mid, beat.world, w) && OnlyWorld(beat.world)
           && w.history != [] && Fits(w, beat.view, a) && s' == Attempted(w, slot, a, Retries(p, n - 1))
  }

  /** However its attempts interleave with the world, the loop is one run of the protocol; it leaves in the
      ledger what the loop's own contract says, stands at its next attempt exactly when there is one, and
      touches neither the payout record nor any release. */
  lemma {:induction false} LoopIsARun(s: State, slot: Slot, p: Plan, beats: nat -> Beat, n: nat, s': State)
    requires s.history != [] && PcAt(s, slot) == ConfirmLoop && p.expiry == s.expiry
    requires Interleaved(s, slot, p, beats, n, s')
    ensures Leads(s, s') && s'.history != []
    ensures s'.arb == AfterAttempts(s.arb, p, n)
    ensures PcAt(s', slot) == if n == 0 || Retries(p, n - 1) then ConfirmLoop else Idle
    ensures s'.pay == s.pay && s'.released == s.released && s'.expiry == s.expiry
    decreases n
  {
    if n == 0 {
      Stay(s);
    } else {
      var (beat, a) := (beats(n - 1), p.attempts(n - 1));
      var mid, w :| Interleaved(s, slot, p, beats, n - 1, mid) && Runs(mid, beat.world, w) && OnlyWorld(beat.world)
        && w.history != [] && Fits(w, beat.view, a) && s' == Attempted(w, slot, a, Retries(p, n - 1));
      LoopIsARun(s, slot, p, beats, n - 1, mid);
      WorldLeavesTasks(mid, beat.world, w);
      LeadsOn(s, mid, w);
      AttemptIsARun(w, slot, beat.view, a, Retries(p, n - 1));
      LeadsOn(s, w, s');
      AttemptStands(w, slot, a, Retries(p, n - 1));
    }
  }

  lemma AttemptStands(s: State, slot: Slot, a: Attempt, retry: bool)
    requires s.history != [] && (Finished(a) ==> !retry)
    ensures var s' := Attempted(s, slot, a, retry);
            && PcAt(s', slot) == Onward(retry) && s'.history != []
            && s'.pay == s.pay && s'.released == s.released && s'.expiry == s.expiry
  {
  }

  // ------------------------------------------------------------------ one turn of the slash poller

  /** The turn's answers are the world's: the clock, and the fresh check when it could be made. */
  ghost predicate TurnFits(s: State, t: Poller.Turn) {
    && t.nowSec == s.now
    && (s.pay.Some? && s.pay.value.Settling? && t.check != Pay.CheckFailed ==>
          (t.check == Pay.Landed <==> s.pay.value.sig in s.landed))
    && (HashOf(t.slashing).Some? ==> HashOf(t.slashing).value !in s.txs)
    && (s.history != [] && t.slashing.Landed? ==> ContractAccepts(s, SlashTx))
  }

  /** An intent listed by the poller, with no pass n about it yet. */
  ghost predicate Listable(s: State, n: nat) {
    s.history != [] && n !in s.aux && StageIs(s, AwaitingExpirySlash)
  }

  lemma AuxLeaves(s: State, n: nat, pc: Pc)
    requires n !in s.aux
    ensures Goto(Goto(s, Aux(n), pc), Aux(n), Idle) == s && Goto(s, Aux(n), Idle) == s
  {
    GotoAgain(s, Aux(n), pc, Idle);
    assert s.aux - {n} == s.aux;
  }

  lemma PassStarts(s: State, n: nat, t: Poller.Turn)
    requires Listable(s, n) && t.nowSec == s.now && Poller.Due(s.arb.value, t)
    ensures LeadsAlone(s, Goto(s, Aux(n), PassStarted))
  {
    var listed := Goto(s, Aux(n), Listed(s.arb.value.expiry.value));
    Stay(s);
    Take(s, s, ListForSlash(n), listed);
    GotoAgain(s, Aux(n), Listed(s.arb.value.expiry.value), PassStarted);
    Take(s, listed, StartPass(n), Goto(s, Aux(n), PassStarted));
  }

  /** The state after the check of a payout that was delivered. */
  function Averted(s: State, n: nat): State
    requires s.pay.Some?
  {
    Goto(s.(pay := Some(Pay.MarkedSettled(s.pay))), Aux(n), ConfirmLoop)
  }

  lemma CheckFindsNothing(s: State, n: nat, t: Poller.Turn)
    requires Listable(s, n) && TurnFits(s, t) && Poller.Slashable(s.arb.value, s.pay, t)
    ensures LeadsAlone(s, Goto(s, Aux(n), SlashReady))
  {
    PassStarts(s, n, t);
    GotoAgain(s, Aux(n), PassStarted, SlashReady);
    Take(s, Goto(s, Aux(n), PassStarted), CheckPayout(n), Goto(s, Aux(n), SlashReady));
  }

  lemma CheckFindsDelivery(s: State, n: nat, t: Poller.Turn)
    requires Listable(s, n) && TurnFits(s, t) && Poller.Due(s.arb.value, t) && Poller.Delivered(s.pay, t)
    ensures LeadsAlone(s, Averted(s, n))
    ensures Averted(s, n).pay == Poller.PayAfter(s.arb.value, s.pay, t) && PcAt(Averted(s, n), Aux(n)) == ConfirmLoop
  {
    PassStarts(s, n, t);
    var (s1, settled) := (Goto(s, Aux(n), PassStarted), s.(pay := Some(Pay.MarkedSettled(s.pay))));
    GotoAgain(s, Aux(n), PassStarted, ConfirmLoop);
    GotoAgain(settled, Aux(n), PassStarted, ConfirmLoop);
    assert s.pay.value.Settled? ==> settled == s;
    Take(s, s1, CheckPayout(n), Averted(s, n));
  }

  function Slashing(s: State, h: TxHash, fate: Fate): State
    requires s.arb.Some?
  {
    s.(arb := Some(Poller.AfterSlash(s.arb.value, Failed(Some(h)))), txs := s.txs[h := Tx(SlashTx, fate)])
  }

  function SlashMined(s: State, h: TxHash): State
    requires s.arb.Some? && s.history != []
  {
    Slashing(s, h, Succeeded).(history := s.history + [AfterSuccess(Current(s), SlashTx)])
  }

  /** All that calling slashSolver changes. */
  function SlashCalled(s: State, sending: Sending): State
    requires s.arb.Some? && s.history != []
  {
    match sending
    case Failed(None) => s
    case Failed(Some(h)) => Slashing(s, h, Sent)
    case Landed(h) => SlashMined(s, h).(arb := Some(Poller.AfterSlash(s.arb.value, sending)))
  }

  lemma SlashIsSent(s: State, n: nat, h: TxHash)
    requires s.history != [] && s.arb.Some? && h !in s.txs
    ensures LeadsAlone(Goto(s, Aux(n), SlashReady), Goto(Slashing(s, h, Sent), Aux(n), SlashSent(h)))
  {
    var s1, s2 := Goto(s, Aux(n), SlashReady), Goto(Slashing(s, h, Signed), Aux(n), SlashSigned(h));
    Stay(s1);
    GotoAgain(s, Aux(n), SlashReady, SlashSigned(h));
    GotoAgain(Slashing(s, h, Signed), Aux(n), SlashReady, SlashSigned(h));
    Take(s1, s1, SignSlash(n, h), s2);
    SlashSendGoes(s, n, h);
    Take(s1, s2, SendTx(Aux(n)), Goto(Slashing(s, h, Sent), Aux(n), SlashSent(h)));
  }

  lemma SlashSendGoes(s: State, n: nat, h: TxHash)
    requires s.history != [] && s.arb.Some?
    ensures var s1 := Goto(Slashing(s, h, Signed), Aux(n), SlashSigned(h));
            && Enabled(s1, SendTx(Aux(n)))
            && Do(s1, SendTx(Aux(n))) == Goto(Slashing(s, h, Sent), Aux(n), SlashSent(h))
  {
    var s1 := Goto(Slashing(s, h, Signed), Aux(n), SlashSigned(h));
    assert s.txs[h := Tx(SlashTx, Signed)][h := Tx(SlashTx, Sent)] == s.txs[h := Tx(SlashTx, Sent)];
    assert MarkSent(s1, h) == Goto(Slashing(s, h, Sent), Aux(n), SlashSigned(h));
    GotoAgain(Slashing(s, h, Sent), Aux(n), SlashSigned(h), SlashSent(h));
  }

  lemma SlashMineGoes(s: State, n: nat, h: TxHash)
    requires s.history != [] && s.arb.Some? && ContractAccepts(s, SlashTx)
    ensures var s1 := Goto(Slashing(s, h, Sent), Aux(n), SlashSent(h));
            && Enabled(s1, Mine(h, true)) && Do(s1, Mine(h, true)) == Goto(SlashMined(s, h), Aux(n), SlashSent(h))
  {
    assert s.txs[h := Tx(SlashTx, Sent)][h := Tx(SlashTx, Succeeded)] == s.txs[h := Tx(SlashTx, Succeeded)];
  }

  lemma SlashDoneGoes(s: State, n: nat, h: TxHash)
    requires s.history != [] && s.arb.Some? && n !in s.aux
    ensures var s1 := Goto(SlashMined(s, h), Aux(n), SlashSent(h));
            && Enabled(s1, SlashDone(n, true)) && Do(s1, SlashDone(n, true)) == SlashCalled(s, Landed(h))
  {
    AuxLeaves(SlashMined(s, h), n, SlashSent(h));
    AuxLeaves(SlashCalled(s, Landed(h)), n, SlashSent(h));
  }

  lemma SlashRun(s: State, n: nat, sending: Sending)
    requires s.history != [] && s.arb.Some? && n !in s.aux
    requires HashOf(sending).Some? ==> HashOf(sending).value !in s.txs
    requires sending.Landed? ==> ContractAccepts(s, SlashTx)
    ensures LeadsAlone(Goto(s, Aux(n), SlashReady), SlashCalled(s, sending))
  {
    var s1 := Goto(s, Aux(n), SlashReady);
    match sending
    case Failed(None) =>
      Stay(s1);
      AuxLeaves(s, n, SlashReady);
      Take(s1, s1, SlashDone(n, false), s);
    case Failed(Some(h)) =>
      SlashIsSent(s, n, h);
      AuxLeaves(Slashing(s, h, Sent), n, SlashSent(h));
      Take(s1, Goto(Slashing(s, h, Sent), Aux(n), SlashSent(h)), SlashDone(n, false), Slashing(s, h, Sent));
    case Landed(h) =>
      SlashIsSent(s, n, h);
      SlashMineGoes(s, n, h);
      Take(s1, Goto(Slashing(s, h, Sent), Aux(n), SlashSent(h)), Mine(h, true), Goto(SlashMined(s, h), Aux(n), SlashSent(h)));
      SlashDoneGoes(s, n, h);
      Take(s1, Goto(SlashMined(s, h), Aux(n), SlashSent(h)), SlashDone(n, true), SlashCalled(s, sending));
  }

  /** How a turn may end: not due or unable to check, it changes nothing; slashable, it calls slashSolver;
      delivered, it settles the record and, given the proof's files, confirms to the end of the loop. */
  ghost predicate TurnEnds(s: State, n: nat, t: Poller.Turn, beats: nat -> Beat, k: nat, s': State)
    requires Listable(s, n)
  {
    var e := s.arb.value;
    if Poller.Slashable(e, s.pay, t) then s' == SlashCalled(s, t.slashing)
    else if !Poller.Due(e, t) || !Poller.Delivered(s.pay, t) then s' == s
    else if !Poller.CanConfirm(t) then s' == s.(pay := Poller.PayAfter(e, s.pay, t))
    else k > 0 && !Retries(t.confirming, k - 1) && Interleaved(Averted(s, n), Aux(n), t.confirming, beats, k, s')
  }

  lemma SlashTurnIsARun(s: State, n: nat, t: Poller.Turn)
    requires Listable(s, n) && TurnFits(s, t) && Poller.Slashable(s.arb.value, s.pay, t)
    ensures LeadsAlone(s, SlashCalled(s, t.slashing))
    ensures SlashCalled(s, t.slashing).arb == Some(Poller.AfterSlash(s.arb.value, t.slashing))
  {
    CheckFindsNothing(s, n, t);
    SlashRun(s, n, t.slashing);
    LeadsOn(s, Goto(s, Aux(n), SlashReady), SlashCalled(s, t.slashing));
  }

  lemma AvertedTurnIsARun(s: State, n: nat, t: Poller.Turn, beats: nat -> Beat, k: nat, s': State)
    requires Listable(s, n) && TurnFits(s, t) && Poller.Due(s.arb.value, t) && Poller.Delivered(s.pay, t)
    requires t.confirming.expiry == s.expiry && TurnEnds(s, n, t, beats, k, s')
    ensures Leads(s, s') && s'.pay == Poller.PayAfter(s.arb.value, s.pay, t) && PcAt(s', Aux(n)) == Idle
    ensures if Poller.CanConfirm(t) then k > 0 && !Retries(t.confirming, k - 1) && s'.arb == AfterAttempts(s.arb, t.confirming, k)
            else s'.arb == s.arb
  {
    CheckFindsDelivery(s, n, t);
    var s1 := Averted(s, n);
    if Poller.CanConfirm(t) {
      LoopIsARun(s1, Aux(n), t.confirming, beats, k, s');
      LeadsOn(s, s1, s');
    } else {
      AuxLeaves(s', n, ConfirmLoop);
      Take(s, s1, Throw(Aux(n)), s');
    }
  }

  lemma LastAttemptIsReached(s: State, slot: Slot, p: Plan, beats: nat -> Beat, n: nat, s': State)
    requires Interleaved(s, slot, p, beats, n, s')
    ensures n > 0 ==> Reaches(p, n - 1)
    decreases n
  {
    if n > 0 {
      var mid :| Interleaved(s, slot, p, beats, n - 1, mid);
      LastAttemptIsReached(s, slot, p, beats, n - 1, mid);
    }
  }

  /** Every turn of the poller is a run of the protocol that ends with the pass gone, and leaves in both
      ledgers what the poller's own contract says. */
  lemma TurnIsARun(s: State, n: nat, t: Poller.Turn, beats: nat -> Beat, k: nat, s': State)
    requires Listable(s, n) && TurnFits(s, t) && t.confirming.expiry == s.expiry && TurnEnds(s, n, t, beats, k, s')
    ensures Leads(s, s') && PcAt(s', Aux(n)) == Idle
    ensures Poller.ArbAfter(s.arb.value, s.pay, t, s'.arb) && s'.pay == Poller.PayAfter(s.arb.value, s.pay, t)
  {
    var e := s.arb.value;
    if Poller.Slashable(e, s.pay, t) {
      SlashTurnIsARun(s, n, t);
    } else if Poller.Due(e, t) && Poller.Delivered(s.pay, t) {
      AvertedTurnIsARun(s, n, t, beats, k, s');
      if Poller.CanConfirm(t) {
        LastAttemptIsReached(Averted(s, n), Aux(n), t.confirming, beats, k, s');
      }
    } else {
      Stay(s);
    }
  }
}
