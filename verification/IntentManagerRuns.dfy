/** IntentManager over time: the one-way life of an intent, and what the circuit breaker really bounds. */
module IntentManagerRuns {
  import opened Options
  import opened IntentManager
  import opened IntentManagerSafety
  import opened Sums

  // ------------------------------------------------------------------ the latch

  ghost predicate Terminal(i: Intent) {
    i.status != Pending
  }

  /** How one intent may change: a terminal record never does; a solver, once set, stays. */
  ghost predicate Latched(i: Intent, i': Intent) {
    && (Terminal(i) ==> i' == i)
    && (i.solver != ZERO ==> i'.solver == i.solver)
    && i'.owner == i.owner && i'.amount == i.amount && i'.token == i.token && i'.expiry == i.expiry
  }

  /** When a status may be entered. */
  ghost predicate TimelyChange(i: Intent, i': Intent, now: nat) {
    i'.status != i.status ==>
      && (i'.status == Settled || now >= i.expiry)
      && (i'.status == Refunded ==> now >= i.expiry + REFUND_GRACE)
      && (i'.status == Expired <==> i.solver == ZERO)
  }

  ghost predicate Evolves(s: State, s': State, now: nat) {
    forall id :: id in s.intents ==>
      id in s'.intents && Latched(s.intents[id], s'.intents[id]) && TimelyChange(s.intents[id], s'.intents[id], now)
  }

  lemma ConfirmEvolves(s: State, tx: Tx)
    requires Inv(s) && tx.call.ConfirmSettlement? && Confirm(s, tx).Some?
    ensures Evolves(s, Confirm(s, tx).value, s.now)
  {
    ConfirmEffect(s, tx);
    var (id, s') := (tx.call.id, Confirm(s, tx).value);
    OneIntentEvolves(s, s', id, s'.intents[id]);
  }

  lemma OneIntentEvolves(s: State, s': State, id: IntentId, i: Intent)
    requires id in s.intents && s'.intents == s.intents[id := i]
    requires Latched(s.intents[id], i) && TimelyChange(s.intents[id], i, s.now)
    ensures Evolves(s, s', s.now)
  {
  }

  lemma CancelEvolves(s: State, tx: Tx)
    requires Inv(s) && tx.sender != ZERO && tx.call.CancelIntent? && Cancel(s, tx).Some?
    ensures Evolves(s, Cancel(s, tx).value, s.now)
  {
    CancelEffect(s, tx);
    var (id, s') := (tx.call.id, Cancel(s, tx).value);
    OneIntentEvolves(s, s', id, s'.intents[id]);
  }

  lemma SubmitEvolves(s: State, tx: Tx)
    requires Inv(s) && tx.call.SubmitIntent? && Submit(s, tx).Some?
    ensures Evolves(s, Submit(s, tx).value, s.now)
  {
    SubmitEffect(s, tx);
  }

  lemma PostEvolves(s: State, tx: Tx)
    requires Inv(s) && tx.sender != ZERO && tx.call.PostCollateral? && Post(s, tx).Some?
    ensures Evolves(s, Post(s, tx).value, s.now)
  {
    PostKeeps(s, tx);
  }

  lemma ForfeitEvolves(s: State, s': State, id: IntentId, status: Status)
    requires Forfeited(BooksOf(s), BooksOf(s'), s.treasury, id, status)
    requires s.now >= s.intents[id].expiry + if status == Refunded then REFUND_GRACE else 0
    ensures Evolves(s, s', s.now)
  {
  }

  lemma SlashEvolves(s: State, tx: Tx)
    requires Inv(s) && tx.call.SlashSolver? && Slash(s, tx).Some?
    ensures Evolves(s, Slash(s, tx).value, s.now)
  {
    ForfeitEffect(s, tx.call.id, Slashed, tx.call.release);
    ForfeitEvolves(s, Slash(s, tx).value, tx.call.id, Slashed);
  }

  lemma RefundEvolves(s: State, tx: Tx)
    requires Inv(s) && tx.sender != ZERO && tx.call.ClaimRefund? && Refund(s, tx).Some?
    ensures Evolves(s, Refund(s, tx).value, s.now)
  {
    ForfeitEffect(s, tx.call.id, Refunded, tx.call.release);
    ForfeitEvolves(s, Refund(s, tx).value, tx.call.id, Refunded);
  }

  lemma WithdrawEvolves(s: State, tx: Tx)
    requires tx.call.WithdrawTreasury? && Withdraw(s, tx).Some?
    ensures Evolves(s, Withdraw(s, tx).value, s.now)
  {
    WithdrawEffect(s, tx);
  }

  lemma ApplyEvolves(s: State, tx: Tx)
    requires Inv(s) && Apply(s, tx).Some?
    ensures Evolves(s, Apply(s, tx).value, s.now)
  {
    match tx.call
    case SubmitIntent(_, _, _, _, _, _, _, _) => SubmitEvolves(s, tx);
    case PostCollateral(_) => PostEvolves(s, tx);
    case ConfirmSettlement(_, _, _, _) => ConfirmEvolves(s, tx);
    case SlashSolver(_, _) => SlashEvolves(s, tx);
    case CancelIntent(_, _) => CancelEvolves(s, tx);
    case ClaimRefund(_, _) => RefundEvolves(s, tx);
    case WithdrawTreasury(_) => WithdrawEvolves(s, tx);
    case _ => assert BooksOf(Apply(s, tx).value) == BooksOf(s);
  }

  lemma StepEvolves(s: State, e: Event)
    requires Inv(s)
    ensures Evolves(s, Step(s, e), s.now)
  {
    match e
    case Transact(tx) =>
      SingleTransaction(s, tx);
      if Apply(s, tx).Some? {
        ApplyEvolves(s, tx);
      }
    case Tick(_) =>
    case Donate(_, _) =>
  }

  /** The one-way latch over every run: no intent disappears, a terminal record is frozen for good, and
      so, although postCollateral checks no status, no terminal intent ever gains a solver or collateral. */
  lemma {:induction false} RunLatched(s: State, events: seq<Event>, id: IntentId)
    requires Inv(s) && id in s.intents
    ensures id in Run(s, events).intents && Latched(s.intents[id], Run(s, events).intents[id])
    decreases |events|
  {
    if events != [] {
      StepKeeps(s, events[0]);
      StepEvolves(s, events[0]);
      RunLatched(Step(s, events[0]), events[1..], id);
    }
  }

  // ------------------------------------------------------------------ effect of the three solver-side calls

  lemma PostSetsSolver(s: State, tx: Tx)
    requires Inv(s) && tx.call.PostCollateral? && Apply(s, tx).Some?
    ensures var (id, s') := (tx.call.id, Apply(s, tx).value);
            && s.intents[id].solver == ZERO && s.intents[id].status == Pending && s.now < s.intents[id].expiry
            && s'.intents[id].solver == tx.sender && s'.intents[id].collateral == RequiredCollateral(s.intents[id].amount)
  {
    PostKeeps(s, tx);
  }

  lemma ConfirmSettles(s: State, tx: Tx)
    requires Inv(s) && tx.call.ConfirmSettlement? && Apply(s, tx).Some?
    ensures var (id, s') := (tx.call.id, Apply(s, tx).value);
            && id in s.intents && s.intents[id].status == Pending && s.intents[id].solver != ZERO
            && id in s'.intents && s'.intents[id].status == Settled && s'.intents[id].proofHash == tx.call.proofHash
            && s'.sent == s.sent + [EscrowPayment(id, s.intents[id], s.intents[id].solver)]
                                 + [CollateralPayment(id, s.intents[id])]
  {
    ConfirmEffect(s, tx);
  }

  lemma SlashSlashes(s: State, tx: Tx)
    requires Inv(s) && tx.call.SlashSolver? && Apply(s, tx).Some?
    ensures var (id, s') := (tx.call.id, Apply(s, tx).value);
            && id in s.intents && s.now >= s.intents[id].expiry && s.intents[id].solver != ZERO
            && id in s'.intents && s'.intents[id].status == Slashed
            && s'.sent == s.sent + [EscrowPayment(id, s.intents[id], s.intents[id].owner)]
            && Owed(s'.pendingTreasury, s.treasury) == Owed(s.pendingTreasury, s.treasury) + s.intents[id].collateral
  {
    ForfeitEffect(s, tx.call.id, Slashed, tx.call.release);
  }

  // ------------------------------------------------------------------ no trapped funds

  /** Solvency says the money for any one pending intent is there. */
  lemma FundsAreThere(s: State, id: IntentId)
    requires Inv(s) && id in s.intents && s.intents[id].status == Pending
    ensures var i := s.intents[id];
            && Held(s, i.token) >= i.amount
            && s.eth >= i.collateral + (if i.token == NATIVE then i.amount else 0)
            && s.eth >= Owed(s.pendingTreasury, s.treasury) + i.collateral
  {
    var i := s.intents[id];
    SumRemove(s.intents, id, Due(i.token));
    SumRemove(s.intents, id, Due(NATIVE));
    SumRemove(s.intents, id, Posted());
    if s.treasury in s.pendingTreasury {
      SumRemove(s.pendingTreasury, s.treasury, Amount());
    }
  }

  /** A payment to a willing payee goes through, whatever the payee does with control. */
  lemma PayGoesThrough(s: State, p: Payment, cb: Callback)
    requires s.locked && cb.ok && Held(s, p.token) >= p.amount
    ensures Pay(s, p, cb).Some? && OnlyAdministered(Debit(s, p), Pay(s, p, cb).value)
  {
    LockedRun(Debit(s, p), cb.txs);
  }

  /** The owner's way out is never blocked: not by a pause, not by the treasury, not by another intent's claims.
      An uncollateralised intent can be cancelled from its expiry on, a collateralised one refunded after the grace. */
  lemma OwnerIsNeverTrapped(s: State, id: IntentId, cb: Callback)
    requires Inv(s) && id in s.intents && s.intents[id].status == Pending && cb.ok && s.eth < U256
    ensures var i := s.intents[id];
            && (i.solver == ZERO && s.now >= i.expiry ==> Apply(s, Tx(i.owner, 0, CancelIntent(id, cb))).Some?)
            && (i.solver != ZERO && s.now >= i.expiry + REFUND_GRACE ==> Apply(s, Tx(i.owner, 0, ClaimRefund(id, cb))).Some?)
  {
    var i := s.intents[id];
    FundsAreThere(s, id);
    if i.solver == ZERO {
      PayGoesThrough(s.(locked := true, intents := s.intents[id := i.(status := Expired)]), EscrowPayment(id, i, i.owner), cb);
    } else {
      ForfeitGoesThrough(s, id, Refunded, cb);
    }
  }

  lemma ForfeitGoesThrough(s: State, id: IntentId, status: Status, cb: Callback)
    requires Inv(s) && id in s.intents && s.intents[id].status == Pending && cb.ok && s.eth < U256
    ensures Forfeit(s, id, status, cb).Some?
  {
    var i := s.intents[id];
    FundsAreThere(s, id);
    PayGoesThrough(s.(locked := true, intents := s.intents[id := i.(status := status, collateral := 0)]), EscrowPayment(id, i, i.owner), cb);
  }

  /** A solver who is willing to be paid is paid: confirmation of a pending, collateralised intent always succeeds. */
  lemma SolverIsNeverTrapped(s: State, id: IntentId, proofHash: nat, release: Callback, repay: Callback)
    requires Inv(s) && id in s.intents && s.intents[id].status == Pending && s.intents[id].solver != ZERO
    requires release.ok && repay.ok && s.orchestrator != ZERO
    ensures Apply(s, Tx(s.orchestrator, 0, ConfirmSettlement(id, proofHash, release, repay))).Some?
  {
    var i := s.intents[id];
    FundsAreThere(s, id);
    var closed := i.(status := Settled, proofHash := proofHash, settledAt := s.now, collateral := 0);
    var s1 := s.(locked := true, intents := s.intents[id := closed]);
    PayGoesThrough(s1, EscrowPayment(id, i, i.solver), release);
    PayGoesThrough(Pay(s1, EscrowPayment(id, i, i.solver), release).value, CollateralPayment(id, i), repay);
  }

  // ------------------------------------------------------------------ the volume window

  /** What a step adds to the accepted volume. */
  ghost function AcceptedBy(s: State, e: Event): nat {
    if e.Transact? && e.tx.call.SubmitIntent? && Apply(s, e.tx).Some? then
      if e.tx.call.token == NATIVE then e.tx.value else e.tx.call.delivered
    else 0
  }

  ghost function Accepted(s: State, events: seq<Event>): nat
    decreases |events|
  {
    if events == [] then 0 else AcceptedBy(s, events[0]) + Accepted(Step(s, events[0]), events[1..])
  }

  ghost predicate LimitStays(s: State, events: seq<Event>, limit: nat)
    decreases |events|
  {
    && s.window.limit == limit
    && (events != [] ==> LimitStays(Step(s, events[0]), events[1..], limit))
  }

  ghost predicate SameVolume(s: State, s': State) {
    s'.window.volume == s.window.volume && s'.window.lastReset == s.window.lastReset
  }

  lemma PaymentKeepsVolume(s: State, p: Payment, cb: Callback)
    requires s.locked && Pay(s, p, cb).Some?
    ensures SameVolume(s, Pay(s, p, cb).value) && Pay(s, p, cb).value.locked
  {
    PayEffect(s, p, cb);
  }

  lemma ForfeitKeepsVolume(s: State, id: IntentId, status: Status, release: Callback)
    requires Forfeit(s, id, status, release).Some?
    ensures SameVolume(s, Forfeit(s, id, status, release).value)
  {
    var i := Get(s.intents, id);
    var s1 := s.(locked := true, intents := s.intents[id := i.(status := status, collateral := 0)]);
    PaymentKeepsVolume(s1, EscrowPayment(id, i, i.owner), release);
  }

  lemma ConfirmKeepsVolume(s: State, tx: Tx)
    requires tx.call.ConfirmSettlement? && Confirm(s, tx).Some?
    ensures SameVolume(s, Confirm(s, tx).value)
  {
    var id, i := tx.call.id, Get(s.intents, tx.call.id);
    var closed := i.(status := Settled, proofHash := tx.call.proofHash, settledAt := s.now, collateral := 0);
    var s1 := s.(locked := true, intents := s.intents[id := closed]);
    PaymentKeepsVolume(s1, EscrowPayment(id, i, i.solver), tx.call.release);
    var s2 := Pay(s1, EscrowPayment(id, i, i.solver), tx.call.release).value;
    PaymentKeepsVolume(s2, CollateralPayment(id, i), tx.call.repay);
  }

  lemma OthersKeepVolume(s: State, tx: Tx)
    requires !tx.call.SubmitIntent? && Apply(s, tx).Some?
    ensures SameVolume(s, Apply(s, tx).value)
  {
    match tx.call
    case PostCollateral(_) =>
    case ConfirmSettlement(_, _, _, _) => ConfirmKeepsVolume(s, tx);
    case SlashSolver(id, release) => ForfeitKeepsVolume(s, id, Slashed, release);
    case CancelIntent(id, release) =>
      var i := Get(s.intents, id);
      PaymentKeepsVolume(s.(locked := true, intents := s.intents[id := i.(status := Expired)]),
                         EscrowPayment(id, i, tx.sender), release);
    case ClaimRefund(id, release) => ForfeitKeepsVolume(s, id, Refunded, release);
    case WithdrawTreasury(payout) =>
      PaymentKeepsVolume(s.(locked := true, pendingTreasury := s.pendingTreasury[tx.sender := 0]),
                         Payment(NATIVE, tx.sender, Owed(s.pendingTreasury, tx.sender), TreasuryShare), payout);
    case _ =>
  }

  /** Either nothing is accepted and the window stands, or an amount is added, after a reset or without one. */
  lemma StepVolume(s: State, e: Event, limit: nat)
    requires s.window.limit == limit && Step(s, e).window.limit == limit
    ensures var (a, w, w') := (AcceptedBy(s, e), s.window, Step(s, e).window);
            || (a == 0 && SameVolume(s, Step(s, e)))
            || (a > 0 && w'.volume == w.volume + a <= limit && w'.lastReset == w.lastReset)
            || (a > 0 && w'.volume == a <= limit && w'.lastReset == s.now)
    ensures Step(s, e).now >= s.now
    ensures !e.Tick? ==> Step(s, e).now == s.now
  {
    if e.Transact? {
      var tx := e.tx;
      SingleTransaction(s, tx);
      if Apply(s, tx).Some? {
        if tx.call.SubmitIntent? {
          SubmitEffect(s, tx);
        } else {
          OthersKeepVolume(s, tx);
          ApplyKeepsClock(s, tx);
        }
      }
    }
  }

  lemma ApplyKeepsClock(s: State, tx: Tx)
    requires Apply(s, tx).Some?
    ensures Apply(s, tx).value.now == s.now
  {
    match tx.call
    case SubmitIntent(_, _, _, _, _, _, _, _) => SubmitEffect(s, tx);
    case PostCollateral(_) =>
    case ConfirmSettlement(_, _, _, _) => ConfirmEffect(s, tx);
    case SlashSolver(id, release) => ForfeitKeepsClock(s, id, Slashed, release);
    case CancelIntent(_, _) => CancelEffect(s, tx);
    case ClaimRefund(id, release) => ForfeitKeepsClock(s, id, Refunded, release);
    case WithdrawTreasury(_) => WithdrawEffect(s, tx);
    case _ =>
  }

  lemma ForfeitKeepsClock(s: State, id: IntentId, status: Status, release: Callback)
    requires Forfeit(s, id, status, release).Some?
    ensures Forfeit(s, id, status, release).value.now == s.now
  {
    var i := Get(s.intents, id);
    var s1 := s.(locked := true, intents := s.intents[id := i.(status := status, collateral := 0)]);
    PayEffect(s1, EscrowPayment(id, i, i.owner), release);
  }

  ghost function Headroom(w: Window): nat {
    if w.volume <= w.limit then w.limit - w.volume else 0
  }

  lemma {:induction false} ClockForward(s: State, events: seq<Event>, limit: nat)
    requires LimitStays(s, events, limit)
    ensures Run(s, events).now >= s.now
    decreases |events|
  {
    if events != [] {
      StepVolume(s, events[0], limit);
      ClockForward(Step(s, events[0]), events[1..], limit);
    }
  }

  /** While no reset can happen, only the headroom is left. */
  lemma {:induction false} WithinWindow(s: State, events: seq<Event>, limit: nat)
    requires LimitStays(s, events, limit)
    requires Run(s, events).now <= s.window.lastReset + VOLUME_WINDOW
    ensures Accepted(s, events) <= Headroom(s.window)
    decreases |events|
  {
    if events != [] {
      var s' := Step(s, events[0]);
      StepVolume(s, events[0], limit);
      ClockForward(s', events[1..], limit);
      NoResetYet(s, events[0]);
      WithinWindow(s', events[1..], limit);
    }
  }

  lemma NoResetYet(s: State, e: Event)
    requires s.now <= s.window.lastReset + VOLUME_WINDOW
    ensures Step(s, e).window.lastReset == s.window.lastReset
    ensures AcceptedBy(s, e) > 0 ==> Step(s, e).window.volume == s.window.volume + AcceptedBy(s, e)
  {
    if e.Transact? {
      SingleTransaction(s, e.tx);
      if Apply(s, e.tx).Some? {
        if e.tx.call.SubmitIntent? {
          SubmitEffect(s, e.tx);
        } else {
          OthersKeepVolume(s, e.tx);
        }
      }
    }
  }

  /** At most one reset fits in 24 hours: the old window's headroom, then one fresh limit. */
  lemma {:induction false} OneResetFits(s: State, events: seq<Event>, limit: nat)
    requires LimitStays(s, events, limit)
    requires Run(s, events).now <= s.now + VOLUME_WINDOW
    ensures Accepted(s, events) <= Headroom(s.window) + limit
    decreases |events|
  {
    if events != [] {
      var s' := Step(s, events[0]);
      StepVolume(s, events[0], limit);
      if s'.window.lastReset == s.window.lastReset && s'.window.volume == s.window.volume + AcceptedBy(s, events[0]) {
        OneResetFits(s', events[1..], limit);
      } else {
        WithinWindow(s', events[1..], limit);
      }
    }
  }

  /** The breaker's real promise: with a constant limit, amounts accepted within any 24 hours of any run
      total at most twice the limit. */
  lemma VolumeBound(s: State, events: seq<Event>, limit: nat)
    requires LimitStays(s, events, limit)
    requires Run(s, events).now <= s.now + VOLUME_WINDOW
    ensures Accepted(s, events) <= 2 * limit
  {
    OneResetFits(s, events, limit);
  }

  function OneWei(sender: Address): Event {
    Transact(Tx(sender, 1, SubmitIntent(NATIVE, 1, 0, 0, 1_000_000, 0, 0, Callback(true, []))))
  }

  /** A day after deployment, with the owner having set the limit to 1. */
  function DayOld(): State {
    Deployed(1, 2, 3, 0).value.(window := Window(0, 1, 0), now := VOLUME_WINDOW)
  }

  lemma DayOldIsReachable()
    ensures Run(Deployed(1, 2, 3, 0).value, [Transact(Tx(3, 0, SetDailyVolumeLimit(1))), Tick(VOLUME_WINDOW)]) == DayOld()
  {
    var d, limit := Deployed(1, 2, 3, 0).value, Tx(3, 0, SetDailyVolumeLimit(1));
    SingleTransaction(d, limit);
    var events := [Transact(limit), Tick(VOLUME_WINDOW)];
    assert events[1..] == [Tick(VOLUME_WINDOW)] && events[1..][1..] == [];
    assert Apply(d, limit) == Administer(d, limit);
    var d' := Step(d, Transact(limit));
    assert d' == d.(window := Window(0, 1, 0));
    assert Run(d', events[1..]) == Run(Step(d', Tick(VOLUME_WINDOW)), []);
  }

  /** Twice the limit is reached, within a single second: the bound cannot be lowered. A contract is deployed,
      its limit set to 1, a day passes, and two submissions of 1 are accepted one second apart. */
  lemma VolumeBoundIsTight(sender: Address)
    requires sender != ZERO
    ensures var s := Run(Deployed(1, 2, 3, 0).value, [Transact(Tx(3, 0, SetDailyVolumeLimit(1))), Tick(VOLUME_WINDOW)]);
            var events := [OneWei(sender), Tick(1), OneWei(sender)];
            && LimitStays(s, events, 1) && Run(s, events).now == s.now + 1 && Accepted(s, events) == 2
  {
    DayOldIsReachable();
    TwoWithinASecond(sender);
  }

  lemma TwoWithinASecond(sender: Address)
    requires sender != ZERO
    ensures var events := [OneWei(sender), Tick(1), OneWei(sender)];
            && LimitStays(DayOld(), events, 1) && Run(DayOld(), events).now == DayOld().now + 1
            && Accepted(DayOld(), events) == 2
  {
    var s0 := DayOld();
    var tx := OneWei(sender).tx;
    assert Apply(s0, tx) == Submit(s0, tx);
    SingleTransaction(s0, tx);
    var s1 := Step(s0, OneWei(sender));
    var s2 := Step(s1, Tick(1));
    assert Apply(s2, tx) == Submit(s2, tx);
    SingleTransaction(s2, tx);
    var s3 := Step(s2, OneWei(sender));
    var events := [OneWei(sender), Tick(1), OneWei(sender)];
    assert events[1..] == [Tick(1), OneWei(sender)] && events[1..][1..] == [OneWei(sender)];
    assert [OneWei(sender)][1..] == [];
    assert LimitStays(s3, [], 1) && LimitStays(s2, [OneWei(sender)], 1) && LimitStays(s1, events[1..], 1);
    assert Run(s3, []) == s3 && Run(s2, [OneWei(sender)]) == s3 && Run(s1, events[1..]) == s3;
    assert Accepted(s2, [OneWei(sender)]) == 1 && Accepted(s1, events[1..]) == 1;
  }
}
