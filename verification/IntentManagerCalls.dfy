/** When each call of IntentManager succeeds and what it then leaves, written out in the fields of the state:
    who may call it, when, with what, and whatever the callees do with control. */
module IntentManagerCalls {
  import opened Options
  import opened IntentManager
  import opened IntentManagerSafety
  import opened IntentManagerRuns
  import opened Sums

  // ------------------------------------------------------------------ submitting

  /** The record of a submission says what the call said, and what really arrived; every other record stays. */
  lemma RecordedAsAsked(s: State, tx: Tx)
    requires Inv(s) && tx.call.SubmitIntent? && Apply(s, tx).Some?
    ensures var (c, s', id) := (tx.call, Apply(s, tx).value, IntentId(tx.sender, s.nonce, s.now));
            && id !in s.intents && s'.intents.Keys == s.intents.Keys + {id} && s'.nonce == s.nonce + 1
            && (forall other :: other in s.intents ==> s'.intents[other] == s.intents[other])
            && var i := s'.intents[id];
               && i.owner == tx.sender && i.token == c.token
               && i.amount == (if c.token == NATIVE then c.amount else c.delivered)
               && i.wallet == c.wallet && i.chainId == c.chainId && i.expiry == c.expiry && i.slippageBps == c.slippageBps
               && i.status == Pending && i.solver == ZERO && i.collateral == 0 && i.proofHash == 0
               && i.createdAt == s.now && i.settledAt == 0
  {
    SubmitEffect(s, tx);
    if tx.call.token == NATIVE {
      NativeIsExact(s, tx);
    }
    assert IntentId(tx.sender, s.nonce, s.now) !in s.intents;
  }

  lemma NativeReceive(s: State, tx: Tx)
    requires tx.call.SubmitIntent? && tx.call.token == NATIVE
    ensures Receive(s, tx)
            == if tx.value != tx.call.amount then None else Some((s.(eth := s.eth + tx.value), tx.call.amount))
  {
  }

  /** With native ETH nobody gets control, so the whole outcome is plain. */
  lemma NativeSubmit(s: State, tx: Tx)
    requires tx.call.SubmitIntent? && tx.call.token == NATIVE && tx.sender != ZERO
    ensures var (c, window) := (tx.call, Admit(s.window, s.now, tx.call.amount));
            Apply(s, tx)
            == if s.paused || s.locked || c.amount == 0 || c.expiry <= s.now || tx.value != c.amount || window.None?
                  || s.nonce + 1 >= U256
               then None
               else Some(s.(eth := s.eth + tx.value, window := window.value, nonce := s.nonce + 1,
                            intents := s.intents[IntentId(tx.sender, s.nonce, s.now) := NewIntent(s, tx, c.amount)], locked := false))
  {
    NativeReceive(s.(locked := true), tx);
    assert Apply(s, tx) == Submit(s, tx);
  }

  lemma NativeIsExact(s: State, tx: Tx)
    requires tx.call.SubmitIntent? && Apply(s, tx).Some? && tx.call.token == NATIVE
    ensures tx.value == tx.call.amount
  {
    NativeSubmit(s, tx);
  }

  /** What the window has left for an amount at that time. */
  predicate Fits(w: Window, now: nat, amount: nat) {
    var used := if now > w.lastReset + VOLUME_WINDOW then 0 else w.volume;
    used + amount <= w.limit && used + amount < U256
  }

  /** A native submission succeeds exactly under the source's checks. */
  lemma NativeSubmitExactly(s: State, tx: Tx)
    requires Inv(s) && tx.call.SubmitIntent? && tx.call.token == NATIVE
    ensures Apply(s, tx).Some? <==>
              && tx.sender != ZERO && !s.paused && tx.call.amount > 0 && tx.value == tx.call.amount
              && tx.call.expiry > s.now && s.nonce + 1 < U256 && Fits(s.window, s.now, tx.call.amount)
    ensures Apply(s, tx).Some? ==>
              var (w, w') := (s.window, Apply(s, tx).value.window);
              && w'.limit == w.limit
              && (s.now > w.lastReset + VOLUME_WINDOW ==> w'.lastReset == s.now && w'.volume == tx.call.amount)
              && (s.now <= w.lastReset + VOLUME_WINDOW ==> w'.lastReset == w.lastReset && w'.volume == w.volume + tx.call.amount)
  {
    if tx.sender != ZERO {
      NativeSubmit(s, tx);
    }
  }

  lemma TokenReceive(s: State, tx: Tx)
    requires tx.call.SubmitIntent? && tx.call.token != NATIVE && Receive(s, tx).Some?
    ensures tx.value == 0 && tx.call.transferFrom.ok && tx.call.delivered > 0
  {
  }

  /** A token submission succeeds only under the same checks, against some limit the owner set meanwhile. */
  lemma TokenSubmitNeeds(s: State, tx: Tx)
    requires Inv(s) && tx.call.SubmitIntent? && tx.call.token != NATIVE && Apply(s, tx).Some?
    ensures tx.sender != ZERO && !s.paused && tx.call.amount > 0 && tx.value == 0 && tx.call.transferFrom.ok
    ensures tx.call.delivered > 0 && tx.call.expiry > s.now && s.nonce + 1 < U256
    ensures exists limit :: Fits(s.window.(limit := limit), s.now, tx.call.delivered)
  {
    assert Apply(s, tx) == Submit(s, tx);
    TokenReceive(s.(locked := true), tx);
    SubmitEffect(s, tx);
    var limit :| Admit(s.window.(limit := limit), s.now, tx.call.delivered) == Some(Apply(s, tx).value.window);
    assert Fits(s.window.(limit := limit), s.now, tx.call.delivered);
  }

  // ------------------------------------------------------------------ posting

  /** An approved solver's exact collateral is taken exactly while the intent exists, has no solver and has not
      expired; no status is looked at. */
  lemma PostExactly(s: State, tx: Tx)
    requires Inv(s) && tx.call.PostCollateral?
    ensures var id := tx.call.id;
            Apply(s, tx).Some? <==>
              && tx.sender != ZERO && !s.paused && tx.sender in s.approved
              && id in s.intents && s.intents[id].solver == ZERO && s.now < s.intents[id].expiry
              && s.intents[id].amount * 150 < U256 && tx.value == s.intents[id].amount * 150 / 100
    ensures Apply(s, tx).Some? ==>
              var id := tx.call.id;
              Apply(s, tx).value == s.(eth := s.eth + tx.value,
                                       intents := s.intents[id := s.intents[id].(solver := tx.sender, collateral := tx.value)])
  {
    if tx.call.id in s.intents {
      assert SoundIntent(s.intents[tx.call.id], s.now);
    }
    assert tx.sender != ZERO ==> Apply(s, tx) == Post(s, tx);
  }

  // ------------------------------------------------------------------ closing

  ghost predicate Open(s: State, id: IntentId) {
    id in s.intents && s.intents[id].status == Pending
  }

  /** Only the orchestrator settles, at any time, and both payments must be accepted. */
  lemma ConfirmExactly(s: State, tx: Tx)
    requires Inv(s) && tx.call.ConfirmSettlement?
    ensures var id := tx.call.id;
            Apply(s, tx).Some? <==>
              && tx.sender != ZERO && tx.sender == s.orchestrator && tx.value == 0
              && Open(s, id) && s.intents[id].solver != ZERO && tx.call.release.ok && tx.call.repay.ok
    ensures Apply(s, tx).Some? ==>
              var (id, s') := (tx.call.id, Apply(s, tx).value);
              && s'.intents == s.intents[id := s.intents[id].(status := Settled, proofHash := tx.call.proofHash,
                                                              settledAt := s.now, collateral := 0)]
              && s'.pendingTreasury == s.pendingTreasury && s'.nonce == s.nonce && s'.now == s.now
  {
    var id := tx.call.id;
    if Apply(s, tx).Some? {
      ConfirmEffect(s, tx);
      PaymentsAccepted(s, tx);
    }
    if Open(s, id) && s.intents[id].solver != ZERO && tx.call.release.ok && tx.call.repay.ok
       && tx.sender == s.orchestrator && s.orchestrator != ZERO && tx.value == 0 {
      assert tx == Tx(s.orchestrator, 0, ConfirmSettlement(id, tx.call.proofHash, tx.call.release, tx.call.repay));
      SolverIsNeverTrapped(s, id, tx.call.proofHash, tx.call.release, tx.call.repay);
    }
  }

  lemma PaymentsAccepted(s: State, tx: Tx)
    requires tx.call.ConfirmSettlement? && Apply(s, tx).Some?
    ensures tx.call.release.ok && tx.call.repay.ok && tx.value == 0 && tx.sender != ZERO
  {
    assert Apply(s, tx) == Confirm(s, tx);
    var id, i := tx.call.id, Get(s.intents, tx.call.id);
    var closed := i.(status := Settled, proofHash := tx.call.proofHash, settledAt := s.now, collateral := 0);
    var first := Pay(s.(locked := true, intents := s.intents[id := closed]), EscrowPayment(id, i, i.solver), tx.call.release);
    assert first.Some? && Pay(first.value, CollateralPayment(id, i), tx.call.repay).Some?;
  }

  /** Only the orchestrator slashes, and only from the expiry on. */
  lemma SlashExactly(s: State, tx: Tx)
    requires Inv(s) && tx.call.SlashSolver? && s.eth < U256
    ensures var id := tx.call.id;
            Apply(s, tx).Some? <==>
              && tx.sender != ZERO && tx.sender == s.orchestrator && tx.value == 0
              && Open(s, id) && s.intents[id].solver != ZERO && s.now >= s.intents[id].expiry && tx.call.release.ok
    ensures Apply(s, tx).Some? ==> ForfeitedAs(s, Apply(s, tx).value, tx.call.id, Slashed)
  {
    var id := tx.call.id;
    assert tx.sender != ZERO ==> Apply(s, tx) == Slash(s, tx);
    if Open(s, id) && s.intents[id].solver != ZERO {
      ForfeitExactly(s, id, Slashed, tx.call.release);
    }
  }

  /** Only the owner claims a refund, only from a day after the expiry on, paused or not. */
  lemma RefundExactly(s: State, tx: Tx)
    requires Inv(s) && tx.call.ClaimRefund? && s.eth < U256
    ensures var id := tx.call.id;
            Apply(s, tx).Some? <==>
              && tx.value == 0 && Open(s, id) && tx.sender == s.intents[id].owner && s.intents[id].solver != ZERO
              && s.now >= s.intents[id].expiry + 24 * 3600 && tx.call.release.ok
    ensures Apply(s, tx).Some? ==> ForfeitedAs(s, Apply(s, tx).value, tx.call.id, Refunded)
  {
    var id := tx.call.id;
    if id in s.intents {
      assert SoundIntent(s.intents[id], s.now);
    }
    assert tx.sender != ZERO ==> Apply(s, tx) == Refund(s, tx);
    if Open(s, id) && s.intents[id].solver != ZERO {
      ForfeitExactly(s, id, Refunded, tx.call.release);
    }
  }

  /** The record closes, the whole collateral is owed to the treasury, nothing else is owed anew. */
  ghost predicate ForfeitedAs(s: State, s': State, id: IntentId, status: Status) {
    && id in s.intents
    && s'.intents == s.intents[id := s.intents[id].(status := status, collateral := 0)]
    && s'.pendingTreasury
       == s.pendingTreasury[s.treasury := Owed(s.pendingTreasury, s.treasury) + s.intents[id].amount * 150 / 100]
    && s'.nonce == s.nonce && s'.now == s.now
  }

  lemma ForfeitExactly(s: State, id: IntentId, status: Status, release: Callback)
    requires Inv(s) && Open(s, id) && s.intents[id].solver != ZERO && s.eth < U256 && status in {Slashed, Refunded}
    ensures Forfeit(s, id, status, release).Some? <==> release.ok
    ensures release.ok ==> ForfeitedAs(s, Forfeit(s, id, status, release).value, id, status)
  {
    assert SoundIntent(s.intents[id], s.now);
    if release.ok {
      ForfeitGoesThrough(s, id, status, release);
      ForfeitEffect(s, id, status, release);
    }
  }

  /** Only the owner cancels, only from the expiry on, only while no solver stands in for the intent. */
  lemma CancelExactly(s: State, tx: Tx)
    requires Inv(s) && tx.call.CancelIntent? && s.eth < U256
    ensures var id := tx.call.id;
            Apply(s, tx).Some? <==>
              && tx.value == 0 && Open(s, id) && tx.sender == s.intents[id].owner && s.intents[id].solver == ZERO
              && s.now >= s.intents[id].expiry && tx.call.release.ok
    ensures Apply(s, tx).Some? ==>
              var (id, s') := (tx.call.id, Apply(s, tx).value);
              && s'.intents == s.intents[id := s.intents[id].(status := Expired)]
              && s'.pendingTreasury == s.pendingTreasury && s'.nonce == s.nonce && s'.now == s.now
  {
    var id := tx.call.id;
    if id in s.intents {
      assert SoundIntent(s.intents[id], s.now);
    }
    if Apply(s, tx).Some? {
      CancelEffect(s, tx);
      CancelAccepted(s, tx);
    }
    if Open(s, id) && tx.call.release.ok && tx.sender == s.intents[id].owner && tx.value == 0 {
      assert tx == Tx(s.intents[id].owner, 0, CancelIntent(id, tx.call.release));
      OwnerIsNeverTrapped(s, id, tx.call.release);
    }
  }

  lemma CancelAccepted(s: State, tx: Tx)
    requires tx.call.CancelIntent? && Apply(s, tx).Some?
    ensures tx.call.release.ok && tx.value == 0 && tx.sender != ZERO
  {
    assert Apply(s, tx) == Cancel(s, tx);
    var id, i := tx.call.id, Get(s.intents, tx.call.id);
    var s1 := s.(locked := true, intents := s.intents[id := i.(status := Expired)]);
    assert Pay(s1, EscrowPayment(id, i, tx.sender), tx.call.release).Some?;
  }

  /** Until the expiry the call named, an approved solver's exact collateral is taken and the owner cannot cancel;
      from then on exactly the other way round. */
  lemma SubmissionHoldsUntilItsExpiry(s: State, tx: Tx, later: nat, solver: Address, release: Callback)
    requires Inv(s) && tx.call.SubmitIntent? && tx.call.token == NATIVE && Apply(s, tx).Some?
    requires !s.paused && solver in s.approved && solver != ZERO && release.ok && s.eth + tx.value < U256
    requires tx.call.amount * 150 < U256 && later >= s.now
    ensures var id := IntentId(tx.sender, s.nonce, s.now);
            var s1 := Apply(s, tx).value.(now := later);
            && (Apply(s1, Tx(solver, tx.call.amount * 150 / 100, PostCollateral(id))).Some? <==> later < tx.call.expiry)
            && (Apply(s1, Tx(tx.sender, 0, CancelIntent(id, release))).Some? <==> later >= tx.call.expiry)
  {
    var (id, s') := (IntentId(tx.sender, s.nonce, s.now), Apply(s, tx).value);
    ApplyKeeps(s, tx);
    RecordedAsAsked(s, tx);
    SubmitEffect(s, tx);
    NativeKeepsRoles(s, tx);
    var s1 := s'.(now := later);
    assert Inv(s1);
    PostExactly(s1, Tx(solver, tx.call.amount * 150 / 100, PostCollateral(id)));
    CancelExactly(s1, Tx(tx.sender, 0, CancelIntent(id, release)));
  }

  lemma NativeKeepsRoles(s: State, tx: Tx)
    requires tx.call.SubmitIntent? && tx.call.token == NATIVE && Apply(s, tx).Some?
    ensures var s' := Apply(s, tx).value; s'.approved == s.approved && s'.paused == s.paused && s'.eth == s.eth + tx.value
  {
    NativeSubmit(s, tx);
  }

  // ------------------------------------------------------------------ treasury and owner

  /** Whoever is owed by the treasury account may take exactly that, once. */
  lemma WithdrawExactly(s: State, tx: Tx)
    requires Inv(s) && tx.call.WithdrawTreasury?
    ensures Apply(s, tx).Some? <==> tx.sender != ZERO && tx.value == 0 && tx.call.payout.ok
    ensures Apply(s, tx).Some? ==>
              var s' := Apply(s, tx).value;
              && s'.pendingTreasury == s.pendingTreasury[tx.sender := 0] && s'.intents == s.intents
              && s'.eth == s.eth - Owed(s.pendingTreasury, tx.sender) && s'.tokens == s.tokens
  {
    assert tx.sender != ZERO ==> Apply(s, tx) == Withdraw(s, tx);
    if Apply(s, tx).Some? {
      WithdrawEffect(s, tx);
    }
    if tx.call.payout.ok {
      OwedIsThere(s, tx.sender);
      var amount := Owed(s.pendingTreasury, tx.sender);
      var s1 := s.(locked := true, pendingTreasury := s.pendingTreasury[tx.sender := 0]);
      PayGoesThrough(s1, Payment(NATIVE, tx.sender, amount, TreasuryShare), tx.call.payout);
    }
  }

  lemma OwedIsThere(s: State, a: Address)
    requires Inv(s)
    ensures Owed(s.pendingTreasury, a) <= s.eth
  {
    if a in s.pendingTreasury {
      SumRemove(s.pendingTreasury, a, Amount());
    }
  }

  /** The owner's calls: each changes its own setting and nothing else, and nobody else can make one. */
  lemma AdministerExactly(s: State, tx: Tx)
    requires tx.call.Pause? || tx.call.Unpause? || tx.call.SetDailyVolumeLimit? || tx.call.SetOrchestrator? || tx.call.SetSolver?
    ensures Apply(s, tx).Some? <==>
              && tx.sender != ZERO && tx.sender == s.owner && tx.value == 0
              && (tx.call.Pause? ==> !s.paused) && (tx.call.Unpause? ==> s.paused)
              && (tx.call.SetOrchestrator? ==> tx.call.orchestrator != ZERO) && (tx.call.SetSolver? ==> tx.call.solver != ZERO)
    ensures Apply(s, tx).Some? ==>
              var s' := Apply(s, tx).value;
              && s' == s.(paused := s'.paused, window := s'.window, orchestrator := s'.orchestrator, approved := s'.approved)
              && (s'.paused <==> tx.call.Pause? || (s.paused && !tx.call.Unpause?))
              && s'.window == s.window.(limit := if tx.call.SetDailyVolumeLimit? then tx.call.limit else s.window.limit)
              && s'.orchestrator == (if tx.call.SetOrchestrator? then tx.call.orchestrator else s.orchestrator)
              && (forall a :: a in s'.approved <==>
                    if tx.call.SetSolver? && a == tx.call.solver then tx.call.approval else a in s.approved)
  {
    assert tx.sender != ZERO ==> Apply(s, tx) == Administer(s, tx);
  }

  /** Deployment gives each role to whom it was meant for, sets no effective limit, approves nobody. */
  lemma DeployedAsAsked(orchestrator: Address, treasury: Address, owner: Address, now: nat)
    ensures Deployed(orchestrator, treasury, owner, now).Some? <==> orchestrator != ZERO && treasury != ZERO && owner != ZERO
    ensures Deployed(orchestrator, treasury, owner, now).Some? ==>
              var s := Deployed(orchestrator, treasury, owner, now).value;
              && s.orchestrator == orchestrator && s.treasury == treasury && s.owner == owner
              && s.approved == {} && s.intents == map[] && s.nonce == 0 && s.pendingTreasury == map[]
              && s.window.volume == 0 && s.window.limit == U256 - 1 && s.window.lastReset == s.now == now
              && !s.paused && !s.locked && s.sent == []
  {
  }
}
