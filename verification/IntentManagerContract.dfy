/** The contract itself: storage updated in place, checks before effects, external calls last, a revert
    putting storage back. Every function is shown to do exactly what IntentManager's functions say. */
module IntentManagerContract {
  import opened Options
  import opened M = IntentManager
  import Safety = IntentManagerSafety
  import Runs = IntentManagerRuns

  class Contract {
    var intents: map<IntentId, Intent>
    var intentNonce: nat
    var orchestrator: Address
    var treasury: Address
    var owner: Address
    var approvedSolvers: set<Address>
    var pendingTreasuryWithdrawals: map<Address, nat>
    var dailyVolume: nat
    var dailyVolumeLimit: nat
    var lastVolumeReset: nat
    var paused: bool
    var entered: bool
    var balance: nat
    var holdings: map<Address, nat>
    var payments: seq<Payment>
    var timestamp: nat

    function View(): State
      reads this
    {
      State(intents, intentNonce, orchestrator, treasury, owner, approvedSolvers, pendingTreasuryWithdrawals,
            Window(dailyVolume, dailyVolumeLimit, lastVolumeReset), paused, entered, balance, holdings, payments, timestamp)
    }

    constructor (orchestrator: Address, treasury: Address, owner: Address, now: nat)
      requires Deployed(orchestrator, treasury, owner, now).Some?
      ensures Deployed(orchestrator, treasury, owner, now) == Some(View()) && Safety.Inv(View())
    {
      this.orchestrator, this.treasury, this.owner := orchestrator, treasury, owner;
      intents, intentNonce, approvedSolvers, pendingTreasuryWithdrawals := map[], 0, {}, map[];
      dailyVolume, dailyVolumeLimit, lastVolumeReset := 0, U256 - 1, now;
      paused, entered, balance, holdings, payments, timestamp := false, false, 0, map[], [], now;
    }

    method RestoreBooks(s: State)
      modifies `intents, `intentNonce, `pendingTreasuryWithdrawals, `balance, `holdings, `payments
      ensures intents == s.intents && intentNonce == s.nonce && pendingTreasuryWithdrawals == s.pendingTreasury
      ensures balance == s.eth && holdings == s.tokens && payments == s.sent
    {
      intents := s.intents;
      intentNonce := s.nonce;
      pendingTreasuryWithdrawals := s.pendingTreasury;
      balance := s.eth;
      holdings := s.tokens;
      payments := s.sent;
    }

    method RestoreRoles(s: State)
      modifies `orchestrator, `treasury, `owner, `approvedSolvers, `dailyVolume, `dailyVolumeLimit, `lastVolumeReset,
        `paused, `entered, `timestamp
      ensures orchestrator == s.orchestrator && treasury == s.treasury && owner == s.owner && approvedSolvers == s.approved
      ensures Window(dailyVolume, dailyVolumeLimit, lastVolumeReset) == s.window
      ensures paused == s.paused && entered == s.locked && timestamp == s.now
    {
      orchestrator := s.orchestrator;
      treasury := s.treasury;
      owner := s.owner;
      approvedSolvers := s.approved;
      dailyVolume := s.window.volume;
      dailyVolumeLimit := s.window.limit;
      lastVolumeReset := s.window.lastReset;
      paused := s.paused;
      entered := s.locked;
      timestamp := s.now;
    }

    /** A revert: storage as it was. */
    method Restore(s: State)
      modifies this
      ensures View() == s
    {
      RestoreBooks(s);
      RestoreRoles(s);
    }

    /** The callee's turn: any transactions, each complete or reverted. */
    method HandOver(txs: seq<Tx>)
      modifies this
      ensures View() == RunAll(old(View()), txs)
      decreases txs, 0
    {
      if txs != [] {
        var _ := Transact(txs[0]);
        HandOver(txs[1..]);
      }
    }

    /** _releaseFunds and the bare ETH transfers. */
    method Transfer(p: Payment, cb: Callback) returns (ok: bool)
      modifies this
      ensures M.Pay(old(View()), p, cb) == if ok then Some(View()) else None
      decreases cb, 1
    {
      if !cb.ok || (if p.token == NATIVE then balance else Owed(holdings, p.token)) < p.amount {
        return false;
      }
      payments := payments + [p];
      if p.token == NATIVE {
        balance := balance - p.amount;
      } else {
        holdings := holdings[p.token := Owed(holdings, p.token) - p.amount];
      }
      HandOver(cb.txs);
      ok := true;
    }

    /** msg.value for native escrow, otherwise whatever the token really delivered. */
    method ReceiveEscrow(tx: Tx) returns (ok: bool, amount: nat)
      requires tx.call.SubmitIntent?
      modifies this
      ensures M.Receive(old(View()), tx) == if ok then Some((View(), amount)) else None
      decreases tx, 0, 0
    {
      var c := tx.call;
      amount := c.amount;
      if c.token == NATIVE {
        balance := balance + tx.value;
        return tx.value == amount, amount;
      }
      if tx.value != 0 || !c.transferFrom.ok {
        return false, amount;
      }
      HandOver(c.transferFrom.txs);
      amount := c.delivered;
      holdings := holdings[c.token := Owed(holdings, c.token) + amount];
      ok := amount != 0;
    }

    /** The rolling circuit breaker. */
    method AdmitVolume(amount: nat) returns (ok: bool)
      modifies `dailyVolume, `lastVolumeReset
      ensures var w := old(View()).window;
              M.Admit(w, timestamp, amount) == if ok then Some(View().window) else None
    {
      if timestamp > lastVolumeReset + VOLUME_WINDOW {
        dailyVolume := 0;
        lastVolumeReset := timestamp;
      }
      if dailyVolume + amount > dailyVolumeLimit || dailyVolume + amount >= U256 {
        return false;
      }
      dailyVolume := dailyVolume + amount;
      ok := true;
    }

    /** Writes the new intent under a fresh identifier and leaves the guarded section. */
    method Record(tx: Tx, amount: nat)
      requires tx.call.SubmitIntent?
      modifies `intents, `intentNonce, `entered
      ensures var s := old(View());
              View() == s.(intents := s.intents[IntentId(tx.sender, s.nonce, s.now) := NewIntent(s, tx, amount)],
                           nonce := s.nonce + 1, locked := false)
    {
      var c := tx.call;
      intents := intents[IntentId(tx.sender, intentNonce, timestamp) :=
        Intent(tx.sender, amount, c.token, c.wallet, c.chainId, c.expiry, c.slippageBps, Pending, ZERO, 0, 0, timestamp, 0)];
      intentNonce := intentNonce + 1;
      entered := false;
    }

    method SubmitIntent(tx: Tx) returns (ok: bool)
      requires tx.call.SubmitIntent?
      modifies this
      ensures M.Submit(old(View()), tx) == if ok then Some(View()) else None
      ensures !ok ==> View() == old(View())
      decreases tx, 0, 1
    {
      var before := View();
      if paused || entered || tx.call.amount == 0 || tx.call.expiry <= timestamp {
        return false;
      }
      entered := true;
      var received, amount := ReceiveEscrow(tx);
      var admitted := false;
      if received {
        admitted := AdmitVolume(amount);
      }
      if !admitted || intentNonce + 1 >= U256 {
        Restore(before);
        return false;
      }
      Record(tx, amount);
      ok := true;
    }

    method PostCollateral(tx: Tx) returns (ok: bool)
      requires tx.call.PostCollateral?
      modifies this
      ensures M.Post(old(View()), tx) == if ok then Some(View()) else None
      ensures !ok ==> View() == old(View())
    {
      var i := Get(intents, tx.call.id);
      if paused || entered || tx.sender !in approvedSolvers {
        return false;
      }
      if i.owner == ZERO || i.solver != ZERO || timestamp >= i.expiry {
        return false;
      }
      if i.amount * COLLATERAL_RATIO >= U256 || tx.value != i.amount * COLLATERAL_RATIO / 100 {
        return false;
      }
      balance := balance + tx.value;
      intents := intents[tx.call.id := i.(solver := tx.sender, collateral := tx.value)];
      ok := true;
    }

    method ConfirmSettlement(tx: Tx) returns (ok: bool)
      requires tx.call.ConfirmSettlement?
      modifies this
      ensures M.Confirm(old(View()), tx) == if ok then Some(View()) else None
      ensures !ok ==> View() == old(View())
      decreases tx, 0
    {
      var before, id, i := View(), tx.call.id, Get(intents, tx.call.id);
      if tx.value != 0 || tx.sender != orchestrator || entered || i.status != Pending || i.solver == ZERO {
        return false;
      }
      entered := true;
      intents := intents[id := i.(status := Settled, proofHash := tx.call.proofHash, settledAt := timestamp, collateral := 0)];
      ok := Transfer(Payment(i.token, i.solver, i.amount, EscrowOf(id)), tx.call.release);
      if ok {
        ok := Transfer(Payment(NATIVE, i.solver, i.collateral, CollateralOf(id)), tx.call.repay);
      }
      if !ok {
        Restore(before);
        return;
      }
      entered := false;
    }

    method Credit(amount: nat) returns (ok: bool)
      modifies `pendingTreasuryWithdrawals
      ensures M.CreditTreasury(old(View()), amount) == if ok then Some(View()) else None
    {
      var credited := Owed(pendingTreasuryWithdrawals, treasury) + amount;
      if credited >= U256 {
        return false;
      }
      pendingTreasuryWithdrawals := pendingTreasuryWithdrawals[treasury := credited];
      ok := true;
    }

    /** The shared tail of slashSolver and claimRefund. */
    method ForfeitTo(id: IntentId, status: Status, release: Callback) returns (ok: bool)
      modifies this
      ensures M.Forfeit(old(View()), id, status, release) == if ok then Some(View()) else None
      ensures !ok ==> View() == old(View())
      decreases release, 2
    {
      var before, i := View(), Get(intents, id);
      entered := true;
      intents := intents[id := i.(status := status, collateral := 0)];
      ok := Transfer(Payment(i.token, i.owner, i.amount, EscrowOf(id)), release);
      if ok {
        ok := Credit(i.collateral);
      }
      if !ok {
        Restore(before);
        return;
      }
      entered := false;
    }

    method SlashSolver(tx: Tx) returns (ok: bool)
      requires tx.call.SlashSolver?
      modifies this
      ensures M.Slash(old(View()), tx) == if ok then Some(View()) else None
      ensures !ok ==> View() == old(View())
      decreases tx, 0
    {
      var i := Get(intents, tx.call.id);
      if tx.value != 0 || tx.sender != orchestrator || entered {
        return false;
      }
      if i.status != Pending || timestamp < i.expiry || i.solver == ZERO {
        return false;
      }
      ok := ForfeitTo(tx.call.id, Slashed, tx.call.release);
    }

    method CancelIntent(tx: Tx) returns (ok: bool)
      requires tx.call.CancelIntent?
      modifies this
      ensures M.Cancel(old(View()), tx) == if ok then Some(View()) else None
      ensures !ok ==> View() == old(View())
      decreases tx, 0
    {
      var before, id, i := View(), tx.call.id, Get(intents, tx.call.id);
      if tx.value != 0 || entered || i.owner != tx.sender {
        return false;
      }
      if i.status != Pending || timestamp < i.expiry || i.solver != ZERO {
        return false;
      }
      entered := true;
      intents := intents[id := i.(status := Expired)];
      ok := Transfer(Payment(i.token, tx.sender, i.amount, EscrowOf(id)), tx.call.release);
      if !ok {
        Restore(before);
        return;
      }
      entered := false;
    }

    method ClaimRefund(tx: Tx) returns (ok: bool)
      requires tx.call.ClaimRefund?
      modifies this
      ensures M.Refund(old(View()), tx) == if ok then Some(View()) else None
      ensures !ok ==> View() == old(View())
      decreases tx, 0
    {
      var i := Get(intents, tx.call.id);
      if tx.value != 0 || entered || i.owner != tx.sender {
        return false;
      }
      if i.status != Pending || i.solver == ZERO || timestamp < i.expiry + REFUND_GRACE {
        return false;
      }
      ok := ForfeitTo(tx.call.id, Refunded, tx.call.release);
    }

    method WithdrawTreasury(tx: Tx) returns (ok: bool)
      requires tx.call.WithdrawTreasury?
      modifies this
      ensures M.Withdraw(old(View()), tx) == if ok then Some(View()) else None
      ensures !ok ==> View() == old(View())
      decreases tx, 0
    {
      if tx.value != 0 || entered {
        return false;
      }
      var before, amount := View(), Owed(pendingTreasuryWithdrawals, tx.sender);
      entered := true;
      pendingTreasuryWithdrawals := pendingTreasuryWithdrawals[tx.sender := 0];
      ok := Transfer(Payment(NATIVE, tx.sender, amount, TreasuryShare), tx.call.payout);
      if !ok {
        Restore(before);
        return;
      }
      entered := false;
    }

    method Admin(tx: Tx) returns (ok: bool)
      modifies this
      ensures M.Administer(old(View()), tx) == if ok then Some(View()) else None
      ensures !ok ==> View() == old(View())
    {
      if tx.value != 0 || tx.sender != owner {
        return false;
      }
      ok := true;
      match tx.call {
        case Pause => if paused { return false; } paused := true;
        case Unpause => if !paused { return false; } paused := false;
        case SetDailyVolumeLimit(limit) => dailyVolumeLimit := limit;
        case SetOrchestrator(o) => if o == ZERO { return false; } orchestrator := o;
        case SetSolver(a, approval) =>
          if a == ZERO { return false; }
          approvedSolvers := if approval then approvedSolvers + {a} else approvedSolvers - {a};
        case _ => return false;
      }
    }

    /** One transaction, dispatched to its function. It is the model's; and whatever its callees did, a sound object is sound afterwards:
        solvent, every closed intent paid once, no intent reopened or reassigned. */
    method Transact(tx: Tx) returns (ok: bool)
      modifies this
      ensures M.Apply(old(View()), tx) == if ok then Some(View()) else None
      ensures !ok ==> View() == old(View())
      ensures Safety.Inv(old(View())) ==> Safety.Inv(View()) && Runs.Evolves(old(View()), View(), old(View()).now)
      decreases tx, 1
    {
      ghost var before := View();
      if tx.sender == ZERO {
        return false;
      }
      match tx.call {
        case SubmitIntent(_, _, _, _, _, _, _, _) => ok := SubmitIntent(tx);
        case PostCollateral(_) => ok := PostCollateral(tx);
        case ConfirmSettlement(_, _, _, _) => ok := ConfirmSettlement(tx);
        case SlashSolver(_, _) => ok := SlashSolver(tx);
        case CancelIntent(_, _) => ok := CancelIntent(tx);
        case ClaimRefund(_, _) => ok := ClaimRefund(tx);
        case WithdrawTreasury(_) => ok := WithdrawTreasury(tx);
        case _ => ok := Admin(tx);
      }
      if ok && Safety.Inv(before) {
        Safety.ApplyKeeps(before, tx);
        Runs.ApplyEvolves(before, tx);
      }
    }
  }
}
