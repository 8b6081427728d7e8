/** IntentManager, the source-chain escrow. Transactions are values; an external call hands control to
    a callee who may issue any further transactions, nested to any depth, before returning. */
module IntentManager {
  import opened Options

  type Address = nat
  const ZERO: Address := 0
  const NATIVE: Address := 0
  const U256: nat := 0x1_0000_0000_0000_0000_0000_0000_0000_0000_0000_0000_0000_0000_0000_0000_0000_0000
  const COLLATERAL_RATIO := 150
  const REFUND_GRACE := 24 * 3600
  const VOLUME_WINDOW := 24 * 3600

  /** keccak256(sender, nonce, timestamp), taken as injective. */
  datatype IntentId = IntentId(sender: Address, nonce: nat, time: nat)

  datatype Status = Pending | Settled | Expired | Slashed | Refunded

  datatype Intent = Intent(
    owner: Address, amount: nat, token: Address, wallet: nat, chainId: nat, expiry: nat, slippageBps: nat,
    status: Status, solver: Address, collateral: nat, proofHash: nat, createdAt: nat, settledAt: nat)

  /** An unwritten mapping slot. */
  const NO_INTENT := Intent(ZERO, 0, NATIVE, 0, 0, 0, 0, Pending, ZERO, 0, 0, 0, 0)

  datatype Reason = EscrowOf(id: IntentId) | CollateralOf(id: IntentId) | TreasuryShare
  datatype Payment = Payment(token: Address, to: Address, amount: nat, reason: Reason)

  datatype Window = Window(volume: nat, limit: nat, lastReset: nat)

  datatype State = State(
    intents: map<IntentId, Intent>, nonce: nat, orchestrator: Address, treasury: Address, owner: Address,
    approved: set<Address>, pendingTreasury: map<Address, nat>, window: Window, paused: bool, locked: bool,
    eth: nat, tokens: map<Address, nat>, sent: seq<Payment>, now: nat)

  // ------------------------------------------------------------------ transactions

  datatype Tx = Tx(sender: Address, value: nat, call: Call)

  datatype Call =
    | SubmitIntent(token: Address, amount: nat, wallet: nat, chainId: nat, expiry: nat, slippageBps: nat,
                   delivered: nat, transferFrom: Callback)
    | PostCollateral(id: IntentId)
    | ConfirmSettlement(id: IntentId, proofHash: nat, release: Callback, repay: Callback)
    | SlashSolver(id: IntentId, release: Callback)
    | CancelIntent(id: IntentId, release: Callback)
    | ClaimRefund(id: IntentId, release: Callback)
    | WithdrawTreasury(payout: Callback)
    | Pause
    | Unpause
    | SetDailyVolumeLimit(limit: nat)
    | SetOrchestrator(orchestrator: Address)
    | SetSolver(solver: Address, approval: bool)

  /** What a callee does with control: the transactions it issues, and whether it then succeeds. */
  datatype Callback = Callback(ok: bool, txs: seq<Tx>)

  function Get(intents: map<IntentId, Intent>, id: IntentId): Intent {
    if id in intents then intents[id] else NO_INTENT
  }

  function Owed(pending: map<Address, nat>, a: Address): nat {
    if a in pending then pending[a] else 0
  }

  function RequiredCollateral(amount: nat): nat {
    amount * COLLATERAL_RATIO / 100
  }

  /** The volume window after accepting an amount; None when the circuit breaker trips. */
  function Admit(w: Window, now: nat, amount: nat): Option<Window> {
    var w := if now > w.lastReset + VOLUME_WINDOW then w.(volume := 0, lastReset := now) else w;
    if w.volume + amount > w.limit || w.volume + amount >= U256 then None
    else Some(w.(volume := w.volume + amount))
  }

  /** Pays p and hands control to the payee; None when the transfer fails. */
  function Pay(s: State, p: Payment, cb: Callback): Option<State>
    decreases cb, 1
  {
    if !cb.ok || Held(s, p.token) < p.amount then None
    else Some(RunAll(Debit(s, p), cb.txs))
  }

  function Held(s: State, token: Address): nat {
    if token == NATIVE then s.eth else Owed(s.tokens, token)
  }

  function Debit(s: State, p: Payment): State
    requires Held(s, p.token) >= p.amount
  {
    var s := s.(sent := s.sent + [p]);
    if p.token == NATIVE then s.(eth := s.eth - p.amount)
    else s.(tokens := s.tokens[p.token := Owed(s.tokens, p.token) - p.amount])
  }

  /** Transactions issued one after another; a reverted one leaves no trace. */
  function RunAll(s: State, txs: seq<Tx>): State
    decreases txs, 0
  {
    if txs == [] then s
    else
      var s := match Apply(s, txs[0]) case None => s case Some(s') => s';
      RunAll(s, txs[1..])
  }

  /** One transaction; None is a revert. */
  function Apply(s: State, tx: Tx): Option<State>
    decreases tx, 1
  {
    if tx.sender == ZERO then None
    else match tx.call
      case SubmitIntent(_, _, _, _, _, _, _, _) => Submit(s, tx)
      case PostCollateral(_) => Post(s, tx)
      case ConfirmSettlement(_, _, _, _) => Confirm(s, tx)
      case SlashSolver(_, _) => Slash(s, tx)
      case CancelIntent(_, _) => Cancel(s, tx)
      case ClaimRefund(_, _) => Refund(s, tx)
      case WithdrawTreasury(_) => Withdraw(s, tx)
      case _ => Administer(s, tx)
  }

  function NewIntent(s: State, tx: Tx, amount: nat): Intent
    requires tx.call.SubmitIntent?
  {
    var c := tx.call;
    Intent(tx.sender, amount, c.token, c.wallet, c.chainId, c.expiry, c.slippageBps,
           Pending, ZERO, 0, 0, s.now, 0)
  }

  /** The escrowed amount: msg.value, or whatever the token really delivered. */
  function Receive(s: State, tx: Tx): Option<(State, nat)>
    requires tx.call.SubmitIntent?
    decreases tx, 0, 0
  {
    var c := tx.call;
    if c.token == NATIVE then
      if tx.value != c.amount then None else Some((s.(eth := s.eth + tx.value), c.amount))
    else if tx.value != 0 || !c.transferFrom.ok then None
    else
      var s1 := RunAll(s, c.transferFrom.txs);
      if c.delivered == 0 then None
      else Some((s1.(tokens := s1.tokens[c.token := Owed(s1.tokens, c.token) + c.delivered]), c.delivered))
  }

  function Submit(s: State, tx: Tx): Option<State>
    requires tx.call.SubmitIntent?
    decreases tx, 0, 1
  {
    if s.paused || s.locked || tx.call.amount == 0 || tx.call.expiry <= s.now then None
    else
      var (s1, amount) :- Receive(s.(locked := true), tx);
      var window :- Admit(s1.window, s1.now, amount);
      if s1.nonce + 1 >= U256 then None
      else
        var id := IntentId(tx.sender, s1.nonce, s1.now);
        Some(s1.(window := window, nonce := s1.nonce + 1,
                 intents := s1.intents[id := NewIntent(s1, tx, amount)], locked := false))
  }

  function Post(s: State, tx: Tx): Option<State>
    requires tx.call.PostCollateral?
  {
    var i := Get(s.intents, tx.call.id);
    if s.paused || s.locked || tx.sender !in s.approved then None
    else if i.owner == ZERO || i.solver != ZERO || s.now >= i.expiry then None
    else if i.amount * COLLATERAL_RATIO >= U256 || tx.value != RequiredCollateral(i.amount) then None
    else Some(s.(eth := s.eth + tx.value,
                 intents := s.intents[tx.call.id := i.(solver := tx.sender, collateral := tx.value)]))
  }

  function Confirm(s: State, tx: Tx): Option<State>
    requires tx.call.ConfirmSettlement?
    decreases tx, 0
  {
    var id, i := tx.call.id, Get(s.intents, tx.call.id);
    if tx.value != 0 || tx.sender != s.orchestrator || s.locked then None
    else if i.status != Pending || i.solver == ZERO then None
    else
      var closed := i.(status := Settled, proofHash := tx.call.proofHash, settledAt := s.now, collateral := 0);
      var s1 := s.(locked := true, intents := s.intents[id := closed]);
      var s2 :- Pay(s1, Payment(i.token, i.solver, i.amount, EscrowOf(id)), tx.call.release);
      var s3 :- Pay(s2, Payment(NATIVE, i.solver, i.collateral, CollateralOf(id)), tx.call.repay);
      Some(s3.(locked := false))
  }

  function CreditTreasury(s: State, amount: nat): Option<State> {
    var owed := Owed(s.pendingTreasury, s.treasury) + amount;
    if owed >= U256 then None else Some(s.(pendingTreasury := s.pendingTreasury[s.treasury := owed]))
  }

  /** The disposition slashSolver and claimRefund share: escrow to the owner, collateral to the treasury. */
  function Forfeit(s: State, id: IntentId, status: Status, release: Callback): Option<State>
    decreases release, 2
  {
    var i := Get(s.intents, id);
    var s1 := s.(locked := true, intents := s.intents[id := i.(status := status, collateral := 0)]);
    var s2 :- Pay(s1, Payment(i.token, i.owner, i.amount, EscrowOf(id)), release);
    var s3 :- CreditTreasury(s2, i.collateral);
    Some(s3.(locked := false))
  }

  function Slash(s: State, tx: Tx): Option<State>
    requires tx.call.SlashSolver?
    decreases tx, 0
  {
    var i := Get(s.intents, tx.call.id);
    if tx.value != 0 || tx.sender != s.orchestrator || s.locked then None
    else if i.status != Pending || s.now < i.expiry || i.solver == ZERO then None
    else Forfeit(s, tx.call.id, Slashed, tx.call.release)
  }

  function Cancel(s: State, tx: Tx): Option<State>
    requires tx.call.CancelIntent?
    decreases tx, 0
  {
    var id, i := tx.call.id, Get(s.intents, tx.call.id);
    if tx.value != 0 || s.locked || i.owner != tx.sender then None
    else if i.status != Pending || s.now < i.expiry || i.solver != ZERO then None
    else
      var s1 := s.(locked := true, intents := s.intents[id := i.(status := Expired)]);
      var s2 :- Pay(s1, Payment(i.token, tx.sender, i.amount, EscrowOf(id)), tx.call.release);
      Some(s2.(locked := false))
  }

  function Refund(s: State, tx: Tx): Option<State>
    requires tx.call.ClaimRefund?
    decreases tx, 0
  {
    var i := Get(s.intents, tx.call.id);
    if tx.value != 0 || s.locked || i.owner != tx.sender then None
    else if i.status != Pending || i.solver == ZERO || s.now < i.expiry + REFUND_GRACE then None
    else Forfeit(s, tx.call.id, Refunded, tx.call.release)
  }

  function Withdraw(s: State, tx: Tx): Option<State>
    requires tx.call.WithdrawTreasury?
    decreases tx, 0
  {
    if tx.value != 0 || s.locked then None
    else
      var amount := Owed(s.pendingTreasury, tx.sender);
      var s1 := s.(locked := true, pendingTreasury := s.pendingTreasury[tx.sender := 0]);
      var s2 :- Pay(s1, Payment(NATIVE, tx.sender, amount, TreasuryShare), tx.call.payout);
      Some(s2.(locked := false))
  }

  /** The owner's functions: the only ones a callee can complete while another call is in progress. */
  function Administer(s: State, tx: Tx): Option<State> {
    if tx.value != 0 || tx.sender != s.owner then None
    else match tx.call
      case Pause => if s.paused then None else Some(s.(paused := true))
      case Unpause => if !s.paused then None else Some(s.(paused := false))
      case SetDailyVolumeLimit(limit) => Some(s.(window := s.window.(limit := limit)))
      case SetOrchestrator(o) => if o == ZERO then None else Some(s.(orchestrator := o))
      case SetSolver(a, approval) =>
        if a == ZERO then None
        else Some(s.(approved := if approval then s.approved + {a} else s.approved - {a}))
      case _ => None
  }

  // ------------------------------------------------------------------ runs

  datatype Event = Transact(tx: Tx) | Tick(seconds: nat) | Donate(token: Address, amount: nat)

  /** Anyone may force ETH or tokens on the contract; time only moves forward. */
  function Step(s: State, e: Event): State {
    match e
    case Transact(tx) => RunAll(s, [tx])
    case Tick(seconds) => s.(now := s.now + seconds)
    case Donate(token, amount) =>
      if token == NATIVE then s.(eth := s.eth + amount)
      else s.(tokens := s.tokens[token := Owed(s.tokens, token) + amount])
  }

  function Run(s: State, events: seq<Event>): State
    decreases |events|
  {
    if events == [] then s else Run(Step(s, events[0]), events[1..])
  }

  function Deployed(orchestrator: Address, treasury: Address, owner: Address, now: nat): Option<State> {
    if orchestrator == ZERO || treasury == ZERO || owner == ZERO then None
    else Some(State(map[], 0, orchestrator, treasury, owner, {}, map[], Window(0, U256 - 1, now), false, false,
                    0, map[], [], now))
  }
}
