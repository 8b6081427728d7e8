/** What every run of IntentManager keeps, re-entrant callees included. */
module IntentManagerSafety {
  import opened Options
  import opened Sums
  import opened IntentManager

  /** The part of the state that is about money and intents. */
  datatype Books = Books(
    intents: map<IntentId, Intent>, nonce: nat, pendingTreasury: map<Address, nat>,
    eth: nat, tokens: map<Address, nat>, sent: seq<Payment>)

  function BooksOf(s: State): Books {
    Books(s.intents, s.nonce, s.pendingTreasury, s.eth, s.tokens, s.sent)
  }

  // ------------------------------------------------------------------ re-entrancy

  /** While the guard is held a callee can change roles, pause and limit, and nothing else. */
  ghost predicate OnlyAdministered(s: State, s': State) {
    && BooksOf(s') == BooksOf(s) && s'.locked == s.locked && s'.now == s.now
    && s'.owner == s.owner && s'.treasury == s.treasury
    && s'.window.volume == s.window.volume && s'.window.lastReset == s.window.lastReset
  }

  lemma LockedApply(s: State, tx: Tx)
    requires s.locked
    ensures Apply(s, tx).Some? ==> Apply(s, tx) == Administer(s, tx) && OnlyAdministered(s, Apply(s, tx).value)
  {
    match tx.call
    case SubmitIntent(_, _, _, _, _, _, _, _) => assert Submit(s, tx).None?;
    case PostCollateral(_) => assert Post(s, tx).None?;
    case ConfirmSettlement(_, _, _, _) => assert Confirm(s, tx).None?;
    case SlashSolver(_, _) => assert Slash(s, tx).None?;
    case CancelIntent(_, _) => assert Cancel(s, tx).None?;
    case ClaimRefund(_, _) => assert Refund(s, tx).None?;
    case WithdrawTreasury(_) => assert Withdraw(s, tx).None?;
    case _ =>
  }

  lemma {:induction false} LockedRun(s: State, txs: seq<Tx>)
    requires s.locked
    ensures OnlyAdministered(s, RunAll(s, txs))
    decreases |txs|
  {
    if txs != [] {
      var r := Apply(s, txs[0]);
      var s' := match r case None => s case Some(s') => s';
      LockedApply(s, txs[0]);
      LockedRun(s', txs[1..]);
    }
  }

  lemma PayEffect(s: State, p: Payment, cb: Callback)
    requires s.locked
    ensures Pay(s, p, cb).Some? ==> Held(s, p.token) >= p.amount && OnlyAdministered(Debit(s, p), Pay(s, p, cb).value)
  {
    if Held(s, p.token) >= p.amount {
      LockedRun(Debit(s, p), cb.txs);
    }
  }

  // ------------------------------------------------------------------ what each function does to the books

  function DebitBooks(b: Books, p: Payment): Books
    requires p.amount <= if p.token == NATIVE then b.eth else Owed(b.tokens, p.token)
  {
    var b := b.(sent := b.sent + [p]);
    if p.token == NATIVE then b.(eth := b.eth - p.amount)
    else b.(tokens := b.tokens[p.token := Owed(b.tokens, p.token) - p.amount])
  }

  ghost predicate Affordable(b: Books, p: Payment) {
    p.amount <= if p.token == NATIVE then b.eth else Owed(b.tokens, p.token)
  }

  function EscrowPayment(id: IntentId, i: Intent, to: Address): Payment {
    Payment(i.token, to, i.amount, EscrowOf(id))
  }

  function CollateralPayment(id: IntentId, i: Intent): Payment {
    Payment(NATIVE, i.solver, i.collateral, CollateralOf(id))
  }

  /** Settlement pays the solver the escrow and its collateral, once each, and closes the intent. */
  lemma ConfirmEffect(s: State, tx: Tx)
    requires tx.call.ConfirmSettlement? && Confirm(s, tx).Some?
    ensures var (id, s') := (tx.call.id, Confirm(s, tx).value);
            var i := Get(s.intents, id);
            var closed := i.(status := Settled, proofHash := tx.call.proofHash, settledAt := s.now, collateral := 0);
            var b := BooksOf(s).(intents := s.intents[id := closed]);
            && tx.sender == s.orchestrator && i.status == Pending && i.solver != ZERO
            && Affordable(b, EscrowPayment(id, i, i.solver))
            && Affordable(DebitBooks(b, EscrowPayment(id, i, i.solver)), CollateralPayment(id, i))
            && BooksOf(s') == DebitBooks(DebitBooks(b, EscrowPayment(id, i, i.solver)), CollateralPayment(id, i))
            && !s'.locked && s'.now == s.now && s'.treasury == s.treasury
  {
    var id, i := tx.call.id, Get(s.intents, tx.call.id);
    var closed := i.(status := Settled, proofHash := tx.call.proofHash, settledAt := s.now, collateral := 0);
    var s1 := s.(locked := true, intents := s.intents[id := closed]);
    PayEffect(s1, EscrowPayment(id, i, i.solver), tx.call.release);
    var s2 := Pay(s1, EscrowPayment(id, i, i.solver), tx.call.release).value;
    PayEffect(s2, CollateralPayment(id, i), tx.call.repay);
  }

  /** The books after a forfeit: escrow paid to the owner, collateral credited to the treasury, intent closed. */
  ghost predicate Forfeited(b: Books, b': Books, treasury: Address, id: IntentId, status: Status) {
    && id in b.intents && status in {Slashed, Refunded}
    && b.intents[id].status == Pending && b.intents[id].solver != ZERO
    && var i := b.intents[id];
       var closed := b.(intents := b.intents[id := i.(status := status, collateral := 0)]);
       && Affordable(closed, EscrowPayment(id, i, i.owner))
       && b' == DebitBooks(closed, EscrowPayment(id, i, i.owner))
                  .(pendingTreasury := b.pendingTreasury[treasury := Owed(b.pendingTreasury, treasury) + i.collateral])
  }

  /** Slashing and refunding pay the owner the escrow and credit the treasury with the collateral. */
  lemma ForfeitEffect(s: State, id: IntentId, status: Status, release: Callback)
    requires Forfeit(s, id, status, release).Some?
    requires status in {Slashed, Refunded} && id in s.intents
    requires s.intents[id].status == Pending && s.intents[id].solver != ZERO
    ensures var s' := Forfeit(s, id, status, release).value;
            && Forfeited(BooksOf(s), BooksOf(s'), s.treasury, id, status)
            && !s'.locked && s'.now == s.now && s'.treasury == s.treasury
  {
    var i := s.intents[id];
    var s1 := s.(locked := true, intents := s.intents[id := i.(status := status, collateral := 0)]);
    PayEffect(s1, EscrowPayment(id, i, i.owner), release);
  }

  lemma CancelEffect(s: State, tx: Tx)
    requires tx.call.CancelIntent? && Cancel(s, tx).Some?
    ensures var (id, s') := (tx.call.id, Cancel(s, tx).value);
            var i := Get(s.intents, id);
            var b := BooksOf(s).(intents := s.intents[id := i.(status := Expired)]);
            && i.owner == tx.sender && i.status == Pending && i.solver == ZERO && i.expiry <= s.now
            && Affordable(b, EscrowPayment(id, i, i.owner))
            && BooksOf(s') == DebitBooks(b, EscrowPayment(id, i, i.owner))
            && !s'.locked && s'.now == s.now && s'.treasury == s.treasury
  {
    var id, i := tx.call.id, Get(s.intents, tx.call.id);
    var s1 := s.(locked := true, intents := s.intents[id := i.(status := Expired)]);
    PayEffect(s1, EscrowPayment(id, i, i.owner), tx.call.release);
  }

  lemma WithdrawEffect(s: State, tx: Tx)
    requires tx.call.WithdrawTreasury? && Withdraw(s, tx).Some?
    ensures var s' := Withdraw(s, tx).value;
            var p := Payment(NATIVE, tx.sender, Owed(s.pendingTreasury, tx.sender), TreasuryShare);
            && p.amount <= s.eth
            && BooksOf(s') == DebitBooks(BooksOf(s).(pendingTreasury := s.pendingTreasury[tx.sender := 0]), p)
            && !s'.locked && s'.now == s.now && s'.treasury == s.treasury
  {
    var p := Payment(NATIVE, tx.sender, Owed(s.pendingTreasury, tx.sender), TreasuryShare);
    PayEffect(s.(locked := true, pendingTreasury := s.pendingTreasury[tx.sender := 0]), p, tx.call.payout);
  }

  /** Submitting records a pending intent for what really arrived, under an identifier never used before. */
  lemma SubmitEffect(s: State, tx: Tx)
    requires tx.call.SubmitIntent? && Submit(s, tx).Some?
    ensures var s' := Submit(s, tx).value;
            var c := tx.call;
            var amount := if c.token == NATIVE then tx.value else c.delivered;
            var id := IntentId(tx.sender, s.nonce, s.now);
            && amount > 0 && c.expiry > s.now && !s.locked && !s.paused
            && BooksOf(s') == BooksOf(s).(
                 intents := s.intents[id := NewIntent(s, tx, amount)], nonce := s.nonce + 1,
                 eth := if c.token == NATIVE then s.eth + amount else s.eth,
                 tokens := if c.token == NATIVE then s.tokens
                           else s.tokens[c.token := Owed(s.tokens, c.token) + amount])
            && !s'.locked && s'.now == s.now && s'.treasury == s.treasury
            && exists limit :: Admit(s.window.(limit := limit), s.now, amount) == Some(s'.window)
  {
    ReceiveEffect(s.(locked := true), tx);
    var (s1, _) := Receive(s.(locked := true), tx).value;
    assert Admit(s.window.(limit := s1.window.limit), s.now, if tx.call.token == NATIVE then tx.value else tx.call.delivered)
           == Some(Submit(s, tx).value.window);
  }

  /** What reaches the contract is what is recorded, whatever the token does with control. */
  lemma ReceiveEffect(s: State, tx: Tx)
    requires s.locked && tx.call.SubmitIntent? && tx.call.amount > 0 && Receive(s, tx).Some?
    ensures var ((s1, amount), c) := (Receive(s, tx).value, tx.call);
            && amount > 0 && amount == (if c.token == NATIVE then tx.value else c.delivered)
            && BooksOf(s1) == BooksOf(s).(
                 eth := if c.token == NATIVE then s.eth + amount else s.eth,
                 tokens := if c.token == NATIVE then s.tokens
                           else s.tokens[c.token := Owed(s.tokens, c.token) + amount])
            && s1.window == s.window.(limit := s1.window.limit) && s1.now == s.now && s1.treasury == s.treasury
  {
    LockedRun(s, tx.call.transferFrom.txs);
  }

  // ------------------------------------------------------------------ the invariant

  ghost predicate SoundIntent(i: Intent, now: nat) {
    && i.owner != ZERO
    && (i.solver == ZERO ==> i.collateral == 0)
    && (i.status != Pending ==> i.collateral == 0)
    && (i.status == Pending && i.solver != ZERO ==> i.collateral == RequiredCollateral(i.amount))
    && (i.status in {Settled, Slashed, Refunded} ==> i.solver != ZERO)
    && (i.status == Expired ==> i.solver == ZERO && i.expiry <= now)
  }

  ghost function Due(token: Address): Intent -> nat {
    (i: Intent) => if i.status == Pending && i.token == token then i.amount else 0
  }

  ghost function Posted(): Intent -> nat {
    (i: Intent) => i.collateral
  }

  ghost function Amount(): nat -> nat {
    (n: nat) => n
  }

  /** Every wei and token unit owed to anyone is there. */
  ghost predicate Solvent(b: Books) {
    && b.eth >= Sum(b.intents, Due(NATIVE)) + Sum(b.intents, Posted()) + Sum(b.pendingTreasury, Amount())
    && forall t: Address :: t != NATIVE ==> Owed(b.tokens, t) >= Sum(b.intents, Due(t))
  }

  function PaymentsFor(sent: seq<Payment>, r: Reason): seq<Payment> {
    if sent == [] then []
    else PaymentsFor(sent[..|sent| - 1], r) + if sent[|sent| - 1].reason == r then [sent[|sent| - 1]] else []
  }

  /** Who has been paid an intent's escrow: nobody while it is pending, afterwards one party, once. */
  ghost function EscrowPaid(id: IntentId, i: Intent): seq<Payment> {
    if i.status == Pending then []
    else [EscrowPayment(id, i, if i.status == Settled then i.solver else i.owner)]
  }

  ghost function CollateralReturned(id: IntentId, i: Intent): seq<Payment> {
    if i.status != Settled then []
    else [Payment(NATIVE, i.solver, RequiredCollateral(i.amount), CollateralOf(id))]
  }

  ghost predicate Disbursed(b: Books) {
    && (forall id {:trigger PaymentsFor(b.sent, EscrowOf(id))} ::
          PaymentsFor(b.sent, EscrowOf(id)) == EscrowPaid(id, Get(b.intents, id)))
    && (forall id {:trigger PaymentsFor(b.sent, CollateralOf(id))} ::
          PaymentsFor(b.sent, CollateralOf(id)) == CollateralReturned(id, Get(b.intents, id)))
  }

  ghost predicate SoundIntents(b: Books, now: nat) {
    forall id :: id in b.intents ==> SoundIntent(b.intents[id], now) && id.nonce < b.nonce
  }

  ghost predicate Inv(s: State) {
    && !s.locked && s.treasury != ZERO
    && SoundIntents(BooksOf(s), s.now) && Solvent(BooksOf(s)) && Disbursed(BooksOf(s))
  }

  // ------------------------------------------------------------------ solvency of each change

  lemma SumsAfter(intents: map<IntentId, Intent>, id: IntentId, i: Intent, token: Address)
    ensures Sum(intents[id := i], Due(token)) + Due(token)(Get(intents, id)) == Sum(intents, Due(token)) + Due(token)(i)
    ensures Sum(intents[id := i], Posted()) + Get(intents, id).collateral == Sum(intents, Posted()) + i.collateral
  {
    SumUpdate(intents, id, i, Due(token));
    SumUpdate(intents, id, i, Posted());
  }

  lemma TreasuryAfter(pending: map<Address, nat>, a: Address, n: nat)
    ensures Sum(pending[a := n], Amount()) + Owed(pending, a) == Sum(pending, Amount()) + n
  {
    SumUpdate(pending, a, n, Amount());
  }

  /** Closing a pending intent and paying out its escrow, its collateral owed elsewhere or paid too. */
  lemma CloseSolvent(b: Books, id: IntentId, i: Intent, p: Payment)
    requires Solvent(b) && i.status != Pending && i.collateral == 0
    requires var was := Get(b.intents, id);
             was.status == Pending && p.token == was.token && p.amount == was.amount
    requires Affordable(b.(intents := b.intents[id := i]), p)
    ensures var b' := DebitBooks(b.(intents := b.intents[id := i]), p);
            && b'.eth >= Sum(b'.intents, Due(NATIVE)) + Sum(b'.intents, Posted())
                         + Sum(b'.pendingTreasury, Amount()) + Get(b.intents, id).collateral
            && forall t: Address :: t != NATIVE ==> Owed(b'.tokens, t) >= Sum(b'.intents, Due(t))
  {
    SumsAfter(b.intents, id, i, NATIVE);
    forall t: Address | t != NATIVE
      ensures Owed(DebitBooks(b.(intents := b.intents[id := i]), p).tokens, t) >= Sum(b.intents[id := i], Due(t))
    {
      SumsAfter(b.intents, id, i, t);
    }
  }

  // ------------------------------------------------------------------ payments of each change

  lemma PaymentsAppend(sent: seq<Payment>, p: Payment, r: Reason)
    ensures PaymentsFor(sent + [p], r) == PaymentsFor(sent, r) + if p.reason == r then [p] else []
  {
    assert (sent + [p])[..|sent + [p]| - 1] == sent;
  }

  lemma OnePaymentDisburses(b: Books, b': Books, id: IntentId, p: Payment)
    requires Disbursed(b) && b'.sent == b.sent + [p]
    requires id in b'.intents && b'.intents == b.intents[id := b'.intents[id]]
    requires Get(b.intents, id).status == Pending && b'.intents[id].status in {Expired, Slashed, Refunded}
    requires [p] == EscrowPaid(id, b'.intents[id])
    ensures Disbursed(b')
  {
    forall x {:trigger PaymentsFor(b'.sent, EscrowOf(x))}
      ensures PaymentsFor(b'.sent, EscrowOf(x)) == EscrowPaid(x, Get(b'.intents, x))
    {
      PaymentsAppend(b.sent, p, EscrowOf(x));
    }
    forall x {:trigger PaymentsFor(b'.sent, CollateralOf(x))}
      ensures PaymentsFor(b'.sent, CollateralOf(x)) == CollateralReturned(x, Get(b'.intents, x))
    {
      PaymentsAppend(b.sent, p, CollateralOf(x));
    }
  }

  lemma TwoPaymentsDisburse(b: Books, b': Books, id: IntentId, p: Payment, q: Payment)
    requires Disbursed(b) && b'.sent == b.sent + [p] + [q]
    requires id in b'.intents && b'.intents == b.intents[id := b'.intents[id]]
    requires Get(b.intents, id).status == Pending && b'.intents[id].status == Settled
    requires [p] == EscrowPaid(id, b'.intents[id]) && [q] == CollateralReturned(id, b'.intents[id])
    ensures Disbursed(b')
  {
    forall x {:trigger PaymentsFor(b'.sent, EscrowOf(x))}
      ensures PaymentsFor(b'.sent, EscrowOf(x)) == EscrowPaid(x, Get(b'.intents, x))
    {
      PaymentsAppend(b.sent, p, EscrowOf(x));
      PaymentsAppend(b.sent + [p], q, EscrowOf(x));
    }
    forall x {:trigger PaymentsFor(b'.sent, CollateralOf(x))}
      ensures PaymentsFor(b'.sent, CollateralOf(x)) == CollateralReturned(x, Get(b'.intents, x))
    {
      PaymentsAppend(b.sent, p, CollateralOf(x));
      PaymentsAppend(b.sent + [p], q, CollateralOf(x));
    }
  }

  lemma NoPaymentDisburses(b: Books, b': Books)
    requires Disbursed(b) && b'.sent == b.sent
    requires forall id :: EscrowPaid(id, Get(b'.intents, id)) == EscrowPaid(id, Get(b.intents, id))
    requires forall id :: CollateralReturned(id, Get(b'.intents, id)) == CollateralReturned(id, Get(b.intents, id))
    ensures Disbursed(b')
  {
  }

  lemma TreasuryPaymentDisburses(b: Books, b': Books, p: Payment)
    requires Disbursed(b) && b'.sent == b.sent + [p] && p.reason == TreasuryShare && b'.intents == b.intents
    ensures Disbursed(b')
  {
    forall x {:trigger PaymentsFor(b'.sent, EscrowOf(x))}
      ensures PaymentsFor(b'.sent, EscrowOf(x)) == EscrowPaid(x, Get(b'.intents, x))
    {
      PaymentsAppend(b.sent, p, EscrowOf(x));
    }
    forall x {:trigger PaymentsFor(b'.sent, CollateralOf(x))}
      ensures PaymentsFor(b'.sent, CollateralOf(x)) == CollateralReturned(x, Get(b'.intents, x))
    {
      PaymentsAppend(b.sent, p, CollateralOf(x));
    }
  }

  // ------------------------------------------------------------------ every transaction keeps the invariant

  lemma ConfirmKeeps(s: State, tx: Tx)
    requires Inv(s) && tx.call.ConfirmSettlement? && Confirm(s, tx).Some?
    ensures Inv(Confirm(s, tx).value)
  {
    ConfirmEffect(s, tx);
    var id, s' := tx.call.id, Confirm(s, tx).value;
    var i := s.intents[id];
    var p, q := EscrowPayment(id, i, i.solver), CollateralPayment(id, i);
    CloseSolvent(BooksOf(s), id, s'.intents[id], p);
    TwoPaymentsDisburse(BooksOf(s), BooksOf(s'), id, p, q);
  }

  lemma ForfeitSolvent(b: Books, b': Books, treasury: Address, id: IntentId, status: Status)
    requires Solvent(b) && Forfeited(b, b', treasury, id, status)
    ensures Solvent(b')
  {
    var i := b.intents[id];
    var p := EscrowPayment(id, i, i.owner);
    CloseSolvent(b, id, b'.intents[id], p);
    CreditSolvent(DebitBooks(b.(intents := b'.intents), p), b', treasury, i.collateral);
  }

  /** Money no longer owed to a solver, credited to the treasury. */
  lemma CreditSolvent(b: Books, b': Books, treasury: Address, n: nat)
    requires b.eth >= Sum(b.intents, Due(NATIVE)) + Sum(b.intents, Posted()) + Sum(b.pendingTreasury, Amount()) + n
    requires forall t: Address :: t != NATIVE ==> Owed(b.tokens, t) >= Sum(b.intents, Due(t))
    requires b' == b.(pendingTreasury := b.pendingTreasury[treasury := Owed(b.pendingTreasury, treasury) + n])
    ensures Solvent(b')
  {
    TreasuryAfter(b.pendingTreasury, treasury, Owed(b.pendingTreasury, treasury) + n);
  }

  lemma ForfeitDisburses(b: Books, b': Books, treasury: Address, id: IntentId, status: Status)
    requires Disbursed(b) && Forfeited(b, b', treasury, id, status)
    ensures Disbursed(b')
  {
    var i := b.intents[id];
    OnePaymentDisburses(b, b', id, EscrowPayment(id, i, i.owner));
  }

  lemma ForfeitSound(b: Books, b': Books, treasury: Address, id: IntentId, status: Status, now: nat)
    requires SoundIntents(b, now) && Forfeited(b, b', treasury, id, status)
    ensures SoundIntents(b', now)
  {
  }

  lemma ForfeitKeeps(s: State, s': State, id: IntentId, status: Status)
    requires Inv(s) && Forfeited(BooksOf(s), BooksOf(s'), s.treasury, id, status)
    requires !s'.locked && s'.now == s.now && s'.treasury == s.treasury
    ensures Inv(s')
  {
    ForfeitSound(BooksOf(s), BooksOf(s'), s.treasury, id, status, s.now);
    ForfeitSolvent(BooksOf(s), BooksOf(s'), s.treasury, id, status);
    ForfeitDisburses(BooksOf(s), BooksOf(s'), s.treasury, id, status);
  }

  lemma CancelKeeps(s: State, tx: Tx)
    requires Inv(s) && tx.sender != ZERO && tx.call.CancelIntent? && Cancel(s, tx).Some?
    ensures Inv(Cancel(s, tx).value)
  {
    CancelEffect(s, tx);
    ExpireKeeps(s, Cancel(s, tx).value, tx.call.id);
  }

  /** A pending intent without a solver, expired and repaid to its owner. */
  lemma ExpireKeeps(s: State, s': State, id: IntentId)
    requires Inv(s) && id in s.intents
    requires s.intents[id].status == Pending && s.intents[id].solver == ZERO && s.intents[id].expiry <= s.now
    requires !s'.locked && s'.now == s.now && s'.treasury == s.treasury
    requires var (i, b) := (s.intents[id], BooksOf(s).(intents := s.intents[id := s.intents[id].(status := Expired)]));
             Affordable(b, EscrowPayment(id, i, i.owner)) && BooksOf(s') == DebitBooks(b, EscrowPayment(id, i, i.owner))
    ensures Inv(s')
  {
    var i := s.intents[id];
    var p := EscrowPayment(id, i, i.owner);
    CloseSolvent(BooksOf(s), id, s'.intents[id], p);
    OnePaymentDisburses(BooksOf(s), BooksOf(s'), id, p);
  }

  lemma WithdrawKeeps(s: State, tx: Tx)
    requires Inv(s) && tx.call.WithdrawTreasury? && Withdraw(s, tx).Some?
    ensures Inv(Withdraw(s, tx).value)
  {
    WithdrawEffect(s, tx);
    var s' := Withdraw(s, tx).value;
    TreasuryAfter(s.pendingTreasury, tx.sender, 0);
    TreasuryPaymentDisburses(BooksOf(s), BooksOf(s'), s'.sent[|s'.sent| - 1]);
  }

  /** A new pending intent whose escrow has arrived. */
  lemma EscrowSolvent(b: Books, b': Books, id: IntentId, i: Intent)
    requires Solvent(b) && id !in b.intents && i.status == Pending && i.collateral == 0
    requires b'.intents == b.intents[id := i] && b'.pendingTreasury == b.pendingTreasury
    requires b'.eth == if i.token == NATIVE then b.eth + i.amount else b.eth
    requires b'.tokens == if i.token == NATIVE then b.tokens else b.tokens[i.token := Owed(b.tokens, i.token) + i.amount]
    ensures Solvent(b')
  {
    SumsAfter(b.intents, id, i, NATIVE);
    forall t: Address | t != NATIVE
      ensures Owed(b'.tokens, t) >= Sum(b'.intents, Due(t))
    {
      SumsAfter(b.intents, id, i, t);
    }
  }

  lemma EscrowDisburses(b: Books, b': Books, id: IntentId, i: Intent)
    requires Disbursed(b) && id !in b.intents && i.status == Pending && i.solver == ZERO
    requires b'.intents == b.intents[id := i] && b'.sent == b.sent
    ensures Disbursed(b')
  {
    NoPaymentDisburses(b, b');
  }

  lemma SubmitKeeps(s: State, tx: Tx)
    requires Inv(s) && tx.sender != ZERO && tx.call.SubmitIntent? && Submit(s, tx).Some?
    ensures Inv(Submit(s, tx).value)
  {
    SubmitEffect(s, tx);
    var s' := Submit(s, tx).value;
    var id := IntentId(tx.sender, s.nonce, s.now);
    assert id !in s.intents;
    EscrowSolvent(BooksOf(s), BooksOf(s'), id, s'.intents[id]);
    EscrowDisburses(BooksOf(s), BooksOf(s'), id, s'.intents[id]);
  }

  /** postCollateral never looks at the status; the clock is what keeps terminal intents out. */
  lemma PostKeeps(s: State, tx: Tx)
    requires Inv(s) && tx.sender != ZERO && tx.call.PostCollateral? && Post(s, tx).Some?
    ensures Inv(Post(s, tx).value)
    ensures s.intents[tx.call.id].status == Pending
  {
    var id, s' := tx.call.id, Post(s, tx).value;
    var i := s'.intents[id];
    SumsAfter(s.intents, id, i, NATIVE);
    forall t: Address | t != NATIVE
      ensures Owed(s'.tokens, t) >= Sum(s'.intents, Due(t))
    {
      SumsAfter(s.intents, id, i, t);
    }
    NoPaymentDisburses(BooksOf(s), BooksOf(s'));
  }

  lemma ApplyKeeps(s: State, tx: Tx)
    requires Inv(s) && Apply(s, tx).Some?
    ensures Inv(Apply(s, tx).value)
  {
    match tx.call
    case SubmitIntent(_, _, _, _, _, _, _, _) => SubmitKeeps(s, tx);
    case PostCollateral(_) => PostKeeps(s, tx);
    case ConfirmSettlement(_, _, _, _) => ConfirmKeeps(s, tx);
    case SlashSolver(id, release) =>
      ForfeitEffect(s, id, Slashed, release);
      ForfeitKeeps(s, Apply(s, tx).value, id, Slashed);
    case CancelIntent(_, _) => CancelKeeps(s, tx);
    case ClaimRefund(id, release) =>
      ForfeitEffect(s, id, Refunded, release);
      ForfeitKeeps(s, Apply(s, tx).value, id, Refunded);
    case WithdrawTreasury(_) => WithdrawKeeps(s, tx);
    case _ => assert BooksOf(Apply(s, tx).value) == BooksOf(s);
  }

  lemma SingleTransaction(s: State, tx: Tx)
    ensures Apply(s, tx).Some? ==> Step(s, Transact(tx)) == Apply(s, tx).value
    ensures Apply(s, tx).None? ==> Step(s, Transact(tx)) == s
  {
    var s' := match Apply(s, tx) case None => s case Some(s') => s';
    assert [tx][1..] == [];
    assert RunAll(s, [tx]) == RunAll(s', []);
  }

  lemma MoreMoneySolvent(b: Books, b': Books)
    requires Solvent(b) && b'.intents == b.intents && b'.pendingTreasury == b.pendingTreasury
    requires b'.eth >= b.eth && forall t: Address :: Owed(b'.tokens, t) >= Owed(b.tokens, t)
    ensures Solvent(b')
  {
  }

  lemma DonateKeeps(s: State, token: Address, amount: nat)
    requires Inv(s)
    ensures Inv(Step(s, Donate(token, amount)))
  {
    MoneyArrives(s, Step(s, Donate(token, amount)));
  }

  lemma MoneyArrives(s: State, s': State)
    requires Inv(s) && s' == s.(eth := s'.eth, tokens := s'.tokens)
    requires s'.eth >= s.eth && forall t: Address :: Owed(s'.tokens, t) >= Owed(s.tokens, t)
    ensures Inv(s')
  {
    MoreMoneySolvent(BooksOf(s), BooksOf(s'));
    NoPaymentDisburses(BooksOf(s), BooksOf(s'));
  }

  lemma StepKeeps(s: State, e: Event)
    requires Inv(s)
    ensures Inv(Step(s, e))
  {
    match e
    case Transact(tx) =>
      SingleTransaction(s, tx);
      if Apply(s, tx).Some? {
        ApplyKeeps(s, tx);
      }
    case Tick(_) => assert BooksOf(Step(s, e)) == BooksOf(s);
    case Donate(token, amount) => DonateKeeps(s, token, amount);
  }

  /** Safety of every run: solvent after every completed call, each intent's escrow paid to exactly one
      party exactly once, each settled solver's collateral returned once, terminal intents sealed. */
  lemma {:induction false} RunKeeps(s: State, events: seq<Event>)
    requires Inv(s)
    ensures Inv(Run(s, events))
    decreases |events|
  {
    if events != [] {
      StepKeeps(s, events[0]);
      RunKeeps(Step(s, events[0]), events[1..]);
    }
  }

  lemma DeployedSound(orchestrator: Address, treasury: Address, owner: Address, now: nat)
    ensures Deployed(orchestrator, treasury, owner, now).Some? ==> Inv(Deployed(orchestrator, treasury, owner, now).value)
  {
  }
}
