/** The destination-chain escrow program: lamports move between accounts in place, in u64 arithmetic. */
module SolanaEscrow {
  import opened Options
  import opened Sums

  const U64: nat := 0x1_0000_0000_0000_0000

  /** Account addresses; a program-derived address is the injective image of its seeds. */
  datatype Key = Wallet(id: nat) | IntentPda(owner: Key, nonce: nat) | BreakerPda(channel: nat)

  datatype Status = Pending | Settled | Expired

  datatype Intent = Intent(
    owner: Key, amount: nat, destination: Key, expiry: int, slippageBps: nat, sourceChain: nat,
    status: Status, proofHash: nat, createdAt: int, settledAt: int, settledAmount: nat)

  /** One movement of escrowed lamports out of an intent's account. */
  datatype Payout = Payout(intent: Key, to: Key, amount: nat)

  /** breakers: the circuit-breaker accounts that exist, and whether each is halted. */
  datatype State = State(
    lamports: map<Key, nat>, intents: map<Key, Intent>, nonce: nat, admin: Key, orchestrator: Key,
    paused: bool, breakers: map<nat, bool>, payouts: seq<Payout>)

  function Balance(l: map<Key, nat>, k: Key): nat {
    if k in l then l[k] else 0
  }

  /** checked_sub on the source, then checked_add on the destination, which may be the same account. */
  function Move(l: map<Key, nat>, src: Key, dst: Key, n: nat): Option<map<Key, nat>> {
    if Balance(l, src) < n then None
    else
      var l := l[src := Balance(l, src) - n];
      if Balance(l, dst) + n >= U64 then None else Some(l[dst := Balance(l, dst) + n])
  }

  /** amount - amount*bps/10000, the quotient cut to 64 bits; None when the subtraction underflows. */
  function MinAcceptable(amount: nat, bps: nat): Option<nat> {
    var deduction := amount * bps / 10_000 % U64;
    if deduction > amount then None else Some(amount - deduction)
  }

  datatype Submission = Submission(
    owner: Key, amount: nat, destination: Key, expiry: int, slippageBps: nat, sourceChain: nat, rent: nat)

  function Submit(s: State, x: Submission, now: int): Option<State> {
    var pda := IntentPda(x.owner, s.nonce);
    if s.paused || !x.owner.Wallet? || pda in s.intents || s.nonce + 1 >= U64 then None
    else
      var l1 :- Move(s.lamports, x.owner, pda, x.rent);
      var l2 :- Move(l1, x.owner, pda, x.amount);
      var i := Intent(x.owner, x.amount, x.destination, x.expiry, x.slippageBps, x.sourceChain, Pending, 0, now, 0, 0);
      Some(s.(lamports := l2, intents := s.intents[pda := i], nonce := s.nonce + 1))
  }

  datatype Settlement = Settlement(
    signer: Key, intent: Key, channel: nat, destination: Key, owner: Key, proofHash: nat, amount: nat)

  /** Every require of receive_settlement. */
  predicate MaySettle(s: State, x: Settlement, now: int) {
    && !s.paused && x.signer == s.orchestrator && x.intent in s.intents
    && var i := s.intents[x.intent];
       && i.status == Pending && now < i.expiry
       && x.channel in s.breakers && x.channel == i.sourceChain && !s.breakers[x.channel]
       && x.destination == i.destination && x.owner == i.owner
       && MinAcceptable(i.amount, i.slippageBps).Some?
       && MinAcceptable(i.amount, i.slippageBps).value <= x.amount <= i.amount
  }

  function Settle(s: State, x: Settlement, now: int): Option<State> {
    if !MaySettle(s, x, now) then None
    else
      var i := s.intents[x.intent];
      var l1 :- Move(s.lamports, x.intent, x.destination, x.amount);
      var refund := i.amount - x.amount;
      var l2 :- if refund > 0 then Move(l1, x.intent, x.owner, refund) else Some(l1);
      Some(s.(lamports := l2,
              intents := s.intents[x.intent := i.(status := Settled, settledAt := now, proofHash := x.proofHash, settledAmount := x.amount)],
              payouts := s.payouts + [Payout(x.intent, x.destination, x.amount)]
                       + if refund > 0 then [Payout(x.intent, x.owner, refund)] else []))
  }

  predicate MayCancel(s: State, intent: Key, signer: Key, now: int) {
    && intent in s.intents
    && s.intents[intent].owner == signer && s.intents[intent].status == Pending
    && (now > s.intents[intent].expiry || s.paused)
  }

  function Cancel(s: State, intent: Key, signer: Key, now: int): Option<State> {
    if !MayCancel(s, intent, signer, now) then None
    else
      var i := s.intents[intent];
      var l :- Move(s.lamports, intent, signer, i.amount);
      Some(s.(lamports := l, intents := s.intents[intent := i.(status := Expired)],
              payouts := s.payouts + [Payout(intent, signer, i.amount)]))
  }

  /** The account is created, at the admin's expense, the first time its channel is named. */
  function SetBreaker(s: State, signer: Key, channel: nat, halt: bool, rent: nat): Option<State> {
    if signer != s.admin || !signer.Wallet? then None
    else
      var l :- if channel in s.breakers then Some(s.lamports) else Move(s.lamports, signer, BreakerPda(channel), rent);
      Some(s.(lamports := l, breakers := s.breakers[channel := halt]))
  }

  function Initialized(lamports: map<Key, nat>, admin: Key, orchestrator: Key): State {
    State(lamports, map[], 0, admin, orchestrator, false, map[], [])
  }

  // ------------------------------------------------------------------ the program

  class Program {
    var lamports: map<Key, nat>
    var intents: map<Key, Intent>
    var intentNonce: nat
    var admin: Key
    var orchestrator: Key
    var paused: bool
    var breakers: map<nat, bool>
    ghost var payouts: seq<Payout>

    ghost function View(): State
      reads this
    {
      State(lamports, intents, intentNonce, admin, orchestrator, paused, breakers, payouts)
    }

    constructor (accounts: map<Key, nat>, newAdmin: Key, newOrchestrator: Key)
      ensures View() == Initialized(accounts, newAdmin, newOrchestrator)
    {
      lamports, intents, intentNonce, breakers := accounts, map[], 0, map[];
      admin, orchestrator, paused, payouts := newAdmin, newOrchestrator, false, [];
    }

    /** An instruction that fails leaves no trace. */
    method TransferLamports(src: Key, dst: Key, n: nat) returns (ok: bool)
      modifies `lamports
      ensures Move(old(lamports), src, dst, n) == if ok then Some(lamports) else None
    {
      if Balance(lamports, src) < n {
        return false;
      }
      lamports := lamports[src := Balance(lamports, src) - n];
      if Balance(lamports, dst) + n >= U64 {
        return false;
      }
      lamports := lamports[dst := Balance(lamports, dst) + n];
      ok := true;
    }

    method SubmitIntent(x: Submission, now: int) returns (ok: bool)
      modifies this
      ensures Submit(old(View()), x, now) == if ok then Some(View()) else None
      ensures !ok ==> View() == old(View())
    {
      var before, pda := lamports, IntentPda(x.owner, intentNonce);
      if paused || !x.owner.Wallet? || pda in intents || intentNonce + 1 >= U64 {
        return false;
      }
      ok := TransferLamports(x.owner, pda, x.rent);
      if ok {
        ok := TransferLamports(x.owner, pda, x.amount);
      }
      if !ok {
        lamports := before;
        return;
      }
      intents := intents[pda := Intent(x.owner, x.amount, x.destination, x.expiry, x.slippageBps, x.sourceChain,
                                       Pending, 0, now, 0, 0)];
      intentNonce := intentNonce + 1;
    }

    method ReceiveSettlement(x: Settlement, now: int) returns (ok: bool)
      modifies this
      ensures Settle(old(View()), x, now) == if ok then Some(View()) else None
      ensures !ok ==> View() == old(View())
    {
      if paused || x.signer != orchestrator || x.intent !in intents {
        return false;
      }
      var i := intents[x.intent];
      if i.status != Pending || now >= i.expiry || x.channel !in breakers || x.channel != i.sourceChain || breakers[x.channel] {
        return false;
      }
      if x.destination != i.destination || x.owner != i.owner {
        return false;
      }
      var minAcceptable := MinAcceptable(i.amount, i.slippageBps);
      if minAcceptable.None? || x.amount < minAcceptable.value || x.amount > i.amount {
        return false;
      }
      var before := lamports;
      ok := TransferLamports(x.intent, x.destination, x.amount);
      var refund := i.amount - x.amount;
      if ok && refund > 0 {
        ok := TransferLamports(x.intent, x.owner, refund);
      }
      if !ok {
        lamports := before;
        return;
      }
      intents := intents[x.intent := i.(status := Settled, settledAt := now, proofHash := x.proofHash, settledAmount := x.amount)];
      payouts := payouts + [Payout(x.intent, x.destination, x.amount)]
               + if refund > 0 then [Payout(x.intent, x.owner, refund)] else [];
    }

    method SetCircuitBreaker(signer: Key, channel: nat, halt: bool, rent: nat) returns (ok: bool)
      modifies this
      ensures SetBreaker(old(View()), signer, channel, halt, rent) == if ok then Some(View()) else None
      ensures !ok ==> View() == old(View())
    {
      if signer != admin || !signer.Wallet? {
        return false;
      }
      if channel !in breakers {
        var before := lamports;
        ok := TransferLamports(signer, BreakerPda(channel), rent);
        if !ok {
          lamports := before;
          return;
        }
      }
      breakers := breakers[channel := halt];
      ok := true;
    }

    method CancelIntent(intent: Key, signer: Key, now: int) returns (ok: bool)
      modifies this
      ensures Cancel(old(View()), intent, signer, now) == if ok then Some(View()) else None
      ensures !ok ==> View() == old(View())
    {
      if intent !in intents || intents[intent].owner != signer || intents[intent].status != Pending {
        return false;
      }
      var i, before := intents[intent], lamports;
      if now <= i.expiry && !paused {
        return false;
      }
      ok := TransferLamports(intent, signer, i.amount);
      if !ok {
        lamports := before;
        return;
      }
      intents := intents[intent := i.(status := Expired)];
      payouts := payouts + [Payout(intent, signer, i.amount)];
    }
  }

  // ------------------------------------------------------------------ slippage

  /** For slippage up to 100% nothing overflows or is cut off, and the floor is exact. */
  lemma SlippageFloor(amount: nat, bps: nat)
    requires amount < U64 && bps <= 10_000
    ensures amount * bps / 10_000 <= amount
    ensures MinAcceptable(amount, bps) == Some(amount - amount * bps / 10_000)
  {
    var product := amount * bps;
    assert product <= amount * 10_000 by {
      MulMonotone(amount, bps, 10_000);
    }
    QuotientBound(product, amount);
  }

  lemma MulMonotone(a: nat, b: nat, c: nat)
    requires b <= c
    ensures a * b <= a * c
  {
  }

  lemma QuotientBound(product: nat, amount: nat)
    requires product <= amount * 10_000
    ensures product / 10_000 <= amount
  {
  }

  /** What the floor is meant to be. */
  predicate FloorIsExact(amount: nat, bps: nat) {
    MinAcceptable(amount, bps) == Some(amount - amount * bps / 10_000)
  }

  /** submit_intent accepts any 16-bit slippage; the floor is exact for every amount exactly when the
      slippage is at most 100%. */
  lemma FloorExactly(bps: nat)
    ensures (forall amount: nat :: amount < U64 ==> FloorIsExact(amount, bps)) <==> bps <= 10_000
  {
    if bps <= 10_000 {
      forall amount: nat | amount < U64
        ensures FloorIsExact(amount, bps)
      {
        SlippageFloor(amount, bps);
      }
    } else {
      MulMonotone(10_000, 10_001, bps);
      assert 10_000 * bps / 10_000 == bps > 10_000;
      assert !FloorIsExact(10_000, bps);
    }
  }

  /** Above 100% the 64-bit cast can even cut the whole deduction away, leaving no tolerance at all. */
  lemma CastCutsDeduction()
    ensures var half := U64 / 2;
            half * 20_000 / 10_000 == U64 && MinAcceptable(half, 20_000) == Some(half)
  {
  }

  // ------------------------------------------------------------------ every run

  datatype Instruction =
    | DoSubmit(submission: Submission)
    | DoSettle(settlement: Settlement)
    | DoCancel(intent: Key, signer: Key)
    | DoSetBreaker(signer: Key, channel: nat, halt: bool, rent: nat)
    | DoPause(signer: Key, pause: bool)

  function Execute(s: State, x: Instruction, now: int): Option<State> {
    match x
    case DoSubmit(y) => Submit(s, y, now)
    case DoSettle(y) => Settle(s, y, now)
    case DoCancel(intent, signer) => Cancel(s, intent, signer, now)
    case DoSetBreaker(signer, channel, halt, rent) => SetBreaker(s, signer, channel, halt, rent)
    case DoPause(signer, pause) => if signer != s.admin then None else Some(s.(paused := pause))
  }

  /** A chain runs instructions at any times; a failed one changes nothing. */
  function Run(s: State, xs: seq<(Instruction, int)>): State
    decreases |xs|
  {
    if xs == [] then s
    else
      var s := match Execute(s, xs[0].0, xs[0].1) case None => s case Some(s') => s';
      Run(s, xs[1..])
  }

  ghost function Lamport(): nat -> nat {
    (n: nat) => n
  }

  ghost function Total(s: State): nat {
    Sum(s.lamports, Lamport())
  }

  function PayoutsOf(payouts: seq<Payout>, intent: Key): seq<Payout> {
    if payouts == [] then []
    else PayoutsOf(payouts[..|payouts| - 1], intent)
         + if payouts[|payouts| - 1].intent == intent then [payouts[|payouts| - 1]] else []
  }

  /** What has left an intent's account: nothing, or its whole amount, once. */
  ghost function PaidOut(k: Key, i: Intent): seq<Payout> {
    match i.status
    case Pending => []
    case Settled =>
      [Payout(k, i.destination, i.settledAmount)]
      + if i.amount > i.settledAmount then [Payout(k, i.owner, i.amount - i.settledAmount)] else []
    case Expired => [Payout(k, i.owner, i.amount)]
  }

  ghost predicate SoundIntent(s: State, k: Key) {
    k in s.intents ==>
      var i := s.intents[k];
      && k.IntentPda? && k.nonce < s.nonce && i.owner.Wallet?
      && (i.status == Pending ==> Balance(s.lamports, k) >= i.amount)
      && (i.status == Settled ==>
            && i.settledAmount <= i.amount
            && MinAcceptable(i.amount, i.slippageBps).Some?
            && MinAcceptable(i.amount, i.slippageBps).value <= i.settledAmount)
  }

  ghost predicate Inv(s: State) {
    && (forall k :: SoundIntent(s, k))
    && (forall k :: PayoutsOf(s.payouts, k) == if k in s.intents then PaidOut(k, s.intents[k]) else [])
  }

  lemma MoveConserves(l: map<Key, nat>, src: Key, dst: Key, n: nat)
    requires Move(l, src, dst, n).Some?
    ensures Sum(Move(l, src, dst, n).value, Lamport()) == Sum(l, Lamport())
    ensures forall k :: k != src ==> Balance(Move(l, src, dst, n).value, k) >= Balance(l, k)
    ensures Balance(Move(l, src, dst, n).value, src) >= Balance(l, src) - n
    ensures src != dst ==> Balance(Move(l, src, dst, n).value, dst) == Balance(l, dst) + n
  {
    var rest: nat := Balance(l, src) - n;
    var l' := l[src := rest];
    SumUpdate(l, src, rest, Lamport());
    var grown: nat := Balance(l', dst) + n;
    SumUpdate(l', dst, grown, Lamport());
  }

  lemma PayoutsAppend(payouts: seq<Payout>, p: Payout, k: Key)
    ensures PayoutsOf(payouts + [p], k) == PayoutsOf(payouts, k) + if p.intent == k then [p] else []
  {
    assert (payouts + [p])[..|payouts + [p]| - 1] == payouts;
  }

  lemma SubmitKeeps(s: State, x: Submission, now: int)
    requires Inv(s) && Submit(s, x, now).Some?
    ensures Inv(Submit(s, x, now).value) && Total(Submit(s, x, now).value) == Total(s)
  {
    var pda, s' := IntentPda(x.owner, s.nonce), Submit(s, x, now).value;
    MoveConserves(s.lamports, x.owner, pda, x.rent);
    var l1 := Move(s.lamports, x.owner, pda, x.rent).value;
    MoveConserves(l1, x.owner, pda, x.amount);
    forall k
      ensures SoundIntent(s', k)
    {
      assert SoundIntent(s, k);
    }
  }

  /** Both moves of a settlement: totals kept, and only the settled intent's own account can lose. */
  lemma SettleMoves(s: State, x: Settlement, now: int)
    requires Settle(s, x, now).Some?
    ensures Total(Settle(s, x, now).value) == Total(s)
    ensures forall k :: k != x.intent ==> Balance(Settle(s, x, now).value.lamports, k) >= Balance(s.lamports, k)
  {
    MoveConserves(s.lamports, x.intent, x.destination, x.amount);
    var l1 := Move(s.lamports, x.intent, x.destination, x.amount).value;
    var refund := s.intents[x.intent].amount - x.amount;
    if refund > 0 {
      MoveConserves(l1, x.intent, x.owner, refund);
    }
  }

  lemma ClosingPayouts(payouts: seq<Payout>, id: Key, i: Intent, k: Key)
    requires i.status == Settled && i.settledAmount <= i.amount && PayoutsOf(payouts, id) == []
    ensures PayoutsOf(payouts + PaidOut(id, i), k) == if k == id then PaidOut(id, i) else PayoutsOf(payouts, k)
  {
    var p := Payout(id, i.destination, i.settledAmount);
    PayoutsAppend(payouts, p, k);
    if i.amount > i.settledAmount {
      var q := Payout(id, i.owner, i.amount - i.settledAmount);
      PayoutsAppend(payouts + [p], q, k);
      TwoAppended(payouts, p, q);
      assert PaidOut(id, i) == [p, q];
    } else {
      assert PaidOut(id, i) == [p];
    }
  }

  lemma TwoAppended(payouts: seq<Payout>, p: Payout, q: Payout)
    ensures payouts + [p, q] == payouts + [p] + [q]
  {
  }

  lemma SettleOutcome(s: State, x: Settlement, now: int)
    requires Settle(s, x, now).Some?
    ensures var (s', i) := (Settle(s, x, now).value, s.intents[x.intent]);
            && s'.intents == s.intents[x.intent := i.(status := Settled, settledAt := now, proofHash := x.proofHash, settledAmount := x.amount)]
            && s'.payouts == s.payouts + PaidOut(x.intent, s'.intents[x.intent])
  {
  }

  lemma SettlePayouts(s: State, x: Settlement, now: int, k: Key)
    requires Inv(s) && Settle(s, x, now).Some?
    ensures var s' := Settle(s, x, now).value;
            PayoutsOf(s'.payouts, k) == if k in s'.intents then PaidOut(k, s'.intents[k]) else []
  {
    SettleOutcome(s, x, now);
    ClosingPayouts(s.payouts, x.intent, Settle(s, x, now).value.intents[x.intent], k);
  }

  lemma SettleKeeps(s: State, x: Settlement, now: int)
    requires Inv(s) && Settle(s, x, now).Some?
    ensures Inv(Settle(s, x, now).value) && Total(Settle(s, x, now).value) == Total(s)
  {
    var s' := Settle(s, x, now).value;
    SettleMoves(s, x, now);
    forall k
      ensures SoundIntent(s', k)
      ensures PayoutsOf(s'.payouts, k) == if k in s'.intents then PaidOut(k, s'.intents[k]) else []
    {
      assert SoundIntent(s, k);
      SettlePayouts(s, x, now, k);
    }
  }

  lemma ExpiringPayouts(payouts: seq<Payout>, id: Key, i: Intent, k: Key)
    requires i.status == Expired && PayoutsOf(payouts, id) == []
    ensures PayoutsOf(payouts + PaidOut(id, i), k) == if k == id then PaidOut(id, i) else PayoutsOf(payouts, k)
  {
    PayoutsAppend(payouts, Payout(id, i.owner, i.amount), k);
  }

  lemma CancelMoves(s: State, intent: Key, signer: Key, now: int)
    requires Cancel(s, intent, signer, now).Some?
    ensures Total(Cancel(s, intent, signer, now).value) == Total(s)
    ensures forall k :: k != intent ==> Balance(Cancel(s, intent, signer, now).value.lamports, k) >= Balance(s.lamports, k)
  {
    MoveConserves(s.lamports, intent, signer, s.intents[intent].amount);
  }

  lemma CancelPayouts(s: State, intent: Key, signer: Key, now: int, k: Key)
    requires Inv(s) && Cancel(s, intent, signer, now).Some?
    ensures var s' := Cancel(s, intent, signer, now).value;
            PayoutsOf(s'.payouts, k) == if k in s'.intents then PaidOut(k, s'.intents[k]) else []
  {
    ExpiringPayouts(s.payouts, intent, Cancel(s, intent, signer, now).value.intents[intent], k);
  }

  lemma CancelKeeps(s: State, intent: Key, signer: Key, now: int)
    requires Inv(s) && Cancel(s, intent, signer, now).Some?
    ensures Inv(Cancel(s, intent, signer, now).value) && Total(Cancel(s, intent, signer, now).value) == Total(s)
  {
    var s' := Cancel(s, intent, signer, now).value;
    CancelMoves(s, intent, signer, now);
    forall k
      ensures SoundIntent(s', k)
      ensures PayoutsOf(s'.payouts, k) == if k in s'.intents then PaidOut(k, s'.intents[k]) else []
    {
      assert SoundIntent(s, k);
      CancelPayouts(s, intent, signer, now, k);
    }
  }

  lemma SetBreakerKeeps(s: State, signer: Key, channel: nat, halt: bool, rent: nat)
    requires Inv(s) && SetBreaker(s, signer, channel, halt, rent).Some?
    ensures var s' := SetBreaker(s, signer, channel, halt, rent).value; Inv(s') && Total(s') == Total(s)
  {
    var s' := SetBreaker(s, signer, channel, halt, rent).value;
    if channel !in s.breakers {
      MoveConserves(s.lamports, signer, BreakerPda(channel), rent);
    }
    forall k
      ensures SoundIntent(s', k)
    {
      assert SoundIntent(s, k);
    }
  }

  lemma InitializedHolds(lamports: map<Key, nat>, admin: Key, orchestrator: Key)
    ensures Inv(Initialized(lamports, admin, orchestrator))
  {
  }

  lemma ExecuteKeeps(s: State, x: Instruction, now: int)
    requires Inv(s) && Execute(s, x, now).Some?
    ensures Inv(Execute(s, x, now).value) && Total(Execute(s, x, now).value) == Total(s)
  {
    match x
    case DoSubmit(y) => SubmitKeeps(s, y, now);
    case DoSettle(y) => SettleKeeps(s, y, now);
    case DoCancel(intent, signer) => CancelKeeps(s, intent, signer, now);
    case DoSetBreaker(signer, channel, halt, rent) => SetBreakerKeeps(s, signer, channel, halt, rent);
    case DoPause(_, _) =>
      forall k ensures SoundIntent(Execute(s, x, now).value, k) { assert SoundIntent(s, k); }
  }

  /** Over any run total lamports are conserved, every intent's amount leaves its account at most once and in
      full, and a settled destination got at least the slippage floor. */
  lemma {:induction false} RunKeeps(s: State, xs: seq<(Instruction, int)>)
    requires Inv(s)
    ensures Inv(Run(s, xs)) && Total(Run(s, xs)) == Total(s)
    decreases |xs|
  {
    if xs != [] {
      var r := Execute(s, xs[0].0, xs[0].1);
      if r.Some? {
        ExecuteKeeps(s, xs[0].0, xs[0].1);
      }
      RunKeeps(match r case None => s case Some(s') => s', xs[1..]);
    }
  }

  lemma BalanceBounded(l: map<Key, nat>, k: Key)
    ensures Balance(l, k) <= Sum(l, Lamport())
  {
    if k in l {
      SumRemove(l, k, Lamport());
    }
  }

  lemma MoveSucceeds(l: map<Key, nat>, src: Key, dst: Key, n: nat)
    requires Sum(l, Lamport()) < U64 && Balance(l, src) >= n
    ensures Move(l, src, dst, n).Some?
  {
    var rest: nat := Balance(l, src) - n;
    var l' := l[src := rest];
    SumUpdate(l, src, rest, Lamport());
    BalanceBounded(l', dst);
  }

  /** Within a supply that fits 64 bits no lamport arithmetic can fail: an intent settles exactly when the program
      runs, the orchestrator signs, and the intent is pending, unexpired, on an open channel, with its own destination
      and owner and an amount within its slippage; it is cancelled exactly by its owner while pending, once expired or
      while the program is paused; never both at one time. */
  lemma SettlesExactlyWhenAllowed(s: State, x: Settlement, signer: Key, now: int)
    requires Inv(s) && Total(s) < U64
    ensures Settle(s, x, now).Some? <==>
              && !s.paused && x.signer == s.orchestrator && x.intent in s.intents
              && var i := s.intents[x.intent];
                 && i.status == Pending && now < i.expiry
                 && i.sourceChain == x.channel && x.channel in s.breakers && s.breakers[x.channel] == false
                 && i.destination == x.destination && i.owner == x.owner
                 && i.amount * i.slippageBps / 10_000 % U64 <= i.amount
                 && i.amount - i.amount * i.slippageBps / 10_000 % U64 <= x.amount <= i.amount
    ensures Cancel(s, x.intent, signer, now).Some? <==>
              && x.intent in s.intents
              && var i := s.intents[x.intent]; i.owner == signer && i.status == Pending && (now > i.expiry || s.paused)
    ensures !(Settle(s, x, now).Some? && Cancel(s, x.intent, signer, now).Some?)
  {
    assert SoundIntent(s, x.intent);
    if MaySettle(s, x, now) {
      var i := s.intents[x.intent];
      MoveSucceeds(s.lamports, x.intent, x.destination, x.amount);
      MoveConserves(s.lamports, x.intent, x.destination, x.amount);
      var l1 := Move(s.lamports, x.intent, x.destination, x.amount).value;
      if i.amount > x.amount {
        MoveSucceeds(l1, x.intent, x.owner, i.amount - x.amount);
      }
    }
    if MayCancel(s, x.intent, signer, now) {
      MoveSucceeds(s.lamports, x.intent, signer, s.intents[x.intent].amount);
    }
  }

  function If(c: bool, n: nat): nat {
    if c then n else 0
  }

  /** Where lamports go, account by account; source and destination may be one account. */
  lemma MovedAs(l: map<Key, nat>, src: Key, dst: Key, n: nat)
    requires Move(l, src, dst, n).Some?
    ensures var l' := Move(l, src, dst, n).value;
            forall k :: Balance(l', k) == Balance(l, k) - If(k == src, n) + If(k == dst, n)
  {
  }

  /** A settlement pays the destination the amount and the owner the rest, out of the intent's account, and records
      amount, time and proof; a cancellation pays the owner everything; no other intent moves. */
  lemma SettledAs(s: State, x: Settlement, now: int)
    requires Inv(s) && Settle(s, x, now).Some?
    ensures var (i, s') := (s.intents[x.intent], Settle(s, x, now).value);
            && s'.intents == s.intents[x.intent := i.(status := Settled, settledAt := now, proofHash := x.proofHash,
                                                      settledAmount := x.amount)]
            && s'.payouts == s.payouts + [Payout(x.intent, i.destination, x.amount)]
                           + (if x.amount < i.amount then [Payout(x.intent, i.owner, i.amount - x.amount)] else [])
            && s' == s.(lamports := s'.lamports, intents := s'.intents, payouts := s'.payouts)
            && forall k :: Balance(s'.lamports, k)
                 == Balance(s.lamports, k) - If(k == x.intent, i.amount)
                    + If(k == i.destination, x.amount) + If(k == i.owner, i.amount - x.amount)
  {
    var i := s.intents[x.intent];
    MovedAs(s.lamports, x.intent, x.destination, x.amount);
    var l1 := Move(s.lamports, x.intent, x.destination, x.amount).value;
    if i.amount > x.amount {
      MovedAs(l1, x.intent, x.owner, i.amount - x.amount);
    }
  }

  lemma CancelledAs(s: State, intent: Key, signer: Key, now: int)
    requires Inv(s) && Cancel(s, intent, signer, now).Some?
    ensures var (i, s') := (s.intents[intent], Cancel(s, intent, signer, now).value);
            && s'.intents == s.intents[intent := i.(status := Expired)]
            && s'.payouts == s.payouts + [Payout(intent, i.owner, i.amount)]
            && s' == s.(lamports := s'.lamports, intents := s'.intents, payouts := s'.payouts)
            && forall k :: Balance(s'.lamports, k) == Balance(s.lamports, k) - If(k == intent, i.amount) + If(k == i.owner, i.amount)
  {
    MovedAs(s.lamports, intent, signer, s.intents[intent].amount);
  }

  /** A submission succeeds exactly when the program runs and a wallet can pay amount and rent; its record says what
      it said, pending from now on. */
  lemma SubmitExactly(s: State, x: Submission, now: int)
    requires Inv(s) && Total(s) < U64
    ensures Submit(s, x, now).Some? <==>
              && !s.paused && x.owner.Wallet? && IntentPda(x.owner, s.nonce) !in s.intents && s.nonce + 1 < U64
              && Balance(s.lamports, x.owner) >= x.rent + x.amount
    ensures Submit(s, x, now).Some? ==>
              var (pda, s') := (IntentPda(x.owner, s.nonce), Submit(s, x, now).value);
              && s'.intents.Keys == s.intents.Keys + {pda} && s'.nonce == s.nonce + 1
              && (forall k :: k in s.intents ==> s'.intents[k] == s.intents[k])
              && Balance(s'.lamports, pda) == Balance(s.lamports, pda) + x.rent + x.amount
              && Balance(s'.lamports, x.owner) == Balance(s.lamports, x.owner) - x.rent - x.amount
              && var i := s'.intents[pda];
                 && i.owner == x.owner && i.amount == x.amount && i.destination == x.destination && i.expiry == x.expiry
                 && i.slippageBps == x.slippageBps && i.sourceChain == x.sourceChain && i.status == Pending
                 && i.createdAt == now && i.settledAt == 0 && i.settledAmount == 0 && i.proofHash == 0
  {
    var pda := IntentPda(x.owner, s.nonce);
    if x.owner.Wallet? && Balance(s.lamports, x.owner) >= x.rent {
      MoveSucceeds(s.lamports, x.owner, pda, x.rent);
      MoveConserves(s.lamports, x.owner, pda, x.rent);
      var l1 := Move(s.lamports, x.owner, pda, x.rent).value;
      MovedAs(s.lamports, x.owner, pda, x.rent);
      if Balance(l1, x.owner) >= x.amount {
        MoveSucceeds(l1, x.owner, pda, x.amount);
        MovedAs(l1, x.owner, pda, x.amount);
      }
    }
  }

  /** Only the admin halts or reopens a channel, and no other; only the admin pauses. */
  lemma AdminExactly(s: State, signer: Key, channel: nat, halt: bool, rent: nat, pause: bool)
    requires Inv(s) && Total(s) < U64
    ensures SetBreaker(s, signer, channel, halt, rent).Some? <==>
              signer == s.admin && signer.Wallet? && (channel !in s.breakers ==> Balance(s.lamports, signer) >= rent)
    ensures SetBreaker(s, signer, channel, halt, rent).Some? ==>
              var s' := SetBreaker(s, signer, channel, halt, rent).value;
              && s' == s.(lamports := s'.lamports, breakers := s'.breakers)
              && s'.breakers.Keys == s.breakers.Keys + {channel} && s'.breakers[channel] == halt
              && (forall c :: c in s.breakers && c != channel ==> s'.breakers[c] == s.breakers[c])
    ensures Execute(s, DoPause(signer, pause), 0) == if signer == s.admin then Some(s.(paused := pause)) else None
  {
    if signer == s.admin && Balance(s.lamports, signer) >= rent {
      MoveSucceeds(s.lamports, signer, BreakerPda(channel), rent);
    }
  }

  // ------------------------------------------------------------------ a halted channel settles nothing

  ghost predicate Halted(s: State, channel: nat) {
    channel in s.breakers ==> s.breakers[channel]
  }

  /** No instruction of the run touches that channel's breaker. */
  predicate LeavesBreaker(xs: seq<(Instruction, int)>, channel: nat) {
    forall j :: 0 <= j < |xs| && xs[j].0.DoSetBreaker? ==> xs[j].0.channel != channel
  }

  lemma HaltedStep(s: State, x: Instruction, now: int, channel: nat, k: Key)
    requires Halted(s, channel) && Execute(s, x, now).Some? && (x.DoSetBreaker? ==> x.channel != channel)
    ensures var s' := Execute(s, x, now).value;
            && Halted(s', channel)
            && (k in s'.intents && s'.intents[k].sourceChain == channel && s'.intents[k].status == Settled
                ==> k in s.intents && s.intents[k].sourceChain == channel && s.intents[k].status == Settled)
  {
  }

  /** While a channel is halted, or was never opened, no run that leaves its breaker alone settles an intent of it. */
  lemma {:induction false} HaltedSettlesNothing(s: State, xs: seq<(Instruction, int)>, channel: nat, k: Key)
    requires Halted(s, channel) && LeavesBreaker(xs, channel)
    requires k in Run(s, xs).intents && Run(s, xs).intents[k].sourceChain == channel && Run(s, xs).intents[k].status == Settled
    ensures k in s.intents && s.intents[k].status == Settled && s.intents[k].sourceChain == channel
    decreases |xs|
  {
    if xs != [] {
      var r := Execute(s, xs[0].0, xs[0].1);
      var s' := match r case None => s case Some(s') => s';
      if r.Some? {
        HaltedStep(s, xs[0].0, xs[0].1, channel, k);
      }
      HaltedSettlesNothing(s', xs[1..], channel, k);
    }
  }
}
