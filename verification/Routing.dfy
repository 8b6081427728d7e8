/** Which solver posts collateral: gates, ranking, reservation, and the resolution of that reservation. */
module Routing {
  import opened Options
  import opened Sums
  import opened ArbitrumLedger
  import opened Reservations
  import opened SolverStats
  import IM = IntentManager

  /** The fields of a proof that the gates read. */
  datatype Order = Order(token: Address, amount: nat, expiry: int)
  datatype GateParams = GateParams(maxTransferWei: nat, gasBufferWei: nat, deliveryMarginSec: int)
  datatype GateCheck = TokenNotNative | AmountExceedsMaxTransfer | InsufficientSolverBalance | TooCloseToExpiry

  function CollateralWei(amount: nat): nat {
    amount * 150 / 100
  }

  function EvaluateArbitrumGate(o: Order, balance: int, nowSec: int, g: GateParams): seq<GateCheck> {
    (if o.token != ZERO then [TokenNotNative] else [])
    + (if o.amount > g.maxTransferWei then [AmountExceedsMaxTransfer] else [])
    + (if balance < CollateralWei(o.amount) + g.gasBufferWei then [InsufficientSolverBalance] else [])
    + (if nowSec >= o.expiry - g.deliveryMarginSec then [TooCloseToExpiry] else [])
  }

  /** What one candidate's reads answered; None is a failed read. */
  datatype Candidate = Candidate(solver: Address, approved: Option<bool>, balance: Option<nat>)
  datatype Stats = Stats(records: map<Address, Tally>, complete: bool)

  /** Everything a decision reads besides the book, the ledger and the candidates. */
  datatype Context = Context(
    order: Order, nowSec: int, onChain: Option<View>, stats: Option<Stats>, onboarding: map<Address, int>,
    gate: GateParams, tiers: TierConfig, caps: TierCaps)

  datatype Reason =
    | ApprovalReadFailed | NotApproved | BalanceReadFailed
    | GateFailed(check: GateCheck) | InsufficientAvailableCapital(available: int)
    | IntentReadFailed | IntentNotOpen | TrackRecordUnavailable | TierCapExceeded

  datatype Evaluation = Evaluation(
    solver: Address, reasons: seq<Reason>, tier: Option<int>, cap: Option<nat>, rate: Option<real>, available: Option<int>)

  predicate Eligible(e: Evaluation) {
    e.reasons == []
  }

  function ReservationWei(ctx: Context): nat {
    CollateralWei(ctx.order.amount) + ctx.gate.gasBufferWei
  }

  // ------------------------------------------------------------------ what the ledger holds back

  function PostingOf(m: map<string, Entry>): map<string, Entry> {
    map key | key in m && m[key].stage == PostingCollateral :: m[key]
  }

  /** Signed but unconfirmed postings that memory does not already count. */
  ghost function InFlight(m: map<string, Entry>, b: Book): map<string, Entry> {
    map key | key in PostingOf(m) && !Has(b, KeyOf(key)) :: m[key]
  }

  /** What an in-flight entry holds back from a solver; a legacy entry without a solver counts against
      everyone, one without an amount counts as the largest possible collateral. */
  function Charge(solver: Address, g: GateParams): Entry -> nat {
    (e: Entry) =>
      if e.solver.Some? && e.solver.value != solver then 0
      else (match e.collateralWei case Some(wei) => wei case None => CollateralWei(g.maxTransferWei)) + g.gasBufferWei
  }

  /** The collateral is one and a half times the amount, rounded down: just what the contract demands. */
  lemma CollateralIsWhatTheContractDemands(amount: nat)
    ensures 2 * CollateralWei(amount) <= 3 * amount < 2 * CollateralWei(amount) + 2
    ensures CollateralWei(amount) == IM.RequiredCollateral(amount)
  {
  }

  /** Nothing for a posting of another solver; otherwise gas and the recorded collateral, or, where none was
      recorded, the largest there can be. */
  lemma ChargeExactly(solver: Address, g: GateParams, e: Entry)
    ensures var charge := Charge(solver, g)(e);
            && (charge == 0 || e.solver.None? || e.solver.value == solver)
            && (e.solver == Some(solver) || e.solver.None? ==>
                  charge >= g.gasBufferWei
                  && (e.collateralWei.Some? ==> charge - g.gasBufferWei == e.collateralWei.value)
                  && (e.collateralWei.None? ==> 2 * (charge - g.gasBufferWei) <= 3 * g.maxTransferWei < 2 * (charge - g.gasBufferWei) + 2))
  {
  }

  /** What the ledger holds back is over the postings in flight that memory does not hold, and no other entry. */
  lemma InFlightExactly(m: map<string, Entry>, b: Book, key: string)
    ensures key in InFlight(m, b) <==>
              key in m && m[key].stage == PostingCollateral && forall solver :: solver in b ==> KeyOf(key) !in b[solver]
    ensures key in InFlight(m, b) ==> InFlight(m, b)[key] == m[key]
  {
  }

  ghost function LedgerReserved(m: map<string, Entry>, b: Book, solver: Address, g: GateParams): nat {
    Sum(InFlight(m, b), Charge(solver, g))
  }

  method InFlightEntries(ledger: Ledger, book: ReservationBook) returns (ids: seq<string>)
    ensures forall id :: id in ids <==> id in InFlight(ledger.ledger, book.bySolver)
    ensures forall i, j :: 0 <= i < j < |ids| ==> ids[i] != ids[j]
  {
    var all := ledger.PostingCollateralEntries();
    ids := [];
    for i := 0 to |all|
      invariant forall id :: id in ids <==> id in all[..i] && !Has(book.bySolver, KeyOf(id))
      invariant forall i, j :: 0 <= i < j < |ids| ==> ids[i] != ids[j]
    {
      var known := book.HasIntent(all[i]);
      if !known {
        ids := ids + [all[i]];
      }
    }
    assert all[..|all|] == all;
  }

  ghost function Taken(m: map<string, Entry>, ids: seq<string>): map<string, Entry> {
    map id | id in m && id in ids :: m[id]
  }

  lemma TakenEnds(m: map<string, Entry>, ids: seq<string>)
    requires forall id :: id in ids <==> id in m
    ensures Taken(m, ids[..0]) == map[] && Taken(m, ids) == m
  {
  }

  lemma TakenNext(m: map<string, Entry>, ids: seq<string>, i: nat, w: Entry -> nat)
    requires i < |ids| && ids[i] in m
    requires forall j, k :: 0 <= j < k < |ids| ==> ids[j] != ids[k]
    ensures Sum(Taken(m, ids[..i + 1]), w) == Sum(Taken(m, ids[..i]), w) + w(m[ids[i]])
  {
    var before := Taken(m, ids[..i]);
    assert ids[i] !in before;
    assert Taken(m, ids[..i + 1]) == before[ids[i] := m[ids[i]]];
    SumUpdate(before, ids[i], m[ids[i]], w);
  }

  method ChargeOf(entry: Entry, solver: Address, g: GateParams) returns (wei: nat)
    ensures wei == Charge(solver, g)(entry)
  {
    if entry.solver.Some? && entry.solver.value != solver {
      return 0;
    }
    var collateral := match entry.collateralWei case Some(recorded) => recorded case None => CollateralWei(g.maxTransferWei);
    return collateral + g.gasBufferWei;
  }

  method LedgerReservedWei(ledger: Ledger, ids: seq<string>, solver: Address, g: GateParams, ghost inFlight: map<string, Entry>)
    returns (total: nat)
    requires forall id :: id in ids <==> id in inFlight
    requires forall i, j :: 0 <= i < j < |ids| ==> ids[i] != ids[j]
    requires forall id :: id in inFlight ==> id in ledger.ledger && ledger.ledger[id] == inFlight[id]
    ensures total == Sum(inFlight, Charge(solver, g))
  {
    total := 0;
    TakenEnds(inFlight, ids);
    for i := 0 to |ids|
      invariant total == Sum(Taken(inFlight, ids[..i]), Charge(solver, g))
    {
      var entry := ledger.ledger[ids[i]];
      TakenNext(inFlight, ids, i, Charge(solver, g));
      var wei := ChargeOf(entry, solver, g);
      total := total + wei;
    }
    assert ids[..|ids|] == ids;
  }

  // ------------------------------------------------------------------ evaluating a candidate

  function IntentReasons(onChain: Option<View>): seq<Reason> {
    match onChain
    case None => [IntentReadFailed]
    case Some(v) => if v.status != IM.Pending || v.solver != ZERO then [IntentNotOpen] else []
  }

  function GateReasons(checks: seq<GateCheck>, available: Option<int>): seq<Reason> {
    if checks == [] then []
    else
      var rest := GateReasons(checks[1..], available);
      if checks[0] != InsufficientSolverBalance then [GateFailed(checks[0])] + rest
      else match available
        case None => rest
        case Some(n) => [InsufficientAvailableCapital(n)] + rest
  }

  /** A solver that nothing is known of has no record. */
  function RecordFor(stats: Stats, solver: Address): Option<Tally> {
    if solver in stats.records then Some(stats.records[solver]) else None
  }

  function RateOf(record: Option<Tally>): Option<real> {
    match record case None => None case Some(t) => SuccessRate(t)
  }

  /** No record counts as the empty one: its tier is the onboarding tier, and it has no rate. */
  lemma NoRecordIsEmpty(onboarding: int, config: TierConfig, complete: bool)
    ensures ComputeTier(onboarding, NO_TALLY, config, complete) == onboarding && SuccessRate(NO_TALLY) == None
  {
  }

  /** A solver without an onboarding tier is on probation. */
  function OnboardingTier(tiers: map<Address, int>, solver: Address): int {
    if solver in tiers then tiers[solver] else 3
  }

  /** Where a solver stands, given its onboarding tier and track record, and the most one transfer may be for it. */
  function TierOf(ctx: Context, solver: Address, stats: Stats): int {
    var onboarding := OnboardingTier(ctx.onboarding, solver);
    match RecordFor(stats, solver)
    case None => onboarding
    case Some(t) => ComputeTier(onboarding, t, ctx.tiers, stats.complete)
  }

  function CreditCap(ctx: Context, solver: Address, stats: Stats): nat {
    TierCapWei(TierOf(ctx, solver, stats), ctx.gate.maxTransferWei, ctx.caps)
  }

  function ApprovalReasons(approved: Option<bool>): seq<Reason> {
    match approved case None => [ApprovalReadFailed] case Some(ok) => if ok then [] else [NotApproved]
  }

  /** The capital a candidate has beyond what is held back from it; possibly negative. */
  function Available(balance: Option<nat>, heldBack: nat): Option<int> {
    match balance case None => None case Some(b) => Some(b - heldBack)
  }

  /** With an unread balance the gate is asked about none, and its verdict on the balance is ignored. */
  function ChecksFor(available: Option<int>, ctx: Context): seq<GateCheck> {
    EvaluateArbitrumGate(ctx.order, if available.Some? then available.value else 0, ctx.nowSec, ctx.gate)
  }

  function CapitalReasons(available: Option<int>, ctx: Context): seq<Reason> {
    (if available.None? then [BalanceReadFailed] else []) + GateReasons(ChecksFor(available, ctx), available)
  }

  function RecordReasons(ctx: Context, solver: Address): seq<Reason> {
    match ctx.stats
    case None => [TrackRecordUnavailable]
    case Some(stats) => if CreditCap(ctx, solver, stats) < ctx.order.amount then [TierCapExceeded] else []
  }

  /** One candidate against every gate, given what is already held back from it. */
  function Evaluate(c: Candidate, heldBack: nat, ctx: Context): Evaluation {
    var available := Available(c.balance, heldBack);
    var reasons := ApprovalReasons(c.approved) + CapitalReasons(available, ctx)
                 + IntentReasons(ctx.onChain) + RecordReasons(ctx, c.solver);
    match ctx.stats
    case None => Evaluation(c.solver, reasons, None, None, None, available)
    case Some(stats) =>
      Evaluation(c.solver, reasons, Some(TierOf(ctx, c.solver, stats)), Some(CreditCap(ctx, c.solver, stats)),
                 RateOf(RecordFor(stats, c.solver)), available)
  }

  ghost function HeldBack(m: map<string, Entry>, b: Book, solver: Address, nowMs: nat, g: GateParams): nat {
    ReservedOf(b, solver, nowMs) + LedgerReserved(m, b, solver, g)
  }

  /** A candidate survives exactly when every read it needs answered and every condition holds. */
  lemma EligibleExactly(c: Candidate, heldBack: nat, ctx: Context)
    ensures Eligible(Evaluate(c, heldBack, ctx)) <==>
              && c.approved == Some(true)
              && c.balance.Some? && c.balance.value >= heldBack + CollateralWei(ctx.order.amount) + ctx.gate.gasBufferWei
              && ctx.order.token == ZERO && ctx.order.amount <= ctx.gate.maxTransferWei
              && ctx.nowSec < ctx.order.expiry - ctx.gate.deliveryMarginSec
              && ctx.onChain.Some? && ctx.onChain.value.status == IM.Pending && ctx.onChain.value.solver == ZERO
              && ctx.stats.Some? && ctx.order.amount <= CreditCap(ctx, c.solver, ctx.stats.value)
  {
    var available := Available(c.balance, heldBack);
    var checks := ChecksFor(available, ctx);
    GateReasonsEmpty(checks, available);
    assert InsufficientSolverBalance in checks <==>
      (if available.Some? then available.value else 0) < CollateralWei(ctx.order.amount) + ctx.gate.gasBufferWei;
    assert TokenNotNative in checks <==> ctx.order.token != ZERO;
    assert AmountExceedsMaxTransfer in checks <==> ctx.order.amount > ctx.gate.maxTransferWei;
    assert TooCloseToExpiry in checks <==> ctx.nowSec >= ctx.order.expiry - ctx.gate.deliveryMarginSec;
  }

  lemma {:induction false} GateReasonsEmpty(checks: seq<GateCheck>, available: Option<int>)
    ensures GateReasons(checks, available) == [] <==>
              forall c :: c in checks ==> c == InsufficientSolverBalance && available.None?
  {
    if checks != [] {
      var (first, rest) := (checks[0], checks[1..]);
      GateReasonsEmpty(rest, available);
      assert first in checks;
      assert forall c :: c in checks <==> c == first || c in rest;
      if first == InsufficientSolverBalance && available.None? {
        assert GateReasons(checks, available) == GateReasons(rest, available);
      } else {
        assert GateReasons(checks, available) != [];
      }
    }
  }

  /** With the balance and the clock unchanged, an eligible candidate also passes the sequence's own gate. */
  lemma EligiblePassesSequenceGate(c: Candidate, heldBack: nat, ctx: Context)
    requires Eligible(Evaluate(c, heldBack, ctx))
    ensures c.balance.Some? && EvaluateArbitrumGate(ctx.order, c.balance.value, ctx.nowSec, ctx.gate) == []
  {
    EligibleExactly(c, heldBack, ctx);
  }

  // ------------------------------------------------------------------ ranking

  function Rate(e: Evaluation): real {
    match e.rate case None => -1.0 case Some(r) => r
  }

  function CompareInt(a: int, b: int): int {
    if a < b then -1 else if a > b then 1 else 0
  }

  predicate Ranked(e: Evaluation) {
    e.cap.Some? && e.available.Some?
  }

  /** The comparator the survivors are sorted with: negative when a goes first. */
  function Compare(a: Evaluation, b: Evaluation): int
    requires Ranked(a) && Ranked(b)
  {
    if a.cap.value != b.cap.value then CompareInt(a.cap.value, b.cap.value)
    else if Rate(a) != Rate(b) then if Rate(b) < Rate(a) then -1 else 1
    else if a.available.value != b.available.value then CompareInt(b.available.value, a.available.value)
    else CompareInt(a.solver, b.solver)
  }

  predicate AllRanked(xs: seq<Evaluation>) {
    forall i :: 0 <= i < |xs| ==> Ranked(xs[i])
  }

  /** A stable sort, by insertion. */
  function Insert(e: Evaluation, xs: seq<Evaluation>): (r: seq<Evaluation>)
    requires Ranked(e) && AllRanked(xs)
    ensures multiset(r) == multiset(xs) + multiset{e}
    ensures AllRanked(r)
  {
    if xs == [] then [e]
    else if Compare(e, xs[0]) <= 0 then [e] + xs
    else
      assert xs == [xs[0]] + xs[1..];
      [xs[0]] + Insert(e, xs[1..])
  }

  function Sorted(xs: seq<Evaluation>): (r: seq<Evaluation>)
    requires AllRanked(xs)
    ensures multiset(r) == multiset(xs) && AllRanked(r)
  {
    if xs == [] then []
    else
      assert xs == [xs[0]] + xs[1..];
      Insert(xs[0], Sorted(xs[1..]))
  }

  function Survivors(xs: seq<Evaluation>): (r: seq<Evaluation>)
    ensures forall e :: e in r <==> e in xs && Eligible(e) && Ranked(e)
  {
    if xs == [] then [] else (if Eligible(xs[0]) && Ranked(xs[0]) then [xs[0]] else []) + Survivors(xs[1..])
  }

  function Winner(xs: seq<Evaluation>): Option<Evaluation> {
    var sorted := Sorted(Survivors(xs));
    if sorted == [] then None else Some(sorted[0])
  }

  /** The ranking, said outright: smaller tier cap; then higher success rate, no history below any recorded
      rate; then more available capital; then the lower address. */
  ghost predicate Beats(a: Evaluation, b: Evaluation)
    requires Ranked(a) && Ranked(b)
  {
    || a.cap.value < b.cap.value
    || (a.cap == b.cap && Rate(a) > Rate(b))
    || (a.cap == b.cap && Rate(a) == Rate(b) && a.available.value > b.available.value)
    || (a.cap == b.cap && Rate(a) == Rate(b) && a.available == b.available && a.solver < b.solver)
  }

  lemma HeadOfInsert(e: Evaluation, xs: seq<Evaluation>)
    requires Ranked(e) && AllRanked(xs)
    ensures Insert(e, xs) != []
    ensures Insert(e, xs)[0] == if xs == [] || Compare(e, xs[0]) <= 0 then e else xs[0]
  {
  }

  /** Of the two heads the comparator keeps the one nobody beats. */
  lemma StaysUnbeaten(e: Evaluation, best: Evaluation, first: Evaluation)
    requires Ranked(e) && Ranked(best) && Ranked(first)
    ensures Compare(first, best) <= 0 && !Beats(e, best) ==> !Beats(e, first)
    ensures Compare(first, best) > 0 ==> !Beats(first, best)
    ensures !Beats(first, first)
  {
  }

  /** The head of the sorted survivors is beaten by none of them. */
  lemma {:induction false} HeadIsUnbeaten(xs: seq<Evaluation>)
    requires AllRanked(xs) && xs != []
    ensures Sorted(xs) != [] && Sorted(xs)[0] in xs
    ensures forall e :: e in xs ==> !Beats(e, Sorted(xs)[0])
  {
    var (first, rest) := (xs[0], xs[1..]);
    assert forall e :: e in xs <==> e == first || e in rest;
    HeadOfInsert(first, Sorted(rest));
    if rest != [] {
      HeadIsUnbeaten(rest);
      var (best, head) := (Sorted(rest)[0], Sorted(xs)[0]);
      forall e | e in xs
        ensures !Beats(e, head)
      {
        assert Ranked(e);
        StaysUnbeaten(e, best, first);
      }
    }
  }

  /** No winner means nobody was eligible; a winner is eligible, and no eligible candidate beats it. */
  lemma WinnerIsOptimal(xs: seq<Evaluation>)
    requires forall e :: e in xs && Eligible(e) ==> Ranked(e)
    ensures Winner(xs).None? <==> forall e :: e in xs ==> !Eligible(e)
    ensures Winner(xs).Some? ==>
              && Winner(xs).value in xs && Eligible(Winner(xs).value) && Ranked(Winner(xs).value)
              && forall e :: e in xs && Eligible(e) ==> !Beats(e, Winner(xs).value)
  {
    var s := Survivors(xs);
    if s != [] {
      HeadIsUnbeaten(s);
      assert s[0] in s;
    } else {
      assert forall e :: e in xs && Eligible(e) ==> e in s;
    }
  }

  ghost predicate DistinctSolvers(xs: seq<Evaluation>) {
    forall a, b :: a in xs && b in xs && a.solver == b.solver ==> a == b
  }

  /** The order in which candidates are configured does not matter. */
  lemma WinnerIgnoresOrder(xs: seq<Evaluation>, ys: seq<Evaluation>)
    requires multiset(xs) == multiset(ys) && DistinctSolvers(xs)
    requires forall e :: e in xs && Eligible(e) ==> Ranked(e)
    ensures Winner(xs) == Winner(ys)
  {
    assert forall e :: e in xs <==> e in multiset(xs);
    assert forall e :: e in ys <==> e in multiset(ys);
    WinnerIsOptimal(xs);
    WinnerIsOptimal(ys);
    if Winner(xs).Some? {
      var (w, v) := (Winner(xs).value, Winner(ys).value);
      assert !Beats(v, w) && !Beats(w, v);
      assert w.solver == v.solver;
    }
  }
}
