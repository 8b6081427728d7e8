/** Deciding over the live book, and resolving the winner's reservation exactly once. */
module Dispatch {
  import opened Options
  import opened Sums
  import opened ArbitrumLedger
  import opened Reservations
  import opened SolverStats
  import opened Routing
  import IM = IntentManager

  datatype Selection = Selection(winner: Option<Evaluation>, collateralWei: nat, reservationWei: nat, candidates: seq<Evaluation>)

  // ------------------------------------------------------------------ the decision, as a function of what it read

  /** Reading a solver's reservations forgets the lapsed ones; only candidates whose balance was read are read. */
  function PrunedFor(b: Book, answers: seq<Candidate>, nowMs: nat): Book {
    if answers == [] then b
    else
      var (init, last) := (answers[..|answers| - 1], answers[|answers| - 1]);
      var before := PrunedFor(b, init, nowMs);
      if last.balance.Some? then Pruned(before, last.solver, nowMs) else before
  }

  ghost function Evaluations(answers: seq<Candidate>, m: map<string, Entry>, b: Book, nowMs: nat, ctx: Context): (r: seq<Evaluation>)
    ensures |r| == |answers|
  {
    seq(|answers|, i requires 0 <= i < |answers| => Evaluate(answers[i], HeldBack(m, b, answers[i].solver, nowMs, ctx.gate), ctx))
  }

  function Booked(b: Book, answers: seq<Candidate>, nowMs: nat, winner: Option<Evaluation>, key: string, wei: nat): Book {
    var pruned := PrunedFor(b, answers, nowMs);
    match winner case None => pruned case Some(w) => WithReservation(pruned, w.solver, key, wei)
  }

  /** Forgetting lapsed reservations changes no total, now or later. */
  lemma PruningIsInvisible(b: Book, solver: Address, nowMs: nat, other: Address, later: nat)
    requires later >= nowMs
    ensures Live(SlotsOf(Pruned(b, solver, nowMs), other), later) == Live(SlotsOf(b, other), later)
    ensures ReservedOf(Pruned(b, solver, nowMs), other, later) == ReservedOf(b, other, later)
  {
    assert Live(SlotsOf(Pruned(b, solver, nowMs), other), later) == Live(SlotsOf(b, other), later);
  }

  lemma {:induction false} PrunedForIsInvisible(b: Book, answers: seq<Candidate>, nowMs: nat, other: Address, later: nat)
    requires later >= nowMs
    ensures Live(SlotsOf(PrunedFor(b, answers, nowMs), other), later) == Live(SlotsOf(b, other), later)
    ensures ReservedOf(PrunedFor(b, answers, nowMs), other, later) == ReservedOf(b, other, later)
  {
    if answers != [] {
      var (init, last) := (answers[..|answers| - 1], answers[|answers| - 1]);
      PrunedForIsInvisible(b, init, nowMs, other, later);
      PruningIsInvisible(PrunedFor(b, init, nowMs), last.solver, nowMs, other, later);
    }
  }

  ghost predicate Lists(ids: seq<string>, m: map<string, Entry>) {
    && (forall id :: id in ids <==> id in m)
    && forall i, j :: 0 <= i < j < |ids| ==> ids[i] != ids[j]
  }

  method Assess(book: ReservationBook, ledger: Ledger, inFlight: seq<string>, c: Candidate, nowMs: nat, ctx: Context, ghost b: Book)
    returns (e: Evaluation)
    requires Lists(inFlight, InFlight(ledger.ledger, b))
    requires Live(SlotsOf(book.bySolver, c.solver), nowMs) == Live(SlotsOf(b, c.solver), nowMs)
    modifies book
    ensures e == Evaluate(c, HeldBack(ledger.ledger, b, c.solver, nowMs, ctx.gate), ctx)
    ensures book.bySolver == if c.balance.Some? then Pruned(old(book.bySolver), c.solver, nowMs) else old(book.bySolver)
  {
    if c.balance.Some? {
      var reserved := book.ReservedWei(c.solver, nowMs);
      var fromLedger := LedgerReservedWei(ledger, inFlight, c.solver, ctx.gate, InFlight(ledger.ledger, b));
      e := Evaluate(c, reserved + fromLedger, ctx);
    } else {
      UnreadBalance(c, 0, HeldBack(ledger.ledger, b, c.solver, nowMs, ctx.gate), ctx);
      e := Evaluate(c, 0, ctx);
    }
  }

  lemma PrunedForNext(b: Book, answers: seq<Candidate>, i: nat, nowMs: nat)
    requires i < |answers|
    ensures var before := PrunedFor(b, answers[..i], nowMs);
            PrunedFor(b, answers[..i + 1], nowMs)
              == if answers[i].balance.Some? then Pruned(before, answers[i].solver, nowMs) else before
  {
    assert answers[..i + 1][..i] == answers[..i];
  }

  method AssessAll(book: ReservationBook, ledger: Ledger, answers: seq<Candidate>, nowMs: nat, ctx: Context)
    returns (evaluations: seq<Evaluation>)
    modifies book
    ensures evaluations == Evaluations(answers, ledger.ledger, old(book.bySolver), nowMs, ctx)
    ensures book.bySolver == PrunedFor(old(book.bySolver), answers, nowMs)
  {
    var inFlight := InFlightEntries(ledger, book);
    ghost var b := book.bySolver;
    ghost var expected := Evaluations(answers, ledger.ledger, b, nowMs, ctx);
    evaluations := [];
    for i := 0 to |answers|
      invariant book.bySolver == PrunedFor(b, answers[..i], nowMs)
      invariant evaluations == expected[..i]
    {
      PrunedForIsInvisible(b, answers[..i], nowMs, answers[i].solver, nowMs);
      PrunedForNext(b, answers, i, nowMs);
      var e := Assess(book, ledger, inFlight, answers[i], nowMs, ctx, b);
      assert expected[..i + 1] == expected[..i] + [e];
      evaluations := evaluations + [e];
    }
    assert answers[..|answers|] == answers && expected[..|answers|] == expected;
  }

  /** Every candidate is judged against the book and ledger as they stood when the decision began; the
      winner, if any, is the best eligible one, and it alone is reserved for. */
  method Decide(book: ReservationBook, ledger: Ledger, answers: seq<Candidate>, intentId: string, nowMs: nat, ctx: Context)
    returns (sel: Selection)
    modifies book
    ensures sel.candidates == Evaluations(answers, ledger.ledger, old(book.bySolver), nowMs, ctx)
    ensures sel.winner == Winner(sel.candidates)
    ensures sel.collateralWei == CollateralWei(ctx.order.amount) && sel.reservationWei == ReservationWei(ctx)
    ensures book.bySolver == Booked(old(book.bySolver), answers, nowMs, sel.winner, KeyOf(intentId), sel.reservationWei)
  {
    var evaluations := AssessAll(book, ledger, answers, nowMs, ctx);
    var winner := Winner(evaluations);
    var collateral := CollateralWei(ctx.order.amount);
    var wei := collateral + ctx.gate.gasBufferWei;
    if winner.Some? {
      book.Reserve(winner.value.solver, intentId, wei);
    }
    sel := Selection(winner, collateral, wei, evaluations);
  }

  lemma UnreadBalance(c: Candidate, x: nat, y: nat, ctx: Context)
    requires c.balance.None?
    ensures Evaluate(c, x, ctx) == Evaluate(c, y, ctx)
  {
  }

  /** The winner had, beyond everything held back from it, enough for this intent too; and it passes the
      sequence's own gate on the balance that was read. */
  lemma WinnerCanAfford(answers: seq<Candidate>, m: map<string, Entry>, b: Book, nowMs: nat, ctx: Context)
    ensures var xs := Evaluations(answers, m, b, nowMs, ctx);
            Winner(xs).Some? ==>
              exists i :: 0 <= i < |answers| && answers[i].solver == Winner(xs).value.solver && answers[i].balance.Some?
                && answers[i].balance.value >= HeldBack(m, b, answers[i].solver, nowMs, ctx.gate) + ReservationWei(ctx)
                && EvaluateArbitrumGate(ctx.order, answers[i].balance.value, ctx.nowSec, ctx.gate) == []
  {
    var xs := Evaluations(answers, m, b, nowMs, ctx);
    EvaluationsAreRanked(answers, m, b, nowMs, ctx);
    WinnerIsOptimal(xs);
    if Winner(xs).Some? {
      var i :| 0 <= i < |xs| && xs[i] == Winner(xs).value;
      var heldBack := HeldBack(m, b, answers[i].solver, nowMs, ctx.gate);
      EligibleExactly(answers[i], heldBack, ctx);
      EligiblePassesSequenceGate(answers[i], heldBack, ctx);
    }
  }

  // ------------------------------------------------------------------ the best candidate, said of the candidates

  /** Every condition a candidate must meet, on its own reads, its record and the intent. */
  ghost predicate Qualifies(c: Candidate, heldBack: nat, ctx: Context) {
    && c.approved == Some(true)
    && c.balance.Some? && c.balance.value - heldBack >= CollateralWei(ctx.order.amount) + ctx.gate.gasBufferWei
    && ctx.order.token == ZERO && ctx.order.amount <= ctx.gate.maxTransferWei
    && ctx.nowSec < ctx.order.expiry - ctx.gate.deliveryMarginSec
    && ctx.onChain.Some? && ctx.onChain.value.status == IM.Pending && ctx.onChain.value.solver == ZERO
    && ctx.stats.Some? && ctx.order.amount <= CreditCap(ctx, c.solver, ctx.stats.value)
  }

  /** Of two records the first shows the higher share of settled intents; no history is below any. */
  predicate BetterRecord(a: Option<Tally>, b: Option<Tally>) {
    a.Some? && Resolved(a.value) > 0 && (b.Some? && Resolved(b.value) > 0 ==> HigherShare(a.value, b.value))
  }

  predicate HigherShare(a: Tally, b: Tally) {
    a.settled * (b.settled + b.slashed) > b.settled * (a.settled + a.slashed)
  }

  /** The smaller cap goes first; then the better record; then the more capital free; then the lower address. */
  predicate GoesFirst(capA: nat, capB: nat, better: bool, worse: bool, freeA: int, freeB: int, a: Address, b: Address) {
    capA < capB || (capA == capB && (better || (!worse && (freeA > freeB || (freeA == freeB && a < b)))))
  }

  /** What candidates are ranked by: the credit cap and the record of the solver, and its balance beyond what is held back. */
  datatype Standing = Standing(cap: nat, record: Option<Tally>, free: int, solver: Address)

  ghost function StandingOf(c: Candidate, heldBack: nat, ctx: Context): Standing
    requires c.balance.Some? && ctx.stats.Some?
  {
    var stats := ctx.stats.value;
    Standing(CreditCap(ctx, c.solver, stats), RecordFor(stats, c.solver), c.balance.value - heldBack, c.solver)
  }

  predicate Outranks(a: Standing, b: Standing) {
    GoesFirst(a.cap, b.cap, BetterRecord(a.record, b.record), BetterRecord(b.record, a.record), a.free, b.free, a.solver, b.solver)
  }

  /** Comparing two shares is comparing their cross products. */
  lemma SharesCompare(a: nat, m: nat, b: nat, n: nat)
    requires m > 0 && n > 0
    ensures a as real / m as real > b as real / n as real <==> a * n > b * m
  {
    var (x, y) := (a as real / m as real, b as real / n as real);
    assert x * m as real == a as real && y * n as real == b as real;
    var scale := m as real * n as real;
    assert scale > 0.0;
    assert (x - y) * scale == (a * n) as real - (b * m) as real;
  }

  lemma RecordsCompare(a: Option<Tally>, b: Option<Tally>, ea: Evaluation, eb: Evaluation)
    requires ea.rate == RateOf(a) && eb.rate == RateOf(b)
    ensures Rate(ea) > Rate(eb) <==> BetterRecord(a, b)
  {
    if ea.rate.Some? && eb.rate.Some? {
      SharesCompare(a.value.settled, Resolved(a.value), b.value.settled, Resolved(b.value));
    } else if ea.rate.Some? {
      assert ea.rate.value >= 0.0;
    } else if eb.rate.Some? {
      assert eb.rate.value >= 0.0;
    }
  }

  predicate Shows(e: Evaluation, x: Standing) {
    e.solver == x.solver && e.cap == Some(x.cap) && e.available == Some(x.free) && e.rate == RateOf(x.record)
  }

  lemma EvaluatedAs(c: Candidate, heldBack: nat, ctx: Context)
    requires c.balance.Some? && ctx.stats.Some?
    ensures var e := Evaluate(c, heldBack, ctx);
            && e.solver == c.solver && e.available == Some(c.balance.value - heldBack)
            && e.cap == Some(CreditCap(ctx, c.solver, ctx.stats.value))
            && e.rate == RateOf(RecordFor(ctx.stats.value, c.solver))
  {
  }

  lemma ShowsStanding(e: Evaluation, c: Candidate, heldBack: nat, cap: nat, record: Option<Tally>)
    requires c.balance.Some? && e.solver == c.solver && e.available == Some(c.balance.value - heldBack)
    requires e.cap == Some(cap) && e.rate == RateOf(record)
    ensures Shows(e, Standing(cap, record, c.balance.value - heldBack, c.solver))
  {
  }

  lemma EvaluationShows(c: Candidate, heldBack: nat, ctx: Context)
    requires c.balance.Some? && ctx.stats.Some?
    ensures Shows(Evaluate(c, heldBack, ctx), StandingOf(c, heldBack, ctx))
  {
    EvaluatedAs(c, heldBack, ctx);
    var stats := ctx.stats.value;
    ShowsStanding(Evaluate(c, heldBack, ctx), c, heldBack, CreditCap(ctx, c.solver, stats), RecordFor(stats, c.solver));
  }

  lemma BeatsIsGoingFirst(ea: Evaluation, eb: Evaluation)
    requires Ranked(ea) && Ranked(eb)
    ensures Beats(ea, eb) <==> GoesFirst(ea.cap.value, eb.cap.value, Rate(ea) > Rate(eb), Rate(eb) > Rate(ea),
                                         ea.available.value, eb.available.value, ea.solver, eb.solver)
  {
  }

  lemma UnbeatenIsUnranked(ea: Evaluation, eb: Evaluation, a: Standing, b: Standing)
    requires Shows(ea, a) && Shows(eb, b) && !Beats(ea, eb)
    ensures !Outranks(a, b)
  {
    SameOrder(ea, eb, a.record, b.record);
  }

  lemma SameOrder(ea: Evaluation, eb: Evaluation, recordA: Option<Tally>, recordB: Option<Tally>)
    requires Ranked(ea) && Ranked(eb) && ea.rate == RateOf(recordA) && eb.rate == RateOf(recordB)
    ensures Beats(ea, eb) <==> GoesFirst(ea.cap.value, eb.cap.value, BetterRecord(recordA, recordB), BetterRecord(recordB, recordA),
                                         ea.available.value, eb.available.value, ea.solver, eb.solver)
  {
    BeatsIsGoingFirst(ea, eb);
    RecordsCompare(recordA, recordB, ea, eb);
    RecordsCompare(recordB, recordA, eb, ea);
  }

  /** What a decision begun on ledger m and book b holds back from each candidate. */
  ghost function Held(m: map<string, Entry>, b: Book, nowMs: nat, ctx: Context, c: Candidate): nat {
    HeldBack(m, b, c.solver, nowMs, ctx.gate)
  }

  ghost predicate QualifiesAt(answers: seq<Candidate>, m: map<string, Entry>, b: Book, nowMs: nat, ctx: Context, i: int) {
    0 <= i < |answers| && Qualifies(answers[i], Held(m, b, nowMs, ctx, answers[i]), ctx)
  }

  ghost function StandingAt(answers: seq<Candidate>, m: map<string, Entry>, b: Book, nowMs: nat, ctx: Context, i: int): Standing
    requires QualifiesAt(answers, m, b, nowMs, ctx, i)
  {
    StandingOf(answers[i], Held(m, b, nowMs, ctx, answers[i]), ctx)
  }

  ghost predicate BestAt(answers: seq<Candidate>, m: map<string, Entry>, b: Book, nowMs: nat, ctx: Context, w: int) {
    && QualifiesAt(answers, m, b, nowMs, ctx, w)
    && forall i :: QualifiesAt(answers, m, b, nowMs, ctx, i)
         ==> !Outranks(StandingAt(answers, m, b, nowMs, ctx, i), StandingAt(answers, m, b, nowMs, ctx, w))
  }

  lemma QualifiedIsEligible(answers: seq<Candidate>, m: map<string, Entry>, b: Book, nowMs: nat, ctx: Context, i: nat)
    requires i < |answers|
    ensures var e := Evaluations(answers, m, b, nowMs, ctx)[i];
            && e == Evaluate(answers[i], Held(m, b, nowMs, ctx, answers[i]), ctx)
            && (Eligible(e) <==> QualifiesAt(answers, m, b, nowMs, ctx, i))
  {
    EligibleExactly(answers[i], Held(m, b, nowMs, ctx, answers[i]), ctx);
  }

  lemma NoneQualifies(answers: seq<Candidate>, m: map<string, Entry>, b: Book, nowMs: nat, ctx: Context)
    ensures (forall e :: e in Evaluations(answers, m, b, nowMs, ctx) ==> !Eligible(e))
            <==> forall i :: !QualifiesAt(answers, m, b, nowMs, ctx, i)
  {
    var xs := Evaluations(answers, m, b, nowMs, ctx);
    forall i | 0 <= i < |xs|
      ensures xs[i] in xs && (Eligible(xs[i]) <==> QualifiesAt(answers, m, b, nowMs, ctx, i))
    {
      QualifiedIsEligible(answers, m, b, nowMs, ctx, i);
    }
  }

  lemma UnbeatenIsBest(answers: seq<Candidate>, m: map<string, Entry>, b: Book, nowMs: nat, ctx: Context, w: nat)
    requires var xs := Evaluations(answers, m, b, nowMs, ctx);
             w < |xs| && Eligible(xs[w]) && Ranked(xs[w]) && forall e :: e in xs && Eligible(e) ==> Ranked(e) && !Beats(e, xs[w])
    ensures BestAt(answers, m, b, nowMs, ctx, w)
  {
    var xs := Evaluations(answers, m, b, nowMs, ctx);
    QualifiedIsEligible(answers, m, b, nowMs, ctx, w);
    forall i | QualifiesAt(answers, m, b, nowMs, ctx, i)
      ensures !Outranks(StandingAt(answers, m, b, nowMs, ctx, i), StandingAt(answers, m, b, nowMs, ctx, w))
    {
      QualifiedIsEligible(answers, m, b, nowMs, ctx, i);
      assert xs[i] in xs;
      EvaluationShows(answers[i], Held(m, b, nowMs, ctx, answers[i]), ctx);
      EvaluationShows(answers[w], Held(m, b, nowMs, ctx, answers[w]), ctx);
      UnbeatenIsUnranked(xs[i], xs[w], StandingAt(answers, m, b, nowMs, ctx, i), StandingAt(answers, m, b, nowMs, ctx, w));
    }
  }

  /** The decision is the best candidate: none qualifies exactly when there is no winner; otherwise the winner
      qualifies and no candidate that qualifies outranks it. */
  lemma WinnerIsBestCandidate(answers: seq<Candidate>, m: map<string, Entry>, b: Book, nowMs: nat, ctx: Context)
    ensures var winner := Winner(Evaluations(answers, m, b, nowMs, ctx));
            && (winner.None? <==> forall i :: !QualifiesAt(answers, m, b, nowMs, ctx, i))
            && (winner.Some? ==> exists w :: BestAt(answers, m, b, nowMs, ctx, w) && winner.value.solver == answers[w].solver)
  {
    var xs := Evaluations(answers, m, b, nowMs, ctx);
    EvaluationsAreRanked(answers, m, b, nowMs, ctx);
    WinnerIsOptimal(xs);
    NoneQualifies(answers, m, b, nowMs, ctx);
    if Winner(xs).Some? {
      var w :| 0 <= w < |xs| && xs[w] == Winner(xs).value;
      UnbeatenIsBest(answers, m, b, nowMs, ctx, w);
      QualifiedIsEligible(answers, m, b, nowMs, ctx, w);
    }
  }

  lemma EvaluationsAreRanked(answers: seq<Candidate>, m: map<string, Entry>, b: Book, nowMs: nat, ctx: Context)
    ensures forall e :: e in Evaluations(answers, m, b, nowMs, ctx) && Eligible(e) ==> Ranked(e)
  {
    var xs := Evaluations(answers, m, b, nowMs, ctx);
    forall i | 0 <= i < |xs| && Eligible(xs[i])
      ensures Ranked(xs[i])
    {
      EligibleExactly(answers[i], HeldBack(m, b, answers[i].solver, nowMs, ctx.gate), ctx);
    }
  }

  /** Routing is the same for every order in which distinct solvers are configured and read. */
  lemma RoutingIgnoresOrder(answers: seq<Candidate>, other: seq<Candidate>, m: map<string, Entry>, b: Book, nowMs: nat, ctx: Context)
    requires multiset(answers) == multiset(other)
    requires forall i, j :: 0 <= i < j < |answers| ==> answers[i].solver != answers[j].solver
    ensures Winner(Evaluations(answers, m, b, nowMs, ctx)) == Winner(Evaluations(other, m, b, nowMs, ctx))
  {
    var (xs, ys) := (Evaluations(answers, m, b, nowMs, ctx), Evaluations(other, m, b, nowMs, ctx));
    var judge := Judging(m, b, nowMs, ctx);
    EvaluationsAreMapped(answers, m, b, nowMs, ctx);
    EvaluationsAreMapped(other, m, b, nowMs, ctx);
    MappedKeepsMultiset(judge, answers, other);
    EvaluationsAreRanked(answers, m, b, nowMs, ctx);
    DistinctEvaluations(answers, m, b, nowMs, ctx);
    WinnerIgnoresOrder(xs, ys);
  }

  ghost function Judging(m: map<string, Entry>, b: Book, nowMs: nat, ctx: Context): Candidate -> Evaluation {
    (c: Candidate) => Evaluate(c, HeldBack(m, b, c.solver, nowMs, ctx.gate), ctx)
  }

  lemma EvaluationsAreMapped(answers: seq<Candidate>, m: map<string, Entry>, b: Book, nowMs: nat, ctx: Context)
    ensures Evaluations(answers, m, b, nowMs, ctx) == Mapped(Judging(m, b, nowMs, ctx), answers)
  {
  }

  lemma DistinctEvaluations(answers: seq<Candidate>, m: map<string, Entry>, b: Book, nowMs: nat, ctx: Context)
    requires forall i, j :: 0 <= i < j < |answers| ==> answers[i].solver != answers[j].solver
    ensures DistinctSolvers(Evaluations(answers, m, b, nowMs, ctx))
  {
    var xs := Evaluations(answers, m, b, nowMs, ctx);
    assert forall i :: 0 <= i < |xs| ==> xs[i].solver == answers[i].solver;
  }

  ghost function Mapped(f: Candidate -> Evaluation, xs: seq<Candidate>): seq<Evaluation> {
    seq(|xs|, i requires 0 <= i < |xs| => f(xs[i]))
  }

  lemma MappedJoin(f: Candidate -> Evaluation, a: seq<Candidate>, b: seq<Candidate>)
    ensures Mapped(f, a + b) == Mapped(f, a) + Mapped(f, b)
  {
  }

  /** Moving one element within a sequence moves its image. */
  lemma MappedAt(f: Candidate -> Evaluation, a: seq<Candidate>, x: Candidate, b: seq<Candidate>)
    ensures multiset(Mapped(f, a + [x] + b)) == multiset{f(x)} + multiset(Mapped(f, a + b))
    ensures multiset(a + [x] + b) == multiset{x} + multiset(a + b)
  {
    MappedJoin(f, a + [x], b);
    MappedJoin(f, a, [x]);
    MappedJoin(f, a, b);
    assert Mapped(f, [x]) == [f(x)];
  }

  lemma SameRest(x: Candidate, a: multiset<Candidate>, b: multiset<Candidate>)
    requires multiset{x} + a == multiset{x} + b
    ensures a == b
  {
    assert a == multiset{x} + a - multiset{x};
    assert b == multiset{x} + b - multiset{x};
  }

  lemma {:induction false} MappedKeepsMultiset(f: Candidate -> Evaluation, xs: seq<Candidate>, ys: seq<Candidate>)
    requires multiset(xs) == multiset(ys)
    ensures multiset(Mapped(f, xs)) == multiset(Mapped(f, ys))
    decreases |xs|
  {
    if xs == [] {
      assert |multiset(ys)| == 0;
    } else {
      var x := xs[0];
      assert x in multiset(xs);
      var k :| 0 <= k < |ys| && ys[k] == x;
      var (a, b) := (ys[..k], ys[k + 1..]);
      assert ys == a + [x] + b;
      assert xs == [] + [x] + xs[1..] && [] + xs[1..] == xs[1..];
      MappedAt(f, a, x, b);
      MappedAt(f, [], x, xs[1..]);
      SameRest(x, multiset(xs[1..]), multiset(a + b));
      MappedKeepsMultiset(f, xs[1..], a + b);
    }
  }

  // ------------------------------------------------------------------ dispatch

  /** How the sequence fared with its one call of postCollateral: never made (final gate refused, or a throw
      before it), threw, or returned. */
  datatype Posting = NeverCalled | CallThrew | Returned(ok: bool)

  /** A dispatch of a live intent touches nothing; otherwise a selection is made, and its reservation leaves
      "pending" exactly once: on hold if the collateral confirmed, released if anything else happened.
      `ledgerAfter` is the ledger as the dispatched sequence leaves it. */
  method DispatchArbitrumSettlement(book: ReservationBook, ledger: Ledger, answers: seq<Candidate>, intentId: string,
                                    nowMs: nat, ctx: Context, posting: Posting, ledgerAfter: map<string, Entry>,
                                    returnedMs: nat, holdMs: nat)
    returns (sel: Option<Selection>)
    requires ctx.order.expiry >= 0
    modifies book, ledger
    ensures sel.None? <==> old(ledger.Get(intentId)).Some? && old(ledger.Get(intentId)).value.stage != CollateralFailed
    ensures sel.None? ==> book.bySolver == old(book.bySolver) && ledger.ledger == old(ledger.ledger)
    ensures sel.Some? ==>
              && sel.value.candidates == Evaluations(answers, old(ledger.ledger), old(book.bySolver), nowMs, ctx)
              && sel.value.winner == Winner(sel.value.candidates)
    ensures sel.Some? && sel.value.winner.None? ==>
              && book.bySolver == PrunedFor(old(book.bySolver), answers, nowMs)
              && ledger.Get(intentId).Some? && ledger.Get(intentId).value.stage == CollateralFailed
    ensures sel.Some? && sel.value.winner.Some? ==>
              var booked := Booked(old(book.bySolver), answers, nowMs, sel.value.winner, KeyOf(intentId), ReservationWei(ctx));
              var solver := sel.value.winner.value.solver;
              && ledger.ledger == ledgerAfter
              && book.bySolver == if posting == Returned(true) then WithHold(booked, solver, KeyOf(intentId), returnedMs + holdMs)
                                  else Without(booked, solver, KeyOf(intentId))
  {
    var existing := ledger.Get(intentId);
    if existing.Some? && existing.value.stage != CollateralFailed {
      return None;
    }
    var selection := Decide(book, ledger, answers, intentId, nowMs, ctx);
    if selection.winner.None? {
      ledger.SetStage(intentId, CollateralFailed, NO_PATCH.(expiry := Put(Some(ctx.order.expiry))));
      return Some(selection);
    }
    var solver := selection.winner.value.solver;
    var resolved := false;
    ledger.ledger := ledgerAfter;
    match posting {
      case NeverCalled =>
      case CallThrew =>
        resolved := true;
        var _ := book.Release(solver, intentId);
      case Returned(ok) =>
        resolved := true;
        if ok {
          book.HoldFor(solver, intentId, holdMs, returnedMs);
        } else {
          var _ := book.Release(solver, intentId);
        }
    }
    if !resolved {
      var _ := book.Release(solver, intentId);
    }
    return Some(selection);
  }

  /** A dispatch that posted nothing holds nothing back: every solver's total, now and later, is what it was. */
  lemma FailedDispatchHoldsNothing(b: Book, answers: seq<Candidate>, nowMs: nat, w: Evaluation, key: string, wei: nat,
                                   other: Address, later: nat)
    requires later >= nowMs && !Has(b, key)
    ensures var after := Without(Booked(b, answers, nowMs, Some(w), key, wei), w.solver, key);
            ReservedOf(after, other, later) == ReservedOf(b, other, later) && !Has(after, key)
  {
    var pruned := PrunedFor(b, answers, nowMs);
    var after := Without(Booked(b, answers, nowMs, Some(w), key, wei), w.solver, key);
    PrunedHasNoMore(b, answers, nowMs, key);
    PrunedForIsInvisible(b, answers, nowMs, other, later);
    assert SlotsOf(after, other) == SlotsOf(pruned, other);
  }

  lemma {:induction false} PrunedHasNoMore(b: Book, answers: seq<Candidate>, nowMs: nat, key: string)
    ensures Has(PrunedFor(b, answers, nowMs), key) ==> Has(b, key)
  {
    if answers != [] {
      PrunedHasNoMore(b, answers[..|answers| - 1], nowMs, key);
    }
  }
}
