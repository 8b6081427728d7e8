/** Exactly how long holds, restarts and boot's patience must be for capital to be safe over all runs. */
module CapitalLimits {
  import opened Options
  import opened Sums
  import opened ArbitrumLedger
  import opened Reservations
  import opened SolverStats
  import opened Routing
  import opened Dispatch
  import opened CapitalSafety
  import IM = IntentManager

  /** Under this timing no run, of one process life only or across restarts too, ever promises money not there. */
  ghost predicate NeverOvercommits(t: Timing, oneLife: bool) {
    forall s, steps, s' :: Initial(s) && s.timing == t && Runs(s, steps, s') && (oneLife ==> OneLife(steps)) ==> Covered(s')
  }

  /** Within one process life the configured hold must outlast the lag of balance reads, and that is enough. */
  lemma OneLifeExactly(t: Timing)
    ensures NeverOvercommits(t, true) <==> t.lagMs <= t.holdMs
  {
    if t.lagMs <= t.holdMs {
      forall s, steps, s' | Initial(s) && s.timing == t && Runs(s, steps, s') && OneLife(steps)
        ensures Covered(s')
      {
        CapitalIsNeverOvercommitted(s, steps, s');
      }
    } else {
      ShortHoldFails(t);
    }
  }

  /** Across restarts it is safe exactly when, besides, a restart takes at least the lag and boot closes no
      posting younger than the lag; the source waits for neither. */
  lemma RestartsExactly(t: Timing)
    ensures NeverOvercommits(t, false) <==> t.lagMs <= t.holdMs && t.lagMs <= t.downMs && t.lagMs <= t.waitMs
  {
    if t.lagMs <= t.holdMs && RestartIsSafe(t) {
      forall s, steps, s' | Initial(s) && s.timing == t && Runs(s, steps, s')
        ensures Covered(s')
      {
        CapitalIsNeverOvercommitted(s, steps, s');
      }
    } else if t.lagMs > t.holdMs {
      ShortHoldFails(t);
    } else if t.lagMs > t.downMs {
      QuickRestartFails(t);
    } else {
      ImpatientBootFails(t);
    }
  }

  /** At boot the source closes a mined posting's entry at once: with any lag at all, some run overcommits. */
  lemma ImmediateBootOvercommits(t: Timing)
    requires t.waitMs == 0 && t.lagMs > 0
    ensures !NeverOvercommits(t, false)
  {
    RestartsExactly(t);
  }

  // ------------------------------------------------------------------ the failing runs

  ghost predicate CanReach(s: State, s': State, oneLife: bool) {
    exists steps :: Runs(s, steps, s') && (oneLife ==> OneLife(steps))
  }

  lemma {:induction false} RunThen(s: State, steps: seq<Step>, mid: State, step: Step)
    requires Runs(s, steps, mid) && Enabled(mid, step)
    ensures Runs(s, steps + [step], Do(mid, step))
    decreases |steps|
  {
    if steps == [] {
      assert [step][1..] == [];
      assert Runs(Do(s, step), [step][1..], Do(s, step));
    } else {
      RunThen(Do(s, steps[0]), steps[1..], mid, step);
      assert (steps + [step])[1..] == steps[1..] + [step];
    }
  }

  lemma Then(s: State, mid: State, step: Step, s': State, oneLife: bool)
    requires CanReach(s, mid, oneLife) && Enabled(mid, step) && s' == Do(mid, step) && (oneLife ==> !step.Restart?)
    ensures CanReach(s, s', oneLife)
  {
    var steps :| Runs(s, steps, mid) && (oneLife ==> OneLife(steps));
    RunThen(s, steps, mid, step);
  }

  const GATE := GateParams(100, 0, 0)

  /** An open native intent of 4 wei, so 6 of collateral, and no history for anyone. */
  function Demand(): Context {
    Context(Order(ZERO, 4, 1000), 0, Some(View(1, IM.Pending, ZERO)), Some(Stats(map[], true)), map[1 := 1],
            GATE, DEFAULT_CONFIG, TierCaps(100, 100, 100))
  }

  function Asked(read: nat): seq<Candidate> {
    [Candidate(1, Some(true), Some(read))]
  }

  /** Solver 1 with 10 wei in all. */
  function World(t: Timing, now: nat, flights: map<string, Flight>, book: Book, ledger: map<string, Entry>, restarted: bool): State {
    State(flights, book, ledger, map[1 := 10], now, restarted, t, GATE)
  }

  lemma DemandAllows()
    ensures ReservationWei(Demand()) == CollateralWei(4) == 6
    ensures CreditCap(Demand(), 1, Stats(map[], true)) == 100
  {
    assert RecordFor(Stats(map[], true), 1) == None;
  }

  lemma AskedIsEligible(c: Candidate, heldBack: nat, ctx: Context, stats: Stats)
    requires c.approved == Some(true) && c.balance.Some?
    requires c.balance.value >= heldBack + CollateralWei(ctx.order.amount) + ctx.gate.gasBufferWei
    requires ctx.order.token == ZERO && ctx.order.amount <= ctx.gate.maxTransferWei
    requires ctx.nowSec < ctx.order.expiry - ctx.gate.deliveryMarginSec
    requires ctx.onChain.Some? && ctx.onChain.value.status == IM.Pending && ctx.onChain.value.solver == ZERO
    requires ctx.stats == Some(stats) && ctx.order.amount <= CreditCap(ctx, c.solver, stats)
    ensures var e := Evaluate(c, heldBack, ctx); Eligible(e) && Ranked(e) && e.solver == c.solver
  {
    EligibleExactly(c, heldBack, ctx);
  }

  lemma DemandIsMet(heldBack: nat, read: nat)
    requires heldBack + 6 <= read
    ensures var e := Evaluate(Asked(read)[0], heldBack, Demand()); Eligible(e) && Ranked(e) && e.solver == 1
  {
    DemandAllows();
    AskedIsEligible(Asked(read)[0], heldBack, Demand(), Stats(map[], true));
  }

  lemma SoleSurvivorWins(e: Evaluation)
    requires Eligible(e) && Ranked(e)
    ensures Winner([e]) == Some(e)
  {
    WinnerIsOptimal([e]);
    assert [e][0] in [e];
  }

  lemma SoleCandidateWins(s: State, read: nat)
    requires s.gate == GATE && HeldBack(s.ledger, s.book, 1, s.now, GATE) + 6 <= read
    ensures Selected(s, Asked(read), Demand()).Some? && Selected(s, Asked(read), Demand()).value.solver == 1
  {
    var heldBack := HeldBack(s.ledger, s.book, 1, s.now, GATE);
    var e := Evaluate(Asked(read)[0], heldBack, Demand());
    DemandIsMet(heldBack, read);
    SoleSurvivorWins(e);
    assert Evaluations(Asked(read), s.ledger, s.book, s.now, Demand()) == [e];
  }

  lemma NothingHeld(s: State)
    requires Live(SlotsOf(s.book, 1), s.now) == map[] && InFlight(s.ledger, s.book) == map[]
    ensures HeldBack(s.ledger, s.book, 1, s.now, s.gate) == 0
  {
  }

  lemma SmallKeys()
    ensures KeyOf("a") == "a" && KeyOf("b") == "b"
  {
  }

  /** The first posting, paid but newer than what the read shows. */
  function Paid(at: nat): map<string, Flight> {
    map["a" := Flight(1, 6, Landed(at), 6)]
  }

  const SECOND := Flight(1, 6, Chosen, 0)

  lemma PaidOutOfSight(s: State, at: nat, seenAt: nat)
    requires s.flights == Paid(at) && s.deposits == map[1 := 10]
    requires seenAt < at && seenAt + s.timing.lagMs >= s.now
    ensures Plausible(s, 1, 10)
  {
    assert s.flights == map[]["a" := Flight(1, 6, Landed(at), 6)];
    SumUpdate(map[], "a", Flight(1, 6, Landed(at), 6), PaidUntil(1, seenAt));
    assert 10 <= Deposited(s, 1) - Sum(s.flights, PaidUntil(1, seenAt));
  }

  lemma PromisedTwice(s: State, at: nat)
    requires s.flights == Paid(at)["b" := SECOND] && s.deposits == map[1 := 10]
    ensures !Covered(s)
  {
    var first := Paid(at);
    assert first == map[]["a" := Flight(1, 6, Landed(at), 6)];
    SumUpdate(map[], "a", Flight(1, 6, Landed(at), 6), PaidBy(1));
    SumUpdate(map[], "a", Flight(1, 6, Landed(at), 6), OwedTo(1));
    SumUpdate(first, "b", SECOND, PaidBy(1));
    SumUpdate(first, "b", SECOND, OwedTo(1));
    assert Balance(s, 1) == 4 && Owed(s, 1) == 6;
  }

  /** With one posting paid out of sight of the read and nothing held back, the same wei is promised again. */
  lemma StaleSelectionOvercommits(s: State, at: nat, seenAt: nat)
    requires s == World(s.timing, s.now, Paid(at), s.book, s.ledger, s.restarted)
    requires seenAt < at && seenAt + s.timing.lagMs >= s.now && "b" !in s.ledger
    requires Live(SlotsOf(s.book, 1), s.now) == map[] && InFlight(s.ledger, s.book) == map[]
    ensures Enabled(s, Select("b", Asked(10), Demand())) && !Covered(Do(s, Select("b", Asked(10), Demand())))
  {
    SmallKeys();
    NothingHeld(s);
    SoleCandidateWins(s, 10);
    PaidOutOfSight(s, at, seenAt);
    DemandAllows();
    SelectCommits(s, "b", 10, Demand());
    PromisedTwice(Do(s, Select("b", Asked(10), Demand())), at);
  }

  lemma SelectCommits(s: State, key: string, read: nat, ctx: Context)
    requires KeyOf(key) == key && key !in s.flights && key !in s.ledger && ctx.gate == s.gate
    requires Plausible(s, 1, read) && Selected(s, Asked(read), ctx).Some?
    ensures Enabled(s, Select(key, Asked(read), ctx))
    ensures var (s', w) := (Do(s, Select(key, Asked(read), ctx)), Selected(s, Asked(read), ctx).value);
            s' == s.(flights := s.flights[key := Flight(w.solver, ReservationWei(ctx), Chosen, 0)],
                     book := Booked(s.book, Asked(read), s.now, Some(w), key, ReservationWei(ctx)))
  {
  }

  lemma OvercommitIsAFailure(s0: State, s: State, at: nat, seenAt: nat, oneLife: bool)
    requires Initial(s0) && CanReach(s0, s, oneLife) && s0.timing == s.timing
    requires s == World(s.timing, s.now, Paid(at), s.book, s.ledger, s.restarted)
    requires seenAt < at && seenAt + s.timing.lagMs >= s.now && "b" !in s.ledger
    requires Live(SlotsOf(s.book, 1), s.now) == map[] && InFlight(s.ledger, s.book) == map[]
    ensures !NeverOvercommits(s.timing, oneLife)
  {
    StaleSelectionOvercommits(s, at, seenAt);
    var s' := Do(s, Select("b", Asked(10), Demand()));
    Then(s0, s, Select("b", Asked(10), Demand()), s', oneLife);
  }

  function Start(t: Timing): State {
    World(t, 1, map[], map[], map[], false)
  }

  function Entered(t: Timing): Entry {
    Posted(World(t, 1, map["a" := Flight(1, 6, Chosen, 0)], map[], map[], false), "a", 0, 1000)
  }

  function Held(until: Option<nat>): Book {
    map[1 := map["a" := Reservation(6, until)]]
  }

  /** The first posting, selected and signed. */
  function FirstSigned(t: Timing): State {
    World(t, 1, map["a" := Flight(1, 6, Signed, 0)], Held(None), map["a" := Entered(t)], false)
  }

  function FirstChosen(t: Timing): State {
    World(t, 1, map["a" := Flight(1, 6, Chosen, 0)], Held(None), map[], false)
  }

  lemma StartShowsAll(t: Timing)
    ensures Plausible(Start(t), 1, 10)
  {
    var s := Start(t);
    assert 1 + t.lagMs >= s.now && 10 <= Deposited(s, 1) - Sum(s.flights, PaidUntil(1, 1));
  }

  /** From an empty book, with nothing in flight, the demand is booked to solver 1. */
  lemma EmptyBookSelects(s: State, key: string)
    requires s.gate == GATE && s.book == map[] && InFlight(s.ledger, map[]) == map[]
    requires KeyOf(key) == key && key !in s.flights && key !in s.ledger && Plausible(s, 1, 10)
    ensures Enabled(s, Select(key, Asked(10), Demand()))
    ensures Do(s, Select(key, Asked(10), Demand()))
            == s.(flights := s.flights[key := Flight(1, 6, Chosen, 0)], book := map[1 := map[key := Reservation(6, None)]])
  {
    var ctx := Demand();
    NothingHeld(s);
    SoleCandidateWins(s, 10);
    DemandAllows();
    SelectCommits(s, key, 10, ctx);
    EmptyBookBooks(s.now, Selected(s, Asked(10), ctx).value, key, ReservationWei(ctx));
  }

  lemma EmptyBookBooks(now: nat, w: Evaluation, key: string, wei: nat)
    ensures Booked(map[], Asked(10), now, Some(w), key, wei) == map[w.solver := map[key := Reservation(wei, None)]]
  {
    assert PrunedFor(map[], [], now) == map[];
    assert Asked(10)[..0] == [];
    assert PrunedFor(map[], Asked(10), now) == map[];
  }

  lemma FirstIsChosen(t: Timing)
    ensures Enabled(Start(t), Select("a", Asked(10), Demand()))
    ensures Do(Start(t), Select("a", Asked(10), Demand())) == FirstChosen(t)
  {
    SmallKeys();
    StartShowsAll(t);
    EmptyBookSelects(Start(t), "a");
  }

  lemma FirstIsSigned(t: Timing)
    ensures CanReach(Start(t), FirstSigned(t), true)
  {
    var s := Start(t);
    assert Runs(s, [], s);
    FirstIsChosen(t);
    Then(s, s, Select("a", Asked(10), Demand()), FirstChosen(t), true);
    FirstSigns(t);
    Then(s, FirstChosen(t), Sign("a", 0, 1000), FirstSigned(t), true);
  }

  lemma FirstSigns(t: Timing)
    ensures Enabled(FirstChosen(t), Sign("a", 0, 1000)) && Do(FirstChosen(t), Sign("a", 0, 1000)) == FirstSigned(t)
  {
    var f := Flight(1, 6, Chosen, 0);
    assert map["a" := f]["a" := f.(phase := Signed)] == map["a" := Flight(1, 6, Signed, 0)];
    assert Posted(FirstChosen(t), "a", 0, 1000) == Entered(t);
  }

  /** Mined, confirmed and closed within the first process life. */
  function FirstClosed(t: Timing): State {
    World(t, 1, Paid(1), Held(Some(1 + t.holdMs)), map["a" := Closed(t)], false)
  }

  function Closed(t: Timing): Entry {
    Merge(Some(Entered(t)), NO_PATCH, CollateralPosted)
  }

  lemma HoldBegins(until: nat)
    ensures WithHold(Held(None), 1, "a", until) == Held(Some(until))
  {
    var slots := map["a" := Reservation(6, None)];
    assert slots["a" := Reservation(6, Some(until))] == map["a" := Reservation(6, Some(until))];
    assert Held(None)[1 := map["a" := Reservation(6, Some(until))]] == Held(Some(until));
  }

  lemma FirstIsClosed(t: Timing)
    ensures CanReach(Start(t), FirstClosed(t), true)
  {
    FirstIsSigned(t);
    var s1 := FirstSigned(t);
    var s2 := s1.(flights := Paid(1));
    Then(Start(t), s1, Land("a", 6), s2, true);
    var s3 := s2.(book := Held(Some(1 + t.holdMs)));
    HoldBegins(1 + t.holdMs);
    Then(Start(t), s2, Learn("a"), s3, true);
    Then(Start(t), s3, Note("a"), FirstClosed(t), true);
  }

  lemma ShortHoldFails(t: Timing)
    requires t.lagMs > t.holdMs
    ensures !NeverOvercommits(t, true) && !NeverOvercommits(t, false)
  {
    FirstIsClosed(t);
    var s := FirstClosed(t).(now := 1 + t.holdMs);
    Then(Start(t), FirstClosed(t), Tick(t.holdMs), s, true);
    OvercommitIsAFailure(Start(t), s, 1, 0, true);
    assert CanReach(Start(t), s, false);
    OvercommitIsAFailure(Start(t), s, 1, 0, false);
  }

  lemma QuickRestartFails(t: Timing)
    requires t.lagMs > t.downMs
    ensures !NeverOvercommits(t, false)
  {
    FirstIsClosed(t);
    assert CanReach(Start(t), FirstClosed(t), false);
    var s := FirstClosed(t).(book := map[], now := 1 + t.downMs, restarted := true);
    Then(Start(t), FirstClosed(t), Restart(t.downMs), s, false);
    OvercommitIsAFailure(Start(t), s, 1, 0, false);
  }

  lemma ImpatientBootFails(t: Timing)
    requires t.lagMs > t.waitMs
    ensures !NeverOvercommits(t, false)
  {
    FirstIsSigned(t);
    assert CanReach(Start(t), FirstSigned(t), false);
    var at := 1 + t.downMs;
    var s1 := FirstSigned(t).(book := map[], now := at, restarted := true);
    Then(Start(t), FirstSigned(t), Restart(t.downMs), s1, false);
    LandedThenClosed(t, s1, at);
  }

  lemma LandedThenClosed(t: Timing, s1: State, at: nat)
    requires CanReach(Start(t), s1, false) && at > 0 && t.lagMs > t.waitMs
    requires s1 == World(t, at, map["a" := Flight(1, 6, Signed, 0)], map[], map["a" := Entered(t)], true)
    ensures !NeverOvercommits(t, false)
  {
    var s2 := s1.(flights := Paid(at));
    Then(Start(t), s1, Land("a", 6), s2, false);
    var s3 := s2.(now := at + t.waitMs);
    Then(Start(t), s2, Tick(t.waitMs), s3, false);
    var s4 := s3.(ledger := map["a" := Closed(t)]);
    Then(Start(t), s3, Note("a"), s4, false);
    OvercommitIsAFailure(Start(t), s4, at, at - 1, false);
  }
}
