/** Capital over whole runs: selections, postings, lagging balance reads, holds and restarts, by one set of steps. */
module CapitalSafety {
  import opened Options
  import opened Sums
  import opened ArbitrumLedger
  import opened Reservations
  import opened Routing
  import opened Dispatch

  /** A commitment from selection on: reserved, then signed and recorded, then perhaps mined. */
  datatype Phase = Chosen | Signed | Landed(at: nat)
  datatype Flight = Flight(solver: Address, wei: nat, phase: Phase, paid: nat)

  /** lagMs: how far behind the chain a balance read may be when it is used. holdMs: how long a confirmed
      posting stays reserved. downMs: how long a restart takes at least. waitMs: how old a mined posting is at
      least when boot closes its ledger entry; the source does not wait at all. */
  datatype Timing = Timing(lagMs: nat, holdMs: nat, downMs: nat, waitMs: nat)

  /** restarted: the ledger has outlived a process. */
  datatype State = State(
    flights: map<string, Flight>, book: Book, ledger: map<string, Entry>, deposits: map<Address, nat>,
    now: nat, restarted: bool, timing: Timing, gate: GateParams)

  function Deposited(s: State, w: Address): nat {
    if w in s.deposits then s.deposits[w] else 0
  }

  // ------------------------------------------------------------------ money

  function OwedTo(w: Address): Flight -> nat {
    (f: Flight) => if f.solver == w && !f.phase.Landed? then f.wei else 0
  }

  function PaidBy(w: Address): Flight -> nat {
    (f: Flight) => if f.solver == w && f.phase.Landed? then f.paid else 0
  }

  function PaidUntil(w: Address, t: nat): Flight -> nat {
    (f: Flight) => if f.solver == w && f.phase.Landed? && f.phase.at <= t then f.paid else 0
  }

  /** What a view of the chain as of t cannot show yet, or will still be asked for. */
  function UnseenAt(w: Address, t: nat): Flight -> nat {
    (f: Flight) =>
      if f.solver != w then 0
      else if !f.phase.Landed? then f.wei
      else if f.phase.at <= t then 0 else f.paid
  }

  /** The true balance. */
  ghost function Balance(s: State, w: Address): int {
    Deposited(s, w) - Sum(s.flights, PaidBy(w))
  }

  /** Collateral, gas included, promised and not yet taken. */
  ghost function Owed(s: State, w: Address): nat {
    Sum(s.flights, OwedTo(w))
  }

  ghost predicate Covered(s: State) {
    forall w :: Balance(s, w) >= Owed(s, w)
  }

  /** A balance read shows at most what had not been paid out by some moment no more than lagMs ago. */
  ghost predicate Plausible(s: State, w: Address, read: nat) {
    exists t: nat :: t + s.timing.lagMs >= s.now && read <= Deposited(s, w) - Sum(s.flights, PaidUntil(w, t))
  }

  // ------------------------------------------------------------------ every commitment is counted

  ghost predicate CountedInMemory(s: State, key: string, f: Flight) {
    && key in SlotsOf(s.book, f.solver)
    && var r := SlotsOf(s.book, f.solver)[key];
       && r.wei == f.wei
       && (r.releaseAt.Some? ==> f.phase.Landed? && r.releaseAt.value >= f.phase.at + s.timing.lagMs)
  }

  ghost predicate Recorded(s: State, key: string, f: Flight) {
    key in PostingOf(s.ledger) && Charge(f.solver, s.gate)(s.ledger[key]) >= f.wei
  }

  ghost predicate Old(s: State, f: Flight) {
    f.phase.Landed? && s.now >= f.phase.at + s.timing.lagMs
  }

  ghost predicate FlightOk(s: State, key: string, f: Flight) {
    && f.paid <= f.wei && KeyOf(key) == key
    && (f.phase.Chosen? ==> f.wei >= s.gate.gasBufferWei && CountedInMemory(s, key, f))
    && (f.phase.Signed? ==> Recorded(s, key, f))
    && (f.phase.Landed? ==> f.phase.at <= s.now)
    && (CountedInMemory(s, key, f) || (s.restarted && !Has(s.book, key) && Recorded(s, key, f)) || Old(s, f))
  }

  predicate SoundTiming(s: State) {
    s.timing.lagMs <= s.timing.holdMs && (s.restarted ==> s.timing.lagMs <= s.timing.waitMs)
  }

  ghost predicate Inv(s: State) {
    && Covered(s) && SoundTiming(s)
    && (forall key :: key in s.ledger ==> KeyOf(key) == key)
    && (forall key :: key in s.flights ==> FlightOk(s, key, s.flights[key]))
  }

  /** Everything that counts against w, under the intent it counts for. */
  ghost function CountedFor(s: State, w: Address): map<string, nat> {
    Weighed(Live(SlotsOf(s.book, w), s.now), Wei()) + Weighed(InFlight(s.ledger, s.book), Charge(w, s.gate))
  }

  /** No posting is counted twice, once by memory and once by the ledger. */
  lemma CountedOnce(s: State, w: Address)
    requires forall key :: key in s.ledger ==> KeyOf(key) == key
    ensures Live(SlotsOf(s.book, w), s.now).Keys !! InFlight(s.ledger, s.book).Keys
    ensures HeldBack(s.ledger, s.book, w, s.now, s.gate) == Sum(CountedFor(s, w), AsIs())
  {
    var (inMemory, inLedger) := (Live(SlotsOf(s.book, w), s.now), InFlight(s.ledger, s.book));
    forall key | key in inMemory
      ensures key !in inLedger
    {
      assert w in s.book && key in s.book[w];
    }
    SumWeighed(inMemory, Wei());
    SumWeighed(inLedger, Charge(w, s.gate));
    SumDisjoint(Weighed(inMemory, Wei()), Weighed(inLedger, Charge(w, s.gate)));
  }

  lemma FlightIsCounted(s: State, w: Address, t: nat, key: string)
    requires key in s.flights && FlightOk(s, key, s.flights[key]) && t + s.timing.lagMs >= s.now
    ensures UnseenAt(w, t)(s.flights[key]) <= if key in CountedFor(s, w) then CountedFor(s, w)[key] else 0
  {
    var f := s.flights[key];
    if f.solver == w && UnseenAt(w, t)(f) > 0 {
      assert !Old(s, f);
      if CountedInMemory(s, key, f) {
        assert key in Live(SlotsOf(s.book, w), s.now);
        assert w in s.book && key in s.book[w];
        assert Has(s.book, key);
        assert key !in InFlight(s.ledger, s.book);
      } else {
        assert key in InFlight(s.ledger, s.book);
      }
    }
  }

  /** What is held back covers both what is owed and what the read could not show. */
  lemma HeldBackCovers(s: State, w: Address, t: nat)
    requires Inv(s) && t + s.timing.lagMs >= s.now
    ensures HeldBack(s.ledger, s.book, w, s.now, s.gate) + Sum(s.flights, PaidUntil(w, t)) >= Owed(s, w) + Sum(s.flights, PaidBy(w))
  {
    forall key | key in s.flights
      ensures UnseenAt(w, t)(s.flights[key]) <= if key in CountedFor(s, w) then CountedFor(s, w)[key] else 0
    {
      FlightIsCounted(s, w, t, key);
    }
    CountedOnce(s, w);
    SumCovered(s.flights, UnseenAt(w, t), CountedFor(s, w));
    SumPointwise(s.flights, UnseenAt(w, t), PaidUntil(w, t), OwedTo(w), PaidBy(w));
  }

  // ------------------------------------------------------------------ steps

  datatype Step =
    | Tick(ms: nat)
    | Deposit(solver: Address, wei: nat)
    | Select(key: string, answers: seq<Candidate>, ctx: Context)
    | Sign(key: string, hash: TxHash, expiry: nat)
    | Land(key: string, paid: nat)
    | Learn(key: string)
    | Note(key: string)
    | Drop(key: string)
    | Restart(downMs: nat)

  ghost function Selected(s: State, answers: seq<Candidate>, ctx: Context): Option<Evaluation> {
    Winner(Evaluations(answers, s.ledger, s.book, s.now, ctx))
  }

  ghost predicate OnHold(s: State, key: string, f: Flight) {
    key in SlotsOf(s.book, f.solver) && SlotsOf(s.book, f.solver)[key].releaseAt.Some?
  }

  /** Drop is a failed or abandoned posting, which never lands. A posting's ledger entry is closed by the
      sequence once its hold has begun, or by boot reconciliation on a successful receipt. */
  ghost predicate Enabled(s: State, step: Step) {
    match step
    case Tick(_) => true
    case Deposit(_, _) => true
    case Select(key, answers, ctx) =>
      && KeyOf(key) == key && key !in s.flights && (key in s.ledger ==> s.ledger[key].stage == CollateralFailed)
      && ctx.gate == s.gate
      && forall i :: 0 <= i < |answers| && answers[i].balance.Some? ==> Plausible(s, answers[i].solver, answers[i].balance.value)
    case Sign(key, _, _) => key in s.flights && s.flights[key].phase.Chosen?
    case Land(key, paid) => key in s.flights && s.flights[key].phase.Signed? && paid <= s.flights[key].wei
    case Learn(key) => key in s.flights && s.flights[key].phase.Landed?
    case Note(key) =>
      && key in s.flights && s.flights[key].phase.Landed? && key in s.ledger
      && (OnHold(s, key, s.flights[key]) || s.now >= s.flights[key].phase.at + s.timing.waitMs)
    case Drop(key) => key in s.flights && !s.flights[key].phase.Landed?
    case Restart(downMs) => downMs >= s.timing.downMs
  }

  function Posted(s: State, key: string, hash: TxHash, expiry: nat): Entry
    requires key in s.flights
  {
    var f := s.flights[key];
    var collateral := if f.wei >= s.gate.gasBufferWei then f.wei - s.gate.gasBufferWei else 0;
    var patch := NO_PATCH.(collateralTx := Put(Some(hash)), expiry := Put(Some(expiry)), solver := Put(Some(f.solver)),
                           collateralWei := Put(Some(collateral)));
    Merge(if key in s.ledger then Some(s.ledger[key]) else None, patch, PostingCollateral)
  }

  ghost function Do(s: State, step: Step): State
    requires Enabled(s, step)
  {
    match step
    case Tick(ms) => s.(now := s.now + ms)
    case Deposit(w, wei) => s.(deposits := s.deposits[w := Deposited(s, w) + wei])
    case Select(key, answers, ctx) =>
      var winner := Selected(s, answers, ctx);
      var s' := s.(book := Booked(s.book, answers, s.now, winner, key, ReservationWei(ctx)));
      (match winner
       case None => s'
       case Some(w) => s'.(flights := s.flights[key := Flight(w.solver, ReservationWei(ctx), Chosen, 0)]))
    case Sign(key, hash, expiry) =>
      s.(ledger := s.ledger[key := Posted(s, key, hash, expiry)], flights := s.flights[key := s.flights[key].(phase := Signed)])
    case Land(key, paid) => s.(flights := s.flights[key := s.flights[key].(phase := Landed(s.now), paid := paid)])
    case Learn(key) => s.(book := WithHold(s.book, s.flights[key].solver, key, s.now + s.timing.holdMs))
    case Note(key) => s.(ledger := s.ledger[key := Merge(Some(s.ledger[key]), NO_PATCH, CollateralPosted)])
    case Drop(key) =>
      var s' := s.(book := Without(s.book, s.flights[key].solver, key), flights := s.flights - {key});
      if key in s.ledger && s.flights[key].phase.Signed?
      then s'.(ledger := s.ledger[key := Merge(Some(s.ledger[key]), NO_PATCH, CollateralFailed)]) else s'
    case Restart(downMs) =>
      s.(book := map[], now := s.now + downMs, restarted := true,
         flights := map key | key in s.flights && !s.flights[key].phase.Chosen? :: s.flights[key])
  }

  ghost predicate Runs(s: State, steps: seq<Step>, s': State)
    decreases |steps|
  {
    if steps == [] then s' == s
    else Enabled(s, steps[0]) && Runs(Do(s, steps[0]), steps[1..], s')
  }

  // ------------------------------------------------------------------ the accounting of each step

  lemma OneFlightChanges(s: State, s': State, key: string, f: Flight)
    requires s'.flights == s.flights[key := f] && s'.deposits == s.deposits && Covered(s)
    requires forall w :: (if key in s.flights then OwedTo(w)(s.flights[key]) + PaidBy(w)(s.flights[key]) else 0)
                         >= OwedTo(w)(f) + PaidBy(w)(f)
    requires forall w :: (if key in s.flights then PaidBy(w)(s.flights[key]) else 0) <= PaidBy(w)(f)
    ensures Covered(s')
  {
    forall w
      ensures Balance(s', w) >= Owed(s', w)
    {
      assert Balance(s, w) >= Owed(s, w);
      SumUpdate(s.flights, key, f, OwedTo(w));
      SumUpdate(s.flights, key, f, PaidBy(w));
    }
  }

  lemma SameMoney(s: State, s': State)
    requires s'.flights == s.flights && Covered(s) && forall w :: Deposited(s', w) >= Deposited(s, w)
    ensures Covered(s')
  {
    forall w
      ensures Balance(s', w) >= Owed(s', w)
    {
      assert Balance(s, w) >= Owed(s, w);
    }
  }

  lemma CommitmentCovers(s: State, s': State, key: string, f: Flight)
    requires s'.flights == s.flights[key := f] && s'.deposits == s.deposits && Covered(s)
    requires key !in s.flights && f.phase.Chosen? && Balance(s, f.solver) >= Owed(s, f.solver) + f.wei
    ensures Covered(s')
  {
    forall w
      ensures Balance(s', w) >= Owed(s', w)
    {
      assert Balance(s, w) >= Owed(s, w);
      SumUpdate(s.flights, key, f, OwedTo(w));
      SumUpdate(s.flights, key, f, PaidBy(w));
    }
  }

  /** The winner's true balance covers everything it owes, the new commitment included. */
  lemma SelectionIsAffordable(s: State, key: string, answers: seq<Candidate>, ctx: Context)
    requires Inv(s) && Enabled(s, Select(key, answers, ctx)) && Selected(s, answers, ctx).Some?
    ensures var w := Selected(s, answers, ctx).value.solver;
            Balance(s, w) >= Owed(s, w) + ReservationWei(ctx)
  {
    WinnerCanAfford(answers, s.ledger, s.book, s.now, ctx);
    var w := Selected(s, answers, ctx).value.solver;
    var i :| 0 <= i < |answers| && answers[i].solver == w && answers[i].balance.Some?
      && answers[i].balance.value >= HeldBack(s.ledger, s.book, w, s.now, ctx.gate) + ReservationWei(ctx);
    var read := answers[i].balance.value;
    assert Plausible(s, w, read);
    var t: nat :| t + s.timing.lagMs >= s.now && read <= Deposited(s, w) - Sum(s.flights, PaidUntil(w, t));
    HeldBackCovers(s, w, t);
  }

  lemma SelectCovers(s: State, key: string, answers: seq<Candidate>, ctx: Context)
    requires Inv(s) && Enabled(s, Select(key, answers, ctx))
    ensures Covered(Do(s, Select(key, answers, ctx)))
  {
    var s' := Do(s, Select(key, answers, ctx));
    if Selected(s, answers, ctx).Some? {
      SelectionIsAffordable(s, key, answers, ctx);
      CommitmentCovers(s, s', key, Flight(Selected(s, answers, ctx).value.solver, ReservationWei(ctx), Chosen, 0));
    } else {
      SameMoney(s, s');
    }
  }

  lemma DropCovers(s: State, key: string)
    requires Inv(s) && Enabled(s, Drop(key))
    ensures Covered(Do(s, Drop(key)))
  {
    forall w
      ensures Balance(Do(s, Drop(key)), w) >= Owed(Do(s, Drop(key)), w)
    {
      assert Balance(s, w) >= Owed(s, w);
      SumRemove(s.flights, key, OwedTo(w));
      SumRemove(s.flights, key, PaidBy(w));
    }
  }

  lemma RestartCovers(s: State, downMs: nat)
    requires Inv(s) && Enabled(s, Restart(downMs))
    ensures Covered(Do(s, Restart(downMs)))
  {
    var s' := Do(s, Restart(downMs));
    forall w
      ensures Balance(s', w) >= Owed(s', w)
    {
      assert Balance(s, w) >= Owed(s, w);
      SumDropped(s.flights, s'.flights, OwedTo(w));
      SumDropped(s.flights, s'.flights, PaidBy(w));
    }
  }

  lemma StepCovers(s: State, step: Step)
    requires Inv(s) && Enabled(s, step)
    ensures Covered(Do(s, step))
  {
    match step
    case Select(key, answers, ctx) => SelectCovers(s, key, answers, ctx);
    case Sign(key, _, _) => OneFlightChanges(s, Do(s, step), key, s.flights[key].(phase := Signed));
    case Land(key, paid) =>
      assert FlightOk(s, key, s.flights[key]);
      OneFlightChanges(s, Do(s, step), key, s.flights[key].(phase := Landed(s.now), paid := paid));
    case Drop(key) => DropCovers(s, key);
    case Restart(downMs) => RestartCovers(s, downMs);
    case _ => SameMoney(s, Do(s, step));
  }

  // ------------------------------------------------------------------ every commitment stays counted

  ghost predicate SameTerms(s: State, s': State) {
    s'.timing == s.timing && s'.gate == s.gate && s'.now >= s.now && s'.restarted == s.restarted
  }

  /** A flight no step names keeps its reservation, unless that lapsed, and its ledger entry. */
  ghost predicate LeftAlone(s: State, s': State, key: string, f: Flight) {
    && (key in SlotsOf(s.book, f.solver) ==>
          Lapsed(SlotsOf(s.book, f.solver)[key], s.now)
          || (key in SlotsOf(s'.book, f.solver) && SlotsOf(s'.book, f.solver)[key] == SlotsOf(s.book, f.solver)[key]))
    && (Has(s'.book, key) ==> Has(s.book, key))
    && (key in s.ledger ==> key in s'.ledger && s'.ledger[key] == s.ledger[key])
  }

  lemma LeftAloneStaysOk(s: State, s': State, key: string, f: Flight)
    requires FlightOk(s, key, f) && SameTerms(s, s') && LeftAlone(s, s', key, f)
    ensures FlightOk(s', key, f)
  {
    assert Old(s, f) ==> Old(s', f);
    assert Recorded(s, key, f) ==> Recorded(s', key, f);
    if CountedInMemory(s, key, f) {
      if Lapsed(SlotsOf(s.book, f.solver)[key], s.now) {
        assert Old(s, f);
      } else {
        assert CountedInMemory(s', key, f);
      }
    }
  }

  /** All flights but one are left alone. */
  ghost predicate OthersLeftAlone(s: State, s': State, key: string) {
    && SameTerms(s, s')
    && forall k :: k in s'.flights && k != key ==>
         k in s.flights && s'.flights[k] == s.flights[k] && LeftAlone(s, s', k, s.flights[k])
  }

  lemma OthersStayOk(s: State, s': State, key: string)
    requires Inv(s) && Covered(s') && OthersLeftAlone(s, s', key)
    requires forall k :: k in s'.ledger ==> KeyOf(k) == k
    requires key in s'.flights ==> FlightOk(s', key, s'.flights[key])
    ensures Inv(s')
  {
    forall k | k in s'.flights && k != key
      ensures FlightOk(s', k, s'.flights[k])
    {
      LeftAloneStaysOk(s, s', k, s.flights[k]);
    }
  }

  lemma BookedLeavesAlone(b: Book, answers: seq<Candidate>, nowMs: nat, winner: Option<Evaluation>, key: string, wei: nat,
                          solver: Address, other: string)
    requires other != key
    ensures var b' := Booked(b, answers, nowMs, winner, key, wei);
            && (other in SlotsOf(b, solver) ==>
                  Lapsed(SlotsOf(b, solver)[other], nowMs)
                  || (other in SlotsOf(b', solver) && SlotsOf(b', solver)[other] == SlotsOf(b, solver)[other]))
            && (Has(b', other) ==> Has(b, other))
  {
    var pruned := PrunedFor(b, answers, nowMs);
    PrunedForIsInvisible(b, answers, nowMs, solver, nowMs);
    PrunedHasNoMore(b, answers, nowMs, other);
    if other in SlotsOf(b, solver) && !Lapsed(SlotsOf(b, solver)[other], nowMs) {
      assert other in Live(SlotsOf(b, solver), nowMs);
      assert other in Live(SlotsOf(pruned, solver), nowMs);
    }
  }

  lemma SelectKeeps(s: State, key: string, answers: seq<Candidate>, ctx: Context)
    requires Inv(s) && Enabled(s, Select(key, answers, ctx))
    ensures Inv(Do(s, Select(key, answers, ctx)))
  {
    var s' := Do(s, Select(key, answers, ctx));
    SelectCovers(s, key, answers, ctx);
    match Selected(s, answers, ctx)
    case None => RefusalKeeps(s, s', key, answers, ReservationWei(ctx));
    case Some(w) => CommitmentKeeps(s, s', key, answers, w, ReservationWei(ctx));
  }

  lemma RefusalKeeps(s: State, s': State, key: string, answers: seq<Candidate>, wei: nat)
    requires Inv(s) && key !in s.flights && Covered(s')
    requires s' == s.(book := Booked(s.book, answers, s.now, None, key, wei))
    ensures Inv(s')
  {
    SelectLeavesOthers(s, s', key, answers, None, wei);
    OthersStayOk(s, s', key);
  }

  lemma CommitmentKeeps(s: State, s': State, key: string, answers: seq<Candidate>, w: Evaluation, wei: nat)
    requires Inv(s) && key !in s.flights && KeyOf(key) == key && Covered(s') && wei >= s.gate.gasBufferWei
    requires s' == s.(book := Booked(s.book, answers, s.now, Some(w), key, wei),
                      flights := s.flights[key := Flight(w.solver, wei, Chosen, 0)])
    ensures Inv(s')
  {
    SelectLeavesOthers(s, s', key, answers, Some(w), wei);
    ChosenIsCounted(s', key, PrunedFor(s.book, answers, s.now), Flight(w.solver, wei, Chosen, 0));
    OthersStayOk(s, s', key);
  }

  lemma SelectLeavesOthers(s: State, s': State, key: string, answers: seq<Candidate>, winner: Option<Evaluation>, wei: nat)
    requires key !in s.flights && SameTerms(s, s') && s'.ledger == s.ledger
    requires s'.book == Booked(s.book, answers, s.now, winner, key, wei)
    requires forall k :: k in s'.flights && k != key ==> k in s.flights && s'.flights[k] == s.flights[k]
    ensures OthersLeftAlone(s, s', key)
  {
    forall k | k in s'.flights && k != key
      ensures LeftAlone(s, s', k, s.flights[k])
    {
      BookedLeavesAlone(s.book, answers, s.now, winner, key, wei, s.flights[k].solver, k);
    }
  }

  lemma ChosenIsCounted(s: State, key: string, b: Book, f: Flight)
    requires KeyOf(key) == key && f.phase.Chosen? && f.paid == 0 && f.wei >= s.gate.gasBufferWei
    requires s.book == WithReservation(b, f.solver, key, f.wei)
    ensures FlightOk(s, key, f)
  {
    assert CountedInMemory(s, key, f);
  }

  lemma SignKeeps(s: State, key: string, hash: TxHash, expiry: nat)
    requires Inv(s) && Enabled(s, Sign(key, hash, expiry))
    ensures Inv(Do(s, Sign(key, hash, expiry)))
  {
    var s' := Do(s, Sign(key, hash, expiry));
    StepCovers(s, Sign(key, hash, expiry));
    assert FlightOk(s, key, s.flights[key]);
    assert CountedInMemory(s', key, s'.flights[key]);
    OthersStayOk(s, s', key);
  }

  lemma LandKeeps(s: State, key: string, paid: nat)
    requires Inv(s) && Enabled(s, Land(key, paid))
    ensures Inv(Do(s, Land(key, paid)))
  {
    var s' := Do(s, Land(key, paid));
    StepCovers(s, Land(key, paid));
    assert FlightOk(s, key, s.flights[key]);
    OthersStayOk(s, s', key);
  }

  /** Only one key's reservations differ. */
  ghost predicate SameElsewhere(b: Book, b': Book, key: string) {
    && (forall k :: k != key ==> (Has(b', k) <==> Has(b, k)))
    && forall w, k :: k != key ==>
         (k in SlotsOf(b', w) <==> k in SlotsOf(b, w)) && (k in SlotsOf(b, w) ==> SlotsOf(b', w)[k] == SlotsOf(b, w)[k])
  }

  lemma BookStaysElsewhere(s: State, s': State, key: string)
    requires SameTerms(s, s') && SameElsewhere(s.book, s'.book, key)
    requires forall k :: k in s'.flights && k != key ==> k in s.flights && s'.flights[k] == s.flights[k]
    requires forall k :: k in s.ledger && k != key ==> k in s'.ledger && s'.ledger[k] == s.ledger[k]
    ensures OthersLeftAlone(s, s', key)
  {
    forall k | k in s'.flights && k != key
      ensures LeftAlone(s, s', k, s.flights[k])
    {
    }
  }

  lemma HoldStaysElsewhere(b: Book, solver: Address, key: string, until: nat)
    ensures SameElsewhere(b, WithHold(b, solver, key, until), key)
    ensures Has(WithHold(b, solver, key, until), key) ==> Has(b, key)
  {
    var b' := WithHold(b, solver, key, until);
    forall k
      ensures Has(b', k) <==> Has(b, k)
    {
      assert forall w :: w in b' && k in b'[w] <==> w in b && k in b[w];
    }
  }

  lemma WithoutStaysElsewhere(b: Book, solver: Address, key: string)
    ensures SameElsewhere(b, Without(b, solver, key), key)
  {
    var b' := Without(b, solver, key);
    forall k | k != key
      ensures Has(b', k) <==> Has(b, k)
    {
      assert forall w :: w in b' && k in b'[w] <==> w in b && k in b[w];
    }
  }

  lemma LearnKeeps(s: State, key: string)
    requires Inv(s) && Enabled(s, Learn(key))
    ensures Inv(Do(s, Learn(key)))
  {
    var s' := Do(s, Learn(key));
    StepCovers(s, Learn(key));
    HoldStaysElsewhere(s.book, s.flights[key].solver, key, s.now + s.timing.holdMs);
    BookStaysElsewhere(s, s', key);
    LearnedIsCounted(s, key, s.flights[key]);
    OthersStayOk(s, s', key);
  }

  lemma LearnedIsCounted(s: State, key: string, f: Flight)
    requires FlightOk(s, key, f) && f.phase.Landed? && SoundTiming(s)
    ensures FlightOk(s.(book := WithHold(s.book, f.solver, key, s.now + s.timing.holdMs)), key, f)
  {
    var s' := s.(book := WithHold(s.book, f.solver, key, s.now + s.timing.holdMs));
    HoldStaysElsewhere(s.book, f.solver, key, s.now + s.timing.holdMs);
    if CountedInMemory(s, key, f) {
      assert CountedInMemory(s', key, f);
    }
  }

  lemma NoteKeeps(s: State, key: string)
    requires Inv(s) && Enabled(s, Note(key))
    ensures Inv(Do(s, Note(key)))
  {
    var s' := Do(s, Note(key));
    StepCovers(s, Note(key));
    assert FlightOk(s, key, s.flights[key]);
    if OnHold(s, key, s.flights[key]) {
      assert Has(s.book, key);
    }
    OthersStayOk(s, s', key);
  }

  lemma DropKeeps(s: State, key: string)
    requires Inv(s) && Enabled(s, Drop(key))
    ensures Inv(Do(s, Drop(key)))
  {
    var s' := Do(s, Drop(key));
    StepCovers(s, Drop(key));
    WithoutStaysElsewhere(s.book, s.flights[key].solver, key);
    BookStaysElsewhere(s, s', key);
    OthersStayOk(s, s', key);
  }

  /** Whatever a restart makes the book forget, reads show by then. */
  predicate RestartIsSafe(t: Timing) {
    t.lagMs <= t.downMs && t.lagMs <= t.waitMs
  }

  lemma RestartKeeps(s: State, downMs: nat)
    requires Inv(s) && Enabled(s, Restart(downMs)) && RestartIsSafe(s.timing)
    ensures Inv(Do(s, Restart(downMs)))
  {
    var s' := Do(s, Restart(downMs));
    StepCovers(s, Restart(downMs));
    forall k | k in s'.flights
      ensures FlightOk(s', k, s'.flights[k])
    {
      assert FlightOk(s, k, s.flights[k]);
    }
  }

  lemma QuietKeeps(s: State, step: Step)
    requires Inv(s) && Enabled(s, step) && (step.Tick? || step.Deposit?)
    ensures Inv(Do(s, step))
  {
    var s' := Do(s, step);
    StepCovers(s, step);
    forall k | k in s'.flights
      ensures FlightOk(s', k, s'.flights[k])
    {
      LeftAloneStaysOk(s, s', k, s.flights[k]);
    }
  }

  lemma StepKeeps(s: State, step: Step)
    requires Inv(s) && Enabled(s, step) && (step.Restart? ==> RestartIsSafe(s.timing))
    ensures Inv(Do(s, step))
  {
    match step
    case Select(key, answers, ctx) => SelectKeeps(s, key, answers, ctx);
    case Sign(key, hash, expiry) => SignKeeps(s, key, hash, expiry);
    case Land(key, paid) => LandKeeps(s, key, paid);
    case Learn(key) => LearnKeeps(s, key);
    case Note(key) => NoteKeeps(s, key);
    case Drop(key) => DropKeeps(s, key);
    case Restart(downMs) => RestartKeeps(s, downMs);
    case _ => QuietKeeps(s, step);
  }

  // ------------------------------------------------------------------ over every run

  /** Nothing of ours in flight; whatever an older version left in the ledger only shrinks availability. */
  ghost predicate Initial(s: State) {
    s.flights == map[] && s.book == map[] && !s.restarted && forall key :: key in s.ledger ==> KeyOf(key) == key
  }

  predicate OneLife(steps: seq<Step>) {
    forall i :: 0 <= i < |steps| ==> !steps[i].Restart?
  }

  lemma TimingStays(s: State, step: Step)
    requires Enabled(s, step)
    ensures Do(s, step).timing == s.timing
  {
  }

  lemma {:induction false} RunKeeps(s: State, steps: seq<Step>, s': State)
    requires Inv(s) && Runs(s, steps, s') && (OneLife(steps) || RestartIsSafe(s.timing))
    ensures Inv(s') && s'.timing == s.timing
    decreases |steps|
  {
    if steps != [] {
      StepKeeps(s, steps[0]);
      TimingStays(s, steps[0]);
      RunKeeps(Do(s, steps[0]), steps[1..], s');
    }
  }

  lemma InitialHolds(s: State)
    requires Initial(s) && s.timing.lagMs <= s.timing.holdMs
    ensures Inv(s)
  {
    assert forall w :: Sum(s.flights, PaidBy(w)) == 0 && Sum(s.flights, OwedTo(w)) == 0;
  }

  /** In every state a run reaches, every solver's true balance covers everything it has promised and not
      yet paid: every selected, signed or broadcast posting can still be funded when its turn comes. */
  lemma CapitalIsNeverOvercommitted(s: State, steps: seq<Step>, s': State)
    requires Initial(s) && Runs(s, steps, s') && s.timing.lagMs <= s.timing.holdMs
    requires OneLife(steps) || RestartIsSafe(s.timing)
    ensures Covered(s')
    ensures forall key :: key in s'.flights && !s'.flights[key].phase.Landed? ==>
              Balance(s', s'.flights[key].solver) >= s'.flights[key].wei
  {
    InitialHolds(s);
    RunKeeps(s, steps, s');
    forall key | key in s'.flights && !s'.flights[key].phase.Landed?
      ensures Balance(s', s'.flights[key].solver) >= s'.flights[key].wei
    {
      SumRemove(s'.flights, key, OwedTo(s'.flights[key].solver));
    }
  }
}
