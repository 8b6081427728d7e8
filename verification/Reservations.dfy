/** Capital reservations: what each solver has promised and not yet seen leave its balance. */
module Reservations {
  import opened Options
  import opened Sums
  import opened ArbitrumLedger

  /** releaseAt is unset while the collateral transaction is unresolved. */
  datatype Reservation = Reservation(wei: nat, releaseAt: Option<nat>)
  type Slots = map<string, Reservation>
  type Book = map<Address, Slots>

  predicate Lapsed(r: Reservation, now: nat) {
    r.releaseAt.Some? && now >= r.releaseAt.value
  }

  function SlotsOf(b: Book, solver: Address): Slots {
    if solver in b then b[solver] else map[]
  }

  /** The reservations that still count. */
  function Live(m: Slots, now: nat): Slots {
    map key | key in m && !Lapsed(m[key], now) :: m[key]
  }

  /** Midway through a scan: what is still to be looked at, and what was found to count. */
  function Unlapsed(m: Slots, rest: set<string>, now: nat): Slots {
    map key | key in m && (key in rest || !Lapsed(m[key], now)) :: m[key]
  }

  lemma ScanStarts(m: Slots, now: nat)
    ensures Unlapsed(m, m.Keys, now) == m && Unlapsed(m, {}, now) == Live(m, now)
    ensures m - m.Keys == map[] && m - {} == m && Live(map[], now) == map[]
  {
  }

  lemma ScanStep(m: Slots, rest: set<string>, key: string, now: nat)
    requires key in rest && rest <= m.Keys
    ensures key in Unlapsed(m, rest, now) && Unlapsed(m, rest, now)[key] == m[key]
    ensures Unlapsed(m, rest - {key}, now)
            == if Lapsed(m[key], now) then Unlapsed(m, rest, now) - {key} else Unlapsed(m, rest, now)
    ensures Sum(Live(m - (rest - {key}), now), Wei())
            == Sum(Live(m - rest, now), Wei()) + if Lapsed(m[key], now) then 0 else m[key].wei
  {
    var before, after := Live(m - rest, now), Live(m - (rest - {key}), now);
    if Lapsed(m[key], now) {
      assert after == before;
    } else {
      assert after == before[key := m[key]];
      SumUpdate(before, key, m[key], Wei());
    }
  }

  function Wei(): Reservation -> nat {
    (r: Reservation) => r.wei
  }

  ghost function ReservedOf(b: Book, solver: Address, now: nat): nat {
    Sum(Live(SlotsOf(b, solver), now), Wei())
  }

  predicate Has(b: Book, key: string) {
    exists solver :: solver in b && key in b[solver]
  }

  // ------------------------------------------------------------------ the book's transitions

  function WithReservation(b: Book, solver: Address, key: string, wei: nat): Book {
    b[solver := SlotsOf(b, solver)[key := Reservation(wei, None)]]
  }

  function WithHold(b: Book, solver: Address, key: string, until: nat): Book {
    if key in SlotsOf(b, solver) && SlotsOf(b, solver)[key].releaseAt.None?
    then b[solver := b[solver][key := Reservation(b[solver][key].wei, Some(until))]] else b
  }

  function Without(b: Book, solver: Address, key: string): Book {
    if solver in b then b[solver := b[solver] - {key}] else b
  }

  function Pruned(b: Book, solver: Address, now: nat): Book {
    if solver in b then b[solver := Live(b[solver], now)] else b
  }

  lemma NothingReserved(b: Book, solver: Address, now: nat)
    requires solver !in b
    ensures ReservedOf(b, solver, now) == 0
  {
    assert Live(SlotsOf(b, solver), now) == map[];
  }

  /** The loop over one solver's reservations, deleting as it goes. */
  method Scan(slots: Slots, nowMs: nat) returns (total: nat, kept: Slots)
    ensures total == Sum(Live(slots, nowMs), Wei()) && kept == Live(slots, nowMs)
  {
    total, kept := 0, slots;
    var rest := slots.Keys;
    ScanStarts(slots, nowMs);
    while rest != {}
      invariant rest <= slots.Keys && kept == Unlapsed(slots, rest, nowMs)
      invariant total == Sum(Live(slots - rest, nowMs), Wei())
      decreases |rest|
    {
      var key :| key in rest;
      ScanStep(slots, rest, key, nowMs);
      rest := rest - {key};
      var r := kept[key];
      if Lapsed(r, nowMs) {
        kept := kept - {key};
      } else {
        total := total + r.wei;
      }
    }
  }

  class ReservationBook {
    var bySolver: Book

    constructor ()
      ensures bySolver == map[]
    {
      bySolver := map[];
    }

    method Reserve(solver: Address, intentId: string, wei: nat)
      modifies this
      ensures bySolver == WithReservation(old(bySolver), solver, KeyOf(intentId), wei)
    {
      var forSolver := if solver in bySolver then bySolver[solver] else map[];
      forSolver := forSolver[KeyOf(intentId) := Reservation(wei, None)];
      bySolver := bySolver[solver := forSolver];
    }

    method HoldFor(solver: Address, intentId: string, holdMs: nat, nowMs: nat)
      modifies this
      ensures bySolver == WithHold(old(bySolver), solver, KeyOf(intentId), nowMs + holdMs)
    {
      var key := KeyOf(intentId);
      if solver in bySolver && key in bySolver[solver] {
        var r := bySolver[solver][key];
        if r.releaseAt.None? {
          bySolver := bySolver[solver := bySolver[solver][key := r.(releaseAt := Some(nowMs + holdMs))]];
        }
      }
    }

    /** True only for the call that actually removed it. */
    method Release(solver: Address, intentId: string) returns (removed: bool)
      modifies this
      ensures bySolver == Without(old(bySolver), solver, KeyOf(intentId))
      ensures removed == (KeyOf(intentId) in SlotsOf(old(bySolver), solver))
    {
      removed := false;
      if solver in bySolver {
        removed := KeyOf(intentId) in bySolver[solver];
        bySolver := bySolver[solver := bySolver[solver] - {KeyOf(intentId)}];
      }
    }

    /** Sums what counts and forgets what has lapsed. */
    method ReservedWei(solver: Address, nowMs: nat) returns (total: nat)
      modifies this
      ensures total == ReservedOf(old(bySolver), solver, nowMs)
      ensures bySolver == Pruned(old(bySolver), solver, nowMs)
    {
      if solver !in bySolver {
        NothingReserved(bySolver, solver, nowMs);
        return 0;
      }
      var kept;
      total, kept := Scan(bySolver[solver], nowMs);
      bySolver := bySolver[solver := kept];
    }

    method HasIntent(intentId: string) returns (found: bool)
      ensures found == Has(bySolver, KeyOf(intentId))
    {
      var rest := bySolver.Keys;
      while rest != {}
        invariant rest <= bySolver.Keys
        invariant forall solver :: solver in bySolver && solver !in rest ==> KeyOf(intentId) !in bySolver[solver]
        decreases |rest|
      {
        var solver :| solver in rest;
        rest := rest - {solver};
        if KeyOf(intentId) in bySolver[solver] {
          return true;
        }
      }
      return false;
    }
  }

  // ------------------------------------------------------------------ sums of parts

  function AsIs(): nat -> nat {
    (n: nat) => n
  }

  /** If every weight is matched under its own key, the sum is matched. */
  lemma {:induction false} SumCovered<K, V>(m: map<K, V>, w: V -> nat, cover: map<K, nat>)
    requires forall k :: k in m ==> w(m[k]) <= if k in cover then cover[k] else 0
    ensures Sum(m, w) <= Sum(cover, AsIs())
    decreases |m|
  {
    if m != map[] {
      var k :| k in m;
      SumRemove(m, k, w);
      if k in cover {
        SumRemove(cover, k, AsIs());
        SumCovered(m - {k}, w, cover - {k});
      } else {
        SumCovered(m - {k}, w, cover);
      }
    }
  }

  /** Weights that agree pointwise agree in sum. */
  lemma {:induction false} SumPointwise<K, V>(m: map<K, V>, a: V -> nat, b: V -> nat, c: V -> nat, d: V -> nat)
    requires forall k :: k in m ==> a(m[k]) + b(m[k]) == c(m[k]) + d(m[k])
    ensures Sum(m, a) + Sum(m, b) == Sum(m, c) + Sum(m, d)
    decreases |m|
  {
    if m != map[] {
      var k :| k in m;
      SumRemove(m, k, a);
      SumRemove(m, k, b);
      SumRemove(m, k, c);
      SumRemove(m, k, d);
      SumPointwise(m - {k}, a, b, c, d);
    }
  }

  /** Dropping entries lowers a sum, by nothing when they weigh nothing. */
  lemma {:induction false} SumDropped<K, V>(m: map<K, V>, part: map<K, V>, w: V -> nat)
    requires part.Keys <= m.Keys && forall k :: k in part ==> part[k] == m[k]
    ensures Sum(part, w) <= Sum(m, w)
    ensures (forall k :: k in m && k !in part ==> w(m[k]) == 0) ==> Sum(part, w) == Sum(m, w)
    decreases |m|
  {
    if part.Keys == m.Keys {
      assert part == m;
    } else {
      var k :| k in m && k !in part;
      SumRemove(m, k, w);
      SumDropped(m - {k}, part, w);
    }
  }

  lemma PlusRemove<K>(a: map<K, nat>, b: map<K, nat>, k: K)
    requires k in b && a.Keys !! b.Keys
    ensures k in a + b && (a + b)[k] == b[k]
    ensures (a + b) - {k} == a + (b - {k})
    ensures a.Keys !! (b - {k}).Keys
  {
    assert k !in a;
  }

  /** Parts under distinct keys add up. */
  lemma {:induction false} SumDisjoint<K>(a: map<K, nat>, b: map<K, nat>)
    requires a.Keys !! b.Keys
    ensures Sum(a + b, AsIs()) == Sum(a, AsIs()) + Sum(b, AsIs())
    decreases |b|
  {
    if b == map[] {
      assert a + b == a;
    } else {
      var k :| k in b;
      SumDisjointStep(a, b, a + b, b - {k}, k);
      SumDisjoint(a, b - {k});
    }
  }

  lemma SumDisjointStep<K>(a: map<K, nat>, b: map<K, nat>, ab: map<K, nat>, rest: map<K, nat>, k: K)
    requires k in b && a.Keys !! b.Keys && ab == a + b && rest == b - {k}
    ensures a.Keys !! rest.Keys && |rest| < |b|
    ensures Sum(ab, AsIs()) == b[k] + Sum(a + rest, AsIs())
    ensures Sum(b, AsIs()) == b[k] + Sum(rest, AsIs())
  {
    PlusRemove(a, b, k);
    SumRemove(b, k, AsIs());
    SumRemove(ab, k, AsIs());
    assert |rest| == |b| - 1;
  }

  /** The weights of a map's values, as a map. */
  function Weighed<K, V>(m: map<K, V>, w: V -> nat): map<K, nat> {
    map k | k in m :: w(m[k])
  }

  lemma {:induction false} SumWeighed<K, V>(m: map<K, V>, w: V -> nat)
    ensures Sum(Weighed(m, w), AsIs()) == Sum(m, w)
    decreases |m|
  {
    var mw := Weighed(m, w);
    assert mw.Keys == m.Keys;
    if m != map[] {
      var k :| k in m;
      SumRemove(m, k, w);
      SumRemove(mw, k, AsIs());
      assert mw - {k} == Weighed(m - {k}, w);
      SumWeighed(m - {k}, w);
    }
  }

  // ------------------------------------------------------------------ what a reservation weighs, and until when

  lemma LiveWith(m: Slots, key: string, r: Reservation, now: nat)
    requires key !in m
    ensures Sum(Live(m[key := r], now), Wei()) == Sum(Live(m, now), Wei()) + if Lapsed(r, now) then 0 else r.wei
  {
    if Lapsed(r, now) {
      assert Live(m[key := r], now) == Live(m, now);
    } else {
      assert Live(m[key := r], now) == Live(m, now)[key := r];
      SumUpdate(Live(m, now), key, r, Wei());
    }
  }

  /** A new reservation weighs its wei on its solver at every time until it is resolved, and nothing on any other. */
  lemma ReservedWeighs(b: Book, solver: Address, key: string, wei: nat, other: Address, t: nat)
    requires key !in SlotsOf(b, solver)
    ensures ReservedOf(WithReservation(b, solver, key, wei), other, t) == ReservedOf(b, other, t) + if other == solver then wei else 0
  {
    LiveWith(SlotsOf(b, solver), key, Reservation(wei, None), t);
  }

  /** Put on hold it weighs the same up to the moment named, and nothing from then on; a second hold changes nothing. */
  lemma HeldWeighs(b: Book, solver: Address, key: string, wei: nat, until: nat, later: nat, other: Address, t: nat)
    requires key !in SlotsOf(b, solver)
    ensures var held := WithHold(WithReservation(b, solver, key, wei), solver, key, until);
            && ReservedOf(held, other, t) == ReservedOf(b, other, t) + (if other == solver && t < until then wei else 0)
            && WithHold(held, solver, key, later) == held
  {
    var held := WithHold(WithReservation(b, solver, key, wei), solver, key, until);
    assert SlotsOf(held, solver) == SlotsOf(b, solver)[key := Reservation(wei, Some(until))];
    LiveWith(SlotsOf(b, solver), key, Reservation(wei, Some(until)), t);
  }

  /** Released, pending or on hold, it weighs nothing: the totals are those from before it was made. */
  lemma ReleasedWeighs(b: Book, solver: Address, key: string, wei: nat, until: nat, other: Address, t: nat)
    requires key !in SlotsOf(b, solver)
    ensures var made := WithReservation(b, solver, key, wei);
            && ReservedOf(Without(made, solver, key), other, t) == ReservedOf(b, other, t)
            && ReservedOf(Without(WithHold(made, solver, key, until), solver, key), other, t) == ReservedOf(b, other, t)
  {
    var made := WithReservation(b, solver, key, wei);
    assert SlotsOf(Without(made, solver, key), solver) == SlotsOf(b, solver);
    assert SlotsOf(Without(WithHold(made, solver, key, until), solver, key), solver) == SlotsOf(b, solver);
  }
}
