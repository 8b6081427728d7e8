/** Confirmation with backoff against a real clock, and the read that follows postCollateral. */
module ConfirmRetry {
  import opened Options
  import opened ArbitrumLedger
  import IM = IntentManager
  import Settlement

  /** How one signAndSend ended; a transport error may come before or after the signature. */
  datatype Sending = Landed(hash: TxHash) | Failed(signed: Option<TxHash>)

  function HashOf(s: Sending): Option<TxHash> {
    match s case Landed(h) => Some(h) case Failed(signed) => signed
  }

  /** One pass of the loop as the world answers it: how long each call takes, what the read shows
      (None when it throws), how the transaction ends. */
  datatype Attempt = Attempt(readMs: nat, seen: Option<IM.Status>, sendMs: nat, sending: Sending)

  datatype Plan = Plan(expiry: nat, clock: nat, retryMaxSec: int, backoffs: seq<nat>, attempts: nat -> Attempt)

  datatype Ended = MarkedConfirmed | Stopped | Stuck | Threw

  /** CONFIRM_RETRY_BACKOFF_MS[min(k, length - 1)]; with no entry setTimeout waits its 1 ms minimum. */
  function Backoff(backoffs: seq<nat>, k: nat): nat {
    if backoffs == [] then 1 else backoffs[if k < |backoffs| then k else |backoffs| - 1]
  }

  predicate Positive(backoffs: seq<nat>) {
    forall i :: 0 <= i < |backoffs| ==> backoffs[i] > 0
  }

  function Deadline(p: Plan): int {
    p.expiry + p.retryMaxSec
  }

  /** When attempt k starts and when its transaction is resolved, in milliseconds. */
  function StartAt(p: Plan, k: nat): nat
    decreases k, 0
  {
    if k == 0 then p.clock else ReturnAt(p, k - 1) + Backoff(p.backoffs, k - 1)
  }

  function ReturnAt(p: Plan, k: nat): nat
    decreases k, 1
  {
    StartAt(p, k) + p.attempts(k).readMs + p.attempts(k).sendMs
  }

  predicate Finished(a: Attempt) {
    a.seen.None? || a.seen.value in {IM.Settled, IM.Slashed, IM.Refunded} || a.sending.Landed?
  }

  /** Attempt k is followed by another. */
  predicate Retries(p: Plan, k: nat) {
    !Finished(p.attempts(k)) && ReturnAt(p, k) / 1000 < Deadline(p)
  }

  predicate Reaches(p: Plan, k: nat) {
    forall j: nat :: j < k ==> Retries(p, j)
  }

  function EndOf(a: Attempt): Ended {
    match a.seen
    case None => Threw
    case Some(Settled) => MarkedConfirmed
    case Some(Slashed) => Stopped
    case Some(Refunded) => Stopped
    case Some(_) => if a.sending.Landed? then MarkedConfirmed else Stuck
  }

  /** Why a run ended at attempt k: the read failed; it showed the intent ended otherwise; it showed it settled or the
      transaction landed; or neither, and by then the deadline had passed. */
  lemma EndsBecause(p: Plan, k: nat)
    requires Reaches(p, k) && !Retries(p, k)
    ensures var (a, ended) := (p.attempts(k), EndOf(p.attempts(k)));
            && (ended == Threw <==> a.seen.None?)
            && (ended == Stopped <==> a.seen in {Some(IM.Slashed), Some(IM.Refunded)})
            && (ended == MarkedConfirmed <==> a.seen == Some(IM.Settled)
                                              || (a.seen in {Some(IM.Pending), Some(IM.Expired)} && a.sending.Landed?))
            && (ended == Stuck ==> ReturnAt(p, k) / 1000 >= p.expiry + p.retryMaxSec && !a.sending.Landed?)
  {
  }

  /** The run under this plan ends in a failed read. */
  ghost predicate RunThrows(p: Plan) {
    exists k: nat :: Reaches(p, k) && !Retries(p, k) && EndOf(p.attempts(k)) == Threw
  }

  /** A run has one last attempt. */
  lemma LastIsUnique(p: Plan, i: nat, j: nat)
    requires Reaches(p, i) && !Retries(p, i) && Reaches(p, j) && !Retries(p, j)
    ensures i == j
  {
    assert i < j ==> Retries(p, i);
    assert j < i ==> Retries(p, j);
  }

  lemma RunThrowsAtLast(p: Plan, k: nat)
    requires Reaches(p, k) && !Retries(p, k)
    ensures RunThrows(p) <==> EndOf(p.attempts(k)) == Threw
  {
    if RunThrows(p) {
      var j: nat :| Reaches(p, j) && !Retries(p, j) && EndOf(p.attempts(j)) == Threw;
      LastIsUnique(p, j, k);
    }
  }

  function Noted(e: Option<Entry>, stage: Stage, hash: Option<TxHash>, expiry: nat): Option<Entry> {
    var patch := NO_PATCH.(expiry := Put(Some(expiry)));
    Some(Merge(e, if hash.Some? then patch.(confirmTx := Put(hash)) else patch, stage))
  }

  /** What one attempt leaves in the ledger. */
  function AfterAttempt(e: Option<Entry>, a: Attempt, expiry: nat): Option<Entry> {
    if a.seen.None? || a.seen.value in {IM.Slashed, IM.Refunded} then e
    else if a.seen.value == IM.Settled then Noted(e, Confirmed, None, expiry)
    else match a.sending
      case Failed(None) => e
      case Failed(Some(h)) => Noted(e, Confirming, Some(h), expiry)
      case Landed(h) => Noted(Noted(e, Confirming, Some(h), expiry), Confirmed, Some(h), expiry)
  }

  function AfterAttempts(e: Option<Entry>, p: Plan, n: nat): Option<Entry> {
    if n == 0 then e else AfterAttempt(AfterAttempts(e, p, n - 1), p.attempts(n - 1), p.expiry)
  }

  /** The loop ends on every clock, at exactly the first attempt that is not followed by another. */
  method ConfirmSettlementWithRetry(ledger: Ledger, intentId: string, p: Plan) returns (ended: Ended, starts: seq<nat>)
    requires Positive(p.backoffs)
    modifies ledger
    ensures |starts| > 0 && Reaches(p, |starts| - 1) && !Retries(p, |starts| - 1)
    ensures forall k :: 0 <= k < |starts| ==> starts[k] == StartAt(p, k)
    ensures ended == EndOf(p.attempts(|starts| - 1))
    ensures ledger.Get(intentId) == AfterAttempts(old(ledger.Get(intentId)), p, |starts|)
    ensures forall key :: key != KeyOf(intentId) ==>
              (key in ledger.ledger <==> key in old(ledger.ledger))
              && (key in ledger.ledger ==> ledger.ledger[key] == old(ledger.ledger)[key])
  {
    var deadline := Deadline(p);
    var now := p.clock;
    starts := [];
    while true
      invariant now == StartAt(p, |starts|) && Reaches(p, |starts|)
      invariant forall k :: 0 <= k < |starts| ==> starts[k] == StartAt(p, k)
      invariant ledger.Get(intentId) == AfterAttempts(old(ledger.Get(intentId)), p, |starts|)
      invariant forall key :: key != KeyOf(intentId) ==>
                  (key in ledger.ledger <==> key in old(ledger.ledger))
                  && (key in ledger.ledger ==> ledger.ledger[key] == old(ledger.ledger)[key])
      decreases deadline * 1000 - now
    {
      var a := p.attempts(|starts|);
      starts := starts + [now];
      ghost var entry := ledger.Get(intentId);
      if a.seen.None? {
        return Threw, starts;
      }
      var status := a.seen.value;
      if status == IM.Settled {
        ledger.SetStage(intentId, Confirmed, NO_PATCH.(expiry := Put(Some(p.expiry))));
        return MarkedConfirmed, starts;
      }
      if status == IM.Slashed || status == IM.Refunded {
        return Stopped, starts;
      }
      var signed := HashOf(a.sending);
      if signed.Some? {
        ledger.SetStage(intentId, Confirming, NO_PATCH.(confirmTx := Put(signed), expiry := Put(Some(p.expiry))));
        assert ledger.Get(intentId) == Noted(entry, Confirming, signed, p.expiry);
      }
      now := now + a.readMs + a.sendMs;
      if a.sending.Landed? {
        ledger.SetStage(intentId, Confirmed, NO_PATCH.(confirmTx := Put(signed), expiry := Put(Some(p.expiry))));
        return MarkedConfirmed, starts;
      }
      if now / 1000 >= deadline {
        return Stuck, starts;
      }
      now := now + Backoff(p.backoffs, |starts| - 1);
    }
  }

  // ------------------------------------------------------------------ how late an attempt may start

  function MaxBackoff(backoffs: seq<nat>): (m: nat)
    ensures forall k: nat :: Backoff(backoffs, k) <= m
    ensures exists k: nat :: Backoff(backoffs, k) == m && (backoffs != [] ==> k < |backoffs|)
  {
    if |backoffs| <= 1 then
      assert Backoff(backoffs, 0) == if backoffs == [] then 1 else backoffs[0];
      if backoffs == [] then 1 else backoffs[0]
    else
      var (init, last) := (backoffs[..|backoffs| - 1], backoffs[|backoffs| - 1]);
      var m := MaxBackoff(init);
      assert forall k: nat :: k < |init| ==> Backoff(init, k) == Backoff(backoffs, k);
      assert Backoff(backoffs, |backoffs| - 1) == last;
      if last > m then last else m
  }

  /** No attempt after the first starts later than one backoff past the deadline, and each waits its turn. */
  lemma AttemptsStartInTime(p: Plan, k: nat)
    requires Reaches(p, k) && k > 0
    ensures StartAt(p, k) < Deadline(p) * 1000 + MaxBackoff(p.backoffs)
    ensures StartAt(p, k) >= StartAt(p, k - 1) + Backoff(p.backoffs, k - 1)
  {
    assert Retries(p, k - 1);
  }

  /** So the number of attempts is bounded by the time left, whatever the chain answers. */
  lemma {:induction false} AttemptsAreBounded(p: Plan, k: nat)
    requires Positive(p.backoffs) && Reaches(p, k)
    ensures StartAt(p, k) >= p.clock + k
    ensures k > 0 ==> p.clock + k <= Deadline(p) * 1000
  {
    if k > 0 {
      AttemptsAreBounded(p, k - 1);
      assert Retries(p, k - 1);
    }
  }

  /** No attempt after the first can start once claimRefund has opened, in any run under this configuration. */
  ghost predicate NeverRacesRefund(retryMaxSec: int, backoffs: seq<nat>) {
    forall p: Plan, k: nat ::
      p.retryMaxSec == retryMaxSec && p.backoffs == backoffs && k > 0 && Reaches(p, k)
      ==> StartAt(p, k) < (p.expiry + IM.REFUND_GRACE) * 1000
  }

  /** The boot check alone, retryMaxSec < REFUND_GRACE, does not ensure it: the largest backoff must fit too. */
  lemma RefundRaceExactly(retryMaxSec: int, backoffs: seq<nat>)
    requires Positive(backoffs)
    ensures NeverRacesRefund(retryMaxSec, backoffs)
            <==> retryMaxSec * 1000 + MaxBackoff(backoffs) <= IM.REFUND_GRACE * 1000
  {
    if retryMaxSec * 1000 + MaxBackoff(backoffs) <= IM.REFUND_GRACE * 1000 {
      forall p: Plan, k: nat | p.retryMaxSec == retryMaxSec && p.backoffs == backoffs && k > 0 && Reaches(p, k)
        ensures StartAt(p, k) < (p.expiry + IM.REFUND_GRACE) * 1000
      {
        AttemptsStartInTime(p, k);
      }
    } else {
      var j: nat :| Backoff(backoffs, j) == MaxBackoff(backoffs);
      RaceRun(retryMaxSec, backoffs, j);
    }
  }

  function Waited(backoffs: seq<nat>, k: nat): nat {
    if k == 0 then 0 else Waited(backoffs, k - 1) + Backoff(backoffs, k - 1)
  }

  function Hopeless(k: nat): Attempt {
    Attempt(0, Some(IM.Pending), 0, Failed(None))
  }

  /** Instant failures, timed so that attempt j returns in the last millisecond before the deadline. */
  lemma RaceRun(retryMaxSec: int, backoffs: seq<nat>, j: nat)
    ensures exists p: Plan ::
              && p.retryMaxSec == retryMaxSec && p.backoffs == backoffs && Reaches(p, j + 1)
              && StartAt(p, j + 1) == Deadline(p) * 1000 - 1 + Backoff(backoffs, j)
  {
    var expiry: nat := Waited(backoffs, j) + 1 + (if retryMaxSec < 0 then -retryMaxSec else 0);
    var clock: nat := (expiry + retryMaxSec) * 1000 - 1 - Waited(backoffs, j);
    var p := Plan(expiry, clock, retryMaxSec, backoffs, Hopeless);
    forall k: nat
      ensures StartAt(p, k) == clock + Waited(backoffs, k) && (k <= j ==> Waited(backoffs, k) <= Waited(backoffs, j))
    {
      HopelessTimes(p, k);
      if k <= j {
        WaitedGrows(backoffs, k, j);
      }
    }
    forall k: nat | k <= j
      ensures Retries(p, k)
    {
      assert ReturnAt(p, k) == StartAt(p, k) <= Deadline(p) * 1000 - 1;
    }
    assert Reaches(p, j + 1);
    assert StartAt(p, j + 1) == Deadline(p) * 1000 - 1 + Backoff(backoffs, j);
  }

  lemma {:induction false} HopelessTimes(p: Plan, k: nat)
    requires p.attempts == Hopeless
    ensures StartAt(p, k) == p.clock + Waited(p.backoffs, k)
  {
    if k > 0 {
      HopelessTimes(p, k - 1);
    }
  }

  lemma {:induction false} WaitedGrows(backoffs: seq<nat>, i: nat, j: nat)
    requires i <= j
    ensures Waited(backoffs, i) <= Waited(backoffs, j)
    decreases j
  {
    if i < j {
      WaitedGrows(backoffs, i, j - 1);
    }
  }

  const DEFAULT_BACKOFFS: seq<nat> := [60_000, 300_000, 900_000, 1_800_000]

  /** With the shipped defaults the refund race cannot happen. */
  lemma DefaultsAreSafe()
    ensures NeverRacesRefund(72_000, DEFAULT_BACKOFFS)
  {
    var b := DEFAULT_BACKOFFS;
    var j: nat :| Backoff(b, j) == MaxBackoff(b) && j < |b|;
    RefundRaceExactly(72_000, b);
  }

  // ------------------------------------------------------------------ what the ledger says afterwards

  /** The hash of the last transaction signed before attempt n. */
  function LastSigned(before: Option<TxHash>, p: Plan, n: nat): Option<TxHash> {
    if n == 0 then before
    else
      var a := p.attempts(n - 1);
      if a.seen.None? || a.seen.value in {IM.Settled, IM.Slashed, IM.Refunded} || HashOf(a.sending).None?
      then LastSigned(before, p, n - 1) else HashOf(a.sending)
  }

  /** The entry always names the latest signed confirmation, so a crash cannot orphan it; it says confirmed
      exactly when the run ended so; who posted the collateral, and with which transaction, is never lost. */
  lemma {:induction false} LedgerFollowsAttempts(e: Entry, p: Plan, n: nat)
    requires e.stage != Confirmed && Reaches(p, if n == 0 then 0 else n - 1)
    ensures var r := AfterAttempts(Some(e), p, n);
            && r.Some? && r.value.confirmTx == LastSigned(e.confirmTx, p, n)
            && r.value.solver == e.solver && r.value.collateralTx == e.collateralTx && r.value.slashTx == e.slashTx
            && (r.value.stage == Confirmed <==> n > 0 && EndOf(p.attempts(n - 1)) == MarkedConfirmed)
  {
    if n > 0 {
      LedgerFollowsAttempts(e, p, n - 1);
      if n > 1 {
        assert Retries(p, n - 2);
      }
    }
  }

  // ------------------------------------------------------------------ the read after postCollateral

  /** Indistinguishable from a node that has not seen the post yet. */
  predicate LooksStale(view: Settlement.OnChain) {
    view.solver == Settlement.ZERO && view.status == IM.Pending
  }

  /** The first reading that staleness cannot explain, or the last allowed one. */
  method ReadIntentAfterPostCollateral(answers: nat -> Settlement.OnChain, attempts: nat)
    returns (view: Settlement.OnChain, used: nat)
    ensures 1 <= used && (used <= attempts || used == 1) && view == answers(used - 1)
    ensures forall k: nat :: k < used - 1 ==> answers(k) == Settlement.OnChain(IM.Pending, Settlement.ZERO)
    ensures view == Settlement.OnChain(IM.Pending, Settlement.ZERO) ==> used >= attempts
  {
    view, used := answers(0), 1;
    while used < attempts && LooksStale(view)
      invariant 1 <= used && (used <= attempts || used == 1) && view == answers(used - 1)
      invariant forall k: nat :: k < used - 1 ==> LooksStale(answers(k))
    {
      view, used := answers(used), used + 1;
    }
  }

  /** Retrying only that shape masks no conflict: once our collateral is on chain, a lagging node shows
      either that shape or our own solver, never another one. */
  lemma StalenessHidesNoConflict(h: seq<Settlement.OnChain>, view: Settlement.OnChain)
    requires h != [] && view in h && h[|h| - 1].solver != Settlement.ZERO
    requires forall i, j :: 0 <= i <= j < |h| ==> Settlement.Latch(h[i], h[j])
    ensures view == Settlement.OnChain(IM.Pending, Settlement.ZERO) || view.solver == h[|h| - 1].solver
  {
    var i :| 0 <= i < |h| && h[i] == view;
    assert Settlement.Latch(h[i], h[|h| - 1]);
  }
}
