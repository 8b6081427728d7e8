/** One pass of the slash poller over both durable ledgers. */
module SlashPoller {
  import opened Options
  import opened ArbitrumLedger
  import Pay = SettledLedger
  import opened ConfirmRetry

  /** What the world answers while one intent has its turn: the clock, the fresh check of the recorded
      payout signature, whether the proof's two files are readable (its description and the bytes to be
      hashed), how a confirmation run goes, how a slash goes. */
  datatype Turn = Turn(nowSec: nat, check: Pay.Check, proofReadable: bool, bytesReadable: bool, confirming: Plan, slashing: Sending)

  predicate Due(e: Entry, t: Turn) {
    e.expiry.Some? && t.nowSec >= e.expiry.value
  }

  /** The payout is known to have been made: recorded as settled, or seen on Solana in this very turn. */
  predicate Delivered(p: Option<Pay.PayEntry>, t: Turn) {
    p.Some? && (p.value.Settled? || t.check == Pay.Landed)
  }

  /** The fresh check was needed and could not be made: the pass throws. */
  predicate CheckThrows(p: Option<Pay.PayEntry>, t: Turn) {
    p.Some? && p.value.Settling? && t.check == Pay.CheckFailed
  }

  predicate Slashable(e: Entry, p: Option<Pay.PayEntry>, t: Turn) {
    Due(e, t) && !Delivered(p, t) && !CheckThrows(p, t)
  }

  /** A delivered payout's confirmation can be resumed. */
  predicate CanConfirm(t: Turn) {
    t.proofReadable && t.bytesReadable
  }

  /** A slash is called for exactly from the recorded expiry on, unless the payout is settled, or its recorded
      signature is seen landed or cannot be checked. */
  lemma SlashableExactly(e: Entry, p: Option<Pay.PayEntry>, t: Turn)
    ensures Slashable(e, p, t) <==>
              && e.expiry.Some? && e.expiry.value <= t.nowSec
              && (p.None? || (p.value.Settling? && t.check == Pay.NotLanded))
  {
  }

  /** The turn throws: its check does, or hashing the proof, or the confirmation it resumes. A missing
      description only raises an alert. */
  ghost predicate TurnThrows(e: Entry, p: Option<Pay.PayEntry>, t: Turn) {
    && Due(e, t)
    && (CheckThrows(p, t) || (Delivered(p, t) && t.proofReadable && (!t.bytesReadable || RunThrows(t.confirming))))
  }

  /** What a turn may leave in the payout record. */
  function PayAfter(e: Entry, p: Option<Pay.PayEntry>, t: Turn): Option<Pay.PayEntry> {
    if Due(e, t) && p.Some? then Some(Pay.Reconciled(p.value, _ => t.check)) else p
  }

  function AfterSlash(e: Entry, sending: Sending): Entry {
    match sending
    case Failed(None) => e
    case Failed(Some(h)) => Merge(Some(e), NO_PATCH.(slashTx := Put(Some(h))), Slashing)
    case Landed(h) => Merge(Some(e), NO_PATCH.(slashTx := Put(Some(h))), Slashed)
  }

  /** What a turn leaves in the Arbitrum ledger. */
  ghost predicate ArbAfter(e: Entry, p: Option<Pay.PayEntry>, t: Turn, e': Option<Entry>) {
    if Slashable(e, p, t) then e' == Some(AfterSlash(e, t.slashing))
    else if Due(e, t) && Delivered(p, t) && CanConfirm(t) then
      exists n: nat :: n > 0 && Reaches(t.confirming, n - 1) && !Retries(t.confirming, n - 1)
                    && e' == AfterAttempts(Some(e), t.confirming, n)
    else e' == Some(e)
  }

  /** Every id the ledger writes is in its canonical spelling. */
  ghost predicate Canonical(m: map<string, Entry>) {
    forall id :: id in m ==> Lower(id) == id
  }

  function PayKey(id: string): string {
    Pay.Key("0x" + id)
  }

  lemma KeysAreDistinct(a: string, b: string)
    requires Lower(a) == a && Lower(b) == b
    ensures KeyOf("0x" + a) == a && (PayKey(a) == PayKey(b) ==> a == b)
  {
    assert ("0x" + a)[2..] == a;
    assert PayKey(a) == "0x" + a by {
      assert forall i :: 2 <= i < |PayKey(a)| ==> PayKey(a)[i] == Lower(a)[i - 2];
    }
    assert PayKey(b) == "0x" + b by {
      assert forall i :: 2 <= i < |PayKey(b)| ==> PayKey(b)[i] == Lower(b)[i - 2];
    }
    assert PayKey(a)[2..] == a && PayKey(b)[2..] == b;
  }

  /** Only the entry under key may differ. */
  ghost predicate OnlyAt<V>(m: map<string, V>, m': map<string, V>, key: string) {
    forall k :: k != key ==> (k in m' <==> k in m) && (k in m' ==> m'[k] == m[k])
  }

  ghost function PayOf(m: map<string, Pay.PayEntry>, id: string): Option<Pay.PayEntry> {
    if PayKey(id) in m then Some(m[PayKey(id)]) else None
  }

  /** resumeConfirmIfSolanaLanded: reports whether the slash was averted, or that the check threw. */
  method ResumeConfirmIfSolanaLanded(arb: Ledger, pay: Pay.Ledger, id: string, t: Turn) returns (averted: bool, threw: bool)
    requires Positive(t.confirming.backoffs) && Canonical(arb.ledger) && id in arb.ledger
    requires Due(arb.ledger[id], t)
    modifies arb, pay`ledger
    ensures var p := old(PayOf(pay.ledger, id));
            && averted == Delivered(p, t)
            && threw == TurnThrows(old(arb.ledger[id]), p, t)
            && PayOf(pay.ledger, id) == PayAfter(old(arb.ledger[id]), p, t)
            && (!averted ==> arb.ledger == old(arb.ledger))
            && (averted ==> ArbAfter(old(arb.ledger[id]), p, t, arb.Get("0x" + id)))
    ensures OnlyAt(old(arb.ledger), arb.ledger, id) && OnlyAt(old(pay.ledger), pay.ledger, PayKey(id))
  {
    KeysAreDistinct(id, id);
    var entry := pay.Get("0x" + id);
    if entry.None? {
      return false, false;
    }
    if entry.value.Settling? {
      if t.check == Pay.CheckFailed {
        return false, true;
      }
      if t.check == Pay.NotLanded {
        return false, false;
      }
      pay.MarkSettled("0x" + id);
    }
    averted, threw := true, t.proofReadable && !t.bytesReadable;
    if CanConfirm(t) {
      var ended, starts := ConfirmSettlementWithRetry(arb, "0x" + id, t.confirming);
      RunThrowsAtLast(t.confirming, |starts| - 1);
      threw := ended == Threw;
    }
  }

  method SlashSolver(arb: Ledger, id: string, t: Turn)
    requires Canonical(arb.ledger) && id in arb.ledger
    modifies arb
    ensures arb.Get("0x" + id) == Some(AfterSlash(old(arb.ledger[id]), t.slashing))
    ensures OnlyAt(old(arb.ledger), arb.ledger, id)
  {
    KeysAreDistinct(id, id);
    var signed := HashOf(t.slashing);
    if signed.Some? {
      arb.SetStage("0x" + id, Slashing, NO_PATCH.(slashTx := Put(signed)));
    }
    if t.slashing.Landed? {
      arb.SetStage("0x" + id, Slashed, NO_PATCH.(slashTx := Put(signed)));
    }
  }

  /** One intent's turn, start to end. */
  ghost predicate TurnTaken(arb: map<string, Entry>, pay: map<string, Pay.PayEntry>, id: string, t: Turn,
                            arb': map<string, Entry>, pay': map<string, Pay.PayEntry>)
    requires id in arb
  {
    && id in arb' && ArbAfter(arb[id], PayOf(pay, id), t, Some(arb'[id]))
    && PayOf(pay', id) == PayAfter(arb[id], PayOf(pay, id), t)
  }

  method TakeTurn(arb: Ledger, pay: Pay.Ledger, id: string, t: Turn) returns (slashed: bool, threw: bool)
    requires Positive(t.confirming.backoffs) && Canonical(arb.ledger) && id in arb.ledger
    modifies arb, pay`ledger
    ensures TurnTaken(old(arb.ledger), old(pay.ledger), id, t, arb.ledger, pay.ledger)
    ensures slashed == Slashable(old(arb.ledger[id]), old(PayOf(pay.ledger, id)), t)
    ensures threw == TurnThrows(old(arb.ledger[id]), old(PayOf(pay.ledger, id)), t)
    ensures OnlyAt(old(arb.ledger), arb.ledger, id) && OnlyAt(old(pay.ledger), pay.ledger, PayKey(id))
  {
    KeysAreDistinct(id, id);
    var entry := arb.ledger[id];
    if entry.expiry.None? || t.nowSec < entry.expiry.value {
      return false, false;
    }
    var averted;
    averted, threw := ResumeConfirmIfSolanaLanded(arb, pay, id, t);
    slashed := false;
    if averted {
      AfterKeeps(entry, t.confirming);
    } else if !threw {
      SlashSolver(arb, id, t);
      slashed := true;
    }
  }

  /** A confirmation run never loses the entry. */
  lemma AfterKeeps(e: Entry, p: Plan)
    ensures forall n: nat :: AfterAttempts(Some(e), p, n).Some?
  {
    forall n: nat
      ensures AfterAttempts(Some(e), p, n).Some?
    {
      AttemptsNeverSlash(e, p, n);
    }
  }

  /** After the turns of visited: each was taken, slashes were called for exactly the slashable, nothing else moved. */
  ghost predicate PassTaken(arb: map<string, Entry>, pay: map<string, Pay.PayEntry>, turns: string -> Turn,
                            visited: seq<string>, slashed: set<string>,
                            arb': map<string, Entry>, pay': map<string, Pay.PayEntry>)
    requires forall id :: id in visited ==> id in arb
  {
    && arb'.Keys == arb.Keys
    && (forall id :: id in visited ==> TurnTaken(arb, pay, id, turns(id), arb', pay'))
    && (forall id :: id in slashed <==> id in visited && Slashable(arb[id], PayOf(pay, id), turns(id)))
    && (forall id :: id in arb && id !in visited ==> arb'[id] == arb[id] && PayOf(pay', id) == PayOf(pay, id))
  }

  lemma TurnExtends(arb: map<string, Entry>, pay: map<string, Pay.PayEntry>, turns: string -> Turn,
                    visited: seq<string>, slashed: set<string>, arb1: map<string, Entry>, pay1: map<string, Pay.PayEntry>,
                    id: string, called: bool, arb2: map<string, Entry>, pay2: map<string, Pay.PayEntry>)
    requires (forall x :: x in visited ==> x in arb) && id in arb && id !in visited && Canonical(arb)
    requires PassTaken(arb, pay, turns, visited, slashed, arb1, pay1)
    requires TurnTaken(arb1, pay1, id, turns(id), arb2, pay2)
    requires called == Slashable(arb1[id], PayOf(pay1, id), turns(id))
    requires OnlyAt(arb1, arb2, id) && OnlyAt(pay1, pay2, PayKey(id))
    ensures PassTaken(arb, pay, turns, visited + [id], if called then slashed + {id} else slashed, arb2, pay2)
  {
    forall x | x in arb && x != id
      ensures arb2[x] == arb1[x] && PayOf(pay2, x) == PayOf(pay1, x)
    {
      KeysAreDistinct(x, id);
    }
    assert arb2.Keys == arb1.Keys;
  }

  /** No turn but the last threw. */
  ghost predicate NoneThrew(arb: map<string, Entry>, pay: map<string, Pay.PayEntry>, turns: string -> Turn, visited: seq<string>)
    requires forall id :: id in visited ==> id in arb
  {
    forall i :: 0 <= i < |visited| ==> !TurnThrows(arb[visited[i]], PayOf(pay, visited[i]), turns(visited[i]))
  }

  /** The pass takes every awaiting intent's turn, each once, unless a turn throws, which ends the pass there;
      slashSolver is called for exactly those turns that found the intent due and nothing delivered; no other
      entry of either ledger moves. */
  method PollAwaitingSlash(arb: Ledger, pay: Pay.Ledger, turns: string -> Turn) returns (visited: seq<string>, slashed: set<string>)
    requires Canonical(arb.ledger) && forall id :: Positive(turns(id).confirming.backoffs)
    modifies arb, pay`ledger
    ensures forall id :: id in visited ==> id in old(arb.ledger) && old(arb.ledger)[id].stage == AwaitingExpirySlash
    ensures forall i, j :: 0 <= i < j < |visited| ==> visited[i] != visited[j]
    ensures if NoneThrew(old(arb.ledger), old(pay.ledger), turns, visited)
            then forall id :: id in old(arb.ledger) && old(arb.ledger)[id].stage == AwaitingExpirySlash ==> id in visited
            else NoneThrew(old(arb.ledger), old(pay.ledger), turns, visited[..|visited| - 1])
    ensures PassTaken(old(arb.ledger), old(pay.ledger), turns, visited, slashed, arb.ledger, pay.ledger)
  {
    var listed := arb.AwaitingExpirySlashEntries();
    visited, slashed := [], {};
    for i := 0 to |listed|
      invariant visited == listed[..i]
      invariant NoneThrew(old(arb.ledger), old(pay.ledger), turns, visited)
      invariant PassTaken(old(arb.ledger), old(pay.ledger), turns, visited, slashed, arb.ledger, pay.ledger)
    {
      var id := listed[i];
      ghost var arb1, pay1 := arb.ledger, pay.ledger;
      var called, threw := TakeTurn(arb, pay, id, turns(id));
      TurnExtends(old(arb.ledger), old(pay.ledger), turns, visited, slashed, arb1, pay1, id, called, arb.ledger, pay.ledger);
      assert (visited + [id])[..|visited|] == visited;
      visited := visited + [id];
      if called {
        slashed := slashed + {id};
      }
      if threw {
        assert TurnThrows(old(arb.ledger)[visited[i]], PayOf(old(pay.ledger), visited[i]), turns(visited[i]));
        return;
      }
    }
    assert listed[..|listed|] == listed;
  }

  /** A delivered payout is never punished, and a pass that saw one leaves it recorded as settled. */
  lemma DeliveredIsSpared(arb: map<string, Entry>, pay: map<string, Pay.PayEntry>, turns: string -> Turn,
                          visited: seq<string>, slashed: set<string>,
                          arb': map<string, Entry>, pay': map<string, Pay.PayEntry>, id: string)
    requires (forall x :: x in visited ==> x in arb) && PassTaken(arb, pay, turns, visited, slashed, arb', pay')
    requires id in visited && Delivered(PayOf(pay, id), turns(id))
    ensures id !in slashed
    ensures Due(arb[id], turns(id)) ==> PayOf(pay', id).Some? && PayOf(pay', id).value.Settled?
    ensures arb[id].stage == AwaitingExpirySlash ==> arb'[id].stage !in {Slashing, Slashed}
    ensures arb'[id].solver == arb[id].solver && arb'[id].slashTx == arb[id].slashTx
  {
    var (e, t) := (arb[id], turns(id));
    if Due(e, t) && CanConfirm(t) {
      var n: nat :| n > 0 && Reaches(t.confirming, n - 1) && Some(arb'[id]) == AfterAttempts(Some(e), t.confirming, n);
      AttemptsNeverSlash(e, t.confirming, n);
    }
  }

  lemma {:induction false} AttemptsNeverSlash(e: Entry, p: Plan, n: nat)
    ensures var r := AfterAttempts(Some(e), p, n);
            && r.Some? && r.value.solver == e.solver && r.value.slashTx == e.slashTx
            && (r.value.stage == e.stage || r.value.stage in {Confirming, Confirmed})
  {
    if n > 0 {
      AttemptsNeverSlash(e, p, n - 1);
    }
  }
}
