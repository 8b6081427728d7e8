/** The durable payout ledger: absent, settling with a recorded signature, settled. */
module SettledLedger {
  import opened Options
  import ArbitrumLedger

  type Signature = nat

  datatype PayEntry = Settling(sig: Signature) | Settled(paid: Option<Signature>)

  function SigOf(e: PayEntry): Option<Signature> {
    match e case Settling(sig) => Some(sig) case Settled(sig) => sig
  }

  /** markSettled keeps whatever signature is on record. */
  function MarkedSettled(prev: Option<PayEntry>): PayEntry {
    Settled(match prev case None => None case Some(e) => SigOf(e))
  }

  datatype Check = Landed | NotLanded | CheckFailed

  /** What one reconciliation pass leaves for an entry. */
  function Reconciled(e: PayEntry, check: Signature -> Check): PayEntry {
    if e.Settling? && check(e.sig) == Landed then Settled(Some(e.sig)) else e
  }

  /** Settling never loses or invents a signature, and is done once; a pass settles only what has landed. */
  lemma SettlingExactly(prev: Option<PayEntry>, e: PayEntry, check: Signature -> Check)
    ensures MarkedSettled(prev).Settled?
    ensures SigOf(MarkedSettled(prev)) == if prev.Some? then SigOf(prev.value) else None
    ensures MarkedSettled(Some(MarkedSettled(prev))) == MarkedSettled(prev)
    ensures SigOf(Reconciled(e, check)) == SigOf(e)
    ensures Reconciled(e, check).Settled? <==> e.Settled? || check(e.sig) == Landed
    ensures e.Settled? ==> Reconciled(e, check) == e
  {
  }

  function Key(intentId: string): string {
    ArbitrumLedger.Lower(intentId)
  }

  class Ledger {
    var ledger: map<string, PayEntry>
    var alerted: set<Signature>

    constructor (loaded: map<string, PayEntry>)
      ensures ledger == loaded && alerted == {}
    {
      ledger, alerted := loaded, {};
    }

    function Get(intentId: string): Option<PayEntry>
      reads this
    {
      if Key(intentId) in ledger then Some(ledger[Key(intentId)]) else None
    }

    predicate IsAlreadySettled(intentId: string)
      reads this
    {
      Get(intentId).Some? && Get(intentId).value.Settled?
    }

    method MarkSettling(intentId: string, sig: Signature)
      modifies `ledger
      ensures ledger == old(ledger)[Key(intentId) := Settling(sig)]
    {
      ledger := ledger[Key(intentId) := Settling(sig)];
    }

    method MarkSettled(intentId: string)
      modifies `ledger
      ensures ledger == old(ledger)[Key(intentId) := MarkedSettled(old(Get(intentId)))]
    {
      var existing := if Key(intentId) in ledger then Some(ledger[Key(intentId)]) else None;
      ledger := ledger[Key(intentId) := MarkedSettled(existing)];
    }

    method SettlingEntries() returns (out: seq<string>)
      ensures forall id :: id in out <==> id in ledger && ledger[id].Settling?
      ensures forall i, j :: 0 <= i < j < |out| ==> out[i] != out[j]
    {
      out := [];
      var rest := ledger.Keys;
      while rest != {}
        invariant rest <= ledger.Keys
        invariant forall id :: id in out <==> id in ledger && id !in rest && ledger[id].Settling?
        invariant forall i, j :: 0 <= i < j < |out| ==> out[i] != out[j]
        decreases |rest|
      {
        var id :| id in rest;
        rest := rest - {id};
        if ledger[id].Settling? {
          out := out + [id];
        }
      }
    }

    /** One pass: every landed signature settles its entry and no other entry moves; exactly the intents
        this pass settled are returned; every signature found absent has been alerted about. */
    method ReconcileSettlingLedger(check: Signature -> Check) returns (newlySettled: seq<string>)
      modifies this
      ensures ledger == map id | id in old(ledger) :: Reconciled(old(ledger)[id], check)
      ensures forall id :: id in newlySettled <==>
                id in old(ledger) && old(ledger)[id].Settling? && check(old(ledger)[id].sig) == Landed
      ensures forall id :: id in ledger && ledger[id].Settling? && check(ledger[id].sig) == NotLanded ==> ledger[id].sig in alerted
    {
      var pending := SettlingEntries();
      var before := ledger;
      newlySettled := [];
      for i := 0 to |pending|
        invariant ledger == map id | id in before :: if id in pending[..i] then Reconciled(before[id], check) else before[id]
        invariant forall id :: id in newlySettled <==> id in pending[..i] && check(before[id].sig) == Landed
        invariant forall id :: id in pending[..i] && check(before[id].sig) == NotLanded ==> before[id].sig in alerted
      {
        var id := pending[i];
        var sig := before[id].sig;
        assert pending[..i + 1] == pending[..i] + [id];
        match check(sig) {
          case Landed =>
            ledger := ledger[id := MarkedSettled(Some(ledger[id]))];
            alerted := alerted - {sig};
            newlySettled := newlySettled + [id];
          case NotLanded => alerted := alerted + {sig};
          case CheckFailed =>
        }
      }
      assert pending[..|pending|] == pending;
    }
  }
}
