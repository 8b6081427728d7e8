/** The durable Arbitrum-side ledger: stage transitions merged into one entry per intent. */
module ArbitrumLedger {
  import opened Options

  type TxHash = nat
  type Address = nat

  datatype Stage =
    | PostingCollateral | CollateralPosted | CollateralFailed
    | Confirming | Confirmed | AwaitingExpirySlash | Slashing | Slashed

  datatype Entry = Entry(
    stage: Stage, collateralTx: Option<TxHash>, confirmTx: Option<TxHash>, slashTx: Option<TxHash>,
    expiry: Option<nat>, solver: Option<Address>, collateralWei: Option<nat>)

  /** A field a patch leaves alone, or overwrites, possibly with "undefined". */
  datatype Field<T> = Keep | Put(value: Option<T>)

  datatype Patch = Patch(
    collateralTx: Field<TxHash>, confirmTx: Field<TxHash>, slashTx: Field<TxHash>,
    expiry: Field<nat>, solver: Field<Address>, collateralWei: Field<nat>)

  const NO_PATCH := Patch(Keep, Keep, Keep, Keep, Keep, Keep)

  function Over<T>(prev: Option<T>, f: Field<T>): Option<T> {
    match f case Keep => prev case Put(v) => v
  }

  /** { ...prev, ...patch, stage } */
  function Merge(prev: Option<Entry>, patch: Patch, stage: Stage): Entry {
    var p := match prev case None => Entry(stage, None, None, None, None, None, None) case Some(e) => e;
    Entry(stage, Over(p.collateralTx, patch.collateralTx), Over(p.confirmTx, patch.confirmTx),
          Over(p.slashTx, patch.slashTx), Over(p.expiry, patch.expiry), Over(p.solver, patch.solver),
          Over(p.collateralWei, patch.collateralWei))
  }

  /** Each field of the merge: the patch's where it has one, even "undefined", the old entry's elsewhere. */
  lemma MergeExactly(prev: Option<Entry>, patch: Patch, stage: Stage)
    ensures var e := Merge(prev, patch, stage);
            && e.stage == stage
            && (patch.collateralTx.Put? ==> e.collateralTx == patch.collateralTx.value)
            && (patch.confirmTx.Put? ==> e.confirmTx == patch.confirmTx.value)
            && (patch.slashTx.Put? ==> e.slashTx == patch.slashTx.value)
            && (patch.expiry.Put? ==> e.expiry == patch.expiry.value)
            && (patch.solver.Put? ==> e.solver == patch.solver.value)
            && (patch.collateralWei.Put? ==> e.collateralWei == patch.collateralWei.value)
            && (patch.collateralTx.Keep? ==> e.collateralTx == if prev.Some? then prev.value.collateralTx else None)
            && (patch.confirmTx.Keep? ==> e.confirmTx == if prev.Some? then prev.value.confirmTx else None)
            && (patch.slashTx.Keep? ==> e.slashTx == if prev.Some? then prev.value.slashTx else None)
            && (patch.expiry.Keep? ==> e.expiry == if prev.Some? then prev.value.expiry else None)
            && (patch.solver.Keep? ==> e.solver == if prev.Some? then prev.value.solver else None)
            && (patch.collateralWei.Keep? ==> e.collateralWei == if prev.Some? then prev.value.collateralWei else None)
  {
  }

  // ------------------------------------------------------------------ identifiers

  function Lower(s: string): (r: string)
    ensures |r| == |s|
  {
    seq(|s|, i requires 0 <= i < |s| => if 'A' <= s[i] <= 'Z' then s[i] - 'A' + 'a' else s[i])
  }

  /** Bare lowercase hex: one 0x prefix, in either case, is dropped. */
  function KeyOf(id: string): string {
    Lower(if |id| >= 2 && id[0] == '0' && id[1] in {'x', 'X'} then id[2..] else id)
  }

  /** Every spelling of one identifier is one key: with or without the prefix, in any case. */
  lemma SpellingsAgree(hex: string)
    requires |hex| < 2 || hex[1] !in {'x', 'X'}
    ensures KeyOf("0x" + hex) == KeyOf("0X" + hex) == KeyOf(hex) == Lower(hex) == KeyOf(Lower(hex))
  {
    assert ("0x" + hex)[2..] == hex && ("0X" + hex)[2..] == hex;
    assert Lower(Lower(hex)) == Lower(hex);
    if |hex| >= 2 {
      assert Lower(hex)[1] !in {'x', 'X'};
    }
  }

  // ------------------------------------------------------------------ the ledger object

  const MID_SEQUENCE := {PostingCollateral, Confirming, Slashing}

  class Ledger {
    var ledger: map<string, Entry>

    constructor (loaded: map<string, Entry>)
      ensures ledger == loaded
    {
      ledger := loaded;
    }

    function Get(intentId: string): Option<Entry>
      reads this
    {
      if KeyOf(intentId) in ledger then Some(ledger[KeyOf(intentId)]) else None
    }

    method SetStage(intentId: string, stage: Stage, patch: Patch)
      modifies this
      ensures ledger == old(ledger)[KeyOf(intentId) := Merge(old(Get(intentId)), patch, stage)]
    {
      var key := KeyOf(intentId);
      var prev := if key in ledger then Some(ledger[key]) else None;
      ledger := ledger[key := Merge(prev, patch, stage)];
    }

    /** The scan behind every listing: exactly the entries at the wanted stages, each once. */
    method EntriesAt(stages: set<Stage>) returns (out: seq<string>)
      ensures forall id :: id in out <==> id in ledger && ledger[id].stage in stages
      ensures forall i, j :: 0 <= i < j < |out| ==> out[i] != out[j]
    {
      out := [];
      var rest := ledger.Keys;
      while rest != {}
        invariant rest <= ledger.Keys
        invariant forall id :: id in out <==> id in ledger && id !in rest && ledger[id].stage in stages
        invariant forall i, j :: 0 <= i < j < |out| ==> out[i] != out[j]
        decreases |rest|
      {
        var id :| id in rest;
        rest := rest - {id};
        if ledger[id].stage in stages {
          out := out + [id];
        }
      }
    }

    method MidSequenceEntries() returns (out: seq<string>)
      ensures forall id :: id in out <==> id in ledger && ledger[id].stage in MID_SEQUENCE
    {
      out := EntriesAt(MID_SEQUENCE);
    }

    method PostingCollateralEntries() returns (out: seq<string>)
      ensures forall id :: id in out <==> id in ledger && ledger[id].stage == PostingCollateral
      ensures forall i, j :: 0 <= i < j < |out| ==> out[i] != out[j]
    {
      out := EntriesAt({PostingCollateral});
    }

    method AwaitingExpirySlashEntries() returns (out: seq<string>)
      ensures forall id :: id in out <==> id in ledger && ledger[id].stage == AwaitingExpirySlash
      ensures forall i, j :: 0 <= i < j < |out| ==> out[i] != out[j]
    {
      out := EntriesAt({AwaitingExpirySlash});
    }

    method CollateralPostedEntries() returns (out: seq<string>)
      ensures forall id :: id in out <==> id in ledger && ledger[id].stage == CollateralPosted
    {
      out := EntriesAt({CollateralPosted});
    }
  }
}
