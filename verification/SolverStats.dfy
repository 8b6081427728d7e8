/** Track records of solvers, read from the chain through a cache of terminal intents, and credit tiers. */
module SolverStats {
  import opened Options
  import opened ArbitrumLedger
  import IM = IntentManager
  import Safety = IntentManagerSafety
  import ContractRuns = IntentManagerRuns

  const ZERO: Address := 0

  /** What intents(id) answers. */
  datatype View = View(owner: Address, status: IM.Status, solver: Address)
  datatype Cached = Cached(status: IM.Status, solver: Address)
  type Cache = map<string, Cached>
  datatype Exclusion = Exclusion(intentId: string, solver: Address)

  datatype Outcome = Excluded | WasSettled | WasSlashed | WasRefunded | WasExpired | Uncounted
  datatype Verdict = Verdict(solver: Address, outcome: Outcome)

  datatype Tally = Tally(settled: nat, slashed: nat, refunded: nat, expired: nat, excluded: nat)
  const NO_TALLY := Tally(0, 0, 0, 0, 0)

  function Resolved(t: Tally): nat {
    t.settled + t.slashed
  }

  /** settled / resolved, exactly. */
  function SuccessRate(t: Tally): Option<real> {
    if Resolved(t) == 0 then None else Some(t.settled as real / Resolved(t) as real)
  }

  /** One run's world: the cache found, the exclusions file, and how each read answers (None when it fails). */
  datatype Inputs = Inputs(cache: Cache, exclusions: seq<Exclusion>, read: string -> Option<View>)

  // ------------------------------------------------------------------ what a run should report

  /** Terminal knowledge of one intent: cached, or read now. */
  function Known(i: Inputs, key: string): Option<Cached> {
    if key in i.cache then Some(i.cache[key])
    else match i.read(key)
      case None => None
      case Some(v) => if v.status == IM.Pending || v.owner == ZERO then None else Some(Cached(v.status, v.solver))
  }

  function FirstExclusion(exclusions: seq<Exclusion>, key: string): Option<Exclusion> {
    if exclusions == [] then None
    else if KeyOf(exclusions[0].intentId) == key then Some(exclusions[0])
    else FirstExclusion(exclusions[1..], key)
  }

  function Judge(c: Cached, exclusion: Option<Exclusion>): Verdict {
    Verdict(c.solver,
      if exclusion.Some? && exclusion.value.solver == c.solver then Excluded
      else match c.status
        case Settled => WasSettled
        case Slashed => WasSlashed
        case Refunded => WasRefunded
        case Expired => WasExpired
        case Pending => Uncounted)
  }

  /** Which solver an intent counts for, and as what; None when it counts for nobody. */
  function VerdictOn(i: Inputs, key: string): Option<Verdict> {
    match Known(i, key)
    case None => None
    case Some(c) => if c.solver == ZERO then None else Some(Judge(c, FirstExclusion(i.exclusions, key)))
  }

  ghost function Counted(i: Inputs, keys: set<string>, v: Verdict): nat {
    |set key | key in keys && VerdictOn(i, key) == Some(v)|
  }

  /** A solver's record: how many of the intents count for it, under each heading. */
  ghost function RecordOf(i: Inputs, keys: set<string>, a: Address): Tally {
    Tally(Counted(i, keys, Verdict(a, WasSettled)), Counted(i, keys, Verdict(a, WasSlashed)),
          Counted(i, keys, Verdict(a, WasRefunded)), Counted(i, keys, Verdict(a, WasExpired)),
          Counted(i, keys, Verdict(a, Excluded)))
  }

  ghost predicate Mentioned(i: Inputs, keys: set<string>, a: Address) {
    exists key :: key in keys && VerdictOn(i, key).Some? && VerdictOn(i, key).value.solver == a
  }

  ghost predicate RecordsAre(i: Inputs, keys: set<string>, records: map<Address, Tally>) {
    forall a :: (a in records <==> Mentioned(i, keys, a)) && (a in records ==> records[a] == RecordOf(i, keys, a))
  }

  predicate Fails(i: Inputs, key: string) {
    key !in i.cache && i.read(key).None?
  }

  predicate Learns(i: Inputs, key: string) {
    key !in i.cache && Known(i, key).Some?
  }

  /** The cache a run leaves behind. */
  ghost function CacheAfter(i: Inputs, keys: set<string>): Cache {
    i.cache + map key | key in keys && Learns(i, key) :: Known(i, key).value
  }

  // ------------------------------------------------------------------ the counts, said of cache, reads and exclusions

  /** How an intent stands for solver a: as the cache has it, or as it is read now once it has ended. */
  ghost predicate EndedAs(i: Inputs, key: string, status: IM.Status, a: Address) {
    && a != ZERO
    && if key in i.cache then i.cache[key].status == status && i.cache[key].solver == a
       else && i.read(key).Some? && i.read(key).value.owner != ZERO && status != IM.Pending
            && i.read(key).value.status == status && i.read(key).value.solver == a
  }

  /** The first exclusion that names the intent, if any, names this solver. */
  ghost predicate ExcludedFor(exclusions: seq<Exclusion>, key: string, a: Address) {
    exists j :: && 0 <= j < |exclusions| && KeyOf(exclusions[j].intentId) == key && exclusions[j].solver == a
                && forall k :: 0 <= k < j ==> KeyOf(exclusions[k].intentId) != key
  }

  ghost function EndedCount(i: Inputs, keys: set<string>, status: IM.Status, a: Address): nat {
    |set key | key in keys && EndedAs(i, key, status, a) && !ExcludedFor(i.exclusions, key, a)|
  }

  ghost function ExcludedCount(i: Inputs, keys: set<string>, a: Address): nat {
    |set key | key in keys && (exists status :: EndedAs(i, key, status, a)) && ExcludedFor(i.exclusions, key, a)|
  }

  /** A solver has a record exactly when some intent counts for it, and each heading is a number of intents. */
  ghost predicate RecordsCount(i: Inputs, keys: set<string>, records: map<Address, Tally>) {
    forall a ::
      && (a in records <==> exists key, status :: key in keys && EndedAs(i, key, status, a))
      && (a in records ==>
            && records[a].settled == EndedCount(i, keys, IM.Settled, a)
            && records[a].slashed == EndedCount(i, keys, IM.Slashed, a)
            && records[a].refunded == EndedCount(i, keys, IM.Refunded, a)
            && records[a].expired == EndedCount(i, keys, IM.Expired, a)
            && records[a].excluded == ExcludedCount(i, keys, a))
  }

  /** The cache keeps what it had and gains exactly the intents that were read and had ended, as they were read. */
  ghost predicate CacheGains(i: Inputs, keys: set<string>, cache: Cache) {
    && (forall key :: key in cache <==>
          || key in i.cache
          || (key in keys && i.read(key).Some? && i.read(key).value.owner != ZERO && i.read(key).value.status != IM.Pending))
    && (forall key :: key in i.cache ==> cache[key] == i.cache[key])
    && (forall key :: key in cache && key !in i.cache ==>
          i.read(key).Some? && cache[key] == Cached(i.read(key).value.status, i.read(key).value.solver))
  }

  lemma CacheAfterGains(i: Inputs, keys: set<string>)
    ensures CacheGains(i, keys, CacheAfter(i, keys))
  {
  }

  lemma {:induction false} FirstExclusionIs(exclusions: seq<Exclusion>, key: string, a: Address)
    ensures ExcludedFor(exclusions, key, a)
            <==> FirstExclusion(exclusions, key).Some? && FirstExclusion(exclusions, key).value.solver == a
    decreases |exclusions|
  {
    if exclusions != [] {
      var rest := exclusions[1..];
      FirstExclusionIs(rest, key, a);
      if KeyOf(exclusions[0].intentId) != key {
        if ExcludedFor(rest, key, a) {
          var j :| 0 <= j < |rest| && KeyOf(rest[j].intentId) == key && rest[j].solver == a
            && forall k :: 0 <= k < j ==> KeyOf(rest[k].intentId) != key;
          assert exclusions[j + 1] == rest[j];
          assert forall k :: 1 <= k < j + 1 ==> exclusions[k] == rest[k - 1];
        }
        if ExcludedFor(exclusions, key, a) {
          var j :| 0 <= j < |exclusions| && KeyOf(exclusions[j].intentId) == key && exclusions[j].solver == a
            && forall k :: 0 <= k < j ==> KeyOf(exclusions[k].intentId) != key;
          assert rest[j - 1] == exclusions[j];
          assert forall k :: 0 <= k < j - 1 ==> rest[k] == exclusions[k + 1];
        }
      } else if ExcludedFor(exclusions, key, a) {
        var j :| 0 <= j < |exclusions| && KeyOf(exclusions[j].intentId) == key && exclusions[j].solver == a
          && forall k :: 0 <= k < j ==> KeyOf(exclusions[k].intentId) != key;
        assert j == 0;
      }
    }
  }

  lemma VerdictSays(i: Inputs, key: string, a: Address)
    ensures VerdictOn(i, key).Some? && VerdictOn(i, key).value.solver == a <==> exists status :: EndedAs(i, key, status, a)
    ensures VerdictOn(i, key) == Some(Verdict(a, WasSettled))
            <==> EndedAs(i, key, IM.Settled, a) && !ExcludedFor(i.exclusions, key, a)
    ensures VerdictOn(i, key) == Some(Verdict(a, WasSlashed))
            <==> EndedAs(i, key, IM.Slashed, a) && !ExcludedFor(i.exclusions, key, a)
    ensures VerdictOn(i, key) == Some(Verdict(a, WasRefunded))
            <==> EndedAs(i, key, IM.Refunded, a) && !ExcludedFor(i.exclusions, key, a)
    ensures VerdictOn(i, key) == Some(Verdict(a, WasExpired))
            <==> EndedAs(i, key, IM.Expired, a) && !ExcludedFor(i.exclusions, key, a)
    ensures VerdictOn(i, key) == Some(Verdict(a, Excluded))
            <==> (exists status :: EndedAs(i, key, status, a)) && ExcludedFor(i.exclusions, key, a)
  {
    FirstExclusionIs(i.exclusions, key, a);
    if Known(i, key).Some? && Known(i, key).value.solver == a && a != ZERO {
      assert EndedAs(i, key, Known(i, key).value.status, a);
    }
  }

  /** What the run is defined to report is exactly these counts. */
  lemma RecordsAreCounts(i: Inputs, keys: set<string>, records: map<Address, Tally>)
    requires RecordsAre(i, keys, records)
    ensures RecordsCount(i, keys, records)
  {
    forall a
      ensures a in records <==> exists key, status :: key in keys && EndedAs(i, key, status, a)
      ensures RecordOf(i, keys, a) == Tally(EndedCount(i, keys, IM.Settled, a), EndedCount(i, keys, IM.Slashed, a),
                                            EndedCount(i, keys, IM.Refunded, a), EndedCount(i, keys, IM.Expired, a),
                                            ExcludedCount(i, keys, a))
    {
      MentionedIs(i, keys, a);
      CountsAre(i, keys, a);
    }
  }

  lemma MentionedIs(i: Inputs, keys: set<string>, a: Address)
    ensures Mentioned(i, keys, a) <==> exists key, status :: key in keys && EndedAs(i, key, status, a)
  {
    forall key
      ensures VerdictOn(i, key).Some? && VerdictOn(i, key).value.solver == a <==> exists status :: EndedAs(i, key, status, a)
    {
      VerdictSays(i, key, a);
    }
  }

  lemma CountedAs(i: Inputs, keys: set<string>, a: Address, o: Outcome, status: IM.Status)
    requires (o == WasSettled && status == IM.Settled) || (o == WasSlashed && status == IM.Slashed)
          || (o == WasRefunded && status == IM.Refunded) || (o == WasExpired && status == IM.Expired)
    ensures Counted(i, keys, Verdict(a, o)) == EndedCount(i, keys, status, a)
  {
    forall key
      ensures VerdictOn(i, key) == Some(Verdict(a, o)) <==> EndedAs(i, key, status, a) && !ExcludedFor(i.exclusions, key, a)
    {
      VerdictSays(i, key, a);
    }
    assert (set key | key in keys && VerdictOn(i, key) == Some(Verdict(a, o)))
           == set key | key in keys && EndedAs(i, key, status, a) && !ExcludedFor(i.exclusions, key, a);
  }

  lemma CountedExcluded(i: Inputs, keys: set<string>, a: Address)
    ensures Counted(i, keys, Verdict(a, Excluded)) == ExcludedCount(i, keys, a)
  {
    forall key
      ensures VerdictOn(i, key) == Some(Verdict(a, Excluded))
              <==> (exists status :: EndedAs(i, key, status, a)) && ExcludedFor(i.exclusions, key, a)
    {
      VerdictSays(i, key, a);
    }
    assert (set key | key in keys && VerdictOn(i, key) == Some(Verdict(a, Excluded)))
           == set key | key in keys && (exists status :: EndedAs(i, key, status, a)) && ExcludedFor(i.exclusions, key, a);
  }

  lemma CountsAre(i: Inputs, keys: set<string>, a: Address)
    ensures RecordOf(i, keys, a) == Tally(EndedCount(i, keys, IM.Settled, a), EndedCount(i, keys, IM.Slashed, a),
                                          EndedCount(i, keys, IM.Refunded, a), EndedCount(i, keys, IM.Expired, a),
                                          ExcludedCount(i, keys, a))
  {
    CountedAs(i, keys, a, WasSettled, IM.Settled);
    CountedAs(i, keys, a, WasSlashed, IM.Slashed);
    CountedAs(i, keys, a, WasRefunded, IM.Refunded);
    CountedAs(i, keys, a, WasExpired, IM.Expired);
    CountedExcluded(i, keys, a);
  }

  // ------------------------------------------------------------------ the run itself

  function KeysOf(intentIds: seq<string>): set<string> {
    set j | 0 <= j < |intentIds| :: KeyOf(intentIds[j])
  }

  /** Distinct keys in order of first appearance. */
  method Normalized(intentIds: seq<string>) returns (keys: seq<string>)
    ensures forall key :: key in keys <==> key in KeysOf(intentIds)
    ensures forall i, j :: 0 <= i < j < |keys| ==> keys[i] != keys[j]
  {
    keys := [];
    for n := 0 to |intentIds|
      invariant forall key :: key in keys <==> key in KeysOf(intentIds[..n])
      invariant forall i, j :: 0 <= i < j < |keys| ==> keys[i] != keys[j]
    {
      assert KeysOf(intentIds[..n + 1]) == KeysOf(intentIds[..n]) + {KeyOf(intentIds[n])};
      if KeyOf(intentIds[n]) !in keys {
        keys := keys + [KeyOf(intentIds[n])];
      }
    }
    assert intentIds[..|intentIds|] == intentIds;
  }

  function Bump(t: Tally, o: Outcome): Tally {
    match o
    case Excluded => t.(excluded := t.excluded + 1)
    case WasSettled => t.(settled := t.settled + 1)
    case WasSlashed => t.(slashed := t.slashed + 1)
    case WasRefunded => t.(refunded := t.refunded + 1)
    case WasExpired => t.(expired := t.expired + 1)
    case Uncounted => t
  }

  lemma CountedNext(i: Inputs, keys: set<string>, key: string, v: Verdict)
    requires key !in keys
    ensures Counted(i, keys + {key}, v) == Counted(i, keys, v) + if VerdictOn(i, key) == Some(v) then 1 else 0
  {
    var before := set k | k in keys && VerdictOn(i, k) == Some(v);
    var after := set k | k in keys + {key} && VerdictOn(i, k) == Some(v);
    assert after == if VerdictOn(i, key) == Some(v) then before + {key} else before;
  }

  lemma RecordNext(i: Inputs, keys: set<string>, key: string, a: Address)
    requires key !in keys
    ensures RecordOf(i, keys + {key}, a) ==
              match VerdictOn(i, key)
              case None => RecordOf(i, keys, a)
              case Some(v) => if v.solver == a then Bump(RecordOf(i, keys, a), v.outcome) else RecordOf(i, keys, a)
  {
    forall o
      ensures Counted(i, keys + {key}, Verdict(a, o)) ==
                Counted(i, keys, Verdict(a, o)) + if VerdictOn(i, key) == Some(Verdict(a, o)) then 1 else 0
    {
      CountedNext(i, keys, key, Verdict(a, o));
    }
  }

  lemma UnmentionedIsEmpty(i: Inputs, keys: set<string>, a: Address)
    requires !Mentioned(i, keys, a)
    ensures RecordOf(i, keys, a) == NO_TALLY
  {
    forall o
      ensures Counted(i, keys, Verdict(a, o)) == 0
    {
      assert (set key | key in keys && VerdictOn(i, key) == Some(Verdict(a, o))) == {};
    }
  }

  lemma RecordsNext(i: Inputs, keys: set<string>, key: string, records: map<Address, Tally>, v: Verdict)
    requires key !in keys && RecordsAre(i, keys, records) && VerdictOn(i, key) == Some(v)
    ensures RecordsAre(i, keys + {key},
              records[v.solver := Bump(if v.solver in records then records[v.solver] else NO_TALLY, v.outcome)])
  {
    forall a
      ensures Mentioned(i, keys + {key}, a) <==> Mentioned(i, keys, a) || a == v.solver
      ensures a in records || RecordOf(i, keys, a) == NO_TALLY
    {
      RecordNext(i, keys, key, a);
      if Mentioned(i, keys, a) {
        var k :| k in keys && VerdictOn(i, k).Some? && VerdictOn(i, k).value.solver == a;
        assert k in keys + {key};
      } else {
        UnmentionedIsEmpty(i, keys, a);
      }
      if a == v.solver {
        assert key in keys + {key};
      }
    }
    forall a
      ensures RecordOf(i, keys + {key}, a)
              == if a == v.solver then Bump(RecordOf(i, keys, a), v.outcome) else RecordOf(i, keys, a)
    {
      RecordNext(i, keys, key, a);
    }
  }

  lemma RecordsSkip(i: Inputs, keys: set<string>, key: string, records: map<Address, Tally>)
    requires key !in keys && RecordsAre(i, keys, records) && VerdictOn(i, key).None?
    ensures RecordsAre(i, keys + {key}, records)
  {
    forall a
      ensures Mentioned(i, keys + {key}, a) <==> Mentioned(i, keys, a)
      ensures RecordOf(i, keys + {key}, a) == RecordOf(i, keys, a)
    {
      RecordNext(i, keys, key, a);
      if Mentioned(i, keys, a) {
        var k :| k in keys && VerdictOn(i, k).Some? && VerdictOn(i, k).value.solver == a;
        assert k in keys + {key};
      }
    }
  }

  /** Where the run stands once keys have been looked at. */
  ghost predicate Upto(i: Inputs, keys: set<string>, records: map<Address, Tally>, errors: seq<string>, cache: Cache) {
    && RecordsAre(i, keys, records)
    && (forall key :: key in errors <==> key in keys && Fails(i, key))
    && cache == CacheAfter(i, keys)
  }

  function RecordsWith(i: Inputs, key: string, records: map<Address, Tally>): map<Address, Tally> {
    match VerdictOn(i, key)
    case None => records
    case Some(v) => records[v.solver := Bump(if v.solver in records then records[v.solver] else NO_TALLY, v.outcome)]
  }

  lemma CacheNext(i: Inputs, keys: set<string>, key: string)
    ensures CacheAfter(i, keys + {key})
            == if Learns(i, key) then CacheAfter(i, keys)[key := Known(i, key).value] else CacheAfter(i, keys)
  {
  }

  lemma UptoNext(i: Inputs, keys: set<string>, key: string, records: map<Address, Tally>, errors: seq<string>, cache: Cache)
    requires key !in keys && Upto(i, keys, records, errors, cache)
    ensures Upto(i, keys + {key}, RecordsWith(i, key, records), if Fails(i, key) then errors + [key] else errors,
                 if Learns(i, key) then cache[key := Known(i, key).value] else cache)
  {
    CacheNext(i, keys, key);
    if VerdictOn(i, key).Some? {
      RecordsNext(i, keys, key, records, VerdictOn(i, key).value);
    } else {
      RecordsSkip(i, keys, key, records);
    }
  }

  /** One failed read never aborts the others: every other intent is still counted, once each however its
      id was spelled; the cache gains exactly the terminal intents read now, and never a pending one. */
  method ReadSolverRecord(i: Inputs, intentIds: seq<string>)
    returns (records: map<Address, Tally>, errors: seq<string>, complete: bool, cache: Cache)
    ensures RecordsAre(i, KeysOf(intentIds), records) && RecordsCount(i, KeysOf(intentIds), records)
    ensures forall key :: key in errors <==> key in KeysOf(intentIds) && Fails(i, key)
    ensures complete <==> forall key :: key in KeysOf(intentIds) ==> !Fails(i, key)
    ensures cache == CacheAfter(i, KeysOf(intentIds)) && CacheGains(i, KeysOf(intentIds), cache)
  {
    var normalized := Normalized(intentIds);
    ghost var keys: set<string> := {};
    records, errors, cache := map[], [], i.cache;
    for n := 0 to |normalized|
      invariant keys == set key | key in normalized[..n]
      invariant Upto(i, keys, records, errors, cache)
    {
      var key := normalized[n];
      UptoNext(i, keys, key, records, errors, cache);
      keys := keys + {key};
      var cached;
      if key in i.cache {
        cached := i.cache[key];
      } else {
        var onChain := i.read(key);
        if onChain.None? {
          errors := errors + [key];
          continue;
        }
        if onChain.value.status == IM.Pending || onChain.value.owner == ZERO {
          continue;
        }
        cached := Cached(onChain.value.status, onChain.value.solver);
        cache := cache[key := cached];
      }
      if cached.solver == ZERO {
        continue;
      }
      var verdict := Judge(cached, FirstExclusion(i.exclusions, key));
      var acc := if cached.solver in records then records[cached.solver] else NO_TALLY;
      records := records[cached.solver := Bump(acc, verdict.outcome)];
    }
    assert normalized[..|normalized|] == normalized;
    assert keys == KeysOf(intentIds);
    complete := |errors| == 0;
    RecordsAreCounts(i, keys, records);
    CacheAfterGains(i, keys);
    assert !complete ==> errors[0] in keys && Fails(i, errors[0]);
  }

  // ------------------------------------------------------------------ the cache changes nothing

  /** Which contract intent each key stands for. */
  type Naming = string -> IM.IntentId

  function ChainView(s: IM.State, id: IM.IntentId): View {
    var i := IM.Get(s.intents, id);
    View(i.owner, i.status, i.solver)
  }

  /** Every cached entry is what the chain says now. */
  ghost predicate TrueCache(cache: Cache, s: IM.State, naming: Naming) {
    forall key :: key in cache ==>
      && naming(key) in s.intents && s.intents[naming(key)].status != IM.Pending
      && cache[key] == Cached(s.intents[naming(key)].status, s.intents[naming(key)].solver)
  }

  /** Reads that fail or show the intent as it stood at some earlier point of the run to s. */
  ghost predicate LaggingReads(read: string -> Option<View>, s: IM.State, naming: Naming) {
    forall key :: read(key).Some? ==>
      exists s0: IM.State, events :: Safety.Inv(s0) && IM.Run(s0, events) == s && read(key).value == ChainView(s0, naming(key))
  }

  lemma TrueCacheStays(cache: Cache, s: IM.State, naming: Naming, events: seq<IM.Event>)
    requires Safety.Inv(s) && TrueCache(cache, s, naming)
    ensures TrueCache(cache, IM.Run(s, events), naming)
  {
    forall key | key in cache
      ensures naming(key) in IM.Run(s, events).intents
           && IM.Run(s, events).intents[naming(key)] == s.intents[naming(key)]
    {
      ContractRuns.RunLatched(s, events, naming(key));
    }
  }

  /** Terminal knowledge, however old the node that gave it, is true knowledge. */
  lemma KnownIsTrue(cache: Cache, read: string -> Option<View>, s: IM.State, naming: Naming, key: string)
    requires TrueCache(cache, s, naming) && LaggingReads(read, s, naming)
    ensures var i := Inputs(cache, [], read);
            var c := Known(i, key);
            c.Some? ==> (naming(key) in s.intents && s.intents[naming(key)].status != IM.Pending
                         && c.value == Cached(s.intents[naming(key)].status, s.intents[naming(key)].solver))
  {
    if key !in cache && read(key).Some? {
      var s0: IM.State, events :| Safety.Inv(s0) && IM.Run(s0, events) == s && read(key).value == ChainView(s0, naming(key));
      if read(key).value.status != IM.Pending {
        ContractRuns.RunLatched(s0, events, naming(key));
      }
    }
  }

  /** So the cache a run leaves is true again. */
  lemma RunLeavesTrueCache(i: Inputs, keys: set<string>, s: IM.State, naming: Naming)
    requires TrueCache(i.cache, s, naming) && LaggingReads(i.read, s, naming)
    ensures TrueCache(CacheAfter(i, keys), s, naming)
  {
    forall key | key in keys && Learns(i, key)
      ensures naming(key) in s.intents && s.intents[naming(key)].status != IM.Pending
           && Known(i, key).value == Cached(s.intents[naming(key)].status, s.intents[naming(key)].solver)
    {
      KnownIsTrue(i.cache, i.read, s, naming, key);
    }
  }

  /** One earlier run: what happened on the contract before it, what it was asked, how its reads answered. */
  datatype Round = Round(events: seq<IM.Event>, exclusions: seq<Exclusion>, keys: set<string>, read: string -> Option<View>)

  ghost predicate Played(s: IM.State, cache: Cache, rounds: seq<Round>, s': IM.State, cache': Cache, naming: Naming)
    decreases |rounds|
  {
    if rounds == [] then s' == s && cache' == cache
    else
      var (r, s1) := (rounds[0], IM.Run(s, rounds[0].events));
      && LaggingReads(r.read, s1, naming)
      && Played(s1, CacheAfter(Inputs(cache, r.exclusions, r.read), r.keys), rounds[1..], s', cache', naming)
  }

  lemma {:induction false} PlayedCacheIsTrue(s: IM.State, cache: Cache, rounds: seq<Round>, s': IM.State, cache': Cache, naming: Naming)
    requires Safety.Inv(s) && TrueCache(cache, s, naming) && Played(s, cache, rounds, s', cache', naming)
    ensures TrueCache(cache', s', naming) && Safety.Inv(s')
    decreases |rounds|
  {
    if rounds != [] {
      var (r, s1) := (rounds[0], IM.Run(s, rounds[0].events));
      var i := Inputs(cache, r.exclusions, r.read);
      Safety.RunKeeps(s, r.events);
      TrueCacheStays(cache, s, naming, r.events);
      RunLeavesTrueCache(i, r.keys, s1, naming);
      PlayedCacheIsTrue(s1, CacheAfter(i, r.keys), rounds[1..], s', cache', naming);
    }
  }

  function FreshReads(s: IM.State, naming: Naming): string -> Option<View> {
    key => Some(ChainView(s, naming(key)))
  }

  lemma SameVerdicts(i: Inputs, j: Inputs, keys: set<string>, records: map<Address, Tally>)
    requires forall key :: VerdictOn(i, key) == VerdictOn(j, key)
    ensures RecordsAre(i, keys, records) <==> RecordsAre(j, keys, records)
  {
    forall v
      ensures Counted(i, keys, v) == Counted(j, keys, v)
    {
      assert (set k | k in keys && VerdictOn(i, k) == Some(v)) == set k | k in keys && VerdictOn(j, k) == Some(v);
    }
    forall a
      ensures RecordOf(i, keys, a) == RecordOf(j, keys, a) && (Mentioned(i, keys, a) <==> Mentioned(j, keys, a))
    {
    }
  }

  lemma TrueCacheIsInvisible(cache: Cache, s: IM.State, naming: Naming, exclusions: seq<Exclusion>, key: string)
    requires Safety.Inv(s) && TrueCache(cache, s, naming)
    ensures var read := FreshReads(s, naming);
            VerdictOn(Inputs(cache, exclusions, read), key) == VerdictOn(Inputs(map[], exclusions, read), key)
  {
    var read := FreshReads(s, naming);
    var (warm, cold) := (Inputs(cache, exclusions, read), Inputs(map[], exclusions, read));
    if key in cache {
      OwnedIsReal(s, naming(key));
    }
    assert Known(warm, key) == Known(cold, key);
  }

  /** The cached record is the uncached one: whatever earlier runs, on earlier states of the contract and over
      lagging or failing nodes, left in the cache, a run on the current state reports what an empty cache would. */
  lemma CacheCoherence(s0: IM.State, rounds: seq<Round>, s: IM.State, cache: Cache, naming: Naming,
                       exclusions: seq<Exclusion>, keys: set<string>, records: map<Address, Tally>)
    requires Safety.Inv(s0) && Played(s0, map[], rounds, s, cache, naming)
    ensures RecordsAre(Inputs(cache, exclusions, FreshReads(s, naming)), keys, records)
            <==> RecordsAre(Inputs(map[], exclusions, FreshReads(s, naming)), keys, records)
  {
    PlayedCacheIsTrue(s0, map[], rounds, s, cache, naming);
    var (warm, cold) := (Inputs(cache, exclusions, FreshReads(s, naming)), Inputs(map[], exclusions, FreshReads(s, naming)));
    forall key
      ensures VerdictOn(warm, key) == VerdictOn(cold, key)
    {
      TrueCacheIsInvisible(cache, s, naming, exclusions, key);
    }
    SameVerdicts(warm, cold, keys, records);
  }

  lemma OwnedIsReal(s: IM.State, id: IM.IntentId)
    requires Safety.Inv(s) && id in s.intents
    ensures s.intents[id].owner != ZERO
  {
  }

  /** With failed or lagging reads every count is a lower bound on the true one. */
  lemma CountsAreLowerBounds(i: Inputs, s: IM.State, naming: Naming, keys: set<string>, v: Verdict)
    requires Safety.Inv(s) && TrueCache(i.cache, s, naming) && LaggingReads(i.read, s, naming)
    ensures Counted(i, keys, v) <= Counted(Inputs(map[], i.exclusions, FreshReads(s, naming)), keys, v)
  {
    var full := Inputs(map[], i.exclusions, FreshReads(s, naming));
    var (some, all) := (set k | k in keys && VerdictOn(i, k) == Some(v), set k | k in keys && VerdictOn(full, k) == Some(v));
    forall k | k in some
      ensures k in all
    {
      VerdictIsTrue(i, s, naming, k);
    }
    SubsetIsSmaller(some, all);
  }

  /** A verdict reached over lagging reads is the one the current chain gives. */
  lemma VerdictIsTrue(i: Inputs, s: IM.State, naming: Naming, key: string)
    requires Safety.Inv(s) && TrueCache(i.cache, s, naming) && LaggingReads(i.read, s, naming)
    requires VerdictOn(i, key).Some?
    ensures VerdictOn(Inputs(map[], i.exclusions, FreshReads(s, naming)), key) == VerdictOn(i, key)
  {
    KnownIsTrue(i.cache, i.read, s, naming, key);
    assert Known(i, key) == Known(Inputs(i.cache, [], i.read), key);
    OwnedIsReal(s, naming(key));
  }

  lemma SubsetIsSmaller<T>(a: set<T>, b: set<T>)
    requires a <= b
    ensures |a| <= |b|
  {
    assert a + (b - a) == b;
  }

  /** No solver is ever charged with an expired intent: the contract expires only intents without one. */
  lemma ExpiredIsNobodys(i: Inputs, s: IM.State, naming: Naming, keys: set<string>, a: Address)
    requires Safety.Inv(s) && TrueCache(i.cache, s, naming) && LaggingReads(i.read, s, naming)
    ensures Counted(i, keys, Verdict(a, WasExpired)) == 0
  {
    forall k
      ensures VerdictOn(i, k) != Some(Verdict(a, WasExpired))
    {
      KnownIsTrue(i.cache, i.read, s, naming, k);
      assert Known(i, k) == Known(Inputs(i.cache, [], i.read), k);
    }
    assert (set k | k in keys && VerdictOn(i, k) == Some(Verdict(a, WasExpired))) == {};
  }

  // ------------------------------------------------------------------ credit tiers

  datatype TierConfig = TierConfig(promoteMinResolved: int, promoteMinSuccess: real, demoteMinResolved: int, demoteMaxSuccess: real)
  datatype TierCaps = TierCaps(first: nat, second: nat, third: nat)

  const DEFAULT_CONFIG := TierConfig(10, 0.95, 3, 0.8)
  const DEFAULT_CAPS := TierCaps(100, 30, 5)

  function ComputeTier(onboarding: int, t: Tally, config: TierConfig, complete: bool): int {
    var (resolved, rate) := (Resolved(t), SuccessRate(t));
    if rate.None? then onboarding
    else
      var tier :=
        if complete && resolved >= config.promoteMinResolved && rate.value >= config.promoteMinSuccess then onboarding - 1
        else if resolved >= config.demoteMinResolved && rate.value < config.demoteMaxSuccess then onboarding + 1
        else onboarding;
      if tier < 1 then 1 else if tier > 3 then 3 else tier
  }

  /** The cap on one transfer; pct is the configured percentage after rounding. */
  function TierCapWei(tier: int, maxTransferWei: nat, caps: TierCaps): nat {
    maxTransferWei * (if tier <= 1 then caps.first else if tier == 2 then caps.second else caps.third) / 100
  }

  /** At most one step from onboarding, up only on complete data. */
  lemma TierMovesOneStep(onboarding: int, t: Tally, config: TierConfig, complete: bool)
    requires 1 <= onboarding <= 3
    ensures var tier := ComputeTier(onboarding, t, config, complete);
            && 1 <= tier <= 3 && onboarding - 1 <= tier <= onboarding + 1
            && (!complete ==> tier >= onboarding)
            && (Resolved(t) == 0 ==> tier == onboarding)
  {
  }

  /** One tier up exactly on complete data, enough history and a rate at or above the threshold; one down exactly,
      otherwise, on enough history and a rate below the other threshold; rates as shares of the resolved intents. */
  lemma TierExactly(onboarding: int, t: Tally, config: TierConfig, complete: bool)
    requires 1 <= onboarding <= 3
    ensures var (n, tier) := (t.settled + t.slashed, ComputeTier(onboarding, t, config, complete));
            var up := complete && n > 0 && n >= config.promoteMinResolved && t.settled as real >= config.promoteMinSuccess * n as real;
            var down := n > 0 && n >= config.demoteMinResolved && (t.settled as real) < config.demoteMaxSuccess * n as real;
            && (tier == onboarding - 1 <==> up && onboarding > 1)
            && (tier == onboarding + 1 <==> !up && down && onboarding < 3)
            && onboarding - 1 <= tier <= onboarding + 1
  {
    if Resolved(t) > 0 {
      ShareCompares(t.settled, Resolved(t), config.promoteMinSuccess);
      ShareCompares(t.settled, Resolved(t), config.demoteMaxSuccess);
    }
  }

  lemma ShareCompares(a: nat, n: nat, c: real)
    requires n > 0
    ensures a as real / n as real >= c <==> a as real >= c * n as real
  {
    var x := a as real / n as real;
    assert x * n as real == a as real;
    assert (x - c) * n as real == a as real - c * n as real;
  }

  /** The cap is the tier's percentage of the largest transfer, rounded down: the first tier's, the second's, the third's. */
  lemma CapExactly(tier: int, max: nat, caps: TierCaps)
    requires 1 <= tier <= 3
    ensures var cap := TierCapWei(tier, max, caps);
            && (tier == 1 ==> 100 * cap <= max * caps.first < 100 * cap + 100)
            && (tier == 2 ==> 100 * cap <= max * caps.second < 100 * cap + 100)
            && (tier == 3 ==> 100 * cap <= max * caps.third < 100 * cap + 100)
  {
  }

  predicate Promoted(t: Tally, config: TierConfig, complete: bool) {
    complete && SuccessRate(t).Some? && Resolved(t) >= config.promoteMinResolved && SuccessRate(t).value >= config.promoteMinSuccess
  }

  predicate Demotable(t: Tally, config: TierConfig) {
    SuccessRate(t).Some? && Resolved(t) >= config.demoteMinResolved && SuccessRate(t).value < config.demoteMaxSuccess
  }

  function Delivered(t: Tally, more: nat): Tally {
    t.(settled := t.settled + more)
  }

  /** When more deliveries, and nothing else, cost a solver a tier: exactly when it is not at the lowest already,
      had too little history to be demoted, and has enough of it now, at a rate still too low. */
  lemma DeliveryCostsATierExactly(onboarding: int, t: Tally, more: nat, config: TierConfig, complete: bool)
    requires 1 <= onboarding <= 3
    ensures ComputeTier(onboarding, Delivered(t, more), config, complete) > ComputeTier(onboarding, t, config, complete)
            <==> && onboarding < 3 && (Resolved(t) == 0 || Resolved(t) < config.demoteMinResolved)
                 && more > 0 && Demotable(Delivered(t, more), config) && !Promoted(Delivered(t, more), config, complete)
  {
    if Resolved(t) > 0 {
      RateGrows(t.settled, t.slashed, more);
      assert SuccessRate(Delivered(t, more)).value >= SuccessRate(t).value;
    }
  }

  /** With the shipped thresholds: one delivery after one success and one slash turns tier 2 into tier 3. */
  lemma DeliveryCanCostATier()
    ensures var t := Tally(1, 1, 0, 0, 0);
            ComputeTier(2, t, DEFAULT_CONFIG, true) == 2 && ComputeTier(2, Delivered(t, 1), DEFAULT_CONFIG, true) == 3
  {
    var t := Tally(1, 1, 0, 0, 0);
    assert SuccessRate(Delivered(t, 1)) == Some(2.0 / 3.0);
  }

  lemma CrossMultiply(a: real, n: real, m: real)
    requires 0.0 <= a <= n && m >= 0.0
    ensures (a + m) * n >= a * (n + m)
  {
    assert m * n >= m * a;
  }

  lemma RateGrows(settled: nat, slashed: nat, more: nat)
    requires settled + slashed > 0
    ensures (settled + more) as real / (settled + more + slashed) as real >= settled as real / (settled + slashed) as real
  {
    var (a, n, m) := (settled as real, (settled + slashed) as real, more as real);
    CrossMultiply(a, n, m);
    DivideBoth(a + m, n + m, a, n);
  }

  lemma DivideBoth(a: real, b: real, c: real, d: real)
    requires b > 0.0 && d > 0.0 && a * d >= c * b
    ensures a / b >= c / d
  {
    var (x, y) := (a / b, c / d);
    assert x * b == a && y * d == c;
    assert (x - y) * (b * d) == a * d - c * b;
  }

  /** On incomplete data no solver is trusted with more than its onboarding tier allows. */
  lemma IncompleteNeverRaisesTheCap(onboarding: int, t: Tally, config: TierConfig, maxTransferWei: nat, caps: TierCaps)
    requires 1 <= onboarding <= 3 && caps.first >= caps.second >= caps.third
    ensures TierCapWei(ComputeTier(onboarding, t, config, false), maxTransferWei, caps)
            <= TierCapWei(onboarding, maxTransferWei, caps)
  {
    TierMovesOneStep(onboarding, t, config, false);
    CapsFall(maxTransferWei, caps.first, caps.second);
    CapsFall(maxTransferWei, caps.second, caps.third);
  }

  lemma CapsFall(max: nat, high: nat, low: nat)
    requires high >= low
    ensures max * high / 100 >= max * low / 100
  {
    assert max * high >= max * low;
  }
}
