/** Putting runs of the settlement protocol together. */
module ProtocolRuns {
  import opened Settlement

  ghost predicate Leads(s: State, s': State) {
    exists steps :: Runs(s, steps, s')
  }

  /** Nobody but the orchestrator, its children and the two chains takes a step. */
  predicate Alone(steps: seq<Step>) {
    forall i :: 0 <= i < |steps| ==> !steps[i].OtherParty?
  }

  ghost predicate LeadsAlone(s: State, s': State) {
    exists steps :: Runs(s, steps, s') && Alone(steps)
  }

  lemma RunOne(s: State, step: Step)
    requires s.history != [] && Enabled(s, step)
    ensures Runs(s, [step], Do(s, step))
  {
    assert Runs(Do(s, step), [step][1..], Do(s, step));
  }

  lemma {:induction false} RunsJoin(s: State, xs: seq<Step>, mid: State, ys: seq<Step>, s': State)
    requires Runs(s, xs, mid) && Runs(mid, ys, s')
    ensures Runs(s, xs + ys, s')
    decreases |xs|
  {
    if xs == [] {
      assert xs + ys == ys;
    } else {
      RunsJoin(Do(s, xs[0]), xs[1..], mid, ys, s');
      assert (xs + ys)[1..] == xs[1..] + ys;
    }
  }

  lemma Stay(s: State)
    ensures LeadsAlone(s, s) && Leads(s, s)
  {
    assert Runs(s, [], s) && Alone([]);
  }

  lemma Take(s: State, mid: State, step: Step, s': State)
    requires Leads(s, mid) && mid.history != [] && Enabled(mid, step) && s' == Do(mid, step)
    ensures Leads(s, s') && (LeadsAlone(s, mid) && !step.OtherParty? ==> LeadsAlone(s, s'))
  {
    var steps :| Runs(s, steps, mid) && (LeadsAlone(s, mid) ==> Alone(steps));
    RunOne(mid, step);
    RunsJoin(s, steps, mid, [step], s');
    assert LeadsAlone(s, mid) && !step.OtherParty? ==> Alone(steps + [step]);
  }

  lemma LeadsOn(a: State, b: State, c: State)
    requires Leads(a, b) && Leads(b, c)
    ensures Leads(a, c) && (LeadsAlone(a, b) && LeadsAlone(b, c) ==> LeadsAlone(a, c))
  {
    var xs :| Runs(a, xs, b) && (LeadsAlone(a, b) ==> Alone(xs));
    var ys :| Runs(b, ys, c) && (LeadsAlone(b, c) ==> Alone(ys));
    RunsJoin(a, xs, b, ys, c);
    assert LeadsAlone(a, b) && LeadsAlone(b, c) ==> Alone(xs + ys);
  }
}
