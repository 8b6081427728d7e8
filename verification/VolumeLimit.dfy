/** When the daily limit bounds what is accepted within any 24 hours, and not only within its own window. */
module VolumeLimit {
  import opened Options
  import opened IntentManager
  import opened IntentManagerSafety
  import opened IntentManagerRuns

  /** Whatever happens in the next 24 hours, with the limit unchanged, at most the limit is accepted. */
  ghost predicate DayWithinLimit(s: State) {
    forall events :: LimitStays(s, events, s.window.limit) && Run(s, events).now <= s.now + VOLUME_WINDOW
      ==> Accepted(s, events) <= s.window.limit
  }

  /** Between two transactions, with an owner, and with two more intents to be numbered. */
  predicate AtRest(s: State) {
    && !s.locked && s.owner != ZERO && s.nonce + 2 < U256
    && s.window.limit < U256 && s.window.lastReset <= s.now
  }

  /** The next submission starts a new window, or this one started just now, or it has nothing left. */
  predicate FreshOrFull(s: State) {
    s.now > s.window.lastReset + VOLUME_WINDOW || s.now == s.window.lastReset || s.window.volume >= s.window.limit
  }

  /** The limit holds over the next 24 hours, and not only over the window, exactly then. */
  lemma DayWithinLimitExactly(s: State, sender: Address)
    requires AtRest(s) && sender != ZERO
    ensures DayWithinLimit(s) <==> FreshOrFull(s)
  {
    if FreshOrFull(s) {
      forall events | LimitStays(s, events, s.window.limit) && Run(s, events).now <= s.now + VOLUME_WINDOW
        ensures Accepted(s, events) <= s.window.limit
      {
        FreshOrFullSuffices(s, events);
      }
    } else {
      var events := Overrun(s, sender);
    }
  }

  lemma FreshOrFullSuffices(s: State, events: seq<Event>)
    requires FreshOrFull(s) && LimitStays(s, events, s.window.limit) && Run(s, events).now <= s.now + VOLUME_WINDOW
    ensures Accepted(s, events) <= s.window.limit
  {
    if s.now > s.window.lastReset + VOLUME_WINDOW {
      ResetFirst(s, events, s.window.limit);
    } else if s.now == s.window.lastReset {
      WithinWindow(s, events, s.window.limit);
    } else {
      OneResetFits(s, events, s.window.limit);
    }
  }

  lemma ResetIsDue(s: State, e: Event)
    requires s.now > s.window.lastReset + VOLUME_WINDOW && AcceptedBy(s, e) > 0
    ensures var w := Step(s, e).window; w.lastReset == s.now && w.volume == AcceptedBy(s, e) <= w.limit
  {
    SingleTransaction(s, e.tx);
    SubmitEffect(s, e.tx);
  }

  /** An expired window is reset by the first acceptance, which then opens the only window there is. */
  lemma {:induction false} ResetFirst(s: State, events: seq<Event>, limit: nat)
    requires LimitStays(s, events, limit) && s.now > s.window.lastReset + VOLUME_WINDOW
    requires Run(s, events).now <= s.now + VOLUME_WINDOW
    ensures Accepted(s, events) <= limit
    decreases |events|
  {
    if events != [] {
      var s' := Step(s, events[0]);
      StepVolume(s, events[0], limit);
      if AcceptedBy(s, events[0]) > 0 {
        ResetIsDue(s, events[0]);
        WithinWindow(s', events[1..], limit);
      } else {
        ResetFirst(s', events[1..], limit);
      }
    }
  }

  // ------------------------------------------------------------------ two submissions around a reset

  function Offer(sender: Address, amount: nat, expiry: nat): Event {
    Transact(Tx(sender, amount, SubmitIntent(NATIVE, amount, 0, 0, expiry, 0, 0, Callback(true, []))))
  }

  lemma OfferIsAccepted(s: State, sender: Address, amount: nat, expiry: nat)
    requires !s.paused && !s.locked && s.nonce + 1 < U256 && sender != ZERO && amount > 0 && expiry > s.now
    requires Admit(s.window, s.now, amount).Some?
    ensures var (e, s') := (Offer(sender, amount, expiry), Step(s, Offer(sender, amount, expiry)));
            && AcceptedBy(s, e) == amount && s'.window == Admit(s.window, s.now, amount).value
            && s'.now == s.now && !s'.paused && !s'.locked && s'.nonce == s.nonce + 1
  {
    var tx := Offer(sender, amount, expiry).tx;
    assert Apply(s, tx) == Submit(s, tx);
    SingleTransaction(s, tx);
  }

  /** The rest of the limit at once, the whole of it as soon as the window has ended. */
  function Around(s: State, sender: Address): seq<Event>
    requires s.window.lastReset < s.now <= s.window.lastReset + VOLUME_WINDOW && s.window.volume < s.window.limit
  {
    var (rest, wait) := (s.window.limit - s.window.volume, s.window.lastReset + VOLUME_WINDOW + 1 - s.now);
    [Offer(sender, rest, s.now + 1), Tick(wait), Offer(sender, s.window.limit, s.now + wait + 1)]
  }

  lemma Straddles(s: State, sender: Address)
    requires AtRest(s) && !s.paused && sender != ZERO && !FreshOrFull(s)
    ensures LimitStays(s, Around(s, sender), s.window.limit) && Run(s, Around(s, sender)).now <= s.now + VOLUME_WINDOW
    ensures Accepted(s, Around(s, sender)) == 2 * s.window.limit - s.window.volume > s.window.limit
  {
    var (limit, events) := (s.window.limit, Around(s, sender));
    OfferIsAccepted(s, sender, limit - s.window.volume, s.now + 1);
    var s1 := Step(s, events[0]);
    var s2 := Step(s1, events[1]);
    OfferIsAccepted(s2, sender, limit, s2.now + 1);
    ThreeSteps(s, events, limit);
  }

  /** A pause is no bound either: the owner may end it. */
  lemma Overrun(s: State, sender: Address) returns (events: seq<Event>)
    requires AtRest(s) && sender != ZERO && !FreshOrFull(s)
    ensures LimitStays(s, events, s.window.limit) && Run(s, events).now <= s.now + VOLUME_WINDOW
    ensures Accepted(s, events) > s.window.limit
  {
    if s.paused {
      var unpause := Transact(Tx(s.owner, 0, Unpause));
      SingleTransaction(s, unpause.tx);
      var s0 := s.(paused := false);
      assert Apply(s, unpause.tx) == Administer(s, unpause.tx) && Step(s, unpause) == s0;
      Straddles(s0, sender);
      events := [unpause] + Around(s0, sender);
      assert events[1..] == Around(s0, sender);
    } else {
      Straddles(s, sender);
      events := Around(s, sender);
    }
  }

  lemma ThreeSteps(s: State, events: seq<Event>, limit: nat)
    requires |events| == 3
    ensures var s1 := Step(s, events[0]); var s2 := Step(s1, events[1]); var s3 := Step(s2, events[2]);
            && Run(s, events) == s3
            && Accepted(s, events) == AcceptedBy(s, events[0]) + AcceptedBy(s1, events[1]) + AcceptedBy(s2, events[2])
            && (s.window.limit == s1.window.limit == s2.window.limit == s3.window.limit == limit ==> LimitStays(s, events, limit))
  {
    var s1 := Step(s, events[0]);
    var s2 := Step(s1, events[1]);
    var s3 := Step(s2, events[2]);
    var (two, one) := (events[1..], events[2..]);
    assert two[1..] == one && one[1..] == [];
    assert Run(s3, []) == s3 && Accepted(s3, []) == 0;
    assert Run(s2, one) == s3 && Run(s1, two) == s3;
    assert Accepted(s2, one) == AcceptedBy(s2, events[2]);
    assert Accepted(s1, two) == AcceptedBy(s1, events[1]) + Accepted(s2, one);
    assert LimitStays(s3, [], s3.window.limit);
  }
}
