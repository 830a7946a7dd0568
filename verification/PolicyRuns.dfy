/** The policy engine over whole runs: any sequence of checks, operator resets and status queries, by any
    mix of agents, under a clock that never runs backwards. What the engine remembers of a run is compared
    with the run itself. */
module PolicyRuns {
  import opened Results
  import opened Policy
  import opened PolicyLaws

  datatype Event =
    | Check(proposal: Proposal, now: int, recordedAt: int)
    | Reset(agentId: string)
    | Status(agentId: string, at: int)

  function Step(s: PolicyState, e: Event): PolicyState {
    match e
    case Check(p, now, recordedAt) => NextState(p, s, now, recordedAt)
    case Reset(a) => ResetState(s, a)
    case Status(a, _) => TouchState(s, a)
  }

  /** The state after all events, starting from a new engine. */
  function Run(es: seq<Event>): PolicyState {
    if es == [] then INITIAL_STATE else Step(Run(es[..|es| - 1]), es[|es| - 1])
  }

  predicate ApprovedFor(a: string, s: PolicyState, e: Event) {
    e.Check? && e.proposal.profile.agentId == a && ApprovesSwap(e.proposal, s, e.now)
  }

  /** The times at which swaps of `a` were approved, over the whole run. */
  function Approvals(es: seq<Event>, a: string): seq<int> {
    if es == [] then []
    else
      var before := es[..|es| - 1];
      var last := es[|es| - 1];
      if ApprovedFor(a, Run(before), last) then Approvals(before, a) + [last.recordedAt] else Approvals(before, a)
  }

  /** The readings taken during `es` never decrease and none is later than `until`. Resets read no clock. */
  predicate ClockOrdered(es: seq<Event>, until: int) {
    es == [] ||
    var last := es[|es| - 1];
    match last
    case Check(_, now, recordedAt) => now <= recordedAt <= until && ClockOrdered(es[..|es| - 1], now)
    case Reset(_) => ClockOrdered(es[..|es| - 1], until)
    case Status(_, at) => at <= until && ClockOrdered(es[..|es| - 1], at)
  }

  lemma ApprovalMeansRoom(p: Proposal, s: PolicyState, now: int)
    requires ApprovesSwap(p, s, now)
    ensures |Purged(p, s, now)| < RATE_LIMIT_MAX
  {
    ApprovalMeansPasses(p, s, now);
  }

  lemma ApprovalMeansWithin(p: Proposal, s: PolicyState, now: int)
    requires ApprovesSwap(p, s, now)
    ensures !IsRestricted(s, p.profile.agentId)
    ensures var value := PortfolioUsd(p.balance, p.prices);
            DrawdownPct(value, RaisedHigh(s, p.profile.agentId, value)) > p.profile.stopLossTriggerPct
  {
    ApprovalMeansPasses(p, s, now);
  }

  /** How one event moves the limiter of `a`. */
  lemma StepLimiter(s: PolicyState, e: Event, a: string)
    ensures Limiter(Step(s, e), a) ==
            if e.Check? && e.proposal.profile.agentId == a
            then (if ApprovedFor(a, s, e) then Purged(e.proposal, s, e.now) + [e.recordedAt]
                else Purged(e.proposal, s, e.now))
            else Limiter(s, a)
  {
  }

  // ----- The sliding window ------------------------------------------------------------------

  lemma {:induction false} ActiveAppend(xs: seq<int>, x: int, cut: int)
    ensures Active(xs + [x], cut) == Active(xs, cut) + (if x > cut then [x] else [])
  {
    assert (xs + [x])[..|xs|] == xs;
  }

  lemma {:induction false} ActiveOfActive(xs: seq<int>, early: int, late: int)
    requires early <= late
    ensures Active(Active(xs, early), late) == Active(xs, late)
  {
    if xs != [] {
      var n := |xs| - 1;
      ActiveOfActive(xs[..n], early, late);
      if xs[n] > early {
        ActiveAppend(Active(xs[..n], early), xs[n], late);
      } else {
        assert Active(xs, early) == Active(xs[..n], early);
      }
    }
  }

  lemma {:induction false} ActiveLength(xs: seq<int>, cut: int)
    ensures |Active(xs, cut)| <= |xs|
  {
    if xs != [] {
      ActiveLength(xs[..|xs| - 1], cut);
    }
  }

  /** At every later moment, the stored list and the full approval history have the same entries in
      the window: purging forgets nothing that still counts. */
  lemma {:induction false} WindowIsHistory(es: seq<Event>, a: string, now: int)
    requires ClockOrdered(es, now)
    ensures Active(Limiter(Run(es), a), now - RATE_LIMIT_WINDOW_MS)
        == Active(Approvals(es, a), now - RATE_LIMIT_WINDOW_MS)
  {
    if es != [] {
      var before := es[..|es| - 1];
      var e := es[|es| - 1];
      var more := AfterEvent(es, a);
      if e.Check? && e.proposal.profile.agentId == a {
        WindowIsHistory(before, a, e.now);
        PurgeKeepsWindow(Limiter(Run(before), a), Approvals(before, a), e, more, now);
      } else {
        ClockOrderedLater(before, LastReading(e, now), now);
        WindowIsHistory(before, a, now);
      }
    }
  }

  /** What an event leaves in the limiter of an agent and in its history: a check of the agent purges the
      one and may add its time to both. */
  lemma AfterEvent(es: seq<Event>, a: string) returns (more: seq<int>)
    requires es != []
    ensures var before, e := es[..|es| - 1], es[|es| - 1];
            if e.Check? && e.proposal.profile.agentId == a
            then (more == [] || more == [e.recordedAt]) && Approvals(es, a) == Approvals(before, a) + more
                && Limiter(Run(es), a) == Active(Limiter(Run(before), a), e.now - RATE_LIMIT_WINDOW_MS) + more
            else Limiter(Run(es), a) == Limiter(Run(before), a) && Approvals(es, a) == Approvals(before, a)
  {
    var before, e := es[..|es| - 1], es[|es| - 1];
    StepLimiter(Run(before), e, a);
    more := if ApprovedFor(a, Run(before), e) then [e.recordedAt] else [];
  }

  lemma PurgeKeepsWindow(stored: seq<int>, history: seq<int>, e: Event, more: seq<int>, now: int)
    requires e.Check? && e.now <= now && (more == [] || more == [e.recordedAt])
    requires Active(stored, e.now - RATE_LIMIT_WINDOW_MS) == Active(history, e.now - RATE_LIMIT_WINDOW_MS)
    ensures Active(Active(stored, e.now - RATE_LIMIT_WINDOW_MS) + more, now - RATE_LIMIT_WINDOW_MS)
        == Active(history + more, now - RATE_LIMIT_WINDOW_MS)
  {
    var kept := Active(stored, e.now - RATE_LIMIT_WINDOW_MS);
    var cut := now - RATE_LIMIT_WINDOW_MS;
    ActiveOfActive(history, e.now - RATE_LIMIT_WINDOW_MS, cut);
    if more == [] {
      assert kept + more == kept && history + more == history;
    } else {
      ActiveAppend(kept, e.recordedAt, cut);
      ActiveAppend(history, e.recordedAt, cut);
    }
  }

  function LastReading(e: Event, now: int): int {
    match e case Check(_, n, _) => n case Reset(_) => now case Status(_, at) => at
  }

  lemma {:induction false} ClockOrderedLater(es: seq<Event>, until: int, later: int)
    requires ClockOrdered(es, until) && until <= later
    ensures ClockOrdered(es, later)
  {
    if es != [] && es[|es| - 1].Reset? {
      ClockOrderedLater(es[..|es| - 1], until, later);
    }
  }

  lemma {:induction false} ApprovalsOrdered(es: seq<Event>, a: string, until: int)
    requires ClockOrdered(es, until)
    ensures forall i, j | 0 <= i <= j < |Approvals(es, a)| :: Approvals(es, a)[i] <= Approvals(es, a)[j] <= until
  {
    if es != [] {
      var e := es[|es| - 1];
      ApprovalsOrdered(es[..|es| - 1], a, LastReading(e, until));
    }
  }

  lemma {:induction false} ActiveSuffix(xs: seq<int>, cut: int, i: nat)
    requires i < |xs| && xs[i] > cut && forall j, k | 0 <= j <= k < |xs| :: xs[j] <= xs[k]
    ensures |Active(xs, cut)| >= |xs| - i
  {
    if i < |xs| - 1 {
      ActiveSuffix(xs[..|xs| - 1], cut, i);
    }
  }

  /** In every run, an approved swap of an agent and the fifth approved swap after it are at least
      sixty seconds apart. */
  lemma {:induction false} FiveInAnyWindow(es: seq<Event>, a: string, until: int, i: nat)
    requires ClockOrdered(es, until) && i + RATE_LIMIT_MAX < |Approvals(es, a)|
    ensures Approvals(es, a)[i + RATE_LIMIT_MAX] - Approvals(es, a)[i] >= RATE_LIMIT_WINDOW_MS
  {
    var before := es[..|es| - 1];
    var e := es[|es| - 1];
    var earlier := Approvals(before, a);
    if ApprovedFor(a, Run(before), e) && i + RATE_LIMIT_MAX == |earlier| {
      var cut := e.now - RATE_LIMIT_WINDOW_MS;
      WindowIsHistory(before, a, e.now);
      ApprovalMeansRoom(e.proposal, Run(before), e.now);
      ApprovalsOrdered(before, a, e.now);
      if earlier[i] > cut {
        ActiveSuffix(earlier, cut, i);
        assert false;
      }
    } else {
      FiveInAnyWindow(before, a, LastReading(e, until), i);
    }
  }

  const DAY_MS: int := 86_400_000

  /** Five approvals a minute, for a day. */
  const APPROVALS_PER_DAY: nat := 7200

  lemma {:induction false} FifthsAreApart(xs: seq<int>, i: nat, j: nat)
    requires forall k | 0 <= k && k + RATE_LIMIT_MAX < |xs| :: xs[k + RATE_LIMIT_MAX] - xs[k] >= RATE_LIMIT_WINDOW_MS
    requires i + RATE_LIMIT_MAX * j < |xs|
    ensures xs[i + RATE_LIMIT_MAX * j] - xs[i] >= RATE_LIMIT_WINDOW_MS * j
  {
    if j > 0 {
      FifthsAreApart(xs, i, j - 1);
      assert i + RATE_LIMIT_MAX * j == (i + RATE_LIMIT_MAX * (j - 1)) + RATE_LIMIT_MAX;
    }
  }

  lemma {:induction false} NoneActive(ts: seq<int>, cut: int)
    requires forall i | 0 <= i < |ts| :: ts[i] <= cut
    ensures Active(ts, cut) == []
  {
    if ts != [] { NoneActive(ts[..|ts| - 1], cut); }
  }

  lemma {:induction false} ActiveIsSuffix(xs: seq<int>, cut: int)
    requires Active(xs, cut) != [] && forall j, k | 0 <= j <= k < |xs| :: xs[j] <= xs[k]
    ensures |Active(xs, cut)| <= |xs| && xs[|xs| - |Active(xs, cut)|] > cut
  {
    var n := |xs| - 1;
    if xs[n] <= cut {
      NoneActive(xs, cut);
    } else if Active(xs[..n], cut) != [] {
      ActiveIsSuffix(xs[..n], cut);
    }
  }

  /** In every run, an agent has at most 7200 swaps approved within any 24 hours. */
  lemma DayLimit(es: seq<Event>, a: string, cut: int, until: int)
    requires ClockOrdered(es, until) && until <= cut + DAY_MS
    ensures |Active(Approvals(es, a), cut)| <= APPROVALS_PER_DAY
  {
    var xs := Approvals(es, a);
    var m := |Active(xs, cut)|;
    ApprovalsOrdered(es, a, until);
    if m > APPROVALS_PER_DAY {
      ActiveIsSuffix(xs, cut);
      forall k | 0 <= k && k + RATE_LIMIT_MAX < |xs|
        ensures xs[k + RATE_LIMIT_MAX] - xs[k] >= RATE_LIMIT_WINDOW_MS
      {
        FiveInAnyWindow(es, a, until, k);
      }
      FifthsAreApart(xs, |xs| - m, 1440);
      assert false;
    }
  }

  /** The stored list never exceeds five entries, whatever the clock does. */
  lemma {:induction false} LimiterBounded(es: seq<Event>, a: string)
    ensures |Limiter(Run(es), a)| <= RATE_LIMIT_MAX
  {
    if es != [] {
      var before := es[..|es| - 1];
      var e := es[|es| - 1];
      LimiterBounded(before, a);
      StepLimiter(Run(before), e, a);
      if e.Check? {
        ActiveLength(Limiter(Run(before), a), e.now - RATE_LIMIT_WINDOW_MS);
      }
      if ApprovedFor(a, Run(before), e) {
        ApprovalMeansRoom(e.proposal, Run(before), e.now);
      }
    }
  }

  /** The status query reports the number of swaps approved within the last minute. */
  lemma StatusAgreesWithHistory(es: seq<Event>, a: string, now: int)
    requires ClockOrdered(es, now)
    ensures |Active(Limiter(TouchState(Run(es), a), a), now - RATE_LIMIT_WINDOW_MS)|
        == |Active(Approvals(es, a), now - RATE_LIMIT_WINDOW_MS)|
    ensures |Active(Approvals(es, a), now - RATE_LIMIT_WINDOW_MS)| <= RATE_LIMIT_MAX
  {
    WindowIsHistory(es, a, now);
    LimiterBounded(es, a);
    ActiveLength(Limiter(Run(es), a), now - RATE_LIMIT_WINDOW_MS);
  }

  // ----- The stop-loss latch -----------------------------------------------------------------

  /** What one check showed the latch: the portfolio value and the trigger of the profile. */
  datatype Sample = Sample(value: real, trigger: real)

  /** The samples of `a` since its last reset, and whether there was a reset that took effect. */
  datatype Session = Session(fromReset: bool, samples: seq<Sample>)

  function SampleOf(p: Proposal): Sample {
    Sample(PortfolioUsd(p.balance, p.prices), p.profile.stopLossTriggerPct)
  }

  /** A reset before the first check of an agent finds no state and changes nothing. */
  function SessionOf(es: seq<Event>, a: string): Session {
    if es == [] then Session(false, [])
    else
      var before := SessionOf(es[..|es| - 1], a);
      match es[|es| - 1]
      case Check(p, _, _) => if p.profile.agentId == a then before.(samples := before.samples + [SampleOf(p)])
          else before
      case Reset(b) => if b == a && (before.fromReset || before.samples != []) then Session(true, []) else before
      case Status(_, _) => before
  }

  function MaxValue(samples: seq<Sample>): real
    requires samples != []
  {
    var last := samples[|samples| - 1].value;
    if |samples| == 1 then last
    else if MaxValue(samples[..|samples| - 1]) >= last then MaxValue(samples[..|samples| - 1]) else last
  }

  /** The running maximum of the session; a reset puts it back to zero. */
  function SessionHigh(s: Session): real
    requires s.fromReset || s.samples != []
  {
    if s.samples == [] then 0.0
    else if s.fromReset && MaxValue(s.samples) < 0.0 then 0.0
    else MaxValue(s.samples)
  }

  predicate BreachAt(s: Session, k: nat)
    requires k < |s.samples|
  {
    DrawdownPct(s.samples[k].value, SessionHigh(s.(samples := s.samples[..k + 1]))) <= s.samples[k].trigger
  }

  ghost predicate Breached(s: Session) {
    exists k: nat | k < |s.samples| :: BreachAt(s, k)
  }

  lemma BreachedAppend(s: Session, x: Sample)
    ensures Breached(s.(samples := s.samples + [x])) <==>
        Breached(s) || BreachAt(s.(samples := s.samples + [x]), |s.samples|)
  {
    var t := s.(samples := s.samples + [x]);
    forall k: nat | k < |s.samples| ensures BreachAt(t, k) <==> BreachAt(s, k) {
      assert t.samples[..k + 1] == s.samples[..k + 1];
    }
    if Breached(s) {
      var k: nat :| k < |s.samples| && BreachAt(s, k);
      assert BreachAt(t, k);
    }
    if Breached(t) {
      var k: nat :| k < |t.samples| && BreachAt(t, k);
      assert k < |s.samples| ==> BreachAt(s, k);
    }
  }

  lemma SessionHighAppend(s: Session, x: Sample)
    ensures SessionHigh(s.(samples := s.samples + [x])) ==
            if (s.fromReset || s.samples != []) && SessionHigh(s) >= x.value then SessionHigh(s) else x.value
  {
    assert (s.samples + [x])[..|s.samples|] == s.samples;
  }

  /** In every run the stored high is the running maximum since the last reset, and the latch is
      closed exactly when some check since then breached the drawdown trigger. */
  lemma {:induction false} LatchIsHistory(es: seq<Event>, a: string)
    ensures var s := SessionOf(es, a);
            && (a in Run(es).stopLossStates <==> s.fromReset || s.samples != [])
            && (a in Run(es).stopLossStates ==>
                  Run(es).stopLossStates[a].sessionHighUsd == SessionHigh(s)
                  && (Run(es).stopLossStates[a].restricted <==> Breached(s)))
  {
    if es != [] {
      var before := es[..|es| - 1];
      var e := es[|es| - 1];
      LatchIsHistory(before, a);
      if e.Check? && e.proposal.profile.agentId == a {
        LatchOnCheck(before, e.proposal, a);
      }
    }
  }

  lemma LatchOnCheck(before: seq<Event>, p: Proposal, a: string)
    requires p.profile.agentId == a
    requires var s := SessionOf(before, a);
             && (a in Run(before).stopLossStates <==> s.fromReset || s.samples != [])
             && (a in Run(before).stopLossStates ==>
                   Run(before).stopLossStates[a].sessionHighUsd == SessionHigh(s)
                   && (Run(before).stopLossStates[a].restricted <==> Breached(s)))
    ensures var s := SessionOf(before, a);
            var t := s.(samples := s.samples + [SampleOf(p)]);
            Latched(p, Run(before)) == StopLossState(SessionHigh(t), Breached(t))
  {
    var s := SessionOf(before, a);
    var x := SampleOf(p);
    var t := s.(samples := s.samples + [x]);
    SessionHighAppend(s, x);
    BreachedAppend(s, x);
    assert t.samples[..|s.samples| + 1] == t.samples;
    assert t.(samples := t.samples) == t;
    assert SessionHigh(t) == RaisedHigh(Run(before), a, x.value);
    if !IsRestricted(Run(before), a) {
      assert !Breached(s);
      assert CheckStopLoss(p, Run(before)).passed <==> !BreachAt(t, |s.samples|);
    }
  }

  /** An approved swap's portfolio is strictly above the trigger's share of the session high. */
  lemma ApprovedAboveTrigger(p: Proposal, s: PolicyState, now: int)
    requires ApprovesSwap(p, s, now)
    ensures var high := RaisedHigh(s, p.profile.agentId, PortfolioUsd(p.balance, p.prices));
            high > 0.0 ==> PortfolioUsd(p.balance, p.prices) > (1.0 + p.profile.stopLossTriggerPct / 100.0) * high
  {
    ApprovalMeansWithin(p, s, now);
    var value := PortfolioUsd(p.balance, p.prices);
    var high := RaisedHigh(s, p.profile.agentId, value);
    if high > 0.0 {
      DrawdownAbove(value, high, p.profile.stopLossTriggerPct);
    }
  }

  /** No swap is approved in a session that has breached. */
  lemma NoApprovalAfterBreach(es: seq<Event>, p: Proposal, now: int)
    requires Breached(SessionOf(es, p.profile.agentId))
    ensures !ApprovesSwap(p, Run(es), now)
  {
    LatchIsHistory(es, p.profile.agentId);
    if ApprovesSwap(p, Run(es), now) {
      ApprovalMeansWithin(p, Run(es), now);
    }
  }

  lemma DrawdownAbove(value: real, high: real, trigger: real)
    requires high > 0.0 && DrawdownPct(value, high) > trigger
    ensures value > (1.0 + trigger / 100.0) * high
  {
    var q := (value - high) / high;
    assert q * high == value - high;
    assert q > trigger / 100.0;
    assert (q - trigger / 100.0) * high > 0.0;
  }
}
