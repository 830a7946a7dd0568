/** What whole runs of the control plane guarantee: the daily cap, that every executed swap has its engine
    check, and that every check sees listed tokens only. */
module ControlPlaneRuns {
  import opened Policy
  import opened AuditLog
  import opened AgentCycle
  import opened ControlPlane
  import PolicyRuns
  import PolicyLaws

  // ----- Whole runs ------------------------------------------------------------------------------------------------

  /** A run from the initial world in which the start of the day never moves backwards and at most n
      swaps of `a` are ever pending at once. */
  ghost predicate RunOk(ss: seq<Step>, setup: Setup, a: string, n: nat)
    decreases |ss|, 0
  {
    ss == [] ||
    var front := ss[..|ss| - 1];
    && RunOk(front, setup, a, n)
    && Enabled(WorldAfter(front, setup, a, n), ss[|ss| - 1])
    && DayOf(front) <= DayOf(ss)
    && PendingCount(After(WorldAfter(front, setup, a, n), ss[|ss| - 1], setup).cycles, a) <= n
  }

  ghost function WorldAfter(ss: seq<Step>, setup: Setup, a: string, n: nat): World
    requires RunOk(ss, setup, a, n)
    decreases |ss|, 1
  {
    if ss == [] then INITIAL else After(WorldAfter(ss[..|ss| - 1], setup, a, n), ss[|ss| - 1], setup)
  }

  /** The latest start of day a run has seen. */
  function DayOf(ss: seq<Step>): int {
    if ss == [] then 0 else DayAfter(ss[|ss| - 1], DayOf(ss[..|ss| - 1]))
  }

  /** A run with one more step. */
  lemma RunStep(ss: seq<Step>, w: World, w': World, setup: Setup, a: string, n: nat)
    requires ss != [] && var front := ss[..|ss| - 1];
             RunOk(front, setup, a, n) && WorldAfter(front, setup, a, n) == w && DayOf(front) <= DayOf(ss)
    requires Enabled(w, ss[|ss| - 1]) && w' == After(w, ss[|ss| - 1], setup) && PendingCount(w'.cycles, a) <= n
    ensures RunOk(ss, setup, a, n) && WorldAfter(ss, setup, a, n) == w'
  {
  }

  lemma {:induction false} RunInvariant(ss: seq<Step>, setup: Setup, a: string, n: nat)
    requires RunOk(ss, setup, a, n) && SetupOk(setup) && n >= 1
    ensures WorldInv(WorldAfter(ss, setup, a, n), setup)
    ensures CapHolds(WorldAfter(ss, setup, a, n), a, DayOf(ss), n, setup.profiles(a))
  {
    if ss == [] {
      InitialInv(setup);
      assert ProfileOk(setup.profiles(a));
      CopiesMonotone(0, n - 1, setup.profiles(a).maxTxAmountSol);
    } else {
      var front := ss[..|ss| - 1];
      RunInvariant(front, setup, a, n);
      StepWorldInv(WorldAfter(front, setup, a, n), ss[|ss| - 1], setup);
      StepKeepsCap(WorldAfter(front, setup, a, n), ss[|ss| - 1], setup, a, DayOf(front), n);
    }
  }

  /** With one swap in flight at a time the cap itself bounds what the logger shows plus what is in
      flight; if no confirmation of the day was evicted, it bounds the true logged volume. */
  lemma DailyCap(ss: seq<Step>, setup: Setup, a: string)
    requires RunOk(ss, setup, a, 1) && SetupOk(setup)
    ensures var w := WorldAfter(ss, setup, a, 1);
            && Volume(Buffer(w), a, DayOf(ss)) + PendingSum(w.cycles, a) <= setup.profiles(a).dailyVolumeCapSol
            && ((forall e | e in Evicted(w.log) && Counts(e, a, DayOf(ss)) :: e.data["amountIn"].n == 0.0) ==>
                  Volume(w.log, a, DayOf(ss)) + PendingSum(w.cycles, a) <= setup.profiles(a).dailyVolumeCapSol)
  {
    RunInvariant(ss, setup, a, 1);
    VisibleIsTrueIff(WorldAfter(ss, setup, a, 1).log, a, DayOf(ss));
  }

  // ----- Where executed swaps come from -----------------------------------------------------------------

  /** A check that approved the decision, asked about the same decision up to its amount. */
  ghost predicate Approves(e: PolicyRuns.Event, before: seq<PolicyRuns.Event>, d: Decision, profile: Profile) {
    && e.Check? && e.proposal.profile == profile
    && ApprovesSwap(e.proposal, PolicyRuns.Run(before), e.now)
    && Verdict(e.proposal, PolicyRuns.Run(before), e.now).finalDecision == d
    && SameButAmount(e.proposal.decision, d)
  }

  /** Some check of the history approved the decision for this profile, in the state the checks before
      it had left. */
  ghost predicate Checked(checks: seq<PolicyRuns.Event>, d: Decision, profile: Profile) {
    checks != [] &&
    var before := checks[..|checks| - 1];
    Checked(before, d, profile) || Approves(checks[|checks| - 1], before, d, profile)
  }

  lemma {:induction false} CheckedLater(checks: seq<PolicyRuns.Event>, more: seq<PolicyRuns.Event>, d: Decision,
      profile: Profile)
    requires Checked(checks, d, profile)
    ensures Checked(checks + more, d, profile)
  {
    if more == [] {
      assert checks + more == checks;
    } else {
      assert (checks + more)[..|checks + more| - 1] == checks + more[..|more| - 1];
      CheckedLater(checks, more[..|more| - 1], d, profile);
    }
  }

  /** Every swap in flight and every swap call made has its check. */
  ghost predicate CycleChecked(c: Cycle, checks: seq<PolicyRuns.Event>, profile: Profile) {
    && (InFlight(c) ==> Checked(checks, c.phase.payload.decision, profile))
    && (forall act | act in c.trace && act.CallSwap? :: Checked(checks, act.decision, profile))
  }

  ghost predicate SwapsChecked(w: World, setup: Setup) {
    forall c | c in w.cycles :: CycleChecked(c, w.checks, setup.profiles(c.agentId))
  }

  lemma CycleCheckedLater(c: Cycle, checks: seq<PolicyRuns.Event>, more: seq<PolicyRuns.Event>, profile: Profile)
    requires CycleChecked(c, checks, profile)
    ensures CycleChecked(c, checks + more, profile)
  {
    if InFlight(c) { CheckedLater(checks, more, c.phase.payload.decision, profile); }
    forall act | act in c.trace && act.CallSwap? ensures Checked(checks + more, act.decision, profile) {
      CheckedLater(checks, more, act.decision, profile);
    }
  }

  /** A swap stays pending with its payload, or has just been approved. */
  lemma FlightStep(c: Cycle, i: Input, s: Surroundings)
    requires Expects(c.phase, i) && InFlight(Resume(c, i, s).cycle)
    ensures !Resume(c, i, s).cycle.phase.AwaitAnchor? ==>
              InFlight(c) && Resume(c, i, s).cycle.phase.payload == c.phase.payload
  {
    if c.phase.AwaitGuardian? { GuardianPhases(c, i, s); }
  }

  lemma CheckedByLast(before: seq<PolicyRuns.Event>, e: PolicyRuns.Event, d: Decision, profile: Profile)
    requires Approves(e, before, d, profile)
    ensures Checked(before + [e], d, profile)
  {
    assert (before + [e])[..|before + [e]| - 1] == before;
  }

  lemma ApprovalChecked(w: World, index: nat, input: Input, k: Clock, setup: Setup)
    requires index < |w.cycles| && Expects(w.cycles[index].phase, input) && w.engine == PolicyRuns.Run(w.checks)
    requires Stepped(w, index, input, k, setup).cycle.phase.AwaitAnchor?
    ensures var d := Stepped(w, index, input, k, setup).cycle;
            Checked(w.checks + CheckMade(w, index, input, k, setup), d.phase.payload.decision,
                setup.profiles(w.cycles[index].agentId))
  {
    var c := w.cycles[index];
    var s := Around(w, c, k, setup);
    ApprovalStep(c, input, s);
    var p := ProposalFor(c.phase.pd, c.phase.balance, Modified(c.phase.decision, input.guardian.value.audit), s);
    var made := PolicyRuns.Check(p, k.now, k.recordedAt);
    PolicyLaws.ApprovedKeepsDecision(p, s.engine, s.now);
    assert CheckMade(w, index, input, k, setup) == [made];
    CheckedByLast(w.checks, made, Stepped(w, index, input, k, setup).cycle.phase.payload.decision, s.profile);
  }

  /** The swap calls of a step. */
  lemma CallsStep(c: Cycle, i: Input, s: Surroundings)
    requires Expects(c.phase, i)
    ensures c.trace <= Resume(c, i, s).cycle.trace
    ensures forall act | act in NewActions(c, Resume(c, i, s).cycle) && act.CallSwap? ::
              InFlight(c) && act.decision == c.phase.payload.decision
  {
    StepExtends(c, i, s);
    if c.phase.AwaitUpdatedBalance? && i.balance.Returned? {
      ConfirmationActions(c, i, s);
    } else {
      StepLogs(c, i, s);
      if c.phase.AwaitAnchor? { AnchorLogs(c, i, s); }
    }
  }

  lemma AdvancedCycleChecked(w: World, index: nat, input: Input, k: Clock, setup: Setup)
    requires SwapsChecked(w, setup) && w.engine == PolicyRuns.Run(w.checks) && Enabled(w, Advance(index, input, k))
    ensures var c := w.cycles[index];
            CycleChecked(Stepped(w, index, input, k, setup).cycle, w.checks + CheckMade(w, index, input, k, setup),
                setup.profiles(c.agentId))
  {
    var c, d := w.cycles[index], Stepped(w, index, input, k, setup).cycle;
    var s, more := Around(w, c, k, setup), CheckMade(w, index, input, k, setup);
    assert c in w.cycles;
    CallsStep(c, input, s);
    CycleCheckedLater(c, w.checks, more, setup.profiles(c.agentId));
    if InFlight(d) {
      FlightStep(c, input, s);
      if d.phase.AwaitAnchor? { ApprovalChecked(w, index, input, k, setup); }
    }
    ContinuedChecked(c, d, w.checks + more, setup.profiles(c.agentId));
  }

  lemma ContinuedChecked(c: Cycle, d: Cycle, checks: seq<PolicyRuns.Event>, profile: Profile)
    requires CycleChecked(c, checks, profile) && c.trace <= d.trace
    requires forall act | act in NewActions(c, d) && act.CallSwap? ::
               InFlight(c) && act.decision == c.phase.payload.decision
    requires InFlight(d) ==> Checked(checks, d.phase.payload.decision, profile)
    ensures CycleChecked(d, checks, profile)
  {
    assert d.trace == c.trace + NewActions(c, d);
  }

  lemma ReplacedChecked(cs: seq<Cycle>, index: nat, d: Cycle, checks: seq<PolicyRuns.Event>,
      more: seq<PolicyRuns.Event>, setup: Setup)
    requires index < |cs| && forall c | c in cs :: CycleChecked(c, checks, setup.profiles(c.agentId))
    requires CycleChecked(d, checks + more, setup.profiles(d.agentId))
    ensures forall c | c in cs[index := d] :: CycleChecked(c, checks + more, setup.profiles(c.agentId))
  {
    forall c | c in cs[index := d] ensures CycleChecked(c, checks + more, setup.profiles(c.agentId)) {
      if c != d { CycleCheckedLater(c, checks, more, setup.profiles(c.agentId)); }
    }
  }

  lemma AdvanceChecked(w: World, index: nat, input: Input, k: Clock, setup: Setup)
    requires SwapsChecked(w, setup) && w.engine == PolicyRuns.Run(w.checks) && Enabled(w, Advance(index, input, k))
    ensures SwapsChecked(After(w, Advance(index, input, k), setup), setup)
  {
    StepExtends(w.cycles[index], input, Around(w, w.cycles[index], k, setup));
    AdvancedCycleChecked(w, index, input, k, setup);
    ReplacedChecked(w.cycles, index, Stepped(w, index, input, k, setup).cycle, w.checks,
        CheckMade(w, index, input, k, setup), setup);
  }

  lemma StepChecked(w: World, s: Step, setup: Setup)
    requires SwapsChecked(w, setup) && w.engine == PolicyRuns.Run(w.checks) && Enabled(w, s)
    ensures SwapsChecked(After(w, s, setup), setup)
  {
    if s.Advance? {
      AdvanceChecked(w, s.index, s.input, s.clock, setup);
    } else if s.ResetStopLoss? {
      forall c | c in w.cycles ensures CycleChecked(c, w.checks + [PolicyRuns.Reset(s.agentId)],
          setup.profiles(c.agentId)) {
        CycleCheckedLater(c, w.checks, [PolicyRuns.Reset(s.agentId)], setup.profiles(c.agentId));
      }
    } else if s.Begin? {
      assert forall c | c in w.cycles + [Start(s.agentId, s.number)] ::
          c in w.cycles || c == Start(s.agentId, s.number);
    }
  }

  /** In every run, every swap call any cycle has made executes a decision that some earlier call of the
      engine approved for that agent's profile, having been asked about the same decision up to its
      amount, in the state the calls before it had left. */
  lemma {:induction false} EverySwapIsChecked(ss: seq<Step>, setup: Setup, a: string, n: nat)
    requires RunOk(ss, setup, a, n) && SetupOk(setup) && n >= 1
    ensures SwapsChecked(WorldAfter(ss, setup, a, n), setup)
  {
    if ss != [] {
      var front := ss[..|ss| - 1];
      EverySwapIsChecked(front, setup, a, n);
      RunInvariant(front, setup, a, n);
      StepChecked(WorldAfter(front, setup, a, n), ss[|ss| - 1], setup);
    }
  }

  // ----- What the whitelist checks see ------------------------------------------------------------------

  /** Every decision the engine is asked about has a permitted action and listed tokens. */
  ghost predicate AllListed(checks: seq<PolicyRuns.Event>) {
    forall e | e in checks && e.Check? :: CheckAction(e.proposal).passed && CheckTokens(e.proposal).passed
        && PolicyLaws.Listed(e.proposal.decision)
  }

  lemma StepListed(w: World, s: Step, setup: Setup)
    requires AllListed(w.checks) && WorldInv(w, setup) && Enabled(w, s)
    ensures AllListed(After(w, s, setup).checks)
  {
    if s.Advance? {
      var c := w.cycles[s.index];
      assert c in w.cycles;
      if CheckMade(w, s.index, s.input, s.clock, setup) != [] {
        assert SchemaValid(c.phase.decision);
      }
    }
  }

  /** The strategist's schema admits listed tokens only, so in every run the action and token checks pass
      whenever the engine is called: what the engine alone would let through never reaches it. */
  lemma {:induction false} EveryCheckSeesListedTokens(ss: seq<Step>, setup: Setup, a: string, n: nat)
    requires RunOk(ss, setup, a, n) && SetupOk(setup) && n >= 1
    ensures AllListed(WorldAfter(ss, setup, a, n).checks)
  {
    if ss != [] {
      var front := ss[..|ss| - 1];
      EveryCheckSeesListedTokens(front, setup, a, n);
      RunInvariant(front, setup, a, n);
      StepListed(WorldAfter(front, setup, a, n), ss[|ss| - 1], setup);
    }
  }
}
