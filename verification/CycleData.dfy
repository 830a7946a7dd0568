/** Where the data of every engine call comes from, and what became of the engine's answer. */
module CycleData {
  import opened Results
  import opened Policy
  import PolicyLaws
  import PolicyRuns
  import opened AuditLog
  import opened PriceOracle
  import opened ProofService
  import Broadcast
  import opened AgentCycle
  import opened AgentCycleLaws
  import opened ControlPlane
  import opened ControlPlaneRuns

  // ----- What the guardian is asked ------------------------------------------------------------------

  /** An error-free quote for the decision's own pair. */
  predicate OwnQuote(quote: Option<Quote>, d: Decision) {
    match quote
    case None => false
    case Some(q) => q.error == "" && q.fromToken == d.fromToken && q.toToken == d.toToken
  }

  /** The first `k` actions end with price data being announced and given to the strategist with a
      balance, and the strategist's decision being announced and logged. */
  predicate Thinks(t: seq<Action>, k: nat, pd: PriceData, balance: Balance, d: Decision) {
    && 4 <= k <= |t|
    && t[k - 4] == Emit(PriceFetched(pd)) && t[k - 3] == CallStrategist(pd, balance)
    && t[k - 2] == Emit(AgentThinking(d)) && t[k - 1] == Log("AGENT_THINKING", map[])
  }

  /** A quote was asked for the decision's own pair and amount because the strategist had been shown none
      for that pair, and its answer, announced with the same prices, is the quote in `pd`. */
  predicate Requotes(t: seq<Action>, k: nat, pd: PriceData, balance: Balance, d: Decision) {
    && 6 <= k <= |t| && d.action == "SWAP" && pd.quote.Some?
    && t[k - 2] == CallQuote(d.fromToken, d.toToken, d.amount) && t[k - 1] == Emit(PriceFetched(pd))
    && t[k - 6].Emit? && t[k - 6].event.PriceFetched?
    && var shown := t[k - 6].event.pd;
       Thinks(t, k - 2, shown, balance, d) && pd == shown.(quote := pd.quote) && !OwnQuote(shown.quote, d)
  }

  /** The first `k` actions end with the guardian being asked about a decision: a swap comes with a quote
      for its own pair or with the answer to a quote asked for it. */
  predicate Briefs(t: seq<Action>, k: nat, pd: PriceData, balance: Balance, d: Decision) {
    && 1 <= k <= |t| && t[k - 1] == CallGuardian(d, pd, balance)
    && ((Thinks(t, k - 1, pd, balance, d) && (d.action == "SWAP" ==> OwnQuote(pd.quote, d)))
        || Requotes(t, k - 1, pd, balance, d))
  }

  /** The trace so far announced the price data: as it came when no pair was worth a quote, or with the
      answer to a quote of 0.1 for one of the candidate pairs. */
  predicate Opens(t: seq<Action>, pd: PriceData) {
    && |t| >= 2 && t[0] == Emit(CycleStart) && t[|t| - 1] == Emit(PriceFetched(pd))
    && ((|t| == 2 && forall s | s in pd.spreads :: s.direction == "neutral")
        || (|t| == 4 && Prescans(t[..3], pd) && pd.quote.Some?))
  }

  predicate Prescans(t: seq<Action>, pd: PriceData) {
    && |t| == 3 && t[0] == Emit(CycleStart) && t[1].Log? && t[1].name == "PRESCAN_PAIR"
    && t[2].CallQuote? && t[2].amount == 0.1
    && exists c | c in CandidatesOf(pd.spreads) :: c.from == t[2].fromToken && c.to == t[2].toToken
  }

  /** How the trace of a cycle ends while it waits for an answer before its guardian's verdict. */
  predicate DataInv(c: Cycle) {
    var n := |c.trace|;
    match c.phase
    case AwaitPrices => c.trace == [Emit(CycleStart)]
    case AwaitPrescan(pd) => Prescans(c.trace, pd)
    case AwaitBalance(pd) => Opens(c.trace, pd)
    case AwaitStrategist(pd, balance) =>
      n >= 1 && Opens(c.trace[..n - 1], pd) && c.trace[n - 1] == CallStrategist(pd, balance)
    case AwaitRequote(pd, balance, d) =>
      && n >= 1 && Thinks(c.trace, n - 1, pd, balance, d) && d.action == "SWAP" && !OwnQuote(pd.quote, d)
      && c.trace[n - 1] == CallQuote(d.fromToken, d.toToken, d.amount)
    case AwaitGuardian(pd, balance, d) => Briefs(c.trace, n, pd, balance, d)
    case _ => true
  }

  lemma NoCandidates(spreads: seq<Spread>)
    requires CandidatesOf(spreads) == []
    ensures forall s | s in spreads :: s.direction == "neutral"
  {
    SortsDescending(Oriented(spreads));
    forall s | s in spreads ensures s.direction == "neutral" {
      if s.direction != "neutral" { OrientedHas(spreads, s); }
    }
  }

  lemma {:induction false} OrientedHas(spreads: seq<Spread>, s: Spread)
    requires s in spreads && s.direction != "neutral"
    ensures Orient(s) in Oriented(spreads) && multiset(Oriented(spreads)) != multiset{}
  {
    var n := |spreads| - 1;
    if s != spreads[n] {
      OrientedHas(spreads[..n], s);
    }
    assert Orient(s) in multiset(Oriented(spreads));
  }

  lemma PricesData(c: Cycle, pd: PriceData, s: Surroundings)
    requires c.trace == [Emit(CycleStart)]
    ensures DataInv(AfterPrices(c, pd, s).cycle)
  {
    if CandidatesOf(pd.spreads) == [] { NoCandidates(pd.spreads); }
  }

  lemma StrategistData(c: Cycle, i: Input, s: Surroundings)
    requires Expects(c.phase, i) && c.phase.AwaitStrategist? && DataInv(c)
    ensures DataInv(Resume(c, i, s).cycle)
  {
    if i.strategist.Returned? && i.strategist.value.Decided? {
      var d, n := i.strategist.value.decision, |c.trace|;
      assert c.trace[n - 2] == c.trace[..n - 1][n - 2];
      assert c.trace[n - 2] == Emit(PriceFetched(c.phase.pd));
      StrategistNext(c, i, s, d);
    }
  }

  /** After the strategist, a swap whose pair has no error-free quote asks for one, for that pair and that
      amount; everything else goes to the guardian with what the strategist was shown. */
  lemma StrategistNext(c: Cycle, i: Input, s: Surroundings, d: Decision)
    requires c.phase.AwaitStrategist? && Expects(c.phase, i) && i == StrategistAnswers(Returned(Decided(d)))
    ensures var next := Resume(c, i, s).cycle;
            var AwaitStrategist(pd, balance) := c.phase;
            next.trace == c.trace + [Emit(AgentThinking(d)), Log("AGENT_THINKING", map[]),
                if d.action == "SWAP" && !OwnQuote(pd.quote, d) then CallQuote(d.fromToken, d.toToken, d.amount)
                else CallGuardian(d, pd, balance)]
            && next.phase == if d.action == "SWAP" && !OwnQuote(pd.quote, d) then AwaitRequote(pd, balance, d)
               else AwaitGuardian(pd, balance, d)
  {
  }

  lemma StepData(c: Cycle, i: Input, s: Surroundings)
    requires Expects(c.phase, i) && DataInv(c)
    ensures DataInv(Resume(c, i, s).cycle)
  {
    match c.phase
    case AwaitPrices => if i.prices.Returned? { PricesData(c, i.prices.value, s); }
    case AwaitPrescan(pd) => PrescanData(c, i, s);
    case AwaitStrategist(_, _) => StrategistData(c, i, s);
    case AwaitRequote(_, _, _) => RequoteData(c, i, s);
    case AwaitGuardian(_, _, _) => GuardianPhases(c, i, s);
    case _ =>
  }

  lemma PrescanData(c: Cycle, i: Input, s: Surroundings)
    requires Expects(c.phase, i) && c.phase.AwaitPrescan? && DataInv(c)
    ensures DataInv(Resume(c, i, s).cycle)
  {
    if i.quote.Returned? {
      var after := Resume(c, i, s).cycle;
      assert after.trace[..3] == c.trace;
    }
  }

  lemma RequoteData(c: Cycle, i: Input, s: Surroundings)
    requires Expects(c.phase, i) && c.phase.AwaitRequote? && DataInv(c)
    ensures DataInv(Resume(c, i, s).cycle)
  {
    if i.quote.Returned? {
      var AwaitRequote(pd, balance, d) := c.phase;
      var n, after := |c.trace|, Resume(c, i, s).cycle;
      assert after.trace == c.trace + Requoted(pd.(quote := Some(i.quote.value)), balance, d);
      assert Thinks(after.trace, n - 1, pd, balance, d);
      assert Requotes(after.trace, n + 1, after.phase.pd, balance, d);
    }
  }

  // ----- What the engine is asked and what follows ---------------------------------------------------

  /** The largest spread of the record. */
  predicate IsLargest(spreads: seq<Spread>, x: real) {
    (forall s | s in spreads :: s.spreadPct <= x) && exists s | s in spreads :: s.spreadPct == x
  }

  lemma {:induction false} MaxSpreadIsLargest(spreads: seq<Spread>)
    requires spreads != []
    ensures IsLargest(spreads, MaxSpread(spreads))
  {
    var n := |spreads| - 1;
    assert spreads[n] in spreads;
    if n > 0 {
      MaxSpreadIsLargest(spreads[..n]);
      assert forall s | s in spreads :: s in spreads[..n] || s == spreads[n];
    }
  }

  /** With its m-th action a cycle announced a guardian's verdict other than a veto on what the guardian
      had just been asked; `p` asks the engine about exactly that, the verdict's amount replacing the
      decision's when it is a modification that names one. */
  predicate Asks(t: seq<Action>, m: nat, p: Proposal, profile: Profile) {
    && 1 <= m < |t| && t[m - 1].CallGuardian? && t[m].Emit? && t[m].event.GuardianVerdict?
    && var CallGuardian(d, pd, balance) := t[m - 1];
       var audit := t[m].event.audit;
       && Briefs(t, m, pd, balance, d) && audit.verdict != "VETO"
       && p.profile == profile && p.balance == balance && p.prices == pd.prices && p.quote == pd.quote
       && IsLargest(pd.spreads, p.bestSpreadPct) && p.decision == d.(amount := p.decision.amount)
       && (audit.verdict == "MODIFY" && audit.modifiedAmount.Some? ==>
            p.decision.amount == audit.modifiedAmount.value)
       && (audit.verdict != "MODIFY" || audit.modifiedAmount.None? ==> p.decision.amount == d.amount)
  }

  /** After that verdict the cycle announced and logged the engine's result: a failure and an approval of
      anything but a swap end it, an approved swap goes to the anchor with all it was decided on. */
  predicate Answers(c: Cycle, m: nat, r: PolicyResult) {
    var t := c.trace;
    && 1 <= m && m + 4 < |t| && t[m - 1].CallGuardian? && t[m].Emit? && t[m].event.GuardianVerdict?
    && t[m + 1] == Log("GUARDIAN_AUDIT", map[])
    && (!r.approved ==> t[m + 2] == Emit(PolicyFail(r)) && t[m + 3] == Log("POLICY_FAIL", map[]))
    && (r.approved ==> t[m + 2] == Emit(PolicyPass(r)) && t[m + 3] == Log("POLICY_PASS", map[]))
    && (!r.approved || r.finalDecision.action != "SWAP" ==> t[m + 4] == Emit(CycleComplete))
    && (r.approved && r.finalDecision.action == "SWAP" ==> Anchors(c, m, r))
  }

  predicate Anchors(c: Cycle, m: nat, r: PolicyResult)
    requires 1 <= m && m + 4 < |c.trace| && c.trace[m - 1].CallGuardian?
    requires c.trace[m].Emit? && c.trace[m].event.GuardianVerdict?
  {
    && c.trace[m + 4].CallAnchor?
    && var p := c.trace[m + 4].payload;
       && p.agentId == c.agentId && p.cycle == c.number && p.decision == r.finalDecision && p.checks == r.checks
       && p.guardian == c.trace[m].event.audit && p.prices == c.trace[m - 1].pd
  }

  ghost predicate GroundedAt(c: Cycle, m: nat, e: PolicyRuns.Event, before: seq<PolicyRuns.Event>, setup: Setup)
    requires e.Check?
  {
    Asks(c.trace, m, e.proposal, setup.profiles(c.agentId))
    && Answers(c, m, Verdict(e.proposal, PolicyRuns.Run(before), e.now))
  }

  /** Some cycle asked for the check and acted on its result. */
  ghost predicate Grounded(cycles: seq<Cycle>, e: PolicyRuns.Event, before: seq<PolicyRuns.Event>, setup: Setup) {
    e.Check? ==> exists i: nat, m: nat :: i < |cycles| && GroundedAt(cycles[i], m, e, before, setup)
  }

  ghost predicate ChecksGrounded(w: World, setup: Setup) {
    && (forall c | c in w.cycles :: DataInv(c))
    && (forall j | 0 <= j < |w.checks| :: Grounded(w.cycles, w.checks[j], w.checks[..j], setup))
  }

  lemma ThinksLater(t: seq<Action>, u: seq<Action>, k: nat, pd: PriceData, balance: Balance, d: Decision)
    requires t <= u && Briefs(t, k, pd, balance, d)
    ensures Briefs(u, k, pd, balance, d)
  {
  }

  lemma GroundedLater(c: Cycle, d: Cycle, m: nat, e: PolicyRuns.Event, before: seq<PolicyRuns.Event>, setup: Setup)
    requires e.Check? && GroundedAt(c, m, e, before, setup)
    requires c.trace <= d.trace && c.agentId == d.agentId && c.number == d.number
    ensures GroundedAt(d, m, e, before, setup)
  {
    AsksLater(c.trace, d.trace, m, e.proposal, setup.profiles(c.agentId));
    AnswersLater(c, d, m, Verdict(e.proposal, PolicyRuns.Run(before), e.now));
  }

  lemma AsksLater(t: seq<Action>, u: seq<Action>, m: nat, p: Proposal, profile: Profile)
    requires t <= u && Asks(t, m, p, profile)
    ensures Asks(u, m, p, profile)
  {
    var CallGuardian(d, pd, balance) := t[m - 1];
    ThinksLater(t, u, m, pd, balance, d);
  }

  lemma AnswersLater(c: Cycle, d: Cycle, m: nat, r: PolicyResult)
    requires c.trace <= d.trace && c.agentId == d.agentId && c.number == d.number && Answers(c, m, r)
    ensures Answers(d, m, r)
  {
  }

  // ----- Every engine call of the control plane ------------------------------------------------------

  /** The step that calls the engine. */
  lemma AskedByStep(c: Cycle, i: Input, s: Surroundings)
    requires Expects(c.phase, i) && c.phase.AwaitGuardian? && DataInv(c)
    requires i.guardian.Returned? && i.guardian.value.Audited? && i.guardian.value.audit.verdict != "VETO"
    ensures var p := ProposalFor(c.phase.pd, c.phase.balance, Modified(c.phase.decision, i.guardian.value.audit), s);
            var after := Resume(c, i, s).cycle;
            Asks(after.trace, |c.trace|, p, s.profile) && Answers(after, |c.trace|, Verdict(p, s.engine, s.now))
  {
    var AwaitGuardian(pd, balance, d) := c.phase;
    var audit := i.guardian.value.audit;
    var p := ProposalFor(pd, balance, Modified(d, audit), s);
    var r := Verdict(p, s.engine, s.now);
    PolicyTrace(c, pd, audit, r, s.anchoredAt);
    AnsweredByStep(c, pd, audit, r, s.anchoredAt);
    ThinksLater(c.trace, Resume(c, i, s).cycle.trace, |c.trace|, pd, balance, d);
    MaxSpreadIsLargest(pd.spreads);
  }

  lemma PolicyTrace(c: Cycle, pd: PriceData, audit: GuardianAudit, r: PolicyResult, anchoredAt: int)
    ensures var t := AfterPolicy(c, pd, audit, r, anchoredAt).trace;
            c.trace <= t && |t| > |c.trace| && t[|c.trace|] == Emit(GuardianVerdict(audit))
  {
  }

  lemma AnsweredByStep(c: Cycle, pd: PriceData, audit: GuardianAudit, r: PolicyResult, anchoredAt: int)
    requires |c.trace| >= 1 && c.trace[|c.trace| - 1].CallGuardian? && c.trace[|c.trace| - 1].pd == pd
    ensures Answers(AfterPolicy(c, pd, audit, r, anchoredAt), |c.trace|, r)
  {
  }

  lemma MadeGrounded(w: World, index: nat, input: Input, k: Clock, setup: Setup)
    requires index < |w.cycles| && Expects(w.cycles[index].phase, input) && DataInv(w.cycles[index])
    requires w.engine == PolicyRuns.Run(w.checks)
    ensures forall e | e in CheckMade(w, index, input, k, setup) ::
              && e.Check?
              && GroundedAt(Stepped(w, index, input, k, setup).cycle, |w.cycles[index].trace|, e, w.checks, setup)
  {
    var c := w.cycles[index];
    if CheckMade(w, index, input, k, setup) != [] {
      StepExtends(c, input, Around(w, c, k, setup));
      AskedByStep(c, input, Around(w, c, k, setup));
    }
  }

  lemma GroundedIn(cycles: seq<Cycle>, index: nat, d: Cycle, e: PolicyRuns.Event, before: seq<PolicyRuns.Event>,
      setup: Setup)
    requires Grounded(cycles, e, before, setup) && index < |cycles| && cycles[index].trace <= d.trace
    requires cycles[index].agentId == d.agentId && cycles[index].number == d.number
    ensures Grounded(cycles[index := d], e, before, setup)
  {
    if e.Check? {
      var i: nat, m: nat :| i < |cycles| && GroundedAt(cycles[i], m, e, before, setup);
      if i == index { GroundedLater(cycles[i], d, m, e, before, setup); }
      assert GroundedAt(cycles[index := d][i], m, e, before, setup);
    }
  }

  lemma GroundedMore(cycles: seq<Cycle>, c: Cycle, e: PolicyRuns.Event, before: seq<PolicyRuns.Event>, setup: Setup)
    requires Grounded(cycles, e, before, setup)
    ensures Grounded(cycles + [c], e, before, setup)
  {
    if e.Check? {
      var i: nat, m: nat :| i < |cycles| && GroundedAt(cycles[i], m, e, before, setup);
      assert GroundedAt((cycles + [c])[i], m, e, before, setup);
    }
  }

  lemma AdvanceGrounded(w: World, index: nat, input: Input, k: Clock, setup: Setup)
    requires ChecksGrounded(w, setup) && w.engine == PolicyRuns.Run(w.checks) && Enabled(w, Advance(index, input, k))
    ensures ChecksGrounded(After(w, Advance(index, input, k), setup), setup)
  {
    var c, d := w.cycles[index], Stepped(w, index, input, k, setup).cycle;
    var made := CheckMade(w, index, input, k, setup);
    StepExtends(c, input, Around(w, c, k, setup));
    StepData(c, input, Around(w, c, k, setup));
    MadeGrounded(w, index, input, k, setup);
    forall j | 0 <= j < |w.checks + made|
      ensures Grounded(w.cycles[index := d], (w.checks + made)[j], (w.checks + made)[..j], setup)
    {
      if j < |w.checks| {
        assert (w.checks + made)[..j] == w.checks[..j];
        GroundedIn(w.cycles, index, d, w.checks[j], w.checks[..j], setup);
      } else {
        assert (w.checks + made)[..j] == w.checks;
        assert GroundedAt(w.cycles[index := d][index], |c.trace|, made[0], w.checks, setup);
      }
    }
  }

  lemma StepGrounded(w: World, s: Step, setup: Setup)
    requires ChecksGrounded(w, setup) && w.engine == PolicyRuns.Run(w.checks) && Enabled(w, s)
    ensures ChecksGrounded(After(w, s, setup), setup)
  {
    match s
    case Advance(i, input, k) => AdvanceGrounded(w, i, input, k, setup);
    case Begin(a, n) =>
      forall j | 0 <= j < |w.checks| ensures Grounded(w.cycles + [Start(a, n)], w.checks[j], w.checks[..j], setup) {
        GroundedMore(w.cycles, Start(a, n), w.checks[j], w.checks[..j], setup);
      }
    case ResetStopLoss(a) => ResetGrounded(w, a, setup);
    case LogOther(_) =>
  }

  lemma ResetGrounded(w: World, a: string, setup: Setup)
    requires ChecksGrounded(w, setup)
    ensures ChecksGrounded(w.(engine := ResetState(w.engine, a), checks := w.checks + [PolicyRuns.Reset(a)]), setup)
  {
    var after := w.checks + [PolicyRuns.Reset(a)];
    forall j | 0 <= j < |after| ensures Grounded(w.cycles, after[j], after[..j], setup) {
      if j < |w.checks| { assert after[..j] == w.checks[..j]; }
    }
  }

  /** In every run each engine call was made by a cycle that had just announced the guardian's verdict on
      that very decision, data and balance, and which then acted on what the engine answers in the state
      the calls before it had left. */
  lemma {:induction false} EveryCheckIsGrounded(ss: seq<Step>, setup: Setup, a: string, n: nat)
    requires RunOk(ss, setup, a, n) && SetupOk(setup) && n >= 1
    ensures ChecksGrounded(WorldAfter(ss, setup, a, n), setup)
  {
    if ss != [] {
      var front := ss[..|ss| - 1];
      EveryCheckIsGrounded(front, setup, a, n);
      RunInvariant(front, setup, a, n);
      StepGrounded(WorldAfter(front, setup, a, n), ss[|ss| - 1], setup);
    }
  }

  /** The quote with which the cycle was answered when it asked for one for the decision's pair. */
  predicate RequotedIn(t: seq<Action>, k: nat, p: Proposal, asked: real) {
    && k + 1 < |t| && t[k] == CallQuote(p.decision.fromToken, p.decision.toToken, asked)
    && t[k + 1].Emit? && t[k + 1].event.PriceFetched?
    && t[k + 1].event.pd.quote == p.quote && t[k + 1].event.pd.prices == p.prices
  }

  /** In every run a swap is judged by an error-free quote for its own pair, or by the answer to a quote
      that its cycle asked for that pair; never by a quote for another pair. */
  lemma SwapsAreJudgedByTheirQuote(ss: seq<Step>, setup: Setup, a: string, n: nat, j: nat)
    requires RunOk(ss, setup, a, n) && SetupOk(setup) && n >= 1 && j < |WorldAfter(ss, setup, a, n).checks|
    requires var e := WorldAfter(ss, setup, a, n).checks[j]; e.Check? && e.proposal.decision.action == "SWAP"
    ensures var w := WorldAfter(ss, setup, a, n);
            var p := w.checks[j].proposal;
            || (p.quote.Some? && p.quote.value.error == "" && p.quote.value.fromToken == p.decision.fromToken
                && p.quote.value.toToken == p.decision.toToken)
            || (p.quote.Some? && exists i: nat, k: nat, asked: real ::
                  i < |w.cycles| && RequotedIn(w.cycles[i].trace, k, p, asked))
  {
    EveryCheckIsGrounded(ss, setup, a, n);
    var w := WorldAfter(ss, setup, a, n);
    var e := w.checks[j];
    assert Grounded(w.cycles, e, w.checks[..j], setup);
    var i: nat, m: nat :| i < |w.cycles| && GroundedAt(w.cycles[i], m, e, w.checks[..j], setup);
    JudgedByItsQuote(w.cycles[i].trace, m, e.proposal, setup.profiles(w.cycles[i].agentId));
  }

  lemma JudgedByItsQuote(t: seq<Action>, m: nat, p: Proposal, profile: Profile)
    requires Asks(t, m, p, profile) && p.decision.action == "SWAP"
    ensures p.quote.Some?
    ensures OwnQuote(p.quote, p.decision) || exists k: nat, asked: real :: RequotedIn(t, k, p, asked)
  {
    var CallGuardian(d, pd, balance) := t[m - 1];
    if Requotes(t, m - 1, pd, balance, d) {
      assert RequotedIn(t, m - 3, p, d.amount);
    }
  }
}
