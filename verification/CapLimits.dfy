/** How far the daily cap reaches: overlapping swaps attain the bound proved for them. The runs are built
    swap by swap, five a minute, in a flat market, for one agent whose cap is one maximal swap, on a
    clock that never runs backwards and whose days start at midnight. */
module CapLimits {
  import opened Results
  import opened Policy
  import opened AuditLog
  import opened ProofService
  import opened AgentCycle
  import opened ControlPlane
  import opened ControlPlaneRuns
  import PolicyRuns
  import PriceOracle
  import PolicyLaws

  const REX := "rex"
  const MAX_TX: real := 0.2
  const PROFILE: Profile := Profile(REX, 0.15, 0.45, MAX_TX, MAX_TX, -20.0)
  const PRICE: TokenPrice := TokenPrice(100.0, 0.0)
  const PRICES: Prices := Prices(PRICE, PRICE, PRICE, PRICE)
  const QUOTE: Quote := Quote("SOL", "USDC", 0.01, "")
  const BALANCE: Balance := Balance(2.0, map[])
  const DECISION: Decision := Decision("SWAP", "SOL", "USDC", 0.1, 1.0, "", [])
  const AUDIT: GuardianAudit := GuardianAudit("APPROVE", "", None)

  function FlatMarket(): PriceOracle.PriceData {
    PriceOracle.PriceData(0, false, PRICES, PriceOracle.SpreadsOf(PriceOracle.SPREAD_PAIRS, PRICES), None)
  }

  function Quoted(): PriceOracle.PriceData { FlatMarket().(quote := Some(QUOTE)) }

  ghost function Flat(): Setup { Setup((a: string) => PROFILE.(agentId := a), (p: ProofPayload) => "hash") }

  function Midnight(now: int): int { now - now % PolicyRuns.DAY_MS }

  function At(now: int): Clock { Clock(now, now, now, now, Midnight(now)) }

  /** All readings of a step are the same, and none is earlier than one before. */
  predicate Timely(ss: seq<Step>, until: int) {
    ss == [] ||
    var front, s := ss[..|ss| - 1], ss[|ss| - 1];
    if s.Advance? then s.clock == At(s.clock.now) && 0 <= s.clock.now <= until && Timely(front, s.clock.now)
    else Timely(front, until)
  }

  lemma {:induction false} TimelyLater(ss: seq<Step>, until: int, later: int)
    requires Timely(ss, until) && until <= later
    ensures Timely(ss, later)
  {
    if ss != [] && !ss[|ss| - 1].Advance? { TimelyLater(ss[..|ss| - 1], until, later); }
  }

  lemma {:induction false} DayIsMidnight(ss: seq<Step>, until: int)
    requires Timely(ss, until) && 0 <= until
    ensures 0 <= DayOf(ss) <= Midnight(until)
  {
    if ss != [] {
      var s := ss[|ss| - 1];
      DayIsMidnight(ss[..|ss| - 1], if s.Advance? then s.clock.now else until);
    }
  }

  /** An instant, and how many swaps may have been approved in the minute before. */
  datatype Tempo = Tempo(now: int, used: nat)
  {
    function Next(): Tempo { Tempo(now, used + 1) }
  }

  /** The k-th swap is approved five at once, every minute. */
  function TempoOf(k: nat): Tempo { Tempo(RATE_LIMIT_WINDOW_MS * (k / RATE_LIMIT_MAX), k % RATE_LIMIT_MAX) }

  lemma {:induction false} NeutralHasNoCandidates(spreads: seq<PriceOracle.Spread>)
    requires forall s | s in spreads :: s.direction == "neutral"
    ensures PriceOracle.Oriented(spreads) == []
  {
    if spreads != [] {
      assert spreads[|spreads| - 1] in spreads;
      NeutralHasNoCandidates(spreads[..|spreads| - 1]);
    }
  }

  lemma FlatMarketHasNoCandidates()
    ensures FlatMarket().spreads != [] && PriceOracle.CandidatesOf(FlatMarket().spreads) == []
  {
    NeutralHasNoCandidates(FlatMarket().spreads);
  }

  // ----- One approval -----------------------------------------------------------------------------------

  /** The engine remembers no more than these approvals of Rex, and an undisturbed portfolio. */
  predicate Calm(s: PolicyState, t: Tempo) {
    && (forall i | 0 <= i < |Limiter(s, REX)| :: Limiter(s, REX)[i] <= t.now)
    && |Active(Limiter(s, REX), t.now - RATE_LIMIT_WINDOW_MS)| <= t.used
    && (REX in s.stopLossStates ==> s.stopLossStates[REX] == StopLossState(200.0, false))
  }

  function Asked(spread: real): Proposal { Proposal(DECISION, PROFILE, BALANCE, PRICES, Some(QUOTE), 0.0, spread) }

  lemma AskedPasses(spread: real)
    ensures var p := Asked(spread);
            && SizedAmount(p) == MAX_TX && PortfolioUsd(p.balance, p.prices) == 200.0
            && CheckAction(p).passed && CheckTokens(p).passed && CheckConfidence(p).passed && CheckVolume(p).passed
            && CheckBalance(p).passed && CheckSpread(p).passed
  {
    assert (0.2 * 10000.0 + 0.5).Floor == 2000;
  }

  lemma CalmPasses(spread: real, s: PolicyState, t: Tempo)
    requires Calm(s, t) && t.used < RATE_LIMIT_MAX
    ensures var p := Asked(spread);
            CheckRate(p, s, t.now).passed && CheckStopLoss(p, s).passed
                && Latched(p, s) == StopLossState(200.0, false)
  {
    AskedPasses(spread);
  }

  /** A calm engine approves the maximal swap, and is calm again. */
  lemma CalmApproves(spread: real, s: PolicyState, t: Tempo)
    requires Calm(s, t) && t.used < RATE_LIMIT_MAX
    ensures var p, now := Asked(spread), t.now;
            && Verdict(p, s, now).approved && Verdict(p, s, now).finalDecision == DECISION.(amount := MAX_TX)
            && Calm(NextState(p, s, now, now), t.Next())
  {
    var p, now := Asked(spread), t.now;
    AskedPasses(spread);
    CalmPasses(spread, s, t);
    PolicyLaws.PassesMeanApproval(p, s, now);
    PolicyLaws.ApprovedAmountIsSized(p, s, now);
    PolicyLaws.ApprovedKeepsDecision(p, s, now);
    CalmAgain(p, s, t);
  }

  lemma CalmAgain(p: Proposal, s: PolicyState, t: Tempo)
    requires p.profile.agentId == REX && Calm(s, t) && Latched(p, s) == StopLossState(200.0, false)
    ensures Calm(NextState(p, s, t.now, t.now), t.Next())
  {
    var more := NextLimiter(p, s, t.now);
    OneMoreActive(NextState(p, s, t.now, t.now), Limiter(s, REX), more, t);
  }

  lemma OneMoreActive(next: PolicyState, ts: seq<int>, more: seq<int>, t: Tempo)
    requires more == [] || more == [t.now]
    requires (forall i | 0 <= i < |ts| :: ts[i] <= t.now) && |Active(ts, t.now - RATE_LIMIT_WINDOW_MS)| <= t.used
    requires Limiter(next, REX) == Active(ts, t.now - RATE_LIMIT_WINDOW_MS) + more
    requires REX in next.stopLossStates && next.stopLossStates[REX] == StopLossState(200.0, false)
    ensures Calm(next, t.Next())
  {
    var cut := t.now - RATE_LIMIT_WINDOW_MS;
    ActiveBelow(ts, cut, t.now);
    PolicyRuns.ActiveLength(Active(ts, cut) + more, cut);
  }

  lemma NextLimiter(p: Proposal, s: PolicyState, now: int) returns (more: seq<int>)
    requires p.profile.agentId == REX
    ensures more == [] || more == [now]
    ensures Limiter(NextState(p, s, now, now), REX) == Active(Limiter(s, REX), now - RATE_LIMIT_WINDOW_MS) + more
  {
    more := if ApprovesSwap(p, s, now) then [now] else [];
  }

  lemma {:induction false} ActiveBelow(ts: seq<int>, cut: int, top: int)
    requires forall i | 0 <= i < |ts| :: ts[i] <= top
    ensures forall i | 0 <= i < |Active(ts, cut)| :: Active(ts, cut)[i] <= top
  {
    if ts != [] { ActiveBelow(ts[..|ts| - 1], cut, top); }
  }

  // ----- Building runs ----------------------------------------------------------------------------------

  ghost predicate Unlogged(log: seq<AuditEntry>) { forall e | e in log :: e.event != "TX_CONFIRMED" }

  /** A run together with the worlds it passes through. */
  datatype Path = Path(worlds: seq<World>, steps: seq<Step>)
  {
    ghost predicate Valid(n: nat) {
      && |worlds| == |steps| + 1 && worlds[0] == INITIAL
      && forall i {:trigger steps[i]} | 0 <= i < |steps| :: Moves(worlds[i], steps[i], worlds[i + 1], n)
    }

    function End(): World
      requires worlds != []
    {
      worlds[|worlds| - 1]
    }
  }

  const EMPTY: Path := Path([INITIAL], [])

  ghost predicate Moves(w: World, s: Step, w': World, n: nat) {
    && Enabled(w, s) && w' == After(w, s, Flat())
    && PendingCount(w'.cycles, REX) <= n
  }

  lemma PathFront(path: Path, n: nat)
    requires path.Valid(n) && path.steps != []
    ensures var k := |path.steps|;
            && Path(path.worlds[..k], path.steps[..k - 1]).Valid(n)
            && Moves(path.worlds[k - 1], path.steps[k - 1], path.worlds[k], n)
  {
    var k := |path.steps|;
    var front := Path(path.worlds[..k], path.steps[..k - 1]);
    assert forall i {:trigger front.steps[i]} | 0 <= i < k - 1 :: front.steps[i] == path.steps[i];
  }

  lemma TimelyFront(ss: seq<Step>, until: int)
    requires Timely(ss, until) && ss != []
    ensures Timely(ss[..|ss| - 1], until)
  {
    var s := ss[|ss| - 1];
    if s.Advance? { TimelyLater(ss[..|ss| - 1], s.clock.now, until); }
  }

  lemma DaysGrow(ss: seq<Step>, until: int)
    requires Timely(ss, until) && 0 <= until && ss != []
    ensures DayOf(ss[..|ss| - 1]) <= DayOf(ss)
  {
    var s := ss[|ss| - 1];
    if s.Advance? { DayIsMidnight(ss[..|ss| - 1], s.clock.now); }
  }

  /** The run along a path, up to its last step. */
  lemma RunAlong(ss: seq<Step>, w: World, w': World, n: nat, until: int)
    requires ss != [] && Timely(ss, until) && 0 <= until && Moves(w, ss[|ss| - 1], w', n)
    requires RunOk(ss[..|ss| - 1], Flat(), REX, n) && WorldAfter(ss[..|ss| - 1], Flat(), REX, n) == w
    ensures RunOk(ss, Flat(), REX, n) && WorldAfter(ss, Flat(), REX, n) == w'
  {
    DaysGrow(ss, until);
    RunStep(ss, w, w', Flat(), REX, n);
  }

  lemma {:induction false} PathIsRun(path: Path, n: nat, until: int)
    requires path.Valid(n) && Timely(path.steps, until) && 0 <= until
    ensures RunOk(path.steps, Flat(), REX, n) && WorldAfter(path.steps, Flat(), REX, n) == path.End()
    decreases |path.steps|
  {
    var k := |path.steps|;
    if k > 0 {
      PathFront(path, n);
      TimelyFront(path.steps, until);
      PathIsRun(Path(path.worlds[..k], path.steps[..k - 1]), n, until);
      RunAlong(path.steps, path.worlds[k - 1], path.worlds[k], n, until);
    }
  }

  /** No confirmation is logged, no approval noted before time 0, and the engine is calm. */
  ghost predicate Undisturbed(w: World, t: Tempo) {
    && 0 <= t.now && Unlogged(w.log) && Calm(w.engine, t) && PolicyRuns.ClockOrdered(w.checks, t.now)
    && forall i | i in w.approvedAt :: 0 <= w.approvedAt[i]
  }

  /** A path to such a world with these cycles. */
  ghost predicate Reaches(path: Path, n: nat, cs: seq<Cycle>, t: Tempo) {
    path.Valid(n) && Timely(path.steps, t.now) && path.End().cycles == cs && Undisturbed(path.End(), t)
  }

  lemma Lengthened(path: Path, s: Step, w: World, n: nat)
    requires path.Valid(n) && Moves(path.End(), s, w, n)
    ensures Path(path.worlds + [w], path.steps + [s]).Valid(n)
  {
    var k, longer := |path.steps|, Path(path.worlds + [w], path.steps + [s]);
    assert longer.worlds[0] == INITIAL;
    forall i {:trigger longer.steps[i]} | 0 <= i < k + 1
      ensures Moves(longer.worlds[i], longer.steps[i], longer.worlds[i + 1], n)
    {
      if i < k {
        assert longer.steps[i] == path.steps[i] && longer.worlds[i] == path.worlds[i]
            && longer.worlds[i + 1] == path.worlds[i + 1];
      } else {
        assert longer.steps[k] == s && longer.worlds[k] == path.End() && longer.worlds[k + 1] == w;
      }
    }
  }

  lemma OneMorePending(cs: seq<Cycle>, c: Cycle)
    ensures PendingCount(cs + [c], REX) == PendingCount(cs, REX) + One(c, REX)
    ensures PendingSum(cs + [c], REX) == PendingSum(cs, REX) + Pending(c, REX)
  {
    assert (cs + [c])[..|cs|] == cs;
  }

  /** There is a run to a world with these cycles. */
  ghost predicate Reachable(n: nat, cs: seq<Cycle>, t: Tempo) { exists path: Path :: Reaches(path, n, cs, t) }

  /** There is one to a world with one more cycle of Rex, in this phase. */
  ghost predicate Stands(n: nat, cs: seq<Cycle>, phase: Phase, t: Tempo) {
    exists c: Cycle :: Reachable(n, cs + [c], t) && c.agentId == REX && c.phase == phase
  }

  lemma NewCycle(n: nat, cs: seq<Cycle>, t: Tempo)
    requires Reachable(n, cs, t) && PendingCount(cs, REX) + 1 <= n
    ensures Stands(n, cs, AwaitPrices, t)
  {
    var path: Path :| Reaches(path, n, cs, t);
    var w, s := path.End(), Begin(REX, |cs|);
    OneMorePending(cs, Start(REX, |cs|));
    Grown(path, n, s, w.(cycles := cs + [Start(REX, |cs|)]), cs, t, t);
  }

  /** One more step of a path. */
  lemma Grown(path: Path, n: nat, s: Step, w': World, cs: seq<Cycle>, t: Tempo, later: Tempo)
    requires Reaches(path, n, cs, t) && t.now <= later.now && Undisturbed(w', later)
    requires Enabled(path.End(), s) && w' == After(path.End(), s, Flat()) && PendingCount(w'.cycles, REX) <= n
    requires s.Advance? ==> s.clock == At(t.now)
    ensures Reachable(n, w'.cycles, later)
  {
    var longer := Path(path.worlds + [w'], path.steps + [s]);
    Lengthened(path, s, w', n);
    TimelyNext(path.steps, s, t.now, later.now);
    assert Reaches(longer, n, w'.cycles, later);
  }

  /** What surrounds the last cycle of such a run when it is resumed. */
  ghost function Now(path: Path, c: Cycle, t: Tempo): Surroundings
    requires path.worlds != []
  {
    Around(path.End(), c, At(t.now), Flat())
  }

  function LastStep(cs: seq<Cycle>, input: Input, t: Tempo): Step { Advance(|cs|, input, At(t.now)) }

  lemma UnloggedAfter(w: World, index: nat, input: Input, k: Clock)
    requires Enabled(w, Advance(index, input, k)) && Unlogged(w.log)
    requires !(w.cycles[index].phase.AwaitUpdatedBalance? && input.balance.Returned?)
    ensures Unlogged(After(w, Advance(index, input, k), Flat()).log)
  {
    var c := w.cycles[index];
    var s := Around(w, c, k, Flat());
    StepLogs(c, input, s);
    EntriesWithoutConfirmation(c, NewActions(c, Resume(c, input, s).cycle), k.loggedAt);
  }

  /** What resuming the last cycle, by anything but the end of a swap, makes of the world. */
  lemma LastAdvanced(w: World, w': World, cs: seq<Cycle>, c: Cycle, t: Tempo, input: Input, later: Tempo)
    requires w.cycles == cs + [c] && Undisturbed(w, t) && Enabled(w, LastStep(cs, input, t)) && t.now <= later.now
    requires !(c.phase.AwaitUpdatedBalance? && input.balance.Returned?)
    requires w' == After(w, LastStep(cs, input, t), Flat()) && Calm(w'.engine, later)
    ensures Undisturbed(w', later)
  {
    UnloggedAfter(w, |cs|, input, At(t.now));
    ChecksInOrder(w, |cs|, input, t.now, later.now);
  }

  lemma ChecksInOrder(w: World, index: nat, input: Input, now: int, later: int)
    requires index < |w.cycles| && Expects(w.cycles[index].phase, input)
    requires PolicyRuns.ClockOrdered(w.checks, now) && now <= later
    ensures PolicyRuns.ClockOrdered(w.checks + CheckMade(w, index, input, At(now), Flat()), later)
  {
    var made := CheckMade(w, index, input, At(now), Flat());
    if made == [] {
      assert w.checks + made == w.checks;
      PolicyRuns.ClockOrderedLater(w.checks, now, later);
    } else {
      assert (w.checks + made)[..|w.checks|] == w.checks;
    }
  }

  /** The last cycle is resumed by anything but the end of a swap, leaving the engine calm. */
  lemma Continued(path: Path, n: nat, cs: seq<Cycle>, c: Cycle, t: Tempo, input: Input, later: Tempo)
    requires Reaches(path, n, cs + [c], t) && PendingCount(cs, REX) + 1 <= n && t.now <= later.now
    requires Expects(c.phase, input) && Parsed(input) && !(c.phase.AwaitUpdatedBalance? && input.balance.Returned?)
    requires Calm(Resume(c, input, Now(path, c, t)).engine, later)
    ensures Reachable(n, cs + [Resume(c, input, Now(path, c, t)).cycle], later)
  {
    var w, s := path.End(), LastStep(cs, input, t);
    var d := Resume(c, input, Now(path, c, t)).cycle;
    assert w.cycles[|cs|] == c && w.cycles[|cs| := d] == cs + [d];
    var w' := After(w, s, Flat());
    LastAdvanced(w, w', cs, c, t, input, later);
    OneMorePending(cs, d);
    Grown(path, n, s, w', cs + [c], t, later);
  }

  lemma TimelyNext(ss: seq<Step>, s: Step, now: int, later: int)
    requires Timely(ss, now) && (s.Advance? ==> s.clock == At(now)) && 0 <= now <= later
    ensures Timely(ss + [s], later)
  {
    assert (ss + [s])[..|ss|] == ss;
    TimelyLater(ss, now, later);
  }

  /** The last cycle is resumed, by anything but a verdict of the guardian or the end of a swap. */
  lemma Resumed(path: Path, n: nat, cs: seq<Cycle>, c: Cycle, t: Tempo, input: Input)
    requires Reaches(path, n, cs + [c], t) && PendingCount(cs, REX) + 1 <= n
    requires Expects(c.phase, input) && Parsed(input) && !c.phase.AwaitGuardian?
        && !(c.phase.AwaitUpdatedBalance? && input.balance.Returned?)
    ensures Reachable(n, cs + [Resume(c, input, Now(path, c, t)).cycle], t)
  {
    SameEngine(c, input, Now(path, c, t));
    Continued(path, n, cs, c, t, input, t);
  }

  lemma SameEngine(c: Cycle, i: Input, s: Surroundings)
    requires Expects(c.phase, i) && !c.phase.AwaitGuardian?
    ensures Resume(c, i, s).engine == s.engine
  {
  }

  lemma NothingShown(w: World, c: Cycle, now: int)
    requires Unlogged(w.log)
    ensures ShownVolume(w, c, At(now)) == 0.0
  {
    var log := w.log + [AuditEntry(now, c.agentId, c.number, "GUARDIAN_AUDIT", map[])];
    VolumeOfOthers(Last(log, MAX_IN_MEMORY), c.agentId, Midnight(now));
  }

  predicate IsApproved(d: Cycle) {
    d.agentId == REX && d.phase.AwaitAnchor? && d.phase.payload.decision == DECISION.(amount := MAX_TX)
  }

  /** The last cycle's maximal swap is approved and pending. */
  ghost predicate Approves(n: nat, cs: seq<Cycle>, t: Tempo) {
    exists d: Cycle :: Reachable(n, cs + [d], t) && IsApproved(d)
  }

  /** The guardian approves, and the engine does, too. */
  lemma GuardianApproves(n: nat, cs: seq<Cycle>, t: Tempo)
    requires Stands(n, cs, AwaitGuardian(Quoted(), BALANCE, DECISION), t) && PendingCount(cs, REX) + 1 <= n
        && t.used < RATE_LIMIT_MAX
    ensures Approves(n, cs, t.Next())
  {
    var c: Cycle :| Reachable(n, cs + [c], t) && c.agentId == REX
        && c.phase == AwaitGuardian(Quoted(), BALANCE, DECISION);
    var path: Path :| Reaches(path, n, cs + [c], t);
    var s, input, later := Now(path, c, t), GuardianAnswers(Returned(Audited(AUDIT))), t.Next();
    FlatMarketHasNoCandidates();
    NothingShown(path.End(), c, t.now);
    Approved(c, s, t);
    Continued(path, n, cs, c, t, input, later);
    var d := Resume(c, input, s).cycle;
    assert Reachable(n, cs + [d], later) && IsApproved(d);
  }

  /** What the guardian's approval makes of the cycle and the engine. */
  lemma JudgedBy(c: Cycle, pd: PriceOracle.PriceData, balance: Balance, d: Decision, s: Surroundings, p: Proposal)
    requires c.phase == AwaitGuardian(pd, balance, d) && WithSpreads(pd) && p == ProposalFor(pd, balance, d, s)
    ensures Resume(c, GuardianAnswers(Returned(Audited(AUDIT))), s)
            == StepResult(AfterPolicy(c, pd, AUDIT, Verdict(p, s.engine, s.now), s.anchoredAt),
                          NextState(p, s.engine, s.now, s.recordedAt), s.rotation)
  {
    assert Modified(d, AUDIT) == d;
  }

  lemma AskedInFlatMarket(s: Surroundings)
    requires WithSpreads(FlatMarket()) && s.profile == PROFILE && s.dailyVolume == 0.0
    ensures ProposalFor(Quoted(), BALANCE, DECISION, s) == Asked(MaxSpread(FlatMarket().spreads))
  {
  }

  lemma Approved(c: Cycle, s: Surroundings, t: Tempo)
    requires c.phase == AwaitGuardian(Quoted(), BALANCE, DECISION) && WithSpreads(FlatMarket())
    requires s.profile == PROFILE && s.dailyVolume == 0.0 && s.now == s.recordedAt == t.now && Calm(s.engine, t)
        && t.used < RATE_LIMIT_MAX
    ensures var r := Resume(c, GuardianAnswers(Returned(Audited(AUDIT))), s);
            && r.cycle.agentId == c.agentId && r.cycle.phase.AwaitAnchor?
            && r.cycle.phase.payload.decision == DECISION.(amount := MAX_TX)
            && Calm(r.engine, t.Next())
  {
    var spread := MaxSpread(FlatMarket().spreads);
    AskedInFlatMarket(s);
    JudgedBy(c, Quoted(), BALANCE, DECISION, s, Asked(spread));
    CalmApproves(spread, s.engine, t);
    ApprovedAwaitsAnchor(c, Quoted(), AUDIT, Verdict(Asked(spread), s.engine, t.now), s.anchoredAt);
  }

  lemma ApprovedAwaitsAnchor(c: Cycle, pd: PriceOracle.PriceData, audit: GuardianAudit, r: PolicyResult,
      anchoredAt: int)
    requires r.approved && r.finalDecision.action == "SWAP"
    ensures var d := AfterPolicy(c, pd, audit, r, anchoredAt);
            d.agentId == c.agentId && d.phase.AwaitAnchor? && d.phase.payload.decision == r.finalDecision
  {
  }

  // ----- One cycle --------------------------------------------------------------------------------------

  lemma PricesFetched(n: nat, cs: seq<Cycle>, t: Tempo)
    requires Stands(n, cs, AwaitPrices, t) && PendingCount(cs, REX) + 1 <= n
    ensures Stands(n, cs, AwaitBalance(FlatMarket()), t)
  {
    FlatMarketHasNoCandidates();
    var c: Cycle :| Reachable(n, cs + [c], t) && c.agentId == REX && c.phase == AwaitPrices;
    var path: Path :| Reaches(path, n, cs + [c], t);
    Resumed(path, n, cs, c, t, PricesArrive(Returned(FlatMarket())));
    var d := Resume(c, PricesArrive(Returned(FlatMarket())), Now(path, c, t)).cycle;
    assert Reachable(n, cs + [d], t);
  }

  lemma BalanceFetched(n: nat, cs: seq<Cycle>, t: Tempo)
    requires Stands(n, cs, AwaitBalance(FlatMarket()), t) && PendingCount(cs, REX) + 1 <= n
    ensures Stands(n, cs, AwaitStrategist(FlatMarket(), BALANCE), t)
  {
    FlatMarketHasNoCandidates();
    var c: Cycle :| Reachable(n, cs + [c], t) && c.agentId == REX && c.phase == AwaitBalance(FlatMarket());
    var path: Path :| Reaches(path, n, cs + [c], t);
    Resumed(path, n, cs, c, t, BalanceArrives(Returned(BALANCE)));
    var d := Resume(c, BalanceArrives(Returned(BALANCE)), Now(path, c, t)).cycle;
    assert Reachable(n, cs + [d], t);
  }

  lemma StrategistDecided(n: nat, cs: seq<Cycle>, t: Tempo)
    requires Stands(n, cs, AwaitStrategist(FlatMarket(), BALANCE), t) && PendingCount(cs, REX) + 1 <= n
    ensures Stands(n, cs, AwaitRequote(FlatMarket(), BALANCE, DECISION), t)
  {
    FlatMarketHasNoCandidates();
    var c: Cycle :| Reachable(n, cs + [c], t) && c.agentId == REX
        && c.phase == AwaitStrategist(FlatMarket(), BALANCE);
    var path: Path :| Reaches(path, n, cs + [c], t);
    Resumed(path, n, cs, c, t, StrategistAnswers(Returned(Decided(DECISION))));
    DecidesToSwap(c, Now(path, c, t));
    var d := Resume(c, StrategistAnswers(Returned(Decided(DECISION))), Now(path, c, t)).cycle;
    assert Reachable(n, cs + [d], t);
  }

  lemma DecidesToSwap(c: Cycle, s: Surroundings)
    requires c.phase == AwaitStrategist(FlatMarket(), BALANCE) && WithSpreads(FlatMarket())
    ensures var d := Resume(c, StrategistAnswers(Returned(Decided(DECISION))), s).cycle;
            d.agentId == c.agentId && d.phase == AwaitRequote(FlatMarket(), BALANCE, DECISION)
  {
  }

  lemma Requoted(n: nat, cs: seq<Cycle>, t: Tempo)
    requires Stands(n, cs, AwaitRequote(FlatMarket(), BALANCE, DECISION), t) && PendingCount(cs, REX) + 1 <= n
    ensures Stands(n, cs, AwaitGuardian(Quoted(), BALANCE, DECISION), t)
  {
    FlatMarketHasNoCandidates();
    var c: Cycle :| Reachable(n, cs + [c], t) && c.agentId == REX
        && c.phase == AwaitRequote(FlatMarket(), BALANCE, DECISION);
    var path: Path :| Reaches(path, n, cs + [c], t);
    Resumed(path, n, cs, c, t, QuoteArrives(Returned(QUOTE)));
    IsRequoted(c, Now(path, c, t));
    var d := Resume(c, QuoteArrives(Returned(QUOTE)), Now(path, c, t)).cycle;
    assert Reachable(n, cs + [d], t);
  }

  lemma IsRequoted(c: Cycle, s: Surroundings)
    requires c.phase == AwaitRequote(FlatMarket(), BALANCE, DECISION) && WithSpreads(FlatMarket())
    ensures var d := Resume(c, QuoteArrives(Returned(QUOTE)), s).cycle;
            d.agentId == c.agentId && d.phase == AwaitGuardian(Quoted(), BALANCE, DECISION)
  {
  }

  /** One more cycle, up to its pending swap. */
  lemma OneMoreSwap(n: nat, cs: seq<Cycle>, t: Tempo)
    requires Reachable(n, cs, t) && PendingCount(cs, REX) + 1 <= n && t.used < RATE_LIMIT_MAX
    ensures Approves(n, cs, t.Next())
  {
    NewCycle(n, cs, t);
    PricesFetched(n, cs, t);
    BalanceFetched(n, cs, t);
    StrategistDecided(n, cs, t);
    Requoted(n, cs, t);
    GuardianApproves(n, cs, t);
  }

  // ----- The bound is reached ---------------------------------------------------------------------------

  lemma EmptyPath(n: nat)
    ensures Reachable(n, [], TempoOf(0))
  {
    assert Reaches(EMPTY, n, [], TempoOf(0));
  }

  /** A minute later the window is empty. */
  lemma MinuteLater(n: nat, cs: seq<Cycle>, t: Tempo)
    requires Reachable(n, cs, t)
    ensures Reachable(n, cs, Tempo(t.now + RATE_LIMIT_WINDOW_MS, 0))
  {
    var later := Tempo(t.now + RATE_LIMIT_WINDOW_MS, 0);
    var path: Path :| Reaches(path, n, cs, t);
    TimelyLater(path.steps, t.now, later.now);
    UndisturbedLater(path.End(), t);
    assert Reaches(path, n, cs, later);
  }

  lemma UndisturbedLater(w: World, t: Tempo)
    requires Undisturbed(w, t)
    ensures Undisturbed(w, Tempo(t.now + RATE_LIMIT_WINDOW_MS, 0))
  {
    PolicyRuns.NoneActive(Limiter(w.engine, REX), t.now);
    PolicyRuns.ClockOrderedLater(w.checks, t.now, t.now + RATE_LIMIT_WINDOW_MS);
  }

  /** From the k-th swap to the next. */
  lemma NextTempo(k: nat, n: nat, cs: seq<Cycle>)
    requires Reachable(n, cs, TempoOf(k).Next())
    ensures Reachable(n, cs, TempoOf(k + 1))
  {
    if k % RATE_LIMIT_MAX == RATE_LIMIT_MAX - 1 {
      MinuteLater(n, cs, TempoOf(k).Next());
      assert (k + 1) / RATE_LIMIT_MAX == k / RATE_LIMIT_MAX + 1;
    } else {
      assert (k + 1) / RATE_LIMIT_MAX == k / RATE_LIMIT_MAX;
    }
  }

  /** Runs can leave these cycles, k of them with a maximal swap pending. */
  ghost predicate LeavesPending(k: nat, n: nat, cs: seq<Cycle>) {
    Reachable(n, cs, TempoOf(k)) && PendingCount(cs, REX) == k && PendingSum(cs, REX) == Copies(k, MAX_TX)
  }

  ghost predicate CanLeavePending(k: nat, n: nat) { exists cs: seq<Cycle> :: LeavesPending(k, n, cs) }

  lemma NextPending(k: nat, n: nat)
    requires CanLeavePending(k, n) && k < n
    ensures CanLeavePending(k + 1, n)
  {
    var cs: seq<Cycle> :| LeavesPending(k, n, cs);
    OneMoreSwap(n, cs, TempoOf(k));
    var d: Cycle :| Reachable(n, cs + [d], TempoOf(k).Next()) && IsApproved(d);
    NextTempo(k, n, cs + [d]);
    IsPending(k, n, cs, d);
  }

  lemma IsPending(k: nat, n: nat, cs: seq<Cycle>, d: Cycle)
    requires LeavesPending(k, n, cs) && Reachable(n, cs + [d], TempoOf(k + 1)) && IsApproved(d)
    ensures CanLeavePending(k + 1, n)
  {
    OneMorePending(cs, d);
    assert LeavesPending(k + 1, n, cs + [d]);
  }

  lemma NonePending(n: nat)
    ensures CanLeavePending(0, n)
  {
    EmptyPath(n);
    assert LeavesPending(0, n, []);
  }

  lemma {:induction false} PendingSwaps(k: nat, n: nat)
    requires k <= n
    ensures CanLeavePending(k, n)
  {
    if k == 0 {
      NonePending(n);
    } else {
      PendingSwaps(k - 1, n);
      NextPending(k - 1, n);
    }
  }

  /** The volume shown and pending after a run. */
  ghost function ShownAndPending(ss: seq<Step>, n: nat): real
    requires RunOk(ss, Flat(), REX, n)
  {
    var w := WorldAfter(ss, Flat(), REX, n);
    Volume(Buffer(w), REX, DayOf(ss)) + PendingSum(w.cycles, REX)
  }

  lemma FlatIsSetupOk()
    ensures SetupOk(Flat())
  {
    assert (0.2 * 10000.0).Floor == 2000;
  }

  /** For every number n of overlapping swaps there is a run, on such a clock, that attains the bound
      proved for n: the volume shown plus the volume pending is the cap plus n - 1 maximal swaps. With n
      above 1 the cap itself does not hold. */
  lemma BoundIsReached(n: nat)
    requires n >= 1
    ensures SetupOk(Flat())
    ensures exists ss: seq<Step> | RunOk(ss, Flat(), REX, n) && Timely(ss, TempoOf(n).now) ::
              ShownAndPending(ss, n) == PROFILE.dailyVolumeCapSol + Copies(n - 1, PROFILE.maxTxAmountSol)
  {
    FlatIsSetupOk();
    PendingSwaps(n, n);
    var cs: seq<Cycle> :| LeavesPending(n, n, cs);
    var path: Path :| Reaches(path, n, cs, TempoOf(n));
    PathShows(path, n, cs, TempoOf(n));
    assert Copies(n - 1, MAX_TX) + MAX_TX == Copies(n, MAX_TX);
    assert ShownAndPending(path.steps, n) == PROFILE.dailyVolumeCapSol + Copies(n - 1, PROFILE.maxTxAmountSol);
  }

  /** A path is a run, in which nothing but the pending volume is shown. */
  lemma PathShows(path: Path, n: nat, cs: seq<Cycle>, t: Tempo)
    requires Reaches(path, n, cs, t) && 0 <= t.now
    ensures RunOk(path.steps, Flat(), REX, n) && Timely(path.steps, t.now)
    ensures WorldAfter(path.steps, Flat(), REX, n) == path.End()
    ensures ShownAndPending(path.steps, n) == PendingSum(cs, REX)
  {
    PathIsRun(path, n, t.now);
    VolumeOfOthers(Buffer(path.End()), REX, DayOf(path.steps));
  }
}
