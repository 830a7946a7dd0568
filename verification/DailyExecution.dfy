/** How much can be executed in a day, whatever the cap: the rate limiter lets an agent have 7200 swaps
    approved, and each can take effect twice. A run of a single day reaches that, and logs nothing. */
module DailyExecution {
  import opened Results
  import opened Policy
  import opened AuditLog
  import opened ProofService
  import opened AgentCycle
  import opened ControlPlane
  import opened ControlPlaneRuns
  import opened ExecutedVolume
  import opened ExecutedRuns
  import opened CapLimits
  import Broadcast
  import PolicyRuns

  // ----- Cycles and approvals ---------------------------------------------------------------------------

  /** The number of an agent's cycles whose swap was approved after an instant. */
  function CountAfter(cs: seq<Cycle>, at: map<nat, int>, a: string, cut: int): nat {
    if cs == [] then 0
    else
      var i := |cs| - 1;
      CountAfter(cs[..i], at, a, cut) + if cs[i].agentId == a && i in at && at[i] > cut then 1 else 0
  }

  /** An account over an agent's cycles, without those whose swap was approved by then. */
  ghost function SumAfter(cs: seq<Cycle>, at: map<nat, int>, a: string, acc: Account, during: Window, cut: int): real {
    if cs == [] then 0.0
    else
      var i := |cs| - 1;
      SumAfter(cs[..i], at, a, acc, during, cut)
      + if cs[i].agentId == a && !(i in at && at[i] <= cut) then Holds(cs[i], acc, during) else 0.0
  }

  lemma {:induction false} CountOfUpdate(cs: seq<Cycle>, at: map<nat, int>, i: nat, d: Cycle, a: string, cut: int)
    requires i < |cs| && d.agentId == cs[i].agentId
    ensures CountAfter(cs[i := d], at, a, cut) == CountAfter(cs, at, a, cut)
  {
    var n := |cs| - 1;
    if i == n {
      assert cs[i := d][..n] == cs[..n];
    } else {
      assert cs[i := d][..n] == cs[..n][i := d];
      CountOfUpdate(cs[..n], at, i, d, a, cut);
    }
  }

  lemma {:induction false} CountOfLater(cs: seq<Cycle>, at: map<nat, int>, i: nat, t: int, a: string, cut: int)
    requires |cs| <= i
    ensures CountAfter(cs, at[i := t], a, cut) == CountAfter(cs, at, a, cut)
  {
    if cs != [] { CountOfLater(cs[..|cs| - 1], at, i, t, a, cut); }
  }

  lemma {:induction false} CountOfApproval(cs: seq<Cycle>, at: map<nat, int>, i: nat, t: int, a: string, cut: int)
    requires i < |cs| && i !in at
    ensures CountAfter(cs, at[i := t], a, cut)
        == CountAfter(cs, at, a, cut) + if cs[i].agentId == a && t > cut then 1 else 0
  {
    var n := |cs| - 1;
    if i == n {
      CountOfLater(cs[..n], at, i, t, a, cut);
    } else {
      CountOfApproval(cs[..n], at, i, t, a, cut);
    }
  }

  ghost predicate NamesAgree(setup: Setup) { forall a :: setup.profiles(a).agentId == a }

  /** The engine's history has as many approvals after an instant as there are cycles approved then. */
  ghost predicate CountsAgree(w: World, a: string, cut: int) {
    CountAfter(w.cycles, w.approvedAt, a, cut) == |Active(PolicyRuns.Approvals(w.checks, a), cut)|
  }

  /** A check makes a swap pending exactly when it approves one. */
  lemma ApprovalIff(w: World, index: nat, input: Input, k: Clock, setup: Setup)
    requires index < |w.cycles| && Expects(w.cycles[index].phase, input)
    ensures var made, d := CheckMade(w, index, input, k, setup), Stepped(w, index, input, k, setup).cycle;
            d.phase.AwaitAnchor? <==> made != [] && ApprovesSwap(made[0].proposal, w.engine, k.now)
  {
    var c := w.cycles[index];
    var s := Around(w, c, k, setup);
    var d := Stepped(w, index, input, k, setup).cycle;
    if d.phase.AwaitAnchor? { ApprovalStep(c, input, s); }
    var made := CheckMade(w, index, input, k, setup);
    if made != [] && ApprovesSwap(made[0].proposal, w.engine, k.now) {
      ApprovedActionKept(made[0].proposal, w.engine, k.now);
      ApprovedAwaitsAnchor(c, c.phase.pd, input.guardian.value.audit, Verdict(made[0].proposal, w.engine, k.now),
          s.anchoredAt);
    }
  }

  /** What a check adds to the approvals of an agent. */
  lemma ApprovalsGrow(checks: seq<PolicyRuns.Event>, made: seq<PolicyRuns.Event>, a: string, cut: int)
    requires |made| <= 1
    ensures var noted := if made != [] && PolicyRuns.ApprovedFor(a, PolicyRuns.Run(checks), made[0])
                         then [made[0].recordedAt] else [];
            |Active(PolicyRuns.Approvals(checks + made, a), cut)|
            == |Active(PolicyRuns.Approvals(checks, a), cut)| + if noted != [] && noted[0] > cut then 1 else 0
  {
    if made == [] {
      assert checks + made == checks;
    } else {
      assert (checks + made)[..|checks|] == checks;
      PolicyRuns.ActiveAppend(PolicyRuns.Approvals(checks, a), if made[0].Check? then made[0].recordedAt else 0, cut);
    }
  }

  lemma AdvanceCounts(w: World, index: nat, input: Input, k: Clock, setup: Setup, a: string, cut: int)
    requires WorldInv(w, setup) && SentInv(w, setup) && NamesAgree(setup) && CountsAgree(w, a, cut)
    requires Enabled(w, Advance(index, input, k))
    ensures CountsAgree(After(w, Advance(index, input, k), setup), a, cut)
  {
    var c, d := w.cycles[index], Stepped(w, index, input, k, setup).cycle;
    var made := CheckMade(w, index, input, k, setup);
    StepExtends(c, input, Around(w, c, k, setup));
    assert c in w.cycles && CycleSentOk(w, index, setup);
    CycleSends(c, input, Around(w, c, k, setup), index in w.approvedAt, setup.profiles(c.agentId));
    ApprovalIff(w, index, input, k, setup);
    ApprovalsGrow(w.checks, made, a, cut);
    CountOfUpdate(w.cycles, w.approvedAt, index, d, a, cut);
    if d.phase.AwaitAnchor? {
      CountOfApproval(w.cycles[index := d], w.approvedAt, index, k.recordedAt, a, cut);
    }
  }

  lemma StepCounts(w: World, s: Step, setup: Setup, a: string, cut: int)
    requires WorldInv(w, setup) && SentInv(w, setup) && NamesAgree(setup) && CountsAgree(w, a, cut) && Enabled(w, s)
    ensures CountsAgree(After(w, s, setup), a, cut)
  {
    if s.Advance? {
      AdvanceCounts(w, s.index, s.input, s.clock, setup, a, cut);
    } else if s.Begin? {
      assert (w.cycles + [Start(s.agentId, s.number)])[..|w.cycles|] == w.cycles;
      assert |w.cycles| !in w.approvedAt;
    } else if s.ResetStopLoss? {
      ApprovalsGrow(w.checks, [PolicyRuns.Reset(s.agentId)], a, cut);
    }
  }

  lemma {:induction false} RunCounts(ss: seq<Step>, setup: Setup, a: string, n: nat, b: string, cut: int)
    requires RunOk(ss, setup, a, n) && SetupOk(setup) && n >= 1 && NamesAgree(setup)
    ensures CountsAgree(WorldAfter(ss, setup, a, n), b, cut)
  {
    if ss != [] {
      var front := ss[..|ss| - 1];
      RunCounts(front, setup, a, n, b, cut);
      RunInvariant(front, setup, a, n);
      RunSends(front, setup, a, n, b, 0);
      StepCounts(WorldAfter(front, setup, a, n), ss[|ss| - 1], setup, b, cut);
    }
  }

  // ----- The bound of a day -----------------------------------------------------------------------------

  /** A cycle that was never approved has sent nothing. */
  ghost predicate SendsIfNoted(cs: seq<Cycle>, at: map<nat, int>) {
    forall i: nat | i < |cs| && i !in at :: SentIn(cs[i].trace) == []
  }

  lemma TwoMoreCopies(k: nat, x: real)
    ensures Copies(2 * (k + 1), x) == Copies(2 * k, x) + 2.0 * x
  {
    assert Copies(2 * k + 2, x) == Copies(2 * k + 1, x) + x == Copies(2 * k, x) + x + x;
  }

  lemma {:induction false} CopiesOfTwice(k: nat, x: real)
    ensures Copies(k, 2.0 * x) == Copies(2 * k, x)
  {
    if k > 0 {
      CopiesOfTwice(k - 1, x);
      TwoMoreCopies(k - 1, x);
    }
  }

  /** Cycles of the agent hold at most this each, and nothing if their swap was never approved. */
  ghost predicate Within(cs: seq<Cycle>, at: map<nat, int>, a: string, acc: Account, during: Window, unit: real) {
    forall i: nat | i < |cs| && cs[i].agentId == a ::
      Holds(cs[i], acc, during) <= unit && (i !in at ==> Holds(cs[i], acc, during) == 0.0)
  }

  lemma {:induction false} SumOfApproved(cs: seq<Cycle>, at: map<nat, int>, a: string, acc: Account, during: Window,
      cut: int, unit: real)
    requires Within(cs, at, a, acc, during, unit)
    ensures SumAfter(cs, at, a, acc, during, cut) <= Copies(CountAfter(cs, at, a, cut), unit)
  {
    if cs != [] { SumOfApproved(cs[..|cs| - 1], at, a, acc, during, cut, unit); }
  }

  lemma AllWithin(cs: seq<Cycle>, at: map<nat, int>, a: string, during: Window, setup: Setup)
    requires (forall c | c in cs :: CycleOk(c, setup)) && SendsIfNoted(cs, at)
    ensures var max := setup.profiles(a).maxTxAmountSol;
            Within(cs, at, a, Executed, during, 2.0 * max) && Within(cs, at, a, Confirmed, during, max)
  {
    forall i: nat | i < |cs| && cs[i].agentId == a
      ensures var max := setup.profiles(a).maxTxAmountSol;
              && Holds(cs[i], Executed, during) <= 2.0 * max && Holds(cs[i], Confirmed, during) <= max
              && (i !in at ==> Holds(cs[i], Executed, during) == Holds(cs[i], Confirmed, during) == 0.0)
    {
      assert cs[i] in cs;
      OneSwap(cs[i], during, setup);
      if i !in at { NothingHeld(cs[i], during); }
    }
  }

  lemma NothingHeld(c: Cycle, during: Window)
    requires SentIn(c.trace) == []
    ensures Holds(c, Executed, during) == 0.0 && Holds(c, Confirmed, during) == 0.0
  {
  }

  lemma OneSwap(c: Cycle, during: Window, setup: Setup)
    requires CycleOk(c, setup)
    ensures var max := setup.profiles(c.agentId).maxTxAmountSol;
            Holds(c, Executed, during) <= 2.0 * max && Holds(c, Confirmed, during) <= max
  {
    var max := setup.profiles(c.agentId).maxTxAmountSol;
    CycleSentAddsUp(c, setup.hash, max, during);
    CycleSentAddsUp(c, setup.hash, max, Always());
    AmountsSent(c.trace, max);
    ExecutedWasSubmitted(SentIn(c.trace), during);
  }

  lemma {:induction false} ExecutedWasSubmitted(s: seq<Sent>, during: Window)
    requires forall x | x in s :: 0.0 <= x.amount
    ensures Total(s, Executed, during) <= Total(s, Submitted, during)
  {
    if s != [] {
      assert s[|s| - 1] in s && forall x | x in s[..|s| - 1] :: x in s;
      ExecutedWasSubmitted(s[..|s| - 1], during);
    }
  }

  /** In every run, the swaps of an agent that were approved within 24 hours execute at most 14400 maximal
      swaps, of which at most 7200 are confirmed, whatever the cap and whatever is logged. */
  lemma ExecutedPerDay(ss: seq<Step>, setup: Setup, a: string, n: nat, during: Window, cut: int, until: int)
    requires RunOk(ss, setup, a, n) && SetupOk(setup) && n >= 1 && NamesAgree(setup)
    requires PolicyRuns.ClockOrdered(WorldAfter(ss, setup, a, n).checks, until) && until <= cut + PolicyRuns.DAY_MS
    ensures var w, max := WorldAfter(ss, setup, a, n), setup.profiles(a).maxTxAmountSol;
            && SumAfter(w.cycles, w.approvedAt, a, Executed, during, cut) <= Copies(14400, max)
            && SumAfter(w.cycles, w.approvedAt, a, Confirmed, during, cut) <= Copies(7200, max)
  {
    var w := WorldAfter(ss, setup, a, n);
    RunInvariant(ss, setup, a, n);
    RunSends(ss, setup, a, n, a, 0);
    RunCounts(ss, setup, a, n, a, cut);
    PolicyRuns.DayLimit(w.checks, a, cut, until);
    WorldIsOk(w, setup);
    OnlyNotedSend(w, setup);
    ExecutedPerApproval(w.cycles, w.approvedAt, setup, a, during, cut);
  }

  lemma ExecutedPerApproval(cs: seq<Cycle>, at: map<nat, int>, setup: Setup, a: string, during: Window, cut: int)
    requires SetupOk(setup) && (forall c | c in cs :: CycleOk(c, setup)) && SendsIfNoted(cs, at)
    requires CountAfter(cs, at, a, cut) <= 7200
    ensures var max := setup.profiles(a).maxTxAmountSol;
            && SumAfter(cs, at, a, Executed, during, cut) <= Copies(14400, max)
            && SumAfter(cs, at, a, Confirmed, during, cut) <= Copies(7200, max)
  {
    var max := setup.profiles(a).maxTxAmountSol;
    assert ProfileOk(setup.profiles(a));
    AllWithin(cs, at, a, during, setup);
    SumOfApproved(cs, at, a, Executed, during, cut, 2.0 * max);
    SumOfApproved(cs, at, a, Confirmed, during, cut, max);
    UpToADay(CountAfter(cs, at, a, cut), max);
  }

  lemma UpToADay(count: nat, max: real)
    requires count <= 7200 && 0.0 <= max
    ensures Copies(count, 2.0 * max) <= Copies(14400, max) && Copies(count, max) <= Copies(7200, max)
  {
    CopiesOfTwice(count, max);
    CopiesMonotone(2 * count, 14400, max);
    CopiesMonotone(count, 7200, max);
  }

  lemma OnlyNotedSend(w: World, setup: Setup)
    requires SentInv(w, setup)
    ensures SendsIfNoted(w.cycles, w.approvedAt)
  {
    forall i: nat | i < |w.cycles| && i !in w.approvedAt ensures SentIn(w.cycles[i].trace) == [] {
      assert CycleSentOk(w, i, setup);
      NothingSent(w.cycles[i].trace);
    }
  }

  lemma {:induction false} NothingSent(t: seq<Action>)
    requires forall act | act in t :: !act.Submits?
    ensures SentIn(t) == []
  {
    if t != [] {
      assert t[|t| - 1] in t && forall act | act in t[..|t| - 1] :: act in t;
      NothingSent(t[..|t| - 1]);
    }
  }

  // ----- A day that reaches it --------------------------------------------------------------------------

  /** The first transaction takes effect although its confirmation fails; the retry is confirmed. */
  function SettledTwice(now: int): Input {
    SwapSettles(Broadcast.Throws(Broadcast.Confirm, "", "first", Some(now)),
        Broadcast.Confirms("second", 0, "signer", 0), now)
  }

  const UNREAD: Input := BalanceArrives(Threw(false))

  lemma MemoAnchored(cs: seq<Cycle>, p: ProofPayload, t: Tempo)
    requires Stands(1, cs, AwaitAnchor(p), t) && PendingCount(cs, REX) == 0
    ensures Stands(1, cs, AwaitSwap(p), t)
  {
    var c: Cycle :| Reachable(1, cs + [c], t) && c.agentId == REX && c.phase == AwaitAnchor(p);
    var path: Path :| Reaches(path, 1, cs + [c], t);
    Resumed(path, 1, cs, c, t, MemoConfirmed(Returned("memo")));
    var d := Resume(c, MemoConfirmed(Returned("memo")), Now(path, c, t)).cycle;
    assert Reachable(1, cs + [d], t);
  }

  function SentBoth(now: int): seq<Broadcast.Submission> {
    [Broadcast.Submission("first", false, Some(now)), Broadcast.Submission("second", true, Some(now))]
  }

  function ConfirmedSecond(d: Decision, now: int): Confirmation {
    Broadcast.ResultOf(d, SettledTwice(now).second, now).confirmation
  }

  /** What the two last steps of such a swap add to the trace. */
  function TwiceActions(d: Decision, now: int): seq<Action> {
    [Submits(d.amount, SentBoth(now))] + (Announced(ConfirmedSecond(d, now)) + Failure(false))
  }

  lemma SettlingTwice(d: Decision, now: int)
    ensures SwapSubmissions(SettledTwice(now)) == SentBoth(now)
    ensures SwapReply(d, SettledTwice(now)) == Returned(ConfirmedSecond(d, now))
  {
    var attempts := Attempts(SettledTwice(now));
    assert Broadcast.Submissions(attempts, 0, now) == [];
    assert Broadcast.Submissions(attempts, 1, now) == [Broadcast.Submission("first", false, Some(now))];
    assert Broadcast.AllSubmissions(attempts, now) == Broadcast.Submissions(attempts, 2, now);
    assert Broadcast.OutcomeFrom(d, attempts, 1, now) == Ok(Broadcast.ResultOf(d, attempts(1), now));
  }

  lemma SettlesTwice(c: Cycle, s: Surroundings, now: int)
    requires c.phase.AwaitSwap?
    ensures var d := Resume(c, SettledTwice(now), s).cycle;
            && d.agentId == c.agentId && d.phase.AwaitUpdatedBalance?
            && d.trace + Failure(false) == c.trace + TwiceActions(c.phase.payload.decision, now)
  {
    SettlingTwice(c.phase.payload.decision, now);
  }

  lemma SentTwice(d: Decision, now: int)
    ensures Total(SentIn(TwiceActions(d, now)), Executed, Always()) == 2.0 * d.amount
  {
    var t := TwiceActions(d, now);
    var rest := Announced(ConfirmedSecond(d, now)) + Failure(false);
    assert t == [] + [t[0]] + rest;
    InAround([], t[0], rest, Always());
    TotalOfTwo(SentBoth(now), d.amount, Executed, Always());
  }

  /** One more cycle, which executed an amount and is over. */
  ghost predicate Leaves(cs: seq<Cycle>, amount: real, t: Tempo) {
    exists d: Cycle :: Reachable(1, cs + [d], t) && d.agentId == REX && d.phase.Done?
        && Holds(d, Executed, Always()) == amount
  }

  lemma ExecutedTwice(cs: seq<Cycle>, p: ProofPayload, t: Tempo)
    requires Stands(1, cs, AwaitSwap(p), t) && PendingCount(cs, REX) == 0
    ensures Leaves(cs, 2.0 * p.decision.amount, t)
  {
    var c: Cycle :| Reachable(1, cs + [c], t) && c.agentId == REX && c.phase == AwaitSwap(p);
    var path: Path :| Reaches(path, 1, cs + [c], t);
    NothingYet(path, cs, c, t);
    ThenExecutedTwice(path, cs, c, Resume(c, SettledTwice(t.now), Now(path, c, t)).cycle, t);
  }

  lemma ThenExecutedTwice(path: Path, cs: seq<Cycle>, c: Cycle, d: Cycle, t: Tempo)
    requires Reaches(path, 1, cs + [c], t) && PendingCount(cs, REX) == 0 && c.agentId == REX && c.phase.AwaitSwap?
    requires SentIn(c.trace) == [] && d == Resume(c, SettledTwice(t.now), Now(path, c, t)).cycle
    ensures Leaves(cs, 2.0 * c.phase.payload.decision.amount, t)
  {
    Resumed(path, 1, cs, c, t, SettledTwice(t.now));
    IsExecutedTwice(c, Now(path, c, t), t.now);
    Unread(cs, d, t, 2.0 * c.phase.payload.decision.amount);
  }

  lemma IsExecutedTwice(c: Cycle, s: Surroundings, now: int)
    requires c.phase.AwaitSwap? && SentIn(c.trace) == []
    ensures var d := Resume(c, SettledTwice(now), s).cycle;
            && d.agentId == c.agentId && d.phase.AwaitUpdatedBalance?
            && Total(SentIn(d.trace + Failure(false)), Executed, Always()) == 2.0 * c.phase.payload.decision.amount
  {
    var decision := c.phase.payload.decision;
    SettlesTwice(c, s, now);
    SentTwice(decision, now);
    InConcat(c.trace, TwiceActions(decision, now), Always());
    assert [] + SentIn(TwiceActions(decision, now)) == SentIn(TwiceActions(decision, now));
  }

  /** Before its swap is settled, a cycle has sent nothing. */
  lemma NothingYet(path: Path, cs: seq<Cycle>, c: Cycle, t: Tempo)
    requires Reaches(path, 1, cs + [c], t) && c.phase.AwaitSwap?
    ensures SentIn(c.trace) == []
  {
    FlatIsSetupOk();
    PathIsRun(path, 1, t.now);
    RunInvariant(path.steps, Flat(), REX, 1);
    assert c in cs + [c] && Inv(c, Flat().hash);
    CycleShowsLedger(c, Flat().hash, Always());
  }

  lemma Unread(cs: seq<Cycle>, c: Cycle, t: Tempo, amount: real)
    requires Reachable(1, cs + [c], t) && PendingCount(cs, REX) == 0
    requires c.agentId == REX && c.phase.AwaitUpdatedBalance?
    requires Total(SentIn(c.trace + Failure(false)), Executed, Always()) == amount
    ensures Leaves(cs, amount, t)
  {
    var path: Path :| Reaches(path, 1, cs + [c], t);
    Resumed(path, 1, cs, c, t, UNREAD);
    SwapErrorTrace(c, false);
    var d := Resume(c, UNREAD, Now(path, c, t)).cycle;
    assert Reachable(1, cs + [d], t);
  }

  lemma OneMoreLost(cs: seq<Cycle>, t: Tempo)
    requires Reachable(1, cs, t) && PendingCount(cs, REX) == 0 && t.used < RATE_LIMIT_MAX
    ensures Leaves(cs, 2.0 * MAX_TX, t.Next())
  {
    OneMoreSwap(1, cs, t);
    var c: Cycle :| Reachable(1, cs + [c], t.Next()) && IsApproved(c);
    var p := c.phase.payload;
    assert Stands(1, cs, AwaitAnchor(p), t.Next());
    MemoAnchored(cs, p, t.Next());
    ExecutedTwice(cs, p, t.Next());
  }

  /** When k swaps are over. */
  function AfterSwaps(k: nat): Tempo { if k == 0 then TempoOf(0) else TempoOf(k - 1).Next() }

  /** Runs can leave these cycles, k swaps executed twice, and none logged or pending. */
  ghost predicate Loses(k: nat, cs: seq<Cycle>) {
    && Reachable(1, cs, AfterSwaps(k)) && PendingCount(cs, REX) == 0 && PendingSum(cs, REX) == 0.0
    && Sum(cs, REX, Executed, Always()) == Copies(2 * k, MAX_TX)
  }

  ghost predicate CanLose(k: nat) { exists cs: seq<Cycle> :: Loses(k, cs) }

  lemma NextLost(k: nat)
    requires CanLose(k)
    ensures CanLose(k + 1)
  {
    var cs: seq<Cycle> :| Loses(k, cs);
    if k > 0 { NextTempo(k - 1, 1, cs); }
    OneMoreLost(cs, TempoOf(k));
    var d: Cycle :| Reachable(1, cs + [d], TempoOf(k).Next()) && d.agentId == REX && d.phase.Done?
        && Holds(d, Executed, Always()) == 2.0 * MAX_TX;
    IsLost(k, cs, d);
  }

  lemma IsLost(k: nat, cs: seq<Cycle>, d: Cycle)
    requires Loses(k, cs) && Reachable(1, cs + [d], AfterSwaps(k + 1))
    requires d.agentId == REX && d.phase.Done? && Holds(d, Executed, Always()) == 2.0 * MAX_TX
    ensures CanLose(k + 1)
  {
    OneMorePending(cs, d);
    OneMoreExecuted(cs, d);
    TwoMoreCopies(k, MAX_TX);
    assert Loses(k + 1, cs + [d]);
  }

  lemma OneMoreExecuted(cs: seq<Cycle>, d: Cycle)
    requires d.agentId == REX
    ensures Sum(cs + [d], REX, Executed, Always()) == Sum(cs, REX, Executed, Always()) + Holds(d, Executed, Always())
  {
    assert (cs + [d])[..|cs|] == cs;
  }

  lemma {:induction false} LostSwaps(k: nat)
    ensures CanLose(k)
  {
    if k == 0 {
      EmptyPath(1);
      assert Loses(0, []);
    } else {
      LostSwaps(k - 1);
      NextLost(k - 1);
    }
  }

  lemma {:induction false} SumOfAll(cs: seq<Cycle>, at: map<nat, int>, a: string, acc: Account, during: Window,
      cut: int)
    requires forall i | i in at :: cut < at[i]
    ensures SumAfter(cs, at, a, acc, during, cut) == Sum(cs, a, acc, during)
  {
    if cs != [] { SumOfAll(cs[..|cs| - 1], at, a, acc, during, cut); }
  }

  /** What a run has executed for Rex since an instant, with nothing logged or pending for it, on a clock
      that has not passed another. */
  ghost predicate ExecutesUnlogged(ss: seq<Step>, total: real, cut: int, until: int)
    requires RunOk(ss, Flat(), REX, 1)
  {
    var w := WorldAfter(ss, Flat(), REX, 1);
    && SumAfter(w.cycles, w.approvedAt, REX, Executed, Always(), cut) == total
    && Volume(w.log, REX, DayOf(ss)) == 0.0 && PendingSum(w.cycles, REX) == 0.0
    && Timely(ss, until) && PolicyRuns.ClockOrdered(w.checks, until)
  }

  /** The bound of a day is reached: with never more than one swap in flight, a run of one day, from its
      start to its last millisecond, executes up to 14400 maximal swaps, and its log shows no volume. */
  lemma LostSwapsFillTheDay(k: nat)
    requires k <= 7200
    ensures SetupOk(Flat()) && NamesAgree(Flat())
    ensures exists ss: seq<Step> | RunOk(ss, Flat(), REX, 1) ::
              ExecutesUnlogged(ss, Copies(2 * k, PROFILE.maxTxAmountSol), -1, PolicyRuns.DAY_MS - 1)
  {
    FlatIsSetupOk();
    LostSwaps(k);
    var cs: seq<Cycle> :| Loses(k, cs);
    var path: Path :| Reaches(path, 1, cs, AfterSwaps(k));
    WithinTheDay(path, cs, AfterSwaps(k), Copies(2 * k, MAX_TX));
  }

  lemma WithinTheDay(path: Path, cs: seq<Cycle>, t: Tempo, total: real)
    requires Reaches(path, 1, cs, t) && 0 <= t.now < PolicyRuns.DAY_MS
    requires Sum(cs, REX, Executed, Always()) == total && PendingSum(cs, REX) == 0.0
    ensures RunOk(path.steps, Flat(), REX, 1) && ExecutesUnlogged(path.steps, total, -1, PolicyRuns.DAY_MS - 1)
  {
    var w := path.End();
    PathIsRun(path, 1, t.now);
    TimelyLater(path.steps, t.now, PolicyRuns.DAY_MS - 1);
    PolicyRuns.ClockOrderedLater(w.checks, t.now, PolicyRuns.DAY_MS - 1);
    SumOfAll(cs, w.approvedAt, REX, Executed, Always(), -1);
    VolumeOfOthers(w.log, REX, DayOf(path.steps));
  }
}
