/** The volume executed on the chain over whole runs of the control plane: between what bounds it lies, how it
    relates to what was confirmed and to the log, and how far it can exceed the cap within a day. */
module ExecutedRuns {
  import opened Policy
  import opened AuditLog
  import opened AgentCycle
  import opened ControlPlane
  import opened ControlPlaneRuns
  import opened ExecutedVolume

  // ----- Whole runs -------------------------------------------------------------------------------------

  /** Whatever a cycle submits was approved, for an amount within the maximum; and an approved swap is in
      flight or over. */
  ghost predicate SentOk(c: Cycle, noted: bool, max: real) {
    && Bounded(c.trace, max) && ((exists act :: act in c.trace && act.Submits?) || InFlight(c) ==> noted)
    && (noted ==> InFlight(c) || c.phase.Done?)
  }

  ghost predicate CycleSentOk(w: World, i: nat, setup: Setup)
    requires i < |w.cycles|
  {
    SentOk(w.cycles[i], i in w.approvedAt, setup.profiles(w.cycles[i].agentId).maxTxAmountSol)
  }

  ghost predicate SentInv(w: World, setup: Setup) {
    && (forall i | i in w.approvedAt :: i < |w.cycles|)
    && (forall i: nat | i < |w.cycles| :: CycleSentOk(w, i, setup))
  }

  /** One step submits for the approved amount only, and keeps approved swaps in flight until they end. */
  lemma CycleSends(c: Cycle, i: Input, s: Surroundings, noted: bool, p: Profile)
    requires Expects(c.phase, i) && SentOk(c, noted, p.maxTxAmountSol) && CycleBounds(c, p)
    ensures var d := Resume(c, i, s).cycle;
            SentOk(d, noted || d.phase.AwaitAnchor?, p.maxTxAmountSol) && (d.phase.AwaitAnchor? ==> !noted)
  {
    var d := Resume(c, i, s).cycle;
    StepSubmits(c, i, s);
    assert d.trace == c.trace + NewActions(c, d);
    PendingStep(c, i, s, c.agentId);
    if InFlight(d) { FlightStep(c, i, s); }
    if noted { StaysInFlight(c, i, s); }
  }

  lemma StaysInFlight(c: Cycle, i: Input, s: Surroundings)
    requires Expects(c.phase, i) && InFlight(c)
    ensures InFlight(Resume(c, i, s).cycle) || Resume(c, i, s).cycle.phase.Done?
  {
  }

  lemma StepSubmits(c: Cycle, i: Input, s: Surroundings)
    requires Expects(c.phase, i)
    ensures c.trace <= Resume(c, i, s).cycle.trace
    ensures forall act | act in NewActions(c, Resume(c, i, s).cycle) && act.Submits? ::
              c.phase.AwaitSwap? && act.amount == c.phase.payload.decision.amount
  {
    StepExtends(c, i, s);
    if c.phase.AwaitUpdatedBalance? && i.balance.Returned? {
      ConfirmationActions(c, i, s);
    } else {
      StepLogs(c, i, s);
      if c.phase.AwaitAnchor? { AnchorLogs(c, i, s); }
    }
  }

  lemma StepSends(w: World, s: Step, setup: Setup)
    requires WorldInv(w, setup) && SentInv(w, setup) && Enabled(w, s)
    ensures SentInv(After(w, s, setup), setup)
  {
    var w' := After(w, s, setup);
    if s.Advance? {
      AdvanceSends(w, s.index, s.input, s.clock, setup);
    } else {
      forall i: nat | i < |w'.cycles| ensures CycleSentOk(w', i, setup) {
        assert i < |w.cycles| ==> CycleSentOk(w, i, setup);
      }
    }
  }

  lemma AdvanceSends(w: World, index: nat, input: Input, k: Clock, setup: Setup)
    requires WorldInv(w, setup) && SentInv(w, setup) && Enabled(w, Advance(index, input, k))
    ensures SentInv(After(w, Advance(index, input, k), setup), setup)
  {
    var w', c := After(w, Advance(index, input, k), setup), w.cycles[index];
    assert c in w.cycles && CycleSentOk(w, index, setup);
    CycleSends(c, input, Around(w, c, k, setup), index in w.approvedAt, setup.profiles(c.agentId));
    StepExtends(c, input, Around(w, c, k, setup));
    forall i: nat | i < |w'.cycles| ensures CycleSentOk(w', i, setup) {
      if i != index { assert CycleSentOk(w, i, setup); }
    }
  }

  lemma {:induction false} RunSends(ss: seq<Step>, setup: Setup, a: string, n: nat, b: string, start: int)
    requires RunOk(ss, setup, a, n) && SetupOk(setup) && n >= 1
    ensures SentInv(WorldAfter(ss, setup, a, n), setup) && LogTells(WorldAfter(ss, setup, a, n), b, start)
  {
    if ss != [] {
      var front, s := ss[..|ss| - 1], ss[|ss| - 1];
      var w := WorldAfter(front, setup, a, n);
      RunSends(front, setup, a, n, b, start);
      RunInvariant(front, setup, a, n);
      StepSends(w, s, setup);
      StepTells(w, s, setup, b, start);
    }
  }

  lemma WorldAddsUp(w: World, a: string, during: Window, start: int, setup: Setup)
    requires WorldInv(w, setup) && SetupOk(setup) && SentInv(w, setup)
    ensures SumAddsUp(w.cycles, a, during, start)
  {
    WorldIsOk(w, setup);
    CyclesAddUp(w.cycles, a, during, start, setup);
  }

  lemma WorldIsOk(w: World, setup: Setup)
    requires WorldInv(w, setup) && SetupOk(setup) && SentInv(w, setup)
    ensures forall c | c in w.cycles :: CycleOk(c, setup)
  {
    forall c | c in w.cycles ensures CycleOk(c, setup) {
      var i: nat :| i < |w.cycles| && w.cycles[i] == c;
      assert CycleSentOk(w, i, setup) && ProfileOk(setup.profiles(c.agentId));
    }
  }

  /** In every run and over every window of time, the volume an agent's swaps executed on the chain is what
      was confirmed plus what took effect unconfirmed. It lies between the confirmed volume and that plus
      everything submitted and not confirmed. */
  lemma ExecutedIsBetween(ss: seq<Step>, setup: Setup, a: string, n: nat, during: Window)
    requires RunOk(ss, setup, a, n) && SetupOk(setup) && n >= 1
    ensures var cs := WorldAfter(ss, setup, a, n).cycles;
            && Sum(cs, a, Executed, during) == Sum(cs, a, Confirmed, during) + Sum(cs, a, Stray, during)
            && Sum(cs, a, Confirmed, during) <= Sum(cs, a, Executed, during)
                <= Sum(cs, a, Confirmed, during) + Sum(cs, a, Unconfirmed, during)
            && Sum(cs, a, Submitted, during) == Sum(cs, a, Confirmed, Always()) + Sum(cs, a, Unconfirmed, during)
  {
    RunInvariant(ss, setup, a, n);
    RunSends(ss, setup, a, n, a, 0);
    WorldAddsUp(WorldAfter(ss, setup, a, n), a, during, 0, setup);
  }

  /** Everything sent unconfirmed is for nothing. */
  ghost predicate NoneUnconfirmed(s: seq<Sent>) {
    forall x | x in s && !x.submission.confirmed :: x.amount == 0.0
  }

  lemma {:induction false} UnconfirmedIsZeroIff(s: seq<Sent>, during: Window)
    requires forall x | x in s :: 0.0 <= x.amount
    ensures 0.0 <= Total(s, Unconfirmed, during) && (Total(s, Unconfirmed, during) == 0.0 <==> NoneUnconfirmed(s))
  {
    if s != [] {
      var front, x := s[..|s| - 1], s[|s| - 1];
      assert s == front + [x] && x in s;
      UnconfirmedIsZeroIff(front, during);
    }
  }

  lemma {:induction false} AmountsSent(t: seq<Action>, max: real)
    requires Bounded(t, max)
    ensures forall x | x in SentIn(t) :: 0.0 <= x.amount
  {
    if t != [] {
      assert t[|t| - 1] in t && forall act | act in t[..|t| - 1] :: act in t;
      AmountsSent(t[..|t| - 1], max);
    }
  }

  lemma {:induction false} SumUnconfirmedIsZeroIff(cs: seq<Cycle>, a: string, during: Window, setup: Setup)
    requires forall c | c in cs :: CycleOk(c, setup)
    ensures 0.0 <= Sum(cs, a, Unconfirmed, during)
    ensures Sum(cs, a, Unconfirmed, during) == 0.0 <==>
            forall c | c in cs && c.agentId == a :: NoneUnconfirmed(SentIn(c.trace))
  {
    if cs != [] {
      var front, c := cs[..|cs| - 1], cs[|cs| - 1];
      assert cs == front + [c] && c in cs;
      SumUnconfirmedIsZeroIff(front, a, during, setup);
      AmountsSent(c.trace, setup.profiles(c.agentId).maxTxAmountSol);
      UnconfirmedIsZeroIff(SentIn(c.trace), during);
    }
  }

  /** What was confirmed is all that was submitted exactly when no transaction of the agent's over a
      positive amount went unconfirmed; and what was executed is then the same again. */
  lemma ConfirmedIsSubmittedIff(ss: seq<Step>, setup: Setup, a: string, n: nat)
    requires RunOk(ss, setup, a, n) && SetupOk(setup) && n >= 1
    ensures var cs := WorldAfter(ss, setup, a, n).cycles;
            && (Sum(cs, a, Confirmed, Always()) == Sum(cs, a, Submitted, Always()) <==>
                forall c | c in cs && c.agentId == a :: NoneUnconfirmed(SentIn(c.trace)))
            && (Sum(cs, a, Confirmed, Always()) == Sum(cs, a, Submitted, Always()) ==>
                Sum(cs, a, Executed, Always()) == Sum(cs, a, Confirmed, Always()))
  {
    var w := WorldAfter(ss, setup, a, n);
    RunInvariant(ss, setup, a, n);
    RunSends(ss, setup, a, n, a, 0);
    WorldIsOk(w, setup);
    WorldAddsUp(w, a, Always(), 0, setup);
    SumUnconfirmedIsZeroIff(w.cycles, a, Always(), setup);
  }

  /** What was executed is what is logged, plus the confirmed swaps that are never logged or not yet, plus
      those that took effect unconfirmed. The instant is one before which nothing was logged. */
  lemma ExecutedIsLoggedPlusMissed(ss: seq<Step>, setup: Setup, a: string, n: nat, start: int)
    requires RunOk(ss, setup, a, n) && SetupOk(setup) && n >= 1
    requires LoggedSince(WorldAfter(ss, setup, a, n).log, start)
    ensures var w := WorldAfter(ss, setup, a, n);
            Sum(w.cycles, a, Executed, Always()) == Volume(w.log, a, start) + Sum(w.cycles, a, Lost, Always())
                + Sum(w.cycles, a, Awaiting, Always()) + Sum(w.cycles, a, Stray, Always())
  {
    RunInvariant(ss, setup, a, n);
    RunSends(ss, setup, a, n, a, start);
    WorldAddsUp(WorldAfter(ss, setup, a, n), a, Always(), start, setup);
  }

  /** What an agent's swaps executed within the day, in a run that may be older, exceeds the cap (with n - 1
      maximal swaps on top, for n in flight at a time) by no more than the evicted volume, the confirmed
      swaps that are never logged, and those that took effect unconfirmed. */
  lemma ExecutedWithinDay(ss: seq<Step>, setup: Setup, a: string, n: nat)
    requires RunOk(ss, setup, a, n) && SetupOk(setup) && n >= 1
    requires StampedInOrder(WorldAfter(ss, setup, a, n).log)
    ensures var w, today, p := WorldAfter(ss, setup, a, n), Since(DayOf(ss)), setup.profiles(a);
            Sum(w.cycles, a, Executed, today) <= p.dailyVolumeCapSol + Copies(n - 1, p.maxTxAmountSol)
                + Volume(Evicted(w.log), a, DayOf(ss)) + Sum(w.cycles, a, Lost, today) + Sum(w.cycles, a, Stray, today)
  {
    var w, day := WorldAfter(ss, setup, a, n), DayOf(ss);
    RunInvariant(ss, setup, a, n);
    RunSends(ss, setup, a, n, a, day);
    WorldAddsUp(w, a, Since(day), day, setup);
    VisibleVolume(w.log, a, day);
  }
}
