/** One step of the control plane seen from outside: what it writes to the log, what the engine is shown of
    it, and what it cannot touch. */
module ControlPlaneSteps {
  import opened Results
  import opened Policy
  import opened AuditLog
  import opened ProofService
  import opened AgentCycle
  import opened ControlPlane
  import PolicyRuns
  import PolicyFields
  import CycleInputs
  import PriceOracle

  // ----- The log -------------------------------------------------------------------------------------------

  /** Each logging action becomes one entry, stamped with the step's time and its cycle's agent and number;
      no other action does. */
  lemma EntriesAppend(c: Cycle, acts: seq<Action>, act: Action, at: int)
    ensures Entries(c, [], at) == []
    ensures Entries(c, acts + [act], at) == Entries(c, acts, at) +
              (if act.Log? then [AuditEntry(at, c.agentId, c.number, act.name, act.data)] else [])
  {
    assert (acts + [act])[..|acts|] == acts;
  }

  lemma {:induction false} EntriesStamped(c: Cycle, acts: seq<Action>, at: int)
    ensures forall e | e in Entries(c, acts, at) :: e.agentId == c.agentId && e.cycle == c.number && e.ts == at
  {
    if acts != [] {
      EntriesStamped(c, acts[..|acts| - 1], at);
    }
  }

  lemma {:induction false} EntriesConcat(c: Cycle, s: seq<Action>, t: seq<Action>, at: int)
    ensures Entries(c, s + t, at) == Entries(c, s, at) + Entries(c, t, at)
  {
    if t == [] {
      assert s + t == s;
    } else {
      assert (s + t)[..|s + t| - 1] == s + t[..|t| - 1];
      EntriesConcat(c, s, t[..|t| - 1], at);
    }
  }

  /** What follows the announcement and the entry of the engine's result. */
  function Rest(c: Cycle, pd: PriceOracle.PriceData, audit: GuardianAudit, r: PolicyResult, anchoredAt: int):
      seq<Action> {
    if !r.approved then [Emit(CycleComplete)]
    else if r.finalDecision.action != "SWAP" then [Emit(CycleComplete), Emit(CycleComplete)]
    else [CallAnchor(PayloadOf(c, pd, audit, r, anchoredAt))]
  }

  function Judged(r: PolicyResult): seq<Action> {
    if r.approved then [Emit(PolicyPass(r)), Log("POLICY_PASS", map[])]
    else [Emit(PolicyFail(r)), Log("POLICY_FAIL", map[])]
  }

  lemma VerdictActions(c: Cycle, pd: PriceOracle.PriceData, audit: GuardianAudit, r: PolicyResult, anchoredAt: int)
    ensures AfterPolicy(c, pd, audit, r, anchoredAt).trace
        == c.trace + (Heard(audit) + Judged(r) + Rest(c, pd, audit, r, anchoredAt))
  {
  }

  /** The step that calls the engine writes the guardian's verdict and then the engine's. */
  lemma VerdictEntries(c: Cycle, pd: PriceOracle.PriceData, audit: GuardianAudit, r: PolicyResult, anchoredAt: int,
      at: int)
    ensures c.trace <= AfterPolicy(c, pd, audit, r, anchoredAt).trace
    ensures Entries(c, NewActions(c, AfterPolicy(c, pd, audit, r, anchoredAt)), at)
            == [AuditEntry(at, c.agentId, c.number, "GUARDIAN_AUDIT", map[]),
                AuditEntry(at, c.agentId, c.number, if r.approved then "POLICY_PASS" else "POLICY_FAIL", map[])]
  {
    VerdictActions(c, pd, audit, r, anchoredAt);
    EntriesOfVerdict(c, audit, r, Rest(c, pd, audit, r, anchoredAt), at);
    Appended(c.trace, Heard(audit) + Judged(r) + Rest(c, pd, audit, r, anchoredAt));
  }

  lemma Appended(t: seq<Action>, u: seq<Action>)
    ensures t <= t + u && (t + u)[|t|..] == u
  {
  }

  lemma EntriesOfVerdict(c: Cycle, audit: GuardianAudit, r: PolicyResult, rest: seq<Action>, at: int)
    requires forall act | act in rest :: !act.Log?
    ensures Entries(c, Heard(audit) + Judged(r) + rest, at)
            == [AuditEntry(at, c.agentId, c.number, "GUARDIAN_AUDIT", map[]),
                AuditEntry(at, c.agentId, c.number, if r.approved then "POLICY_PASS" else "POLICY_FAIL", map[])]
  {
    EntriesConcat(c, Heard(audit) + Judged(r), rest, at);
    EntriesConcat(c, Heard(audit), Judged(r), at);
    PairEntries(c, GuardianVerdict(audit), "GUARDIAN_AUDIT", at);
    if r.approved { PairEntries(c, PolicyPass(r), "POLICY_PASS", at); }
    else { PairEntries(c, PolicyFail(r), "POLICY_FAIL", at); }
    NoEntries(c, rest, at);
  }

  lemma PairEntries(c: Cycle, e: Event, name: string, at: int)
    ensures Entries(c, [Emit(e), Log(name, map[])], at) == [AuditEntry(at, c.agentId, c.number, name, map[])]
  {
    EntriesAppend(c, [Emit(e)], Log(name, map[]), at);
    EntriesAppend(c, [], Emit(e), at);
    assert [] + [Emit(e)] == [Emit(e)] && [Emit(e)] + [Log(name, map[])] == [Emit(e), Log(name, map[])];
  }

  lemma {:induction false} NoEntries(c: Cycle, acts: seq<Action>, at: int)
    requires forall act | act in acts :: !act.Log?
    ensures Entries(c, acts, at) == []
  {
    if acts != [] {
      assert acts[|acts| - 1] in acts;
      NoEntries(c, acts[..|acts| - 1], at);
    }
  }

  /** The daily volume the engine is shown is what the logger reports once the guardian's verdict has been
      logged and before the engine's own result is: for the agent of the cycle and the day of the step. */
  lemma EngineSeesTheLog(w: World, i: nat, input: Input, k: Clock, setup: Setup)
    requires Enabled(w, Advance(i, input, k)) && CheckMade(w, i, input, k, setup) != []
    ensures var c, after := w.cycles[i], After(w, Advance(i, input, k), setup);
            var made := after.checks[|w.checks|..];
            && |after.log| == |w.log| + 2 && |made| == 1 && made[0].Check?
            && after.log[..|w.log|] == w.log
            && after.log[|w.log|].event == "GUARDIAN_AUDIT"
            && after.log[|w.log| + 1].event in {"POLICY_PASS", "POLICY_FAIL"}
            && after.log[|w.log|].agentId == after.log[|w.log| + 1].agentId == c.agentId
            && made[0].proposal.dailyVolumeUsedSol
               == Volume(Last(after.log[..|w.log| + 1], 1000), c.agentId, k.dayStart)
            && made[0].now == k.now && made[0].recordedAt == k.recordedAt
            && made[0].proposal.profile == setup.profiles(c.agentId)
  {
    var c, after := w.cycles[i], After(w, Advance(i, input, k), setup);
    var approved := CheckWrites(w, i, input, k, setup);
    var heard := AuditEntry(k.loggedAt, c.agentId, c.number, "GUARDIAN_AUDIT", map[]);
    assert after.log[..|w.log| + 1] == w.log + [heard];
    assert after.checks[|w.checks|..] == CheckMade(w, i, input, k, setup);
    assert ShownVolume(w, c, k) == Volume(Last(w.log + [heard], 1000), c.agentId, k.dayStart);
  }

  lemma Judgement(c: Cycle, i: Input, s: Surroundings) returns (r: PolicyResult)
    requires c.phase.AwaitGuardian? && Expects(c.phase, i) && i.guardian.Returned? && i.guardian.value.Audited?
        && i.guardian.value.audit.verdict != "VETO"
    ensures Resume(c, i, s).cycle == AfterPolicy(c, c.phase.pd, i.guardian.value.audit, r, s.anchoredAt)
  {
    var p := ProposalFor(c.phase.pd, c.phase.balance, Modified(c.phase.decision, i.guardian.value.audit), s);
    r := Verdict(p, s.engine, s.now);
  }

  lemma CheckWrites(w: World, i: nat, input: Input, k: Clock, setup: Setup) returns (approved: bool)
    requires Enabled(w, Advance(i, input, k)) && CheckMade(w, i, input, k, setup) != []
    ensures var c := w.cycles[i];
            After(w, Advance(i, input, k), setup).log == w.log +
              [AuditEntry(k.loggedAt, c.agentId, c.number, "GUARDIAN_AUDIT", map[]),
               AuditEntry(k.loggedAt, c.agentId, c.number, if approved then "POLICY_PASS" else "POLICY_FAIL", map[])]
  {
    var c, s := w.cycles[i], Around(w, w.cycles[i], k, setup);
    var audit := input.guardian.value.audit;
    var r := Judgement(c, input, s);
    VerdictEntries(c, c.phase.pd, audit, r, s.anchoredAt, k.loggedAt);
    StepExtends(c, input, s);
    return r.approved;
  }

  // ----- What a step cannot touch ---------------------------------------------------------------------------

  /** A step of one cycle leaves every other cycle as it is, appends to the log in its own agent's name
      only, and reaches no other agent's rotation index, rate limiter or stop-loss. */
  lemma StepsAreIsolated(w: World, i: nat, input: Input, k: Clock, setup: Setup)
    requires Enabled(w, Advance(i, input, k))
    ensures var a, id := w.cycles[i].agentId, setup.profiles(w.cycles[i].agentId).agentId;
            var after := After(w, Advance(i, input, k), setup);
            && |after.cycles| == |w.cycles|
            && (forall j | 0 <= j < |w.cycles| && j != i :: after.cycles[j] == w.cycles[j])
            && w.log <= after.log && (forall e | e in after.log[|w.log|..] :: e.agentId == a && e.ts == k.loggedAt)
            && w.checks <= after.checks && |after.checks| <= |w.checks| + 1
            && after.rotations - {a} == w.rotations - {a}
            && after.engine.rateLimiters - {id} == w.engine.rateLimiters - {id}
            && after.engine.stopLossStates - {id} == w.engine.stopLossStates - {id}
  {
    var c, s := w.cycles[i], Around(w, w.cycles[i], k, setup);
    var d := Stepped(w, i, input, k, setup).cycle;
    StepExtends(c, input, s);
    EntriesStamped(c, NewActions(c, d), k.loggedAt);
    assert After(w, Advance(i, input, k), setup).log[|w.log|..] == Entries(c, NewActions(c, d), k.loggedAt);
    EngineIsolated(c, input, s);
  }

  lemma EngineIsolated(c: Cycle, i: Input, s: Surroundings)
    requires Expects(c.phase, i)
    ensures var after := Resume(c, i, s).engine;
            after.rateLimiters - {s.profile.agentId} == s.engine.rateLimiters - {s.profile.agentId}
                && after.stopLossStates - {s.profile.agentId} == s.engine.stopLossStates - {s.profile.agentId}
  {
    if c.phase.AwaitGuardian? && i.guardian.Returned? && i.guardian.value.Audited?
        && i.guardian.value.audit.verdict != "VETO" {
      var p := ProposalFor(c.phase.pd, c.phase.balance, Modified(c.phase.decision, i.guardian.value.audit), s);
      PolicyFields.LimiterAfter(p, s.engine, s.now, s.recordedAt, 0);
      StopLossKept(p, s.engine, s.now, s.recordedAt);
    }
  }

  lemma StopLossKept(p: Proposal, s: PolicyState, now: int, recordedAt: int)
    ensures NextState(p, s, now, recordedAt).stopLossStates - {p.profile.agentId}
        == s.stopLossStates - {p.profile.agentId}
  {
  }

  /** An agent's rotation index starts at 0 and moves, when one of its cycles has received prices with
      candidates, to the rank after the one looked at. */
  lemma RotationMoves(w: World, i: nat, pd: PriceOracle.PriceData, k: Clock, setup: Setup)
    requires i < |w.cycles| && w.cycles[i].phase.AwaitPrices? && WithSpreads(pd)
    ensures var a, n := w.cycles[i].agentId, |PriceOracle.CandidatesOf(pd.spreads)|;
            var before := if a in w.rotations then w.rotations[a] else 0;
            var after := After(w, Advance(i, PricesArrive(Returned(pd)), k), setup);
            a in after.rotations && after.rotations[a]
                == if n == 0 then before else if before % n + 1 == n then 0 else before % n + 1
  {
    CycleInputs.PrescanStep(w.cycles[i], pd, Around(w, w.cycles[i], k, setup));
  }

  // ----- What an approval leaves ---------------------------------------------------------------------------------

  lemma AnchorStamp(c: Cycle, pd: PriceOracle.PriceData, audit: GuardianAudit, r: PolicyResult, anchoredAt: int)
    ensures var after := AfterPolicy(c, pd, audit, r, anchoredAt);
            after.phase.AwaitAnchor? ==>
              && after.phase.payload.timestamp == anchoredAt
              && |after.trace| > |c.trace| && after.trace[|after.trace| - 1] == CallAnchor(after.phase.payload)
  {
  }

  /** A step after which a swap awaits its anchor is the one that asked the engine: the payload bears the clock
      reading taken for it, the last action hands exactly that payload to the anchor, and the engine noted the
      approval at its second reading. */
  lemma ApprovalIsStamped(w: World, i: nat, input: Input, k: Clock, setup: Setup)
    requires Enabled(w, Advance(i, input, k)) && Stepped(w, i, input, k, setup).cycle.phase.AwaitAnchor?
    ensures var after := After(w, Advance(i, input, k), setup);
            var c, id := after.cycles[i], setup.profiles(w.cycles[i].agentId).agentId;
            && CheckMade(w, i, input, k, setup) != []
            && c.phase.AwaitAnchor? && c.phase.payload.timestamp == k.anchoredAt
            && c.trace != [] && c.trace[|c.trace| - 1] == CallAnchor(c.phase.payload)
            && i in after.approvedAt && after.approvedAt[i] == k.recordedAt
            && id in after.engine.rateLimiters && k.recordedAt in after.engine.rateLimiters[id]
  {
    var c, s := w.cycles[i], Around(w, w.cycles[i], k, setup);
    ApprovalStep(c, input, s);
    var r := Judgement(c, input, s);
    AnchorStamp(c, c.phase.pd, input.guardian.value.audit, r, s.anchoredAt);
    var p := ProposalFor(c.phase.pd, c.phase.balance, Modified(c.phase.decision, input.guardian.value.audit), s);
    RecordedIn(p, s.engine, s.now, s.recordedAt);
  }

  lemma RecordedIn(p: Proposal, s: PolicyState, now: int, recordedAt: int)
    requires ApprovesSwap(p, s, now)
    ensures var after := NextState(p, s, now, recordedAt).rateLimiters;
            p.profile.agentId in after && recordedAt in after[p.profile.agentId]
  {
  }
}
