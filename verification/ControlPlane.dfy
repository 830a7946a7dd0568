/** The trading control plane as one interleaved system: any number of cycles of any agents, each
    stopped at an `await`, the shared policy engine and the shared audit log. Between two steps of one
    cycle any other steps may happen; nothing keeps two cycles of one agent from overlapping. */
module ControlPlane {
  import opened Results
  import opened Policy
  import opened AuditLog
  import opened ProofService
  import opened AgentCycle
  import PolicyRuns
  import PriceOracle
  import PolicyLaws

  /** `engine` is the policy engine's state and `checks` its history; `log` is everything ever logged;
      `approvedAt` is, for the record, when the engine noted the approval of a cycle's swap. */
  datatype World = World(engine: PolicyState, checks: seq<PolicyRuns.Event>, log: seq<AuditEntry>, cycles: seq<Cycle>,
                         rotations: map<string, nat>, approvedAt: map<nat, int>)

  const INITIAL := World(INITIAL_STATE, [], [], [], map[], map[])

  /** The clock readings of one step: for the engine, for the payload, for the log, and the start of the
      day as the logger computes it. */
  datatype Clock = Clock(now: int, recordedAt: int, anchoredAt: int, loggedAt: int, dayStart: int)

  datatype Step =
    | Begin(agentId: string, number: nat)
    | Advance(index: nat, input: Input, clock: Clock)
    | LogOther(entry: AuditEntry)
    | ResetStopLoss(agentId: string)

  /** What is fixed: every agent's profile and the hash. */
  datatype Setup = Setup(profiles: string -> Profile, hash: ProofPayload -> string)

  function Buffer(w: World): seq<AuditEntry> { Last(w.log, MAX_IN_MEMORY) }

  function RotationOf(w: World, agentId: string): nat { if agentId in w.rotations then w.rotations[agentId] else 0 }

  /** The entries a step's actions push, in order. */
  function Entries(c: Cycle, acts: seq<Action>, at: int): seq<AuditEntry> {
    if acts == [] then []
    else
      Entries(c, acts[..|acts| - 1], at) + EntryOf(c, acts[|acts| - 1], at)
  }

  function EntryOf(c: Cycle, act: Action, at: int): seq<AuditEntry> {
    if act.Log? then [AuditEntry(at, c.agentId, c.number, act.name, act.data)] else []
  }

  /** The volume the engine is shown: the guardian's verdict has just been pushed. */
  function ShownVolume(w: World, c: Cycle, k: Clock): real {
    Volume(Last(w.log + [AuditEntry(k.loggedAt, c.agentId, c.number, "GUARDIAN_AUDIT", map[])], MAX_IN_MEMORY),
        c.agentId, k.dayStart)
  }

  function Around(w: World, c: Cycle, k: Clock, setup: Setup): Surroundings {
    Surroundings(setup.profiles(c.agentId), setup.hash, w.engine, ShownVolume(w, c, k), k.now, k.recordedAt,
        k.anchoredAt, RotationOf(w, c.agentId))
  }

  function Stepped(w: World, index: nat, input: Input, k: Clock, setup: Setup): StepResult
    requires index < |w.cycles| && Expects(w.cycles[index].phase, input)
  {
    Resume(w.cycles[index], input, Around(w, w.cycles[index], k, setup))
  }

  function NewActions(before: Cycle, after: Cycle): seq<Action>
    requires |before.trace| <= |after.trace|
  {
    after.trace[|before.trace|..]
  }

  /** The engine call made by a step, if any. */
  function CheckMade(w: World, index: nat, input: Input, k: Clock, setup: Setup): seq<PolicyRuns.Event>
    requires index < |w.cycles| && Expects(w.cycles[index].phase, input)
  {
    var c := w.cycles[index];
    if c.phase.AwaitGuardian? && input.guardian.Returned? && input.guardian.value.Audited?
        && input.guardian.value.audit.verdict != "VETO"
    then [PolicyRuns.Check(ProposalFor(c.phase.pd, c.phase.balance,
        Modified(c.phase.decision, input.guardian.value.audit), Around(w, c, k, setup)),
                           k.now, k.recordedAt)]
    else []
  }

  predicate Enabled(w: World, s: Step) {
    match s
    case Begin(_, _) => true
    case Advance(i, input, _) => i < |w.cycles| && Expects(w.cycles[i].phase, input) && Parsed(input)
    case LogOther(e) => e.event != "TX_CONFIRMED"
    case ResetStopLoss(_) => true
  }

  /** What schema validation guarantees about a strategist decision. */
  predicate SchemaValid(d: Decision) {
    d.action in {"SWAP", "HOLD", "SKIP"} && PolicyLaws.Listed(d) && 0.0 <= d.confidence <= 1.0
  }

  predicate Parsed(input: Input) {
    input.StrategistAnswers? && input.strategist.Returned? && input.strategist.value.Decided? ==>
      SchemaValid(input.strategist.value.decision)
  }

  function After(w: World, s: Step, setup: Setup): World
    requires Enabled(w, s)
  {
    match s
    case Begin(a, n) => w.(cycles := w.cycles + [Start(a, n)])
    case Advance(i, input, k) =>
      var r := Stepped(w, i, input, k, setup);
      StepExtends(w.cycles[i], input, Around(w, w.cycles[i], k, setup));
      World(r.engine, w.checks + CheckMade(w, i, input, k, setup),
            w.log + Entries(w.cycles[i], NewActions(w.cycles[i], r.cycle), k.loggedAt),
            w.cycles[i := r.cycle], w.rotations[w.cycles[i].agentId := r.rotation],
            if r.cycle.phase.AwaitAnchor? then w.approvedAt[i := k.recordedAt] else w.approvedAt)
    case LogOther(e) => w.(log := w.log + [e])
    case ResetStopLoss(a) => w.(engine := ResetState(w.engine, a), checks := w.checks + [PolicyRuns.Reset(a)])
  }

  /** A step only appends to the trace of its cycle. */
  lemma StepExtends(c: Cycle, i: Input, s: Surroundings)
    requires Expects(c.phase, i)
    ensures c.trace <= Resume(c, i, s).cycle.trace
    ensures Resume(c, i, s).cycle.agentId == c.agentId && Resume(c, i, s).cycle.number == c.number
  {
    if c.phase.AwaitGuardian? { GuardianExtends(c, i, s); }
  }

  lemma GuardianExtends(c: Cycle, i: Input, s: Surroundings)
    requires Expects(c.phase, i) && c.phase.AwaitGuardian?
    ensures c.trace <= Resume(c, i, s).cycle.trace
    ensures Resume(c, i, s).cycle.agentId == c.agentId && Resume(c, i, s).cycle.number == c.number
  {
    if i.guardian.Returned? && i.guardian.value.Audited? && i.guardian.value.audit.verdict != "VETO" {
      var p := ProposalFor(c.phase.pd, c.phase.balance, Modified(c.phase.decision, i.guardian.value.audit), s);
      PolicyExtends(c, c.phase.pd, i.guardian.value.audit, Verdict(p, s.engine, s.now), s.anchoredAt);
    }
  }

  lemma PolicyExtends(c: Cycle, pd: PriceOracle.PriceData, audit: GuardianAudit, r: PolicyResult, anchoredAt: int)
    ensures var d := AfterPolicy(c, pd, audit, r, anchoredAt);
            c.trace <= d.trace && d.agentId == c.agentId && d.number == c.number
  {
  }

  // ----- Swaps in flight --------------------------------------------------------------------------------------

  predicate InFlight(c: Cycle) { c.phase.AwaitAnchor? || c.phase.AwaitSwap? || c.phase.AwaitUpdatedBalance? }

  /** The amount an approved but unsettled swap of `a` may still add to the volume. */
  function Pending(c: Cycle, a: string): real {
    if c.agentId == a && InFlight(c) then c.phase.payload.decision.amount else 0.0
  }

  function PendingSum(cs: seq<Cycle>, a: string): real {
    if cs == [] then 0.0 else PendingSum(cs[..|cs| - 1], a) + Pending(cs[|cs| - 1], a)
  }

  function PendingCount(cs: seq<Cycle>, a: string): nat {
    if cs == [] then 0
    else PendingCount(cs[..|cs| - 1], a) + if cs[|cs| - 1].agentId == a && InFlight(cs[|cs| - 1]) then 1 else 0
  }

  function One(c: Cycle, a: string): nat { if c.agentId == a && InFlight(c) then 1 else 0 }

  lemma {:induction false} PendingUpdate(cs: seq<Cycle>, i: nat, c: Cycle, a: string)
    requires i < |cs|
    ensures PendingSum(cs[i := c], a) == PendingSum(cs, a) - Pending(cs[i], a) + Pending(c, a)
    ensures PendingCount(cs[i := c], a) == PendingCount(cs, a) - One(cs[i], a) + One(c, a)
  {
    var n := |cs| - 1;
    if i == n {
      assert cs[i := c][..n] == cs[..n];
    } else {
      assert cs[i := c][..n] == cs[..n][i := c];
      PendingUpdate(cs[..n], i, c, a);
    }
  }

  lemma {:induction false} PendingBound(cs: seq<Cycle>, a: string, maxTx: real)
    requires 0.0 <= maxTx && forall c | c in cs && c.agentId == a && InFlight(c) :: Pending(c, a) <= maxTx
    ensures PendingSum(cs, a) <= Copies(PendingCount(cs, a), maxTx)
  {
    if cs != [] {
      assert cs[|cs| - 1] in cs;
      PendingBound(cs[..|cs| - 1], a, maxTx);
    }
  }

  /** n * x, by repeated addition. */
  function Copies(n: nat, x: real): real { if n == 0 then 0.0 else Copies(n - 1, x) + x }

  lemma {:induction false} CopiesIsProduct(n: nat, x: real)
    ensures Copies(n, x) == n as real * x
  {
    if n > 0 {
      CopiesIsProduct(n - 1, x);
      OneMore((n - 1) as real, n as real, x);
    }
  }

  lemma OneMore(a: real, b: real, x: real)
    requires b == a + 1.0
    ensures b * x == a * x + x
  {
  }

  lemma {:induction false} CopiesMonotone(i: nat, j: nat, x: real)
    requires i <= j && 0.0 <= x
    ensures Copies(i, x) <= Copies(j, x)
  {
    if i < j {
      CopiesMonotone(i, j - 1, x);
    }
  }

  // ----- The invariant of the system ----------------------------------------------------------------------------

  /** The bounds a cycle carries from one step to the next. */
  predicate CycleBounds(c: Cycle, p: Profile) {
    && (c.phase.AwaitRequote? || c.phase.AwaitGuardian? ==> SchemaValid(c.phase.decision))
    && (InFlight(c) ==> 0.0 <= c.phase.payload.decision.amount <= p.maxTxAmountSol)
    && (c.phase.AwaitUpdatedBalance? ==> c.phase.confirmation.amount == c.phase.payload.decision.amount)
  }

  predicate ProfileOk(p: Profile) {
    0.0 <= p.maxTxAmountSol && PolicyLaws.FourDecimals(p.maxTxAmountSol) && 0.0 <= p.minConfidence
        && 0.0 <= p.dailyVolumeCapSol
  }

  ghost predicate SetupOk(setup: Setup) { forall a :: ProfileOk(setup.profiles(a)) }

  ghost predicate WorldInv(w: World, setup: Setup) {
    && AmountsNonNegative(w.log)
    && w.engine == PolicyRuns.Run(w.checks)
    && forall c | c in w.cycles :: CycleBounds(c, setup.profiles(c.agentId)) && Inv(c, setup.hash)
  }

  /** The cap with k overlapping swaps: each but the first can overshoot by one maximal swap. */
  ghost predicate CapHolds(w: World, a: string, dayStart: int, k: nat, p: Profile)
    requires k >= 1
  {
    Volume(Buffer(w), a, dayStart) + PendingSum(w.cycles, a) <= p.dailyVolumeCapSol + Copies(k - 1, p.maxTxAmountSol)
  }

  // ----- Eviction never raises the visible volume -----------------------------------------------------------------

  lemma AppendedVisible(log: seq<AuditEntry>, more: seq<AuditEntry>, a: string, start: int)
    requires AmountsNonNegative(log) && AmountsNonNegative(more)
    ensures Volume(Last(log + more, MAX_IN_MEMORY), a, start) <= Volume(Last(log, MAX_IN_MEMORY), a, start)
        + Volume(more, a, start)
  {
    var shown := Last(log, MAX_IN_MEMORY) + more;
    var kept := Last(log + more, MAX_IN_MEMORY);
    var gone := |shown| - |kept|;
    assert kept == shown[gone..];
    assert shown == shown[..gone] + kept;
    VolumeConcat(Last(log, MAX_IN_MEMORY), more, a, start);
    VolumeConcat(shown[..gone], kept, a, start);
    VolumeNonNegative(shown[..gone], a, start);
  }

  // ----- What one step does to volume and pending amounts ----------------------------------------------------------

  predicate IsConfirmed(act: Action) { act.Log? && act.name == "TX_CONFIRMED" }

  lemma {:induction false} EntriesWithoutConfirmation(c: Cycle, acts: seq<Action>, at: int)
    requires forall act | act in acts :: !IsConfirmed(act)
    ensures forall e | e in Entries(c, acts, at) :: e.event != "TX_CONFIRMED"
  {
    if acts != [] {
      assert acts[|acts| - 1] in acts;
      EntriesWithoutConfirmation(c, acts[..|acts| - 1], at);
    }
  }

  predicate Unconfirming(acts: seq<Action>) { forall act | act in acts :: !IsConfirmed(act) }

  /** Neither a confirmation nor a swap call nor what it submits. */
  predicate Plain(acts: seq<Action>) {
    forall act | act in acts :: !IsConfirmed(act) && !act.CallSwap? && !act.Submits?
  }

  lemma PolicyLogs(c: Cycle, pd: PriceOracle.PriceData, audit: GuardianAudit, r: PolicyResult, anchoredAt: int)
    ensures Plain(NewActions(c, AfterPolicy(c, pd, audit, r, anchoredAt)))
  {
  }

  lemma DoLogs(c: Cycle, acts: seq<Action>, next: Phase)
    requires Plain(acts)
    ensures Plain(NewActions(c, c.Do(acts, next)))
  {
    assert NewActions(c, c.Do(acts, next)) == acts;
  }

  lemma CrashLogs(c: Cycle)
    ensures Plain(NewActions(c, c.Crash()))
  {
    DoLogs(c, [Log("CYCLE_ERROR", map[])] + [Emit(CycleComplete)], Done);
  }

  lemma VerdictLogs(c: Cycle, pd: PriceOracle.PriceData, balance: Balance, d: Decision, reply: GuardianReply,
      s: Surroundings)
    requires WithSpreads(pd) && c.trace <= AfterGuardian(c, pd, balance, d, reply, s).cycle.trace
    ensures Plain(NewActions(c, AfterGuardian(c, pd, balance, d, reply, s).cycle))
  {
    if reply.SafetyVeto? {
      DoLogs(c, Vetoed(reply.error) + [Emit(CycleComplete)], Done);
    } else if reply.audit.verdict == "VETO" {
      DoLogs(c, Heard(reply.audit) + [Emit(CycleComplete)], Done);
    } else {
      var p := ProposalFor(pd, balance, Modified(d, reply.audit), s);
      PolicyLogs(c, pd, reply.audit, Verdict(p, s.engine, s.now), s.anchoredAt);
    }
  }

  lemma GuardianLogs(c: Cycle, i: Input, s: Surroundings)
    requires Expects(c.phase, i) && c.phase.AwaitGuardian? && c.trace <= Resume(c, i, s).cycle.trace
    ensures Plain(NewActions(c, Resume(c, i, s).cycle))
  {
    CrashLogs(c);
    if i.guardian.Returned? { VerdictLogs(c, c.phase.pd, c.phase.balance, c.phase.decision, i.guardian.value, s); }
  }

  lemma PricesLogs(c: Cycle, pd: PriceOracle.PriceData, s: Surroundings)
    ensures c.trace <= AfterPrices(c, pd, s).cycle.trace && Plain(NewActions(c, AfterPrices(c, pd, s).cycle))
  {
  }

  lemma StrategistLogs(c: Cycle, pd: PriceOracle.PriceData, balance: Balance, reply: StrategistReply)
    ensures c.trace <= AfterStrategist(c, pd, balance, reply).trace
        && Plain(NewActions(c, AfterStrategist(c, pd, balance, reply)))
  {
  }

  lemma NewsLogs(c: Cycle, i: Input, s: Surroundings)
    requires Expects(c.phase, i) && (c.phase.AwaitPrescan? || c.phase.AwaitBalance? || c.phase.AwaitRequote?)
    requires c.trace <= Resume(c, i, s).cycle.trace
    ensures Plain(NewActions(c, Resume(c, i, s).cycle))
  {
    CrashLogs(c);
    var next := Resume(c, i, s).cycle.phase;
    if c.phase.AwaitBalance? {
      if i.balance.Returned? { DoLogs(c, [CallStrategist(c.phase.pd, i.balance.value)], next); }
    } else if i.quote.Returned? {
      var quoted := c.phase.pd.(quote := Some(i.quote.value));
      DoLogs(c, [Emit(PriceFetched(quoted))], next);
      if c.phase.AwaitRequote? { DoLogs(c, Requoted(quoted, c.phase.balance, c.phase.decision), next); }
    }
  }

  lemma EarlyLogs(c: Cycle, i: Input, s: Surroundings)
    requires Expects(c.phase, i) && (c.phase.AwaitPrices? || c.phase.AwaitPrescan? || c.phase.AwaitBalance?
        || c.phase.AwaitStrategist? || c.phase.AwaitRequote?)
    requires c.trace <= Resume(c, i, s).cycle.trace
    ensures Plain(NewActions(c, Resume(c, i, s).cycle))
  {
    CrashLogs(c);
    if c.phase.AwaitPrices? {
      if i.prices.Returned? { PricesLogs(c, i.prices.value, s); }
    } else if c.phase.AwaitStrategist? {
      if i.strategist.Returned? { StrategistLogs(c, c.phase.pd, c.phase.balance, i.strategist.value); }
    } else {
      NewsLogs(c, i, s);
    }
  }

  lemma AnchorLogs(c: Cycle, i: Input, s: Surroundings)
    requires Expects(c.phase, i) && c.phase.AwaitAnchor? && c.trace <= Resume(c, i, s).cycle.trace
    ensures Unconfirming(NewActions(c, Resume(c, i, s).cycle))
    ensures forall act | act in NewActions(c, Resume(c, i, s).cycle) :: !act.Submits? && (act.CallSwap? ==>
              Resume(c, i, s).cycle.phase == AwaitSwap(c.phase.payload) && act.decision == c.phase.payload.decision)
  {
  }

  /** What the end of a swap appends: what it submitted, and nothing else of interest. */
  predicate OnlySubmits(acts: seq<Action>, d: Decision) {
    forall act | act in acts :: !IsConfirmed(act) && !act.CallSwap? && (act.Submits? ==> act.amount == d.amount)
  }

  lemma SwapLogs(c: Cycle, i: Input, s: Surroundings)
    requires Expects(c.phase, i) && c.phase.AwaitSwap? && c.trace <= Resume(c, i, s).cycle.trace
    ensures OnlySubmits(NewActions(c, Resume(c, i, s).cycle), c.phase.payload.decision)
  {
  }

  lemma LateLogs(c: Cycle, i: Input, s: Surroundings)
    requires Expects(c.phase, i) && c.phase.AwaitUpdatedBalance? && i.balance.Threw?
    requires c.trace <= Resume(c, i, s).cycle.trace
    ensures Plain(NewActions(c, Resume(c, i, s).cycle))
  {
  }

  /** Only the last step of a successful swap logs a confirmation, only the anchored one calls the swap,
      and only the one after it submits anything. */
  lemma StepLogs(c: Cycle, i: Input, s: Surroundings)
    requires Expects(c.phase, i) && !(c.phase.AwaitUpdatedBalance? && i.balance.Returned?)
    ensures c.trace <= Resume(c, i, s).cycle.trace
    ensures Unconfirming(NewActions(c, Resume(c, i, s).cycle))
    ensures !c.phase.AwaitAnchor? && !c.phase.AwaitSwap? ==> Plain(NewActions(c, Resume(c, i, s).cycle))
    ensures c.phase.AwaitSwap? ==> OnlySubmits(NewActions(c, Resume(c, i, s).cycle), c.phase.payload.decision)
  {
    StepExtends(c, i, s);
    if c.phase.AwaitGuardian? {
      GuardianLogs(c, i, s);
    } else if c.phase.AwaitAnchor? {
      AnchorLogs(c, i, s);
    } else if c.phase.AwaitSwap? {
      SwapLogs(c, i, s);
    } else if c.phase.AwaitUpdatedBalance? {
      LateLogs(c, i, s);
    } else {
      EarlyLogs(c, i, s);
    }
  }

  /** That step moves the pending amount of the cycle into the log. */
  lemma ConfirmationVolume(c: Cycle, i: Input, s: Surroundings, at: int, a: string, start: int)
    requires Expects(c.phase, i) && c.phase.AwaitUpdatedBalance? && i.balance.Returned?
    requires c.phase.confirmation.amount == c.phase.payload.decision.amount >= 0.0
    ensures var es := Entries(c, NewActions(c, Resume(c, i, s).cycle), at);
            Volume(es, a, start) <= Pending(c, a) && AmountsNonNegative(es)
  {
    var logged := Log("TX_CONFIRMED", TxData(c.phase.payload, c.phase.confirmation, s.hash(c.phase.payload)));
    var e := AuditEntry(at, c.agentId, c.number, "TX_CONFIRMED", logged.data);
    ConfirmationActions(c, i, s);
    EntriesOfThree(c, Emit(BalanceUpdate), logged, Emit(CycleComplete), at);
    assert [] + [e] + [] == [e];
    VolumeOfOne(e, a, start);
  }

  lemma ConfirmationActions(c: Cycle, i: Input, s: Surroundings)
    requires Expects(c.phase, i) && c.phase.AwaitUpdatedBalance? && i.balance.Returned?
    ensures c.trace <= Resume(c, i, s).cycle.trace
    ensures NewActions(c, Resume(c, i, s).cycle)
            == [Emit(BalanceUpdate), Log("TX_CONFIRMED", TxData(c.phase.payload, c.phase.confirmation,
                s.hash(c.phase.payload))), Emit(CycleComplete)]
  {
  }

  lemma EntriesOfThree(c: Cycle, x: Action, y: Action, z: Action, at: int)
    ensures Entries(c, [x, y, z], at) == EntryOf(c, x, at) + EntryOf(c, y, at) + EntryOf(c, z, at)
  {
    assert [x, y, z][..2] == [x, y] && [x, y][..1] == [x] && [x][..0] == [];
    assert Entries(c, [x], at) == [] + EntryOf(c, x, at) == EntryOf(c, x, at);
    assert Entries(c, [x, y], at) == EntryOf(c, x, at) + EntryOf(c, y, at);
  }

  lemma VolumeOfOne(e: AuditEntry, a: string, start: int)
    ensures Volume([e], a, start) == Amount(e, a, start)
  {
    assert [e][..0] == [];
  }

  lemma OtherStepVolume(c: Cycle, i: Input, s: Surroundings, at: int, a: string, start: int)
    requires Expects(c.phase, i) && !(c.phase.AwaitUpdatedBalance? && i.balance.Returned?)
    ensures c.trace <= Resume(c, i, s).cycle.trace
    ensures var es := Entries(c, NewActions(c, Resume(c, i, s).cycle), at);
            Volume(es, a, start) == 0.0 && AmountsNonNegative(es)
  {
    StepLogs(c, i, s);
    var acts := NewActions(c, Resume(c, i, s).cycle);
    EntriesWithoutConfirmation(c, acts, at);
    VolumeOfOthers(Entries(c, acts, at), a, start);
  }

  /** No step but the engine's approval makes a swap pending, and none raises its amount. */
  lemma PendingStep(c: Cycle, i: Input, s: Surroundings, a: string)
    requires Expects(c.phase, i) && (InFlight(c) ==> c.phase.payload.decision.amount >= 0.0)
    ensures var d := Resume(c, i, s).cycle;
            && (!d.phase.AwaitAnchor? ==> Pending(d, a) <= Pending(c, a) && One(d, a) <= One(c, a))
            && (c.phase.AwaitUpdatedBalance? ==> Pending(d, a) == 0.0)
            && (d.phase.AwaitAnchor? ==> c.phase.AwaitGuardian? && Pending(c, a) == 0.0 && One(c, a) == 0)
  {
    if c.phase.AwaitGuardian? { GuardianPhases(c, i, s); }
  }

  /** The proposal and the verdict behind a swap that has just become pending. */
  lemma ApprovalStep(c: Cycle, i: Input, s: Surroundings)
    requires Expects(c.phase, i) && Resume(c, i, s).cycle.phase.AwaitAnchor?
    ensures c.phase.AwaitGuardian? && i.guardian.Returned? && i.guardian.value.Audited?
        && i.guardian.value.audit.verdict != "VETO"
    ensures var p := ProposalFor(c.phase.pd, c.phase.balance, Modified(c.phase.decision, i.guardian.value.audit), s);
            ApprovesSwap(p, s.engine, s.now)
            && Resume(c, i, s).cycle.phase.payload.decision == Verdict(p, s.engine, s.now).finalDecision
  {
    var p := ProposalFor(c.phase.pd, c.phase.balance, Modified(c.phase.decision, i.guardian.value.audit), s);
    ApprovedPolicyStep(c, c.phase.pd, i.guardian.value.audit, Verdict(p, s.engine, s.now), s.anchoredAt);
    ApprovedActionKept(p, s.engine, s.now);
  }

  lemma ApprovedPolicyStep(c: Cycle, pd: PriceOracle.PriceData, audit: GuardianAudit, r: PolicyResult, anchoredAt: int)
    requires AfterPolicy(c, pd, audit, r, anchoredAt).phase.AwaitAnchor?
    ensures r.approved && r.finalDecision.action == "SWAP"
    ensures AfterPolicy(c, pd, audit, r, anchoredAt).phase.payload.decision == r.finalDecision
  {
  }

  lemma ApprovedActionKept(p: Proposal, s: PolicyState, now: int)
    ensures Verdict(p, s, now).approved ==> Verdict(p, s, now).finalDecision.action == p.decision.action
  {
  }

  /** A swap becomes pending only within the cap as the engine saw it, and never above the maximum. */
  lemma ApprovedWithinCap(c: Cycle, i: Input, s: Surroundings)
    requires Expects(c.phase, i) && Resume(c, i, s).cycle.phase.AwaitAnchor? && ProfileOk(s.profile)
        && CycleBounds(c, s.profile)
    ensures var amount := Resume(c, i, s).cycle.phase.payload.decision.amount;
            0.0 <= amount <= s.profile.maxTxAmountSol && s.dailyVolume + amount <= s.profile.dailyVolumeCapSol
  {
    ApprovalStep(c, i, s);
    var p := ProposalFor(c.phase.pd, c.phase.balance, Modified(c.phase.decision, i.guardian.value.audit), s);
    PolicyLaws.ApprovedSwap(p, s.engine, s.now);
  }

  lemma StepBounds(c: Cycle, i: Input, s: Surroundings)
    requires Expects(c.phase, i) && Parsed(i) && ProfileOk(s.profile) && CycleBounds(c, s.profile)
    ensures CycleBounds(Resume(c, i, s).cycle, s.profile)
  {
    if c.phase.AwaitGuardian? {
      GuardianPhases(c, i, s);
      if Resume(c, i, s).cycle.phase.AwaitAnchor? {
        ApprovedWithinCap(c, i, s);
      }
    } else if c.phase.AwaitSwap? && SwapReply(c.phase.payload.decision, i).Returned? {
      SwapReplyConfirms(c.phase.payload, i);
    }
  }

  lemma EngineStep(w: World, index: nat, input: Input, k: Clock, setup: Setup)
    requires index < |w.cycles| && Expects(w.cycles[index].phase, input) && w.engine == PolicyRuns.Run(w.checks)
    ensures Stepped(w, index, input, k, setup).engine == PolicyRuns.Run(w.checks + CheckMade(w, index, input, k, setup))
  {
    var made := CheckMade(w, index, input, k, setup);
    if made != [] {
      assert (w.checks + made)[..|w.checks|] == w.checks;
    } else {
      assert w.checks + made == w.checks;
    }
  }

  // ----- The system invariant ----------------------------------------------------------------------------------------

  lemma InitialInv(setup: Setup)
    ensures WorldInv(INITIAL, setup)
  {
  }

  /** The entries of one step keep the log's amounts non-negative. */
  lemma StepVolumes(w: World, index: nat, input: Input, k: Clock, setup: Setup, a: string)
    requires WorldInv(w, setup) && SetupOk(setup) && index < |w.cycles| && Expects(w.cycles[index].phase, input)
    ensures var c := w.cycles[index];
            var d := Stepped(w, index, input, k, setup).cycle;
            && c.trace <= d.trace
            && var es := Entries(c, NewActions(c, d), k.loggedAt);
               AmountsNonNegative(es) && Volume(es, a, k.dayStart) <= Pending(c, a)
               && (c.phase.AwaitGuardian? ==> Volume(es, a, k.dayStart) == 0.0)
               && (!d.phase.AwaitAnchor? ==> Volume(es, a, k.dayStart) + Pending(d, a) <= Pending(c, a))
  {
    var c := w.cycles[index];
    var s := Around(w, c, k, setup);
    assert c in w.cycles;
    StepExtends(c, input, s);
    PendingStep(c, input, s, a);
    if c.phase.AwaitUpdatedBalance? && input.balance.Returned? {
      ConfirmationVolume(c, input, s, k.loggedAt, a, k.dayStart);
    } else {
      OtherStepVolume(c, input, s, k.loggedAt, a, k.dayStart);
    }
  }

  lemma AmountsAppend(s: seq<AuditEntry>, t: seq<AuditEntry>)
    requires AmountsNonNegative(s) && AmountsNonNegative(t)
    ensures AmountsNonNegative(s + t)
  {
  }

  lemma AdvanceInv(w: World, index: nat, input: Input, k: Clock, setup: Setup)
    requires WorldInv(w, setup) && SetupOk(setup) && Enabled(w, Advance(index, input, k))
    ensures WorldInv(After(w, Advance(index, input, k), setup), setup)
  {
    var c := w.cycles[index];
    var s := Around(w, c, k, setup);
    var d := Stepped(w, index, input, k, setup).cycle;
    assert c in w.cycles;
    StepVolumes(w, index, input, k, setup, c.agentId);
    AmountsAppend(w.log, Entries(c, NewActions(c, d), k.loggedAt));
    EngineStep(w, index, input, k, setup);
    StepInv(c, input, s);
    assert ProfileOk(setup.profiles(c.agentId));
    StepBounds(c, input, s);
    StepExtends(c, input, s);
    forall x | x in w.cycles[index := d] ensures CycleBounds(x, setup.profiles(x.agentId)) && Inv(x, setup.hash) {
      assert x == d || x in w.cycles;
    }
  }

  lemma BeginInv(w: World, a: string, n: nat, setup: Setup)
    requires WorldInv(w, setup)
    ensures WorldInv(w.(cycles := w.cycles + [Start(a, n)]), setup)
  {
    StartInv(a, n, setup.hash);
    assert forall c | c in w.cycles + [Start(a, n)] :: c in w.cycles || c == Start(a, n);
  }

  lemma ResetInv(w: World, a: string, setup: Setup)
    requires WorldInv(w, setup)
    ensures WorldInv(w.(engine := ResetState(w.engine, a), checks := w.checks + [PolicyRuns.Reset(a)]), setup)
  {
    assert (w.checks + [PolicyRuns.Reset(a)])[..|w.checks|] == w.checks;
  }

  lemma StepWorldInv(w: World, s: Step, setup: Setup)
    requires WorldInv(w, setup) && SetupOk(setup) && Enabled(w, s)
    ensures WorldInv(After(w, s, setup), setup)
  {
    match s
    case Begin(a, n) => BeginInv(w, a, n, setup);
    case Advance(i, input, k) => AdvanceInv(w, i, input, k, setup);
    case LogOther(e) => AmountsAppend(w.log, [e]);
    case ResetStopLoss(a) => ResetInv(w, a, setup);
  }

  // ----- The daily cap ---------------------------------------------------------------------------------------------

  function DayAfter(s: Step, dayStart: int): int { if s.Advance? then s.clock.dayStart else dayStart }

  /** A step that makes no swap pending keeps the sum of visible and pending volume from growing. */
  lemma QuietStepCap(w: World, index: nat, input: Input, k: Clock, setup: Setup, a: string, dayStart: int)
    requires WorldInv(w, setup) && SetupOk(setup) && Enabled(w, Advance(index, input, k)) && dayStart <= k.dayStart
    requires !Stepped(w, index, input, k, setup).cycle.phase.AwaitAnchor?
    ensures var v := After(w, Advance(index, input, k), setup);
            Volume(Buffer(v), a, k.dayStart) + PendingSum(v.cycles, a) <= Volume(Buffer(w), a, dayStart)
                + PendingSum(w.cycles, a)
  {
    StepVolumes(w, index, input, k, setup, a);
    var c, d := w.cycles[index], Stepped(w, index, input, k, setup).cycle;
    SumAfter(w, index, d, Entries(c, NewActions(c, d), k.loggedAt), a, dayStart, k.dayStart);
  }

  /** Replacing a cycle and appending entries that together hold no more than it had pending. */
  lemma SumAfter(w: World, index: nat, d: Cycle, es: seq<AuditEntry>, a: string, dayStart: int, later: int)
    requires AmountsNonNegative(w.log) && AmountsNonNegative(es) && dayStart <= later && index < |w.cycles|
    requires Volume(es, a, later) + Pending(d, a) <= Pending(w.cycles[index], a)
    ensures Volume(Last(w.log + es, MAX_IN_MEMORY), a, later) + PendingSum(w.cycles[index := d], a)
            <= Volume(Buffer(w), a, dayStart) + PendingSum(w.cycles, a)
  {
    VisibleAfter(w, es, a, dayStart, later);
    PendingUpdate(w.cycles, index, d, a);
  }

  /** New entries and a new day. */
  lemma VisibleAfter(w: World, es: seq<AuditEntry>, a: string, dayStart: int, later: int)
    requires AmountsNonNegative(w.log) && AmountsNonNegative(es) && dayStart <= later
    ensures Volume(Last(w.log + es, MAX_IN_MEMORY), a, later) <= Volume(Buffer(w), a, dayStart) + Volume(es, a, later)
  {
    AppendedVisible(w.log, es, a, later);
    assert AmountsNonNegative(Buffer(w));
    VolumeRollover(Buffer(w), a, dayStart, later);
  }

  /** The engine was shown the volume that the approving step leaves visible. */
  lemma ApprovalVisible(w: World, index: nat, input: Input, k: Clock, setup: Setup)
    requires WorldInv(w, setup) && SetupOk(setup) && Enabled(w, Advance(index, input, k))
    requires Stepped(w, index, input, k, setup).cycle.phase.AwaitAnchor?
    ensures var a := w.cycles[index].agentId;
            Volume(Buffer(After(w, Advance(index, input, k), setup)), a, k.dayStart)
                + Pending(Stepped(w, index, input, k, setup).cycle, a)
            <= setup.profiles(a).dailyVolumeCapSol
  {
    var c := w.cycles[index];
    assert c in w.cycles && ProfileOk(setup.profiles(c.agentId));
    ApprovedWithinCap(c, input, Around(w, c, k, setup));
    ApprovalLog(w, index, input, k, setup);
    ApprovalPending(w, index, input, k, setup);
  }

  lemma ApprovalOthers(w: World, index: nat, input: Input, k: Clock, setup: Setup, n: nat)
    requires n >= 1 && WorldInv(w, setup) && SetupOk(setup) && Enabled(w, Advance(index, input, k))
    requires Stepped(w, index, input, k, setup).cycle.phase.AwaitAnchor?
    requires PendingCount(After(w, Advance(index, input, k), setup).cycles, w.cycles[index].agentId) <= n
    ensures var a := w.cycles[index].agentId;
            PendingSum(After(w, Advance(index, input, k), setup).cycles, a)
            <= Pending(Stepped(w, index, input, k, setup).cycle, a) + Copies(n - 1, setup.profiles(a).maxTxAmountSol)
  {
    var c, d := w.cycles[index], Stepped(w, index, input, k, setup).cycle;
    ApprovalPending(w, index, input, k, setup);
    OthersBound(w.cycles, index, d, n, setup.profiles(c.agentId).maxTxAmountSol, setup);
  }

  lemma OthersBound(cs: seq<Cycle>, i: nat, d: Cycle, n: nat, maxTx: real, setup: Setup)
    requires n >= 1 && i < |cs| && One(cs[i], d.agentId) == 0 && One(d, d.agentId) == 1
    requires PendingCount(cs[i := d], d.agentId) <= n
    requires SetupOk(setup) && maxTx == setup.profiles(d.agentId).maxTxAmountSol
    requires forall c | c in cs :: CycleBounds(c, setup.profiles(c.agentId))
    ensures PendingSum(cs[i := d], d.agentId) <= Pending(d, d.agentId) + Copies(n - 1, maxTx)
  {
    assert ProfileOk(setup.profiles(d.agentId));
    PendingUpdate(cs, i, d, d.agentId);
    PendingBound(cs, d.agentId, maxTx);
    CopiesMonotone(PendingCount(cs, d.agentId), n - 1, maxTx);
  }

  /** The step that makes a swap of `a` pending establishes the cap anew. */
  lemma ApprovalStepCap(w: World, index: nat, input: Input, k: Clock, setup: Setup, a: string, n: nat)
    requires n >= 1 && WorldInv(w, setup) && SetupOk(setup) && Enabled(w, Advance(index, input, k))
    requires Stepped(w, index, input, k, setup).cycle.phase.AwaitAnchor? && w.cycles[index].agentId == a
    requires PendingCount(After(w, Advance(index, input, k), setup).cycles, a) <= n
    ensures CapHolds(After(w, Advance(index, input, k), setup), a, k.dayStart, n, setup.profiles(a))
  {
    ApprovalVisible(w, index, input, k, setup);
    ApprovalOthers(w, index, input, k, setup, n);
  }

  lemma ApprovalPending(w: World, index: nat, input: Input, k: Clock, setup: Setup)
    requires index < |w.cycles| && Expects(w.cycles[index].phase, input)
        && Stepped(w, index, input, k, setup).cycle.phase.AwaitAnchor?
    ensures var c, d := w.cycles[index], Stepped(w, index, input, k, setup).cycle;
            && d.agentId == c.agentId && Pending(d, c.agentId) == d.phase.payload.decision.amount
            && One(c, c.agentId) == 0 && One(d, c.agentId) == 1
  {
    var c := w.cycles[index];
    var s := Around(w, c, k, setup);
    ApprovalStep(c, input, s);
    StepExtends(c, input, s);
  }

  /** What the approval step leaves in the buffer is no more than what the engine was shown. */
  lemma ApprovalLog(w: World, index: nat, input: Input, k: Clock, setup: Setup)
    requires WorldInv(w, setup) && index < |w.cycles| && Expects(w.cycles[index].phase, input)
    requires Stepped(w, index, input, k, setup).cycle.phase.AwaitAnchor?
    ensures var c := w.cycles[index];
            var d := Stepped(w, index, input, k, setup).cycle;
            && c.trace <= d.trace
            && Volume(Last(w.log + Entries(c, NewActions(c, d), k.loggedAt), MAX_IN_MEMORY), c.agentId, k.dayStart)
                <= ShownVolume(w, c, k)
  {
    var c := w.cycles[index];
    var s := Around(w, c, k, setup);
    ApprovalStep(c, input, s);
    var audit := input.guardian.value.audit;
    var p := ProposalFor(c.phase.pd, c.phase.balance, Modified(c.phase.decision, audit), s);
    ApprovalEntries(c, c.phase.pd, audit, Verdict(p, s.engine, s.now), s.anchoredAt, k.loggedAt);
    var heard := AuditEntry(k.loggedAt, c.agentId, c.number, "GUARDIAN_AUDIT", map[]);
    var passed := AuditEntry(k.loggedAt, c.agentId, c.number, "POLICY_PASS", map[]);
    assert w.log + [heard, passed] == w.log + [heard] + [passed];
    AmountsAppend(w.log, [heard]);
    assert [passed][..0] == [];
    AppendedVisible(w.log + [heard], [passed], c.agentId, k.dayStart);
  }

  lemma ApprovalActions(c: Cycle, pd: PriceOracle.PriceData, audit: GuardianAudit, r: PolicyResult, anchoredAt: int)
    requires AfterPolicy(c, pd, audit, r, anchoredAt).phase.AwaitAnchor?
    ensures NewActions(c, AfterPolicy(c, pd, audit, r, anchoredAt))
            == [Emit(GuardianVerdict(audit)), Log("GUARDIAN_AUDIT", map[]), Emit(PolicyPass(r)),
                Log("POLICY_PASS", map[]),
                CallAnchor(PayloadOf(c, pd, audit, r, anchoredAt))]
  {
    var acts := Passed(audit, r) + [CallAnchor(PayloadOf(c, pd, audit, r, anchoredAt))];
    assert NewActions(c, c.Do(acts, AwaitAnchor(PayloadOf(c, pd, audit, r, anchoredAt)))) == acts;
  }

  lemma TwoLogged(c: Cycle, x: Event, y: Event, call: Action, at: int)
    requires !call.Log?
    ensures Entries(c, [Emit(x), Log("GUARDIAN_AUDIT", map[]), Emit(y), Log("POLICY_PASS", map[]), call], at)
            == [AuditEntry(at, c.agentId, c.number, "GUARDIAN_AUDIT", map[]),
                AuditEntry(at, c.agentId, c.number, "POLICY_PASS", map[])]
  {
    EntriesOfFive(c, Emit(x), Log("GUARDIAN_AUDIT", map[]), Emit(y), Log("POLICY_PASS", map[]), call, at);
    var e, f := AuditEntry(at, c.agentId, c.number, "GUARDIAN_AUDIT", map[]),
        AuditEntry(at, c.agentId, c.number, "POLICY_PASS", map[]);
    assert [] + [e] + [] + [f] + [] == [e, f];
  }

  lemma ApprovalEntries(c: Cycle, pd: PriceOracle.PriceData, audit: GuardianAudit, r: PolicyResult, anchoredAt: int,
      at: int)
    requires AfterPolicy(c, pd, audit, r, anchoredAt).phase.AwaitAnchor?
    ensures Entries(c, NewActions(c, AfterPolicy(c, pd, audit, r, anchoredAt)), at)
            == [AuditEntry(at, c.agentId, c.number, "GUARDIAN_AUDIT", map[]),
                AuditEntry(at, c.agentId, c.number, "POLICY_PASS", map[])]
  {
    ApprovalActions(c, pd, audit, r, anchoredAt);
    TwoLogged(c, GuardianVerdict(audit), PolicyPass(r), CallAnchor(PayloadOf(c, pd, audit, r, anchoredAt)), at);
  }

  lemma EntriesOfFive(c: Cycle, x: Action, y: Action, z: Action, u: Action, v: Action, at: int)
    ensures Entries(c, [x, y, z, u, v], at) == EntryOf(c, x, at) + EntryOf(c, y, at) + EntryOf(c, z, at)
        + EntryOf(c, u, at) + EntryOf(c, v, at)
  {
    EntriesOfThree(c, x, y, z, at);
    assert [x, y, z, u, v][..4] == [x, y, z, u] && [x, y, z, u][..3] == [x, y, z];
    assert Entries(c, [x, y, z, u], at) == Entries(c, [x, y, z], at) + EntryOf(c, u, at);
  }


  lemma PendingOfStarted(cs: seq<Cycle>, c: Cycle, a: string)
    requires !InFlight(c)
    ensures PendingSum(cs + [c], a) == PendingSum(cs, a)
  {
    assert (cs + [c])[..|cs|] == cs;
  }

  lemma OtherEntryVisible(log: seq<AuditEntry>, e: AuditEntry, a: string, start: int)
    requires AmountsNonNegative(log) && e.event != "TX_CONFIRMED"
    ensures Volume(Last(log + [e], MAX_IN_MEMORY), a, start) <= Volume(Last(log, MAX_IN_MEMORY), a, start)
  {
    assert [e][..0] == [];
    AppendedVisible(log, [e], a, start);
  }

  lemma AdvanceKeepsCap(w: World, i: nat, input: Input, k: Clock, setup: Setup, a: string, dayStart: int, n: nat)
    requires n >= 1 && WorldInv(w, setup) && SetupOk(setup) && Enabled(w, Advance(i, input, k))
    requires CapHolds(w, a, dayStart, n, setup.profiles(a)) && dayStart <= k.dayStart
    requires PendingCount(After(w, Advance(i, input, k), setup).cycles, a) <= n
    ensures CapHolds(After(w, Advance(i, input, k), setup), a, k.dayStart, n, setup.profiles(a))
  {
    if Stepped(w, i, input, k, setup).cycle.phase.AwaitAnchor? && w.cycles[i].agentId == a {
      ApprovalStepCap(w, i, input, k, setup, a, n);
    } else if Stepped(w, i, input, k, setup).cycle.phase.AwaitAnchor? {
      ForeignApprovalCap(w, i, input, k, setup, a, dayStart);
    } else {
      QuietStepCap(w, i, input, k, setup, a, dayStart);
    }
  }

  /** An approval of another agent. */
  lemma ForeignApprovalCap(w: World, index: nat, input: Input, k: Clock, setup: Setup, a: string, dayStart: int)
    requires WorldInv(w, setup) && SetupOk(setup) && Enabled(w, Advance(index, input, k)) && dayStart <= k.dayStart
    requires Stepped(w, index, input, k, setup).cycle.phase.AwaitAnchor? && w.cycles[index].agentId != a
    ensures var v := After(w, Advance(index, input, k), setup);
            Volume(Buffer(v), a, k.dayStart) + PendingSum(v.cycles, a) <= Volume(Buffer(w), a, dayStart)
                + PendingSum(w.cycles, a)
  {
    var c := w.cycles[index];
    var d := Stepped(w, index, input, k, setup).cycle;
    var s := Around(w, c, k, setup);
    StepVolumes(w, index, input, k, setup, a);
    StepExtends(c, input, s);
    VisibleAfter(w, Entries(c, NewActions(c, d), k.loggedAt), a, dayStart, k.dayStart);
    PendingUpdate(w.cycles, index, d, a);
  }

  lemma OtherStepsKeepCap(w: World, s: Step, setup: Setup, a: string, dayStart: int, n: nat)
    requires n >= 1 && AmountsNonNegative(w.log) && Enabled(w, s) && !s.Advance?
    requires CapHolds(w, a, dayStart, n, setup.profiles(a))
    ensures CapHolds(After(w, s, setup), a, dayStart, n, setup.profiles(a))
  {
    if s.Begin? {
      PendingOfStarted(w.cycles, Start(s.agentId, s.number), a);
    } else if s.LogOther? {
      OtherEntryVisible(w.log, s.entry, a, dayStart);
    }
  }

  /** Every step keeps the cap, provided no more than n swaps of the agent are pending after it. */
  lemma StepKeepsCap(w: World, s: Step, setup: Setup, a: string, dayStart: int, n: nat)
    requires n >= 1 && WorldInv(w, setup) && SetupOk(setup) && Enabled(w, s)
    requires CapHolds(w, a, dayStart, n, setup.profiles(a)) && dayStart <= DayAfter(s, dayStart)
    requires PendingCount(After(w, s, setup).cycles, a) <= n
    ensures CapHolds(After(w, s, setup), a, DayAfter(s, dayStart), n, setup.profiles(a))
  {
    if s.Advance? {
      AdvanceKeepsCap(w, s.index, s.input, s.clock, setup, a, dayStart, n);
    } else {
      OtherStepsKeepCap(w, s, setup, a, dayStart, n);
    }
  }
}
