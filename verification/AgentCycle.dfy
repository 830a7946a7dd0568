/** One agent cycle as the state machine its `await`s make of it. Every external (price service, both
    language models, wallet, memo transaction, swap) may return anything of its type or throw. A step
    runs from one `await` to the next; its effects are appended to the cycle's trace. */
module AgentCycle {
  import opened Results
  import opened Policy
  import PolicyLaws
  import opened AuditLog
  import opened PriceOracle
  import opened ProofService
  import Broadcast

  // ----- Externals -----------------------------------------------------------------------------------

  /** A thrown error is described by the one thing the cycle asks about its message: whether it
      contains 'Failed to fetch lookup table'. */
  datatype Reply<+T> = Returned(value: T) | Threw(lookupTable: bool)

  datatype StrategistReply = Decided(decision: Decision) | ParseFailed

  datatype GuardianReply = Audited(audit: GuardianAudit) | SafetyVeto(error: string)

  type Confirmation = Broadcast.TxConfirmation

  datatype Input =
    | PricesArrive(prices: Reply<PriceData>)
    | QuoteArrives(quote: Reply<Quote>)
    | BalanceArrives(balance: Reply<Balance>)
    | StrategistAnswers(strategist: Reply<StrategistReply>)
    | GuardianAnswers(guardian: Reply<GuardianReply>)
    | MemoConfirmed(signature: Reply<string>)
    | SwapSettles(first: Broadcast.Attempt, second: Broadcast.Attempt, confirmedAt: int)

  // ----- Effects --------------------------------------------------------------------------------------

  datatype Event =
    | CycleStart | PriceFetched(pd: PriceData) | LlmParseError | AgentThinking(decision: Decision)
    | GuardianVerdict(audit: GuardianAudit)
    | PolicyPass(result: PolicyResult) | PolicyFail(result: PolicyResult) | ProofAnchored(hash: string) | TxSigning
    | KoraSigned | TxSubmitted | TxConfirmed(confirmation: Confirmation) | BalanceUpdate | TxFailed | CycleComplete

  datatype Action =
    | Emit(event: Event)
    | Log(name: string, data: map<string, DataValue>)
    | CallQuote(fromToken: string, toToken: string, amount: real)
    | CallStrategist(pd: PriceData, balance: Balance)
    | CallGuardian(decision: Decision, pd: PriceData, balance: Balance)
    | CallAnchor(payload: ProofPayload)
    | CallSwap(decision: Decision)
    | Submits(amount: real, submissions: seq<Broadcast.Submission>)

  /** What is awaited, with the local variables still needed. */
  datatype Phase =
    | AwaitPrices
    | AwaitPrescan(pd: PriceData)
    | AwaitBalance(pd: PriceData)
    | AwaitStrategist(pd: PriceData, balance: Balance)
    | AwaitRequote(pd: PriceData, balance: Balance, decision: Decision)
    | AwaitGuardian(pd: PriceData, balance: Balance, decision: Decision)
    | AwaitAnchor(payload: ProofPayload)
    | AwaitSwap(payload: ProofPayload)
    | AwaitUpdatedBalance(payload: ProofPayload, confirmation: Confirmation)
    | Done

  datatype Cycle = Cycle(agentId: string, number: nat, phase: Phase, trace: seq<Action>)
  {
    function Do(acts: seq<Action>, next: Phase): Cycle { this.(trace := trace + acts, phase := next) }

    /** The `finally` block. */
    function Finish(acts: seq<Action>): Cycle { Do(acts + [Emit(CycleComplete)], Done) }

    /** The outer `catch` block. */
    function Crash(): Cycle { Finish([Log("CYCLE_ERROR", map[])]) }

    /** The inner `catch` block around the swap. */
    function SwapError(lookupTable: bool): Cycle {
      if lookupTable then Finish([Log("DEVNET_ALT_SKIP", map[])]) else Finish([Emit(TxFailed), Log("TX_FAILED", map[])])
    }
  }

  /** What a step reads besides its input: the profile and the hash, the engine, the daily volume in the
      logger's buffer, three clock readings and the agent's rotation index. */
  datatype Surroundings = Surroundings(profile: Profile, hash: ProofPayload -> string, engine: PolicyState,
      dailyVolume: real,
                                       now: int, recordedAt: int, anchoredAt: int, rotation: nat)

  datatype StepResult = StepResult(cycle: Cycle, engine: PolicyState, rotation: nat)

  function Start(agentId: string, number: nat): Cycle { Cycle(agentId, number, AwaitPrices, [Emit(CycleStart)]) }

  function MaxSpread(spreads: seq<Spread>): real
    requires spreads != []
  {
    var last := spreads[|spreads| - 1].spreadPct;
    if |spreads| == 1 then last
    else if MaxSpread(spreads[..|spreads| - 1]) >= last then MaxSpread(spreads[..|spreads| - 1]) else last
  }

  /** The spreads record has an entry for every tracked pair. */
  predicate WithSpreads(pd: PriceData) { pd.spreads != [] }

  /** Whether an input is the one a phase waits for. */
  predicate Expects(phase: Phase, i: Input) {
    match phase
    case AwaitPrices => i.PricesArrive? && (i.prices.Returned? ==> WithSpreads(i.prices.value))
    case AwaitPrescan(pd) => i.QuoteArrives? && WithSpreads(pd)
    case AwaitBalance(pd) => i.BalanceArrives? && WithSpreads(pd)
    case AwaitStrategist(pd, _) => i.StrategistAnswers? && WithSpreads(pd)
    case AwaitRequote(pd, _, _) => i.QuoteArrives? && WithSpreads(pd)
    case AwaitGuardian(pd, _, _) => i.GuardianAnswers? && WithSpreads(pd)
    case AwaitAnchor(_) => i.MemoConfirmed?
    case AwaitSwap(_) => i.SwapSettles?
    case AwaitUpdatedBalance(_, _) => i.BalanceArrives?
    case Done => false
  }

  // ----- The steps ---------------------------------------------------------------------------------------

  function AfterPrices(c: Cycle, pd: PriceData, s: Surroundings): StepResult {
    var candidates := CandidatesOf(pd.spreads);
    if candidates == [] then StepResult(c.Do([Emit(PriceFetched(pd))], AwaitBalance(pd)), s.engine, s.rotation)
    else StepResult(c.Do(Prescan(candidates, Rank(s.rotation, |candidates|)), AwaitPrescan(pd)), s.engine,
                    NextIndex(s.rotation, |candidates|))
  }

  function Prescan(candidates: seq<Candidate>, rank: nat): seq<Action>
    requires rank < |candidates|
  {
    [Log("PRESCAN_PAIR", map["rotationIndex" := Num(rank as real)]),
     CallQuote(candidates[rank].from, candidates[rank].to, 0.1)]
  }

  predicate QuoteFits(pd: PriceData, d: Decision) {
    pd.quote.Some? && pd.quote.value.error == "" && pd.quote.value.fromToken == d.fromToken
        && pd.quote.value.toToken == d.toToken
  }

  function AfterStrategist(c: Cycle, pd: PriceData, balance: Balance, reply: StrategistReply): Cycle {
    match reply
    case ParseFailed => c.Finish([Emit(LlmParseError), Log("LLM_PARSE_ERROR", map[])])
    case Decided(d) =>
      if d.action == "SWAP" && !QuoteFits(pd, d)
      then c.Do(Thought(d) + [CallQuote(d.fromToken, d.toToken, d.amount)], AwaitRequote(pd, balance, d))
      else c.Do(Thought(d) + [CallGuardian(d, pd, balance)], AwaitGuardian(pd, balance, d))
  }

  function Thought(d: Decision): seq<Action> { [Emit(AgentThinking(d)), Log("AGENT_THINKING", map[])] }

  function Requoted(pd: PriceData, balance: Balance, d: Decision): seq<Action> {
    [Emit(PriceFetched(pd)), CallGuardian(d, pd, balance)]
  }

  /** The decision the policy engine is given. */
  function Modified(d: Decision, audit: GuardianAudit): Decision {
    if audit.verdict == "MODIFY" && audit.modifiedAmount.Some? then d.(amount := audit.modifiedAmount.value) else d
  }

  function ProposalFor(pd: PriceData, balance: Balance, d: Decision, s: Surroundings): Proposal
    requires WithSpreads(pd)
  {
    Proposal(d, s.profile, balance, pd.prices, pd.quote, s.dailyVolume, MaxSpread(pd.spreads))
  }

  /** From the guardian's answer through the policy engine to the anchor call, without an `await`. */
  function AfterGuardian(c: Cycle, pd: PriceData, balance: Balance, d: Decision, reply: GuardianReply,
      s: Surroundings): StepResult
    requires WithSpreads(pd)
  {
    match reply
    case SafetyVeto(error) => StepResult(c.Finish(Vetoed(error)), s.engine, s.rotation)
    case Audited(audit) =>
      if audit.verdict == "VETO" then StepResult(c.Finish(Heard(audit)), s.engine, s.rotation)
      else
        var p := ProposalFor(pd, balance, Modified(d, audit), s);
        StepResult(AfterPolicy(c, pd, audit, Verdict(p, s.engine, s.now), s.anchoredAt),
                   NextState(p, s.engine, s.now, s.recordedAt), s.rotation)
  }

  function Vetoed(error: string): seq<Action> {
    [Emit(GuardianVerdict(GuardianAudit("VETO", error, None))), Log("GUARDIAN_SAFETY_VETO", map[])]
  }

  function Heard(audit: GuardianAudit): seq<Action> {
    [Emit(GuardianVerdict(audit)), Log("GUARDIAN_AUDIT", map[])]
  }

  function Passed(audit: GuardianAudit, r: PolicyResult): seq<Action> {
    Heard(audit) + [Emit(PolicyPass(r)), Log("POLICY_PASS", map[])]
  }

  function PayloadOf(c: Cycle, pd: PriceData, audit: GuardianAudit, r: PolicyResult, anchoredAt: int): ProofPayload {
    ProofPayload(c.agentId, c.number, anchoredAt, r.finalDecision, audit, r.checks, pd)
  }

  function AfterPolicy(c: Cycle, pd: PriceData, audit: GuardianAudit, r: PolicyResult, anchoredAt: int): Cycle {
    if !r.approved then c.Finish(Heard(audit) + [Emit(PolicyFail(r)), Log("POLICY_FAIL", map[])])
    else if r.finalDecision.action != "SWAP" then c.Finish(Passed(audit, r) + [Emit(CycleComplete)])
    else c.Do(Passed(audit, r) + [CallAnchor(PayloadOf(c, pd, audit, r, anchoredAt))],
        AwaitAnchor(PayloadOf(c, pd, audit, r, anchoredAt)))
  }

  function TxData(p: ProofPayload, conf: Confirmation, hash: string): map<string, DataValue> {
    map["signature" := Str(conf.signature), "fromToken" := Str(conf.fromToken), "toToken" := Str(conf.toToken),
        "amountIn" := Num(conf.amount),
        "amountOut" := if conf.output.Some? then Num(conf.output.value) else Other,
        "timestamp" := Num(conf.confirmedAt as real), "proofHash" := Str(hash)]
  }

  const LOOKUP_TABLE_ERROR := "Failed to fetch lookup table"

  predicate OccursAt(s: string, part: string, i: nat) { i + |part| <= |s| && s[i..i + |part|] == part }

  predicate Includes(s: string, part: string) { exists i | 0 <= i <= |s| :: OccursAt(s, part, i) }

  function Attempts(i: Input): nat -> Broadcast.Attempt
    requires i.SwapSettles?
  {
    (k: nat) => if k == 0 then i.first else i.second
  }

  /** What `executeSwap` answers the cycle, given how its attempts end. */
  function SwapReply(d: Decision, i: Input): Reply<Confirmation>
    requires i.SwapSettles?
  {
    match Broadcast.Outcome(d, Attempts(i), i.confirmedAt)
    case Ok(r) => Returned(r.confirmation)
    case Err(e) => Threw(Includes(e, LOOKUP_TABLE_ERROR))
  }

  /** What it hands to the network meanwhile. */
  function SwapSubmissions(i: Input): seq<Broadcast.Submission>
    requires i.SwapSettles?
  {
    Broadcast.AllSubmissions(Attempts(i), i.confirmedAt)
  }

  /** A confirmation repeats the tokens and the amount of the decision that was executed. */
  lemma SwapReplyConfirms(p: ProofPayload, i: Input)
    requires i.SwapSettles? && SwapReply(p.decision, i).Returned?
    ensures Confirms(SwapReply(p.decision, i).value, p)
  {
    Broadcast.OutcomeRepeatsTheDecision(p.decision, Attempts(i), i.confirmedAt);
  }

  lemma SwapSubmissionsFit(d: Decision, i: Input)
    requires i.SwapSettles?
    ensures Broadcast.Fits(SwapSubmissions(i),
                if SwapReply(d, i).Returned? then Some(SwapReply(d, i).value) else None)
  {
    Broadcast.SubmissionsFitTheOutcome(d, Attempts(i), i.confirmedAt);
  }

  predicate Confirms(conf: Confirmation, p: ProofPayload) {
    conf.amount == p.decision.amount && conf.fromToken == p.decision.fromToken && conf.toToken == p.decision.toToken
  }

  function Announced(conf: Confirmation): seq<Action> {
    [Emit(KoraSigned), Emit(TxSubmitted), Emit(TxConfirmed(conf))]
  }

  function Keep(c: Cycle, s: Surroundings): StepResult { StepResult(c, s.engine, s.rotation) }

  function Resume(c: Cycle, i: Input, s: Surroundings): StepResult
    requires Expects(c.phase, i)
  {
    match c.phase
    case AwaitPrices => if i.prices.Threw? then Keep(c.Crash(), s) else AfterPrices(c, i.prices.value, s)
    case AwaitPrescan(pd) =>
      if i.quote.Threw? then Keep(c.Crash(), s)
      else
        var quoted := pd.(quote := Some(i.quote.value));
        Keep(c.Do([Emit(PriceFetched(quoted))], AwaitBalance(quoted)), s)
    case AwaitBalance(pd) =>
      if i.balance.Threw? then Keep(c.Crash(), s)
      else Keep(c.Do([CallStrategist(pd, i.balance.value)], AwaitStrategist(pd, i.balance.value)), s)
    case AwaitStrategist(pd, balance) =>
      if i.strategist.Threw? then Keep(c.Crash(), s) else Keep(AfterStrategist(c, pd, balance, i.strategist.value), s)
    case AwaitRequote(pd, balance, d) =>
      if i.quote.Threw? then Keep(c.Crash(), s)
      else
        var quoted := pd.(quote := Some(i.quote.value));
        Keep(c.Do(Requoted(quoted, balance, d), AwaitGuardian(quoted, balance, d)), s)
    case AwaitGuardian(pd, balance, d) =>
      if i.guardian.Threw? then Keep(c.Crash(), s) else AfterGuardian(c, pd, balance, d, i.guardian.value, s)
    case AwaitAnchor(p) =>
      if i.signature.Threw? then Keep(c.Crash(), s)
      else Keep(c.Do([Emit(ProofAnchored(s.hash(p))), Log("PROOF_ANCHORED", map["hash" := Str(s.hash(p))]),
          Emit(TxSigning), CallSwap(p.decision)],
                     AwaitSwap(p)), s)
    case AwaitSwap(p) =>
      var reply := SwapReply(p.decision, i);
      var sent := Submits(p.decision.amount, SwapSubmissions(i));
      if reply.Threw? then Keep(c.Do([sent], c.phase).SwapError(reply.lookupTable), s)
      else Keep(c.Do([sent] + Announced(reply.value), AwaitUpdatedBalance(p, reply.value)), s)
    case AwaitUpdatedBalance(p, conf) =>
      if i.balance.Threw? then Keep(c.SwapError(i.balance.lookupTable), s)
      else Keep(c.Finish([Emit(BalanceUpdate), Log("TX_CONFIRMED", TxData(p, conf, s.hash(p)))]), s)
  }

  // ----- What a trace must look like -----------------------------------------------------------------------

  predicate IsSettlement(a: Action) { a.Log? && a.name in {"TX_CONFIRMED", "TX_FAILED", "DEVNET_ALT_SKIP"} }

  predicate IsEnd(a: Action) { a == Emit(CycleComplete) }

  /** The engine's approval of a decision that is not a swap. */
  predicate IsHoldPass(a: Action) {
    a.Emit? && a.event.PolicyPass? && a.event.result.approved && a.event.result.finalDecision.action != "SWAP"
  }

  /** Actions that belong to the swap or come after it, or that end a cycle without one. */
  predicate IsLate(a: Action) {
    IsHoldPass(a) || IsEnd(a) || a.CallSwap? || a.Submits? || IsSettlement(a) || a == Emit(TxFailed)
        || (a.Emit? && a.event.TxConfirmed?)
  }

  predicate Quiet(t: seq<Action>) { forall a | a in t :: !IsLate(a) }

  /** The two decisions differ in the amount at most. */
  predicate SameButAmount(d: Decision, e: Decision) { e == d.(amount := e.amount) }

  /** The strategist thought of the decision, up to its amount. */
  predicate Proposed(t: seq<Action>, d: Decision) {
    exists j | 0 <= j < |t| :: t[j].Emit? && t[j].event.AgentThinking? && SameButAmount(t[j].event.decision, d)
  }

  lemma ProposedAppend(t: seq<Action>, u: seq<Action>, d: Decision)
    requires Proposed(t, d)
    ensures Proposed(t + u, d)
  {
    var j :| 0 <= j < |t| && t[j].Emit? && t[j].event.AgentThinking? && SameButAmount(t[j].event.decision, d);
    assert (t + u)[j] == t[j];
  }

  lemma ProposedAlike(t: seq<Action>, d: Decision, e: Decision)
    requires Proposed(t, d) && SameButAmount(d, e)
    ensures Proposed(t, e)
  {
    var j :| 0 <= j < |t| && t[j].Emit? && t[j].event.AgentThinking? && SameButAmount(t[j].event.decision, d);
    assert SameButAmount(t[j].event.decision, e);
  }

  /** The last action hands to the anchor the strategist's decision, up to its amount, which the
      guardian did not veto and all nine checks then approved. */
  predicate Vetted(t: seq<Action>, p: ProofPayload) {
    && |t| >= 5 && t[|t| - 1] == CallAnchor(p) && Proposed(t, p.decision)
    && t[|t| - 5] == Emit(GuardianVerdict(p.guardian)) && p.guardian.verdict != "VETO"
    && t[|t| - 3].Emit? && t[|t| - 3].event.PolicyPass?
    && var r := t[|t| - 3].event.result;
       r.approved && r.finalDecision == p.decision && r.checks == p.checks && |r.checks| == 9
           && forall c | c in r.checks :: c.passed
  }

  /** A vetted payload whose hash was then confirmed on chain and logged. */
  predicate Anchored(t: seq<Action>, p: ProofPayload, hash: ProofPayload -> string) {
    |t| >= 8 && Vetted(t[..|t| - 3], p) && t[|t| - 2] == Log("PROOF_ANCHORED", map["hash" := Str(hash(p))])
  }

  /** How a cycle goes on after its swap call. */
  datatype Aftermath =
    | SwapThrew(submissions: seq<Broadcast.Submission>, lookupTable: bool)
    | BalanceThrew(submissions: seq<Broadcast.Submission>, confirmation: Confirmation, lookupTable: bool)
    | Recorded(submissions: seq<Broadcast.Submission>, confirmation: Confirmation)
  {
    predicate Fits() {
      Broadcast.Fits(submissions, if SwapThrew? then None else Some(confirmation))
    }
  }

  function Failure(lookupTable: bool): seq<Action> {
    if lookupTable then [Log("DEVNET_ALT_SKIP", map[]), Emit(CycleComplete)]
    else [Emit(TxFailed), Log("TX_FAILED", map[]), Emit(CycleComplete)]
  }

  function AftermathActions(m: Aftermath, p: ProofPayload, hash: ProofPayload -> string): seq<Action> {
    [Submits(p.decision.amount, m.submissions)] + Settling(m, p, hash)
  }

  /** What follows the submissions. */
  function Settling(m: Aftermath, p: ProofPayload, hash: ProofPayload -> string): seq<Action> {
    match m
    case SwapThrew(_, l) => Failure(l)
    case BalanceThrew(_, conf, l) => Announced(conf) + Failure(l)
    case Recorded(_, conf) => Announced(conf) + [Emit(BalanceUpdate), Log("TX_CONFIRMED", TxData(p, conf, hash(p))),
        Emit(CycleComplete)]
  }

  /** The three shapes of a finished trace; `before` never contains a late action. */
  datatype Shape =
    | NoSwap(before: seq<Action>)
    | Held(before: seq<Action>, result: PolicyResult)
    | Swapped(before: seq<Action>, payload: ProofPayload, aftermath: Aftermath)

  function HeldActions(r: PolicyResult): seq<Action> {
    [Emit(PolicyPass(r)), Log("POLICY_PASS", map[]), Emit(CycleComplete), Emit(CycleComplete)]
  }

  function TraceOf(sh: Shape, hash: ProofPayload -> string): seq<Action> {
    match sh
    case NoSwap(b) => b + [Emit(CycleComplete)]
    case Held(b, r) => b + HeldActions(r)
    case Swapped(b, p, m) => b + [CallSwap(p.decision)] + AftermathActions(m, p, hash)
  }

  predicate ShapeOk(sh: Shape, hash: ProofPayload -> string) {
    && Quiet(sh.before)
    && match sh
       case NoSwap(_) => true
       case Held(_, r) => r.approved && r.finalDecision.action != "SWAP"
       case Swapped(b, p, m) =>
         Anchored(b, p, hash) && p.decision.action == "SWAP" && (!m.SwapThrew? ==> Confirms(m.confirmation, p))
         && m.Fits()
  }

  /** The actions from the swap call to the announcement of its confirmation. */
  predicate Broadcasts(t: seq<Action>, p: ProofPayload, conf: Confirmation) {
    && |t| == 5 && t[0] == CallSwap(p.decision) && t[2..] == Announced(conf)
    && t[1].Submits? && t[1].amount == p.decision.amount && Broadcast.Fits(t[1].submissions, Some(conf))
  }

  /** The k-th action asks for a quote of the decision's own pair and amount. */
  predicate AsksFor(t: seq<Action>, k: nat, d: Decision) {
    1 <= k <= |t| && t[k - 1] == CallQuote(d.fromToken, d.toToken, d.amount)
  }

  /** The quote the guardian is shown is an error-free one for the decision's own pair, or the answer to one
      asked for it. */
  predicate Quoted(t: seq<Action>, quote: Option<Quote>, d: Decision) {
    match quote
    case None => false
    case Some(q) =>
      || (q.error == "" && q.fromToken == d.fromToken && q.toToken == d.toToken)
      || (|t| >= 3 && AsksFor(t, |t| - 2, d) && t[|t| - 2].Emit? && t[|t| - 2].event.PriceFetched?
          && t[|t| - 2].event.pd.quote == quote)
  }

  /** What holds of a cycle between two steps. */
  ghost predicate Inv(c: Cycle, hash: ProofPayload -> string) {
    var n := |c.trace|;
    match c.phase
    case AwaitAnchor(p) => Quiet(c.trace) && Vetted(c.trace, p) && p.decision.action == "SWAP"
    case AwaitSwap(p) =>
      && n >= 1 && Quiet(c.trace[..n - 1]) && Anchored(c.trace[..n - 1], p, hash) && p.decision.action == "SWAP"
      && c.trace[n - 1] == CallSwap(p.decision)
    case AwaitUpdatedBalance(p, conf) =>
      && n >= 5 && Quiet(c.trace[..n - 5]) && Anchored(c.trace[..n - 5], p, hash) && p.decision.action == "SWAP"
      && Broadcasts(c.trace[n - 5..], p, conf) && Confirms(conf, p)
    case Done => exists sh: Shape :: ShapeOk(sh, hash) && c.trace == TraceOf(sh, hash)
    case AwaitRequote(_, _, d) => Quiet(c.trace) && Proposed(c.trace, d) && AsksFor(c.trace, n, d)
    case AwaitGuardian(pd, _, d) =>
      Quiet(c.trace) && Proposed(c.trace, d) && (d.action == "SWAP" ==> Quoted(c.trace, pd.quote, d))
    case _ => Quiet(c.trace)
  }

  lemma QuietAppend(t: seq<Action>, u: seq<Action>)
    ensures Quiet(t + u) <==> Quiet(t) && Quiet(u)
  {
    if Quiet(t + u) {
      assert forall a | a in t :: a in t + u;
      assert forall a | a in u :: a in t + u;
    }
  }

  lemma StartInv(agentId: string, number: nat, hash: ProofPayload -> string)
    ensures Inv(Start(agentId, number), hash)
  {
  }

  lemma FinishQuietly(c: Cycle, acts: seq<Action>, hash: ProofPayload -> string)
    requires Quiet(c.trace) && Quiet(acts)
    ensures Inv(c.Finish(acts), hash)
  {
    var sh := NoSwap(c.trace + acts);
    QuietAppend(c.trace, acts);
    assert c.trace + (acts + [Emit(CycleComplete)]) == c.trace + acts + [Emit(CycleComplete)];
    assert c.Finish(acts).trace == TraceOf(sh, hash) && ShapeOk(sh, hash);
  }

  lemma GuardianStepInv(c: Cycle, pd: PriceData, balance: Balance, d: Decision, reply: GuardianReply, s: Surroundings)
    requires WithSpreads(pd) && Quiet(c.trace) && Proposed(c.trace, d)
    ensures Inv(AfterGuardian(c, pd, balance, d, reply, s).cycle, s.hash)
  {
    match reply
    case SafetyVeto(error) => FinishQuietly(c, Vetoed(error), s.hash);
    case Audited(audit) =>
      if audit.verdict == "VETO" {
        FinishQuietly(c, Heard(audit), s.hash);
      } else {
        var p := ProposalFor(pd, balance, Modified(d, audit), s);
        PolicyLaws.ApprovesIffAllPass(p, s.engine, s.now);
        PolicyLaws.ApprovedKeepsDecision(p, s.engine, s.now);
        ProposedAlike(c.trace, d, Modified(d, audit));
        var r := Verdict(p, s.engine, s.now);
        if r.approved { ProposedAlike(c.trace, p.decision, r.finalDecision); }
        PolicyStepInv(c, pd, audit, Verdict(p, s.engine, s.now), s.anchoredAt, s.hash);
      }
  }

  /** The step once the engine's verdict `r` is known. */
  lemma PolicyStepInv(c: Cycle, pd: PriceData, audit: GuardianAudit, r: PolicyResult, anchoredAt: int,
      hash: ProofPayload -> string)
    requires Quiet(c.trace) && audit.verdict != "VETO"
    requires |r.checks| == 9 && (r.approved ==> forall k | k in r.checks :: k.passed)
    requires r.approved ==> Proposed(c.trace, r.finalDecision)
    ensures Inv(AfterPolicy(c, pd, audit, r, anchoredAt), hash)
  {
    if !r.approved {
      FinishQuietly(c, Heard(audit) + [Emit(PolicyFail(r)), Log("POLICY_FAIL", map[])], hash);
    } else {
      if r.finalDecision.action != "SWAP" {
        HeldInv(c, audit, r, hash);
      } else {
        ApprovedInv(c, PayloadOf(c, pd, audit, r, anchoredAt), r, hash);
      }
    }
  }

  lemma HeldInv(c: Cycle, audit: GuardianAudit, r: PolicyResult, hash: ProofPayload -> string)
    requires Quiet(c.trace) && r.approved && r.finalDecision.action != "SWAP"
    ensures Inv(c.Finish(Passed(audit, r) + [Emit(CycleComplete)]), hash)
  {
    var sh := Held(c.trace + Heard(audit), r);
    QuietAppend(c.trace, Heard(audit));
    assert c.trace + ((Passed(audit, r) + [Emit(CycleComplete)]) + [Emit(CycleComplete)]) == TraceOf(sh, hash);
    assert ShapeOk(sh, hash);
  }

  lemma ApprovedInv(c: Cycle, p: ProofPayload, r: PolicyResult, hash: ProofPayload -> string)
    requires Quiet(c.trace) && p.guardian.verdict != "VETO" && Proposed(c.trace, r.finalDecision)
    requires r.approved && r.finalDecision == p.decision && r.finalDecision.action == "SWAP" && r.checks == p.checks
        && |r.checks| == 9 && forall k | k in r.checks :: k.passed
    ensures Inv(c.Do(Passed(p.guardian, r) + [CallAnchor(p)], AwaitAnchor(p)), hash)
  {
    var acts := Passed(p.guardian, r) + [CallAnchor(p)];
    QuietAppend(c.trace, acts);
    ProposedAppend(c.trace, acts, r.finalDecision);
  }

  lemma AnchorStepInv(c: Cycle, i: Input, s: Surroundings)
    requires c.phase.AwaitAnchor? && Expects(c.phase, i) && Inv(c, s.hash) && i.signature.Returned?
    ensures Inv(Resume(c, i, s).cycle, s.hash)
  {
    var p := c.phase.payload;
    AnchoredInv(c, p, s.hash);
    assert AnchorActions(p, s.hash) + [CallSwap(p.decision)]
        == [Emit(ProofAnchored(s.hash(p))), Log("PROOF_ANCHORED", map["hash" := Str(s.hash(p))]), Emit(TxSigning),
            CallSwap(p.decision)];
  }

  function AnchorActions(p: ProofPayload, hash: ProofPayload -> string): seq<Action> {
    [Emit(ProofAnchored(hash(p))), Log("PROOF_ANCHORED", map["hash" := Str(hash(p))]), Emit(TxSigning)]
  }

  lemma AnchoredInv(c: Cycle, p: ProofPayload, hash: ProofPayload -> string)
    requires Quiet(c.trace) && Vetted(c.trace, p) && p.decision.action == "SWAP"
    ensures Inv(c.Do(AnchorActions(p, hash) + [CallSwap(p.decision)], AwaitSwap(p)), hash)
  {
    var before := c.trace + AnchorActions(p, hash);
    AnchoredTrace(c.trace, p, hash);
    var after := c.trace + (AnchorActions(p, hash) + [CallSwap(p.decision)]);
    assert after == before + [CallSwap(p.decision)];
    assert after[..|after| - 1] == before;
  }

  lemma AnchoredTrace(t: seq<Action>, p: ProofPayload, hash: ProofPayload -> string)
    requires Quiet(t) && Vetted(t, p)
    ensures Quiet(t + AnchorActions(p, hash)) && Anchored(t + AnchorActions(p, hash), p, hash)
  {
    QuietAppend(t, AnchorActions(p, hash));
    assert (t + AnchorActions(p, hash))[..|t|] == t;
  }

  lemma SwapStepInv(c: Cycle, i: Input, s: Surroundings)
    requires c.phase.AwaitSwap? && Expects(c.phase, i) && Inv(c, s.hash)
    ensures Inv(Resume(c, i, s).cycle, s.hash)
  {
    var p := c.phase.payload;
    var before := c.trace[..|c.trace| - 1];
    assert c.trace == before + [CallSwap(p.decision)];
    var reply, subs := SwapReply(p.decision, i), SwapSubmissions(i);
    SwapSubmissionsFit(p.decision, i);
    if reply.Threw? {
      ThrownInv(c, before, p, subs, reply.lookupTable, s.hash);
    } else {
      SwapReplyConfirms(p, i);
      BroadcastInv(c, before, p, subs, reply.value, s.hash);
    }
  }

  lemma ThrownInv(c: Cycle, before: seq<Action>, p: ProofPayload, subs: seq<Broadcast.Submission>, lookupTable: bool,
      hash: ProofPayload -> string)
    requires Quiet(before) && Anchored(before, p, hash) && p.decision.action == "SWAP" && Broadcast.Fits(subs, None)
    requires c.trace == before + [CallSwap(p.decision)]
    ensures Inv(c.Do([Submits(p.decision.amount, subs)], c.phase).SwapError(lookupTable), hash)
  {
    var sh := Swapped(before, p, SwapThrew(subs, lookupTable));
    assert ShapeOk(sh, hash);
    SwapErrorTrace(c.Do([Submits(p.decision.amount, subs)], c.phase), lookupTable);
    assert c.trace + [Submits(p.decision.amount, subs)] + Failure(lookupTable) == TraceOf(sh, hash);
  }

  lemma SwapErrorTrace(c: Cycle, lookupTable: bool)
    ensures c.SwapError(lookupTable).trace == c.trace + Failure(lookupTable)
  {
  }

  lemma BroadcastInv(c: Cycle, before: seq<Action>, p: ProofPayload, subs: seq<Broadcast.Submission>,
      conf: Confirmation, hash: ProofPayload -> string)
    requires Quiet(before) && Anchored(before, p, hash) && p.decision.action == "SWAP" && Confirms(conf, p)
    requires c.trace == before + [CallSwap(p.decision)] && Broadcast.Fits(subs, Some(conf))
    ensures Inv(c.Do([Submits(p.decision.amount, subs)] + Announced(conf), AwaitUpdatedBalance(p, conf)), hash)
  {
    var rest := [Submits(p.decision.amount, subs)] + Announced(conf);
    var after := c.trace + rest;
    assert after[..|after| - 5] == before;
    assert after[|after| - 5..] == [CallSwap(p.decision)] + rest;
  }

  lemma UpdateStepInv(c: Cycle, i: Input, s: Surroundings)
    requires c.phase.AwaitUpdatedBalance? && Expects(c.phase, i) && Inv(c, s.hash)
    ensures Inv(Resume(c, i, s).cycle, s.hash)
  {
    var AwaitUpdatedBalance(p, conf) := c.phase;
    var n := |c.trace|;
    var before, subs := c.trace[..n - 5], c.trace[n - 4].submissions;
    var call := [CallSwap(p.decision)] + ([Submits(p.decision.amount, subs)] + Announced(conf));
    assert c.trace[n - 5..] == call && c.trace == before + call;
    if i.balance.Threw? {
      SwapErrorTrace(c, i.balance.lookupTable);
      SettledInv(Resume(c, i, s).cycle, c, before, p, BalanceThrew(subs, conf, i.balance.lookupTable), s.hash);
    } else {
      SettledInv(Resume(c, i, s).cycle, c, before, p, Recorded(subs, conf), s.hash);
    }
  }

  /** What the last step appends, after the announcement. */
  function Ending(m: Aftermath, p: ProofPayload, hash: ProofPayload -> string): seq<Action>
    requires !m.SwapThrew?
  {
    if m.BalanceThrew? then Failure(m.lookupTable)
    else [Emit(BalanceUpdate), Log("TX_CONFIRMED", TxData(p, m.confirmation, hash(p))), Emit(CycleComplete)]
  }

  lemma SettledInv(d: Cycle, c: Cycle, before: seq<Action>, p: ProofPayload, m: Aftermath,
      hash: ProofPayload -> string)
    requires !m.SwapThrew? && d.phase.Done? && d.trace == c.trace + Ending(m, p, hash)
    requires c.trace
        == before + ([CallSwap(p.decision)] + ([Submits(p.decision.amount, m.submissions)] + Announced(m.confirmation)))
    requires ShapeOk(Swapped(before, p, m), hash)
    ensures Inv(d, hash)
  {
    assert AftermathActions(m, p, hash)
        == [Submits(p.decision.amount, m.submissions)] + (Announced(m.confirmation) + Ending(m, p, hash));
    FinishedAs(d, Swapped(before, p, m), hash);
  }

  lemma FinishedAs(d: Cycle, sh: Shape, hash: ProofPayload -> string)
    requires d.phase.Done? && ShapeOk(sh, hash) && d.trace == TraceOf(sh, hash)
    ensures Inv(d, hash)
  {
  }

  /** Whatever an external returns or throws, one step keeps the invariant. */
  lemma StepInv(c: Cycle, i: Input, s: Surroundings)
    requires Expects(c.phase, i) && Inv(c, s.hash)
    ensures Inv(Resume(c, i, s).cycle, s.hash)
  {
    match c.phase
    case AwaitPrices =>
      if i.prices.Threw? { CrashInv(c, s.hash); } else { PricesStepQuiet(c, i.prices.value, s); }
    case AwaitPrescan(_) =>
      if i.quote.Threw? { CrashInv(c, s.hash); } else { QuietNews(c, i, s); }
    case AwaitBalance(_) =>
      if i.balance.Threw? { CrashInv(c, s.hash); } else { QuietNews(c, i, s); }
    case AwaitStrategist(pd, balance) =>
      if i.strategist.Threw? {
        CrashInv(c, s.hash);
      } else {
        StrategistStepInv(c, pd, balance, i.strategist.value, s.hash);
      }
    case AwaitRequote(_, _, _) =>
      if i.quote.Threw? {
        CrashInv(c, s.hash);
      } else {
        QuietNews(c, i, s);
      }
    case AwaitGuardian(pd, balance, d) =>
      if i.guardian.Threw? { CrashInv(c, s.hash); } else { GuardianStepInv(c, pd, balance, d, i.guardian.value, s); }
    case AwaitAnchor(_) =>
      if i.signature.Threw? { CrashInv(c, s.hash); } else { AnchorStepInv(c, i, s); }
    case AwaitSwap(_) => SwapStepInv(c, i, s);
    case AwaitUpdatedBalance(_, _) => UpdateStepInv(c, i, s);
  }

  lemma CrashInv(c: Cycle, hash: ProofPayload -> string)
    requires Quiet(c.trace)
    ensures Inv(c.Crash(), hash)
  {
    FinishQuietly(c, [Log("CYCLE_ERROR", map[])], hash);
  }

  /** The answers that only bring data. */
  lemma QuietNews(c: Cycle, i: Input, s: Surroundings)
    requires Expects(c.phase, i) && Inv(c, s.hash)
    requires c.phase.AwaitPrescan? || c.phase.AwaitBalance? || c.phase.AwaitRequote?
    requires if c.phase.AwaitBalance? then i.balance.Returned? else i.quote.Returned?
    ensures Inv(Resume(c, i, s).cycle, s.hash)
  {
    if c.phase.AwaitBalance? {
      QuietAppend(c.trace, [CallStrategist(c.phase.pd, i.balance.value)]);
    } else {
      var quoted := c.phase.pd.(quote := Some(i.quote.value));
      QuietAppend(c.trace, [Emit(PriceFetched(quoted))]);
      if c.phase.AwaitRequote? {
        QuietAppend(c.trace, Requoted(quoted, c.phase.balance, c.phase.decision));
        ProposedAppend(c.trace, Requoted(quoted, c.phase.balance, c.phase.decision), c.phase.decision);
      }
    }
  }

  lemma StrategistStepInv(c: Cycle, pd: PriceData, balance: Balance, reply: StrategistReply,
      hash: ProofPayload -> string)
    requires Quiet(c.trace)
    ensures Inv(AfterStrategist(c, pd, balance, reply), hash)
  {
    if reply.ParseFailed? {
      FinishQuietly(c, [Emit(LlmParseError), Log("LLM_PARSE_ERROR", map[])], hash);
    } else {
      var d := reply.decision;
      var next := if d.action == "SWAP" && !QuoteFits(pd, d) then CallQuote(d.fromToken, d.toToken, d.amount)
                  else CallGuardian(d, pd, balance);
      QuietAppend(c.trace, Thought(d) + [next]);
      assert (c.trace + (Thought(d) + [next]))[|c.trace|] == Emit(AgentThinking(d));
    }
  }

  lemma PricesStepQuiet(c: Cycle, pd: PriceData, s: Surroundings)
    requires Quiet(c.trace)
    ensures Inv(AfterPrices(c, pd, s).cycle, s.hash)
  {
    var cs := CandidatesOf(pd.spreads);
    if cs == [] {
      QuietAppend(c.trace, [Emit(PriceFetched(pd))]);
    } else {
      QuietAppend(c.trace, Prescan(cs, Rank(s.rotation, |cs|)));
    }
  }

  // ----- What a step leads to ---------------------------------------------------------------------------------

  lemma GuardianPhases(c: Cycle, i: Input, s: Surroundings)
    requires Expects(c.phase, i) && c.phase.AwaitGuardian?
    ensures Resume(c, i, s).cycle.phase.AwaitAnchor? || Resume(c, i, s).cycle.phase.Done?
  {
    if i.guardian.Returned? && i.guardian.value.Audited? && i.guardian.value.audit.verdict != "VETO" {
      var p := ProposalFor(c.phase.pd, c.phase.balance, Modified(c.phase.decision, i.guardian.value.audit), s);
      PolicyPhases(c, c.phase.pd, i.guardian.value.audit, Verdict(p, s.engine, s.now), s.anchoredAt);
    }
  }

  lemma PolicyPhases(c: Cycle, pd: PriceData, audit: GuardianAudit, r: PolicyResult, anchoredAt: int)
    ensures AfterPolicy(c, pd, audit, r, anchoredAt).phase.AwaitAnchor?
        || AfterPolicy(c, pd, audit, r, anchoredAt).phase.Done?
  {
  }

  ghost function ShapeOf(c: Cycle, hash: ProofPayload -> string): (sh: Shape)
    requires Inv(c, hash) && c.phase.Done?
    ensures ShapeOk(sh, hash) && c.trace == TraceOf(sh, hash)
  {
    var sh: Shape :| ShapeOk(sh, hash) && c.trace == TraceOf(sh, hash);
    sh
  }
}
