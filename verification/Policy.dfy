/** Layer 4: the nine policy checks, their per-agent rate limiter and their per-agent stop-loss latch. */
module Policy {
  import opened Results

  const RATE_LIMIT_MAX: nat := 5
  const RATE_LIMIT_WINDOW_MS: int := 60_000
  const FEE_RESERVE_SOL: real := 0.01
  const ALLOWED_ACTIONS: set<string> := {"SWAP", "HOLD", "SKIP"}
  const ALLOWED_TOKENS: set<string> := {"SOL", "USDC", "RAY", "BONK"}

  // ----- Entities --------------------------------------------------------------------------
  // JavaScript numbers are modelled as exact reals and clock readings as integers (milliseconds).

  /** A strategist decision; actions and tokens are strings because the engine re-checks them. */
  datatype Decision = Decision(action: string, fromToken: string, toToken: string, amount: real, confidence: real,
                               reasoning: string, riskFlags: seq<string>)

  datatype Profile = Profile(agentId: string, spreadThresholdPct: real, minConfidence: real,
                             maxTxAmountSol: real, dailyVolumeCapSol: real, stopLossTriggerPct: real)

  datatype TokenPrice = TokenPrice(usd: real, change24h: real)

  datatype Prices = Prices(sol: TokenPrice, usdc: TokenPrice, ray: TokenPrice, bonk: TokenPrice)

  /** `error == ""` stands for a quote without an error (an absent or falsy `error` property). */
  datatype Quote = Quote(fromToken: string, toToken: string, netSpreadVsMarket: real, error: string)

  datatype Balance = Balance(sol: real, tokens: map<string, real>)

  /** Everything one call of the engine is given besides the clock. */
  datatype Proposal = Proposal(decision: Decision, profile: Profile, balance: Balance, prices: Prices,
                               quote: Option<Quote>, dailyVolumeUsedSol: real, bestSpreadPct: real)

  datatype CheckName =
    | ActionWhitelist | TokenWhitelist | MinConfidence | VolatilitySizing | DailyVolumeCap
    | RateLimit | BalanceCheck | SpreadThreshold | StopLossCircuit

  /** One constructor per message template; the wording is not modelled. */
  datatype Reason =
    | ActionPermitted | ActionNotAllowed
    | TokensPermitted | TokenNotAllowed(token: string)
    | ConfidenceSkipped | ConfidenceMet | ConfidenceLow
    | AmountSized(amount: real) | SizingSkipped
    | VolumeWithinCap(projected: real) | VolumeOverCap(projected: real)
    | RateAvailable(used: nat) | RateReached(used: nat)
    | BalanceCovers(required: real) | BalanceShort(required: real)
    | SpreadSkipped | SpreadMet(pct: real) | SpreadBelow(pct: real)
    | DrawdownWithin(pct: real) | DrawdownBreached(pct: real) | AlreadyRestricted

  datatype PolicyCheck = PolicyCheck(name: CheckName, passed: bool, reason: Reason)

  datatype Outcome = Approved | Rejected | ForceHold | Queued | Restricted

  datatype PolicyResult = PolicyResult(approved: bool, outcome: Outcome, checks: seq<PolicyCheck>,
                                       failedOn: Option<CheckName>, reason: Option<Reason>, finalDecision: Decision)

  datatype StopLossState = StopLossState(sessionHighUsd: real, restricted: bool)

  datatype PolicyState = PolicyState(rateLimiters: map<string, seq<int>>, stopLossStates: map<string, StopLossState>)

  const INITIAL_STATE := PolicyState(map[], map[])

  // ----- Arithmetic ------------------------------------------------------------------------

  function Abs(x: real): real { if x < 0.0 then -x else x }

  /** `Number(x.toFixed(4))`: the nearest multiple of 1e-4, the larger magnitude on a tie. */
  function Round4(x: real): real {
    if x < 0.0 then -(((-x) * 10000.0 + 0.5).Floor as real / 10000.0)
    else (x * 10000.0 + 0.5).Floor as real / 10000.0
  }

  /** The absolute 24h change, 0 for a token that has no price entry. */
  function Change24h(prices: Prices, token: string): real {
    Abs(match token
        case "SOL" => prices.sol.change24h
        case "USDC" => prices.usdc.change24h
        case "RAY" => prices.ray.change24h
        case "BONK" => prices.bonk.change24h
        case _ => 0.0)
  }

  function VolatilityPenalty(change: real): real {
    if change > 5.0 then (if (change - 5.0) / 100.0 <= 0.5 then (change - 5.0) / 100.0 else 0.5) else 0.0
  }

  function VolatilityFactor(change: real): real { 1.0 - VolatilityPenalty(change) }

  function SafeAmount(maxTx: real, confidence: real, change: real): real {
    Round4(Times(Times(maxTx, confidence), VolatilityFactor(change)))
  }

  /** The product as a term of its own, so that the sizing lemmas reason by name rather than by
      nonlinear arithmetic. */
  function Times(x: real, y: real): real { x * y }

  function Holding(balance: Balance, token: string): real {
    if token in balance.tokens then balance.tokens[token] else 0.0
  }

  function PortfolioUsd(balance: Balance, prices: Prices): real {
    balance.sol * prices.sol.usd + Holding(balance, "USDC") * prices.usdc.usd
      + Holding(balance, "RAY") * prices.ray.usd + Holding(balance, "BONK") * prices.bonk.usd
  }

  function DrawdownPct(value: real, high: real): real {
    if high > 0.0 then (value - high) / high * 100.0 else 0.0
  }

  /** The timestamps strictly after `cut`, in order. */
  function Active(timestamps: seq<int>, cut: int): seq<int> {
    if timestamps == [] then []
    else Active(timestamps[..|timestamps| - 1], cut)
         + (if timestamps[|timestamps| - 1] > cut then [timestamps[|timestamps| - 1]] else [])
  }

  // ----- What the checks mean, one by one ---------------------------------------------------

  predicate IsSwap(p: Proposal) { p.decision.action == "SWAP" }

  /** The amount after check 4. */
  function SizedAmount(p: Proposal): real {
    if IsSwap(p) then SafeAmount(p.profile.maxTxAmountSol, p.decision.confidence,
        Change24h(p.prices, p.decision.fromToken))
    else p.decision.amount
  }

  function TradedAmount(p: Proposal): real { if IsSwap(p) then SizedAmount(p) else 0.0 }

  /** The first of the two tokens that is not on the list. */
  function FirstUnlistedToken(d: Decision): Option<string> {
    if d.fromToken !in ALLOWED_TOKENS then Some(d.fromToken)
    else if d.toToken !in ALLOWED_TOKENS then Some(d.toToken)
    else None
  }

  function Limiter(s: PolicyState, agentId: string): seq<int> {
    if agentId in s.rateLimiters then s.rateLimiters[agentId] else []
  }

  /** The session high the stop-loss check compares with: the stored high, raised to the value. */
  function RaisedHigh(s: PolicyState, agentId: string, value: real): real {
    if agentId !in s.stopLossStates || value > s.stopLossStates[agentId].sessionHighUsd then value
    else s.stopLossStates[agentId].sessionHighUsd
  }

  predicate IsRestricted(s: PolicyState, agentId: string) {
    agentId in s.stopLossStates && s.stopLossStates[agentId].restricted
  }

  function SpreadPct(p: Proposal): real {
    if p.quote.Some? && p.quote.value.error == "" then p.quote.value.netSpreadVsMarket * 100.0 else p.bestSpreadPct
  }

  function CheckAction(p: Proposal): (c: PolicyCheck)
    ensures c.name == ActionWhitelist
  {
    if p.decision.action in ALLOWED_ACTIONS then PolicyCheck(ActionWhitelist, true, ActionPermitted)
    else PolicyCheck(ActionWhitelist, false, ActionNotAllowed)
  }

  /** An unlisted token that is the empty string is falsy and goes unnoticed. */
  function CheckTokens(p: Proposal): (c: PolicyCheck)
    ensures c.name == TokenWhitelist
  {
    var bad := FirstUnlistedToken(p.decision);
    if bad.None? || bad.value == "" then PolicyCheck(TokenWhitelist, true, TokensPermitted)
    else PolicyCheck(TokenWhitelist, false, TokenNotAllowed(bad.value))
  }

  function CheckConfidence(p: Proposal): (c: PolicyCheck)
    ensures c.name == MinConfidence
  {
    if !IsSwap(p) then PolicyCheck(MinConfidence, true, ConfidenceSkipped)
    else if p.decision.confidence >= p.profile.minConfidence then PolicyCheck(MinConfidence, true, ConfidenceMet)
    else PolicyCheck(MinConfidence, false, ConfidenceLow)
  }

  function CheckSizing(p: Proposal): (c: PolicyCheck)
    ensures c.name == VolatilitySizing
  {
    PolicyCheck(VolatilitySizing, true, if IsSwap(p) then AmountSized(SizedAmount(p)) else SizingSkipped)
  }

  function CheckVolume(p: Proposal): (c: PolicyCheck)
    ensures c.name == DailyVolumeCap
  {
    var projected := p.dailyVolumeUsedSol + TradedAmount(p);
    if projected <= p.profile.dailyVolumeCapSol then PolicyCheck(DailyVolumeCap, true, VolumeWithinCap(projected))
    else PolicyCheck(DailyVolumeCap, false, VolumeOverCap(projected))
  }

  function CheckRate(p: Proposal, s: PolicyState, now: int): (c: PolicyCheck)
    ensures c.name == RateLimit
  {
    var used := |Active(Limiter(s, p.profile.agentId), now - RATE_LIMIT_WINDOW_MS)|;
    if used < RATE_LIMIT_MAX then PolicyCheck(RateLimit, true, RateAvailable(used))
    else PolicyCheck(RateLimit, false, RateReached(used))
  }

  function CheckBalance(p: Proposal): (c: PolicyCheck)
    ensures c.name == BalanceCheck
  {
    var required := TradedAmount(p) + FEE_RESERVE_SOL;
    if p.balance.sol >= required then PolicyCheck(BalanceCheck, true, BalanceCovers(required))
    else PolicyCheck(BalanceCheck, false, BalanceShort(required))
  }

  /** The net spread of a quote without an error meets the threshold; failing such a quote, the gross
      spread does. */
  predicate MeetsSpread(p: Proposal) {
    match p.quote
    case None => p.bestSpreadPct >= p.profile.spreadThresholdPct
    case Some(q) =>
      && (q.error == "" ==> q.netSpreadVsMarket * 100.0 >= p.profile.spreadThresholdPct)
      && (q.error != "" ==> p.bestSpreadPct >= p.profile.spreadThresholdPct)
  }

  function CheckSpread(p: Proposal): (c: PolicyCheck)
    ensures c.name == SpreadThreshold
    ensures c.passed <==> (p.decision.action == "SWAP" ==> MeetsSpread(p))
  {
    if !IsSwap(p) then PolicyCheck(SpreadThreshold, true, SpreadSkipped)
    else if SpreadPct(p) >= p.profile.spreadThresholdPct
        then PolicyCheck(SpreadThreshold, true, SpreadMet(SpreadPct(p)))
    else PolicyCheck(SpreadThreshold, false, SpreadBelow(SpreadPct(p)))
  }

  function CheckStopLoss(p: Proposal, s: PolicyState): (c: PolicyCheck)
    ensures c.name == StopLossCircuit
  {
    var value := PortfolioUsd(p.balance, p.prices);
    var pct := DrawdownPct(value, RaisedHigh(s, p.profile.agentId, value));
    if IsRestricted(s, p.profile.agentId) then PolicyCheck(StopLossCircuit, false, AlreadyRestricted)
    else if pct <= p.profile.stopLossTriggerPct then PolicyCheck(StopLossCircuit, false, DrawdownBreached(pct))
    else PolicyCheck(StopLossCircuit, true, DrawdownWithin(pct))
  }

  /** The nine checks, each judged on its own. */
  function Checks(p: Proposal, s: PolicyState, now: int): (cs: seq<PolicyCheck>)
    ensures |cs| == 9 && DistinctNames(cs)
  {
    [CheckAction(p), CheckTokens(p), CheckConfidence(p), CheckSizing(p), CheckVolume(p),
     CheckRate(p, s, now), CheckBalance(p), CheckSpread(p), CheckStopLoss(p, s)]
  }

  predicate DistinctNames(cs: seq<PolicyCheck>) {
    forall i, j | 0 <= i < j < |cs| :: cs[i].name != cs[j].name
  }

  // ----- What the call means ---------------------------------------------------------------

  function FirstFailed(cs: seq<PolicyCheck>): Option<PolicyCheck> {
    if cs == [] then None else if !cs[0].passed then Some(cs[0]) else FirstFailed(cs[1..])
  }

  predicate Failed(cs: seq<PolicyCheck>, name: CheckName) {
    exists c :: c in cs && c.name == name && !c.passed
  }

  /** The precedence REJECTED > RESTRICTED > QUEUED > FORCE_HOLD > APPROVED. */
  function Precedence(hard: bool, stopLoss: bool, rate: bool, soft: bool): Outcome {
    if hard then Rejected else if stopLoss then Restricted else if rate then Queued
    else if soft then ForceHold else Approved
  }

  function OutcomeOf(cs: seq<PolicyCheck>): Outcome
    requires |cs| == 9
  {
    Precedence(!cs[0].passed || !cs[1].passed || !cs[4].passed || !cs[6].passed,
               !cs[8].passed, !cs[5].passed, !cs[2].passed || !cs[7].passed)
  }

  function FinalDecision(p: Proposal, outcome: Outcome): Decision {
    match outcome
    case Approved => p.decision.(amount := SizedAmount(p))
    case Rejected => p.decision.(amount := SizedAmount(p))
    case _ => p.decision.(action := "HOLD", amount := 0.0)
  }

  function Verdict(p: Proposal, s: PolicyState, now: int): PolicyResult {
    VerdictOn(p, Checks(p, s, now))
  }

  function VerdictOn(p: Proposal, cs: seq<PolicyCheck>): PolicyResult
    requires |cs| == 9
  {
    var first := FirstFailed(cs);
    var outcome := OutcomeOf(cs);
    PolicyResult(outcome == Approved, outcome, cs,
                 if first.Some? then Some(first.value.name) else None,
                 if first.Some? then Some(first.value.reason) else None,
                 FinalDecision(p, outcome))
  }

  predicate ApprovesSwap(p: Proposal, s: PolicyState, now: int) {
    IsSwap(p) && Verdict(p, s, now).approved
  }

  /** The state after a call: the limiter is purged (and the approval recorded at `recordedAt`, the
      second reading of the clock); the session high is raised and the latch closes on a breach. */
  function NextState(p: Proposal, s: PolicyState, now: int, recordedAt: int): PolicyState {
    var id := p.profile.agentId;
    var active := Purged(p, s, now);
    PolicyState(s.rateLimiters[id := if ApprovesSwap(p, s, now) then active + [recordedAt] else active],
                s.stopLossStates[id := Latched(p, s)])
  }

  function Purged(p: Proposal, s: PolicyState, now: int): seq<int> {
    Active(Limiter(s, p.profile.agentId), now - RATE_LIMIT_WINDOW_MS)
  }

  function Latched(p: Proposal, s: PolicyState): StopLossState {
    StopLossState(RaisedHigh(s, p.profile.agentId, PortfolioUsd(p.balance, p.prices)), !CheckStopLoss(p, s).passed)
  }

  function ResetState(s: PolicyState, agentId: string): PolicyState {
    if agentId in s.stopLossStates then s.(stopLossStates := s.stopLossStates[agentId := StopLossState(0.0, false)])
        else s
  }

  function TouchState(s: PolicyState, agentId: string): PolicyState {
    if agentId in s.rateLimiters then s else s.(rateLimiters := s.rateLimiters[agentId := []])
  }

  /** `a ?? b` */
  function OrElse<T>(a: Option<T>, b: T): Option<T> {
    if a.Some? then a else Some(b)
  }

  /** `checks.find((c) => c.name === name)?.reason` */
  function ReasonOf(cs: seq<PolicyCheck>, name: CheckName): Option<Reason> {
    if cs == [] then None else if cs[0].name == name then Some(cs[0].reason) else ReasonOf(cs[1..], name)
  }

  function NameOf(c: Option<PolicyCheck>): Option<CheckName> {
    if c.Some? then Some(c.value.name) else None
  }

  /** The local variables of `check` besides the working copy of the decision. */
  datatype Tally = Tally(checks: seq<PolicyCheck>, hardReject: bool, forceHold: bool,
                         failedOn: Option<CheckName>, outcome: Outcome)
  {
    /** `failedOn` names the first failing check so far, and a hard rejection has named one. */
    predicate Sound() {
      failedOn == NameOf(FirstFailed(checks)) && (hardReject ==> failedOn.Some?)
    }

    function Add(c: PolicyCheck): (t: Tally)
      ensures FirstFailed(t.checks) == if FirstFailed(checks).Some? then FirstFailed(checks) else if c.passed
          then None else Some(c)
    {
      FirstFailedAppend(checks, c);
      this.(checks := checks + [c])
    }
  }

  lemma {:induction false} FirstFailedAppend(cs: seq<PolicyCheck>, c: PolicyCheck)
    ensures FirstFailed(cs + [c]) == if FirstFailed(cs).Some? then FirstFailed(cs) else if c.passed then None
        else Some(c)
  {
    if cs != [] {
      assert (cs + [c])[1..] == cs[1..] + [c];
      FirstFailedAppend(cs[1..], c);
    }
  }

  /** With distinct names, looking the first failing name up finds the first failing check. */
  lemma {:induction false} ReasonOfFirst(cs: seq<PolicyCheck>)
    requires DistinctNames(cs)
    ensures FirstFailed(cs).Some? ==>
              FirstFailed(cs).value in cs && ReasonOf(cs, FirstFailed(cs).value.name)
                  == Some(FirstFailed(cs).value.reason)
  {
    if cs != [] && cs[0].passed {
      ReasonOfFirst(cs[1..]);
    }
  }

  // ----- The engine ------------------------------------------------------------------------

  class PolicyEngine {
    var rateLimiters: map<string, seq<int>>
    var stopLossStates: map<string, StopLossState>

    function State(): PolicyState
      reads this
    {
      PolicyState(rateLimiters, stopLossStates)
    }

    constructor ()
      ensures State() == INITIAL_STATE
    {
      rateLimiters, stopLossStates := map[], map[];
    }

    method GetRateLimiter(agentId: string) returns (timestamps: seq<int>)
      modifies this`rateLimiters
      ensures State() == TouchState(old(State()), agentId)
      ensures timestamps == Limiter(old(State()), agentId) == Limiter(State(), agentId)
    {
      if agentId !in rateLimiters {
        rateLimiters := rateLimiters[agentId := []];
      }
      timestamps := rateLimiters[agentId];
    }

    method RecordTransaction(agentId: string, now: int)
      modifies this`rateLimiters
      ensures rateLimiters == old(rateLimiters)[agentId := Limiter(old(State()), agentId) + [now]]
    {
      var timestamps := GetRateLimiter(agentId);
      rateLimiters := rateLimiters[agentId := timestamps + [now]];
    }

    method GetStopLossState(agentId: string, currentUsd: real) returns (state: StopLossState)
      modifies this`stopLossStates
      ensures state == StopLossState(RaisedHigh(old(State()), agentId, currentUsd), IsRestricted(old(State()), agentId))
      ensures stopLossStates == old(stopLossStates)[agentId := state]
    {
      if agentId !in stopLossStates {
        stopLossStates := stopLossStates[agentId := StopLossState(currentUsd, false)];
      }
      state := stopLossStates[agentId];
      if currentUsd > state.sessionHighUsd {
        state := state.(sessionHighUsd := currentUsd);
        stopLossStates := stopLossStates[agentId := state];
      }
    }

    // The body of `Check`, cut where the local variables have a short description.

    /** Checks 1 to 3. */
    method ScreenDecision(p: Proposal) returns (t: Tally)
      ensures t.Sound() && t.outcome == Approved
      ensures t.checks == [CheckAction(p), CheckTokens(p), CheckConfidence(p)]
      ensures t.hardReject == (!CheckAction(p).passed || !CheckTokens(p).passed)
      ensures t.forceHold == !CheckConfidence(p).passed
    {
      t := Tally([], false, false, None, Approved);
      if p.decision.action in ALLOWED_ACTIONS {
        t := t.Add(PolicyCheck(ActionWhitelist, true, ActionPermitted));
      } else {
        t := t.Add(PolicyCheck(ActionWhitelist, false, ActionNotAllowed)).(hardReject := true);
        t := t.(failedOn := Some(ActionWhitelist));
      }

      var badToken := FirstUnlistedToken(p.decision);
      if badToken.None? || badToken.value == "" {
        t := t.Add(PolicyCheck(TokenWhitelist, true, TokensPermitted));
      } else {
        t := t.Add(PolicyCheck(TokenWhitelist, false, TokenNotAllowed(badToken.value))).(hardReject := true);
        t := t.(failedOn := OrElse(t.failedOn, TokenWhitelist));
      }

      if p.decision.action != "SWAP" {
        t := t.Add(PolicyCheck(MinConfidence, true, ConfidenceSkipped));
      } else if p.decision.confidence >= p.profile.minConfidence {
        t := t.Add(PolicyCheck(MinConfidence, true, ConfidenceMet));
      } else {
        t := t.Add(PolicyCheck(MinConfidence, false, ConfidenceLow)).(forceHold := true);
        t := t.(failedOn := OrElse(t.failedOn, MinConfidence));
      }
    }

    /** Checks 4 and 5; check 4 overwrites the amount of the working copy. */
    method SizeAndCap(p: Proposal, t0: Tally) returns (t: Tally, d: Decision)
      requires t0.Sound()
      ensures t.Sound() && t.outcome == t0.outcome && t.forceHold == t0.forceHold
      ensures t.checks == t0.checks + [CheckSizing(p), CheckVolume(p)]
      ensures t.hardReject == (t0.hardReject || !CheckVolume(p).passed)
      ensures d == p.decision.(amount := SizedAmount(p))
    {
      t, d := t0, p.decision;
      if d.action == "SWAP" {
        var approvedAmount := SafeAmount(p.profile.maxTxAmountSol, d.confidence, Change24h(p.prices, d.fromToken));
        d := d.(amount := approvedAmount);
        t := t.Add(PolicyCheck(VolatilitySizing, true, AmountSized(approvedAmount)));
      } else {
        t := t.Add(PolicyCheck(VolatilitySizing, true, SizingSkipped));
      }

      var projected := p.dailyVolumeUsedSol + if d.action == "SWAP" then d.amount else 0.0;
      if projected <= p.profile.dailyVolumeCapSol {
        t := t.Add(PolicyCheck(DailyVolumeCap, true, VolumeWithinCap(projected)));
      } else {
        t := t.Add(PolicyCheck(DailyVolumeCap, false, VolumeOverCap(projected))).(hardReject := true);
        t := t.(failedOn := OrElse(t.failedOn, DailyVolumeCap));
      }
    }

    /** Checks 1 to 5, which touch no state. */
    method ScreenAndSize(p: Proposal) returns (t: Tally, d: Decision)
      ensures t.Sound() && t.outcome == Approved && d == p.decision.(amount := SizedAmount(p))
      ensures t.checks == [CheckAction(p), CheckTokens(p), CheckConfidence(p), CheckSizing(p), CheckVolume(p)]
      ensures t.hardReject == (!CheckAction(p).passed || !CheckTokens(p).passed || !CheckVolume(p).passed)
      ensures t.forceHold == !CheckConfidence(p).passed
    {
      t := ScreenDecision(p);
      t, d := SizeAndCap(p, t);
    }

    /** Check 6. The limiter is purged in place; a hard rejection so far keeps `failedOn`. */
    method LimitRate(p: Proposal, now: int, t0: Tally) returns (t: Tally)
      requires t0.Sound()
      modifies this`rateLimiters
      ensures t.Sound() && t.hardReject == t0.hardReject
      ensures t.checks == t0.checks + [CheckRate(p, old(State()), now)]
      ensures t.forceHold == (t0.forceHold || !CheckRate(p, old(State()), now).passed)
      ensures t.outcome == if !CheckRate(p, old(State()), now).passed && !t0.hardReject then Queued else t0.outcome
      ensures rateLimiters == old(rateLimiters)[p.profile.agentId := Purged(p, old(State()), now)]
    {
      t := t0;
      var timestamps := GetRateLimiter(p.profile.agentId);
      var active := Active(timestamps, now - RATE_LIMIT_WINDOW_MS);
      rateLimiters := rateLimiters[p.profile.agentId := active];
      var used := |active|;
      if used < RATE_LIMIT_MAX {
        t := t.Add(PolicyCheck(RateLimit, true, RateAvailable(used)));
      } else {
        t := t.Add(PolicyCheck(RateLimit, false, RateReached(used))).(forceHold := true);
        if !t.hardReject {
          t := t.(outcome := Queued, failedOn := OrElse(t.failedOn, RateLimit));
        }
      }
    }

    /** Checks 7 and 8, on the working copy. */
    method CoverAndSpread(p: Proposal, d: Decision, t0: Tally) returns (t: Tally)
      requires t0.Sound() && d == p.decision.(amount := SizedAmount(p))
      ensures t.Sound() && t.outcome == t0.outcome
      ensures t.checks == t0.checks + [CheckBalance(p), CheckSpread(p)]
      ensures t.hardReject == (t0.hardReject || !CheckBalance(p).passed)
      ensures t.forceHold == (t0.forceHold || (p.decision.action == "SWAP" && !MeetsSpread(p)))
    {
      t := t0;
      var required := if d.action == "SWAP" then d.amount + FEE_RESERVE_SOL else FEE_RESERVE_SOL;
      if p.balance.sol >= required {
        t := t.Add(PolicyCheck(BalanceCheck, true, BalanceCovers(required)));
      } else {
        t := t.Add(PolicyCheck(BalanceCheck, false, BalanceShort(required))).(hardReject := true);
        t := t.(failedOn := OrElse(t.failedOn, BalanceCheck));
      }

      if d.action != "SWAP" {
        t := t.Add(PolicyCheck(SpreadThreshold, true, SpreadSkipped));
      } else {
        var spreadPct := if p.quote.Some? && p.quote.value.error == "" then p.quote.value.netSpreadVsMarket * 100.0
                         else p.bestSpreadPct;
        if spreadPct >= p.profile.spreadThresholdPct {
          t := t.Add(PolicyCheck(SpreadThreshold, true, SpreadMet(spreadPct)));
        } else {
          t := t.Add(PolicyCheck(SpreadThreshold, false, SpreadBelow(spreadPct))).(forceHold := true);
          t := t.(failedOn := OrElse(t.failedOn, SpreadThreshold));
        }
      }
    }

    /** Check 9. The session high is raised and the latch closes in place. */
    method GuardDrawdown(p: Proposal, t0: Tally) returns (t: Tally)
      requires t0.Sound()
      modifies this`stopLossStates
      ensures t.Sound() && t.hardReject == t0.hardReject
      ensures t.checks == t0.checks + [CheckStopLoss(p, old(State()))]
      ensures t.forceHold == (t0.forceHold || !CheckStopLoss(p, old(State())).passed)
      ensures t.outcome == if !CheckStopLoss(p, old(State())).passed then Restricted else t0.outcome
      ensures stopLossStates == old(stopLossStates)[p.profile.agentId := Latched(p, old(State()))]
    {
      t := t0;
      var portfolioUsd := PortfolioUsd(p.balance, p.prices);
      var stopLoss := GetStopLossState(p.profile.agentId, portfolioUsd);
      var drawdownPct := DrawdownPct(portfolioUsd, stopLoss.sessionHighUsd);
      if stopLoss.restricted {
        t := t.Add(PolicyCheck(StopLossCircuit, false, AlreadyRestricted));
        t := t.(outcome := Restricted, forceHold := true, failedOn := OrElse(t.failedOn, StopLossCircuit));
      } else if drawdownPct <= p.profile.stopLossTriggerPct {
        stopLossStates := stopLossStates[p.profile.agentId := stopLoss.(restricted := true)];
        t := t.Add(PolicyCheck(StopLossCircuit, false, DrawdownBreached(drawdownPct)));
        t := t.(outcome := Restricted, forceHold := true, failedOn := OrElse(t.failedOn, StopLossCircuit));
      } else {
        t := t.Add(PolicyCheck(StopLossCircuit, true, DrawdownWithin(drawdownPct)));
      }
    }

    /** The end of `Check`: the outcome, the final decision and the reason. */
    method Conclude(p: Proposal, t: Tally, d0: Decision) returns (r: PolicyResult)
      requires t.Sound() && |t.checks| == 9 && DistinctNames(t.checks)
      requires d0 == p.decision.(amount := SizedAmount(p))
      requires t.hardReject == (!t.checks[0].passed || !t.checks[1].passed || !t.checks[4].passed
          || !t.checks[6].passed)
      requires t.forceHold == (!t.checks[2].passed || !t.checks[5].passed || !t.checks[7].passed || !t.checks[8].passed)
      requires !t.checks[8].passed ==> t.outcome == Restricted
      requires !t.hardReject && t.checks[8].passed ==> t.outcome == if t.checks[5].passed then Approved else Queued
      requires t.hardReject && t.checks[8].passed ==> t.outcome != Restricted
      ensures r == VerdictOn(p, t.checks)
    {
      var outcome, d := t.outcome, d0;
      if t.hardReject {
        outcome := Rejected;
      } else if t.forceHold {
        if outcome == Approved {
          outcome := ForceHold;
        }
        d := d.(action := "HOLD", amount := 0.0);
      }
      ReasonOfFirst(t.checks);
      r := PolicyResult(outcome == Approved, outcome, t.checks, t.failedOn,
                        if t.failedOn.Some? then ReasonOf(t.checks, t.failedOn.value) else None, d);
    }

    /** Checks 1 to 8. */
    method ScreenToSpread(p: Proposal, now: int) returns (t: Tally, d: Decision)
      modifies this`rateLimiters
      ensures t.Sound() && d == p.decision.(amount := SizedAmount(p))
      ensures t.checks == [CheckAction(p), CheckTokens(p), CheckConfidence(p), CheckSizing(p), CheckVolume(p),
                           CheckRate(p, old(State()), now), CheckBalance(p), CheckSpread(p)]
      ensures t.hardReject == (!CheckAction(p).passed || !CheckTokens(p).passed || !CheckVolume(p).passed
          || !CheckBalance(p).passed)
      ensures t.forceHold == (!CheckConfidence(p).passed || !CheckRate(p, old(State()), now).passed
          || !CheckSpread(p).passed)
      ensures !t.hardReject ==> t.outcome == if CheckRate(p, old(State()), now).passed then Approved else Queued
      ensures t.outcome != Restricted
      ensures rateLimiters == old(rateLimiters)[p.profile.agentId := Purged(p, old(State()), now)]
    {
      t, d := ScreenAndSize(p);
      t := LimitRate(p, now, t);
      t := CoverAndSpread(p, d, t);
    }

    /** All nine checks in order; the maps end up purged, raised and latched. */
    method RunChecks(p: Proposal, now: int) returns (t: Tally, d: Decision)
      modifies this
      ensures t.Sound() && d == p.decision.(amount := SizedAmount(p))
      ensures t.checks == Checks(p, old(State()), now)
      ensures t.hardReject == (!t.checks[0].passed || !t.checks[1].passed || !t.checks[4].passed || !t.checks[6].passed)
      ensures t.forceHold == (!t.checks[2].passed || !t.checks[5].passed || !t.checks[7].passed || !t.checks[8].passed)
      ensures !t.checks[8].passed ==> t.outcome == Restricted
      ensures !t.hardReject && t.checks[8].passed ==> t.outcome == if t.checks[5].passed then Approved else Queued
      ensures t.hardReject && t.checks[8].passed ==> t.outcome != Restricted
      ensures rateLimiters == old(rateLimiters)[p.profile.agentId := Purged(p, old(State()), now)]
      ensures stopLossStates == old(stopLossStates)[p.profile.agentId := Latched(p, old(State()))]
    {
      t, d := ScreenToSpread(p, now);
      t := GuardDrawdown(p, t);
    }

    /** Runs all nine checks. `now` and `recordedAt` are the two clock readings of the call. */
    method Check(p: Proposal, now: int, recordedAt: int) returns (r: PolicyResult)
      modifies this
      ensures r == Verdict(p, old(State()), now)
      ensures State() == NextState(p, old(State()), now, recordedAt)
      ensures r.approved && p.decision.action == "SWAP" ==> MeetsSpread(p)
    {
      var t, d := RunChecks(p, now);
      r := Conclude(p, t, d);
      if r.approved && r.finalDecision.action == "SWAP" {
        RecordTransaction(p.profile.agentId, recordedAt);
      }
    }

    method ResetStopLoss(agentId: string)
      modifies this`stopLossStates
      ensures State() == ResetState(old(State()), agentId)
    {
      if agentId in stopLossStates {
        stopLossStates := stopLossStates[agentId := StopLossState(0.0, false)];
      }
    }

    method GetRateLimitStatus(agentId: string, now: int) returns (used: nat)
      modifies this`rateLimiters
      ensures State() == TouchState(old(State()), agentId)
      ensures used == |Active(Limiter(State(), agentId), now - RATE_LIMIT_WINDOW_MS)|
    {
      var timestamps := GetRateLimiter(agentId);
      used := |Active(timestamps, now - RATE_LIMIT_WINDOW_MS)|;
    }
  }
}
