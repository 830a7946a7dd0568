/** What one call of the policy engine guarantees: how its nine verdicts combine, and what the
    amount it approves can be. */
module PolicyLaws {
  import opened Results
  import opened Policy

  // ----- The verdicts ----------------------------------------------------------------------

  lemma {:induction false} FirstFailedIsFirst(cs: seq<PolicyCheck>)
    ensures FirstFailed(cs).None? <==> forall c | c in cs :: c.passed
    ensures FirstFailed(cs).Some? ==>
              exists k | 0 <= k < |cs| :: FirstFailed(cs) == Some(cs[k]) && !cs[k].passed
                  && forall j | 0 <= j < k :: cs[j].passed
  {
    if cs != [] && cs[0].passed {
      FirstFailedIsFirst(cs[1..]);
      if FirstFailed(cs[1..]).Some? {
        var k :| 0 <= k < |cs[1..]| && FirstFailed(cs[1..]) == Some(cs[1..][k])
            && forall j | 0 <= j < k :: cs[1..][j].passed;
        assert cs[k + 1] == cs[1..][k];
        assert forall j | 0 < j < k + 1 :: cs[j] == cs[1..][j - 1];
      }
      assert forall c | c in cs :: c == cs[0] || c in cs[1..];
    } else if cs != [] {
      assert cs[0] in cs;
    }
  }

  predicate HardFailure(cs: seq<PolicyCheck>) {
    Failed(cs, ActionWhitelist) || Failed(cs, TokenWhitelist) || Failed(cs, DailyVolumeCap) || Failed(cs, BalanceCheck)
  }

  predicate SoftFailure(cs: seq<PolicyCheck>) {
    Failed(cs, MinConfidence) || Failed(cs, SpreadThreshold)
  }

  predicate IsFirstFailure(cs: seq<PolicyCheck>, k: nat) {
    k < |cs| && !cs[k].passed && forall j | 0 <= j < k :: cs[j].passed
  }

  lemma VerdictOnLaws(p: Proposal, cs: seq<PolicyCheck>)
    requires |cs| == 9 && cs[3].passed
    ensures var v := VerdictOn(p, cs);
            && (v.approved <==> forall c | c in cs :: c.passed)
            && (v.approved <==> v.failedOn.None?)
            && (!v.approved ==>
                  exists k: nat ::
                    IsFirstFailure(cs, k) && v.failedOn == Some(cs[k].name) && v.reason == Some(cs[k].reason))
  {
    FirstFailedIsFirst(cs);
    ApprovedOutcome(cs);
    if FirstFailed(cs).Some? {
      var k :| 0 <= k < |cs| && FirstFailed(cs) == Some(cs[k]) && !cs[k].passed
          && forall j | 0 <= j < k :: cs[j].passed;
      assert IsFirstFailure(cs, k);
    }
  }

  lemma ApprovedOutcome(cs: seq<PolicyCheck>)
    requires |cs| == 9 && cs[3].passed
    ensures OutcomeOf(cs) == Approved <==> forall c | c in cs :: c.passed
  {
    assert forall k | 0 <= k < 9 :: cs[k] in cs;
  }

  /** A call approves exactly when all nine checks pass; otherwise `failedOn` and `reason` are those
      of the first failing check, whichever flags the checks before it had set. */
  lemma ApprovesIffAllPass(p: Proposal, s: PolicyState, now: int)
    ensures var v := Verdict(p, s, now);
            && v.checks == Checks(p, s, now)
            && (v.approved <==> forall c | c in v.checks :: c.passed)
            && (v.approved <==> v.failedOn.None?)
            && (!v.approved ==> exists k: nat :: IsFirstFailure(v.checks, k) && v.failedOn == Some(v.checks[k].name)
                                            && v.reason == Some(v.checks[k].reason))
  {
    VerdictOnLaws(p, Checks(p, s, now));
  }

  /** The outcome for every combination of failures, the first that applies of: a hard failure, the
      stop-loss, the rate limit, a soft failure. Only an approval or a rejection keeps the decision. */
  lemma OutcomePrecedence(p: Proposal, s: PolicyState, now: int)
    ensures var v := Verdict(p, s, now);
            var stopLoss, rate := Failed(v.checks, StopLossCircuit), Failed(v.checks, RateLimit);
            && (HardFailure(v.checks) ==> v.outcome == Rejected)
            && (!HardFailure(v.checks) && stopLoss ==> v.outcome == Restricted)
            && (!HardFailure(v.checks) && !stopLoss && rate ==> v.outcome == Queued)
            && (!HardFailure(v.checks) && !stopLoss && !rate && SoftFailure(v.checks) ==> v.outcome == ForceHold)
            && (!HardFailure(v.checks) && !stopLoss && !rate && !SoftFailure(v.checks) ==> v.outcome == Approved)
  {
    var cs := Checks(p, s, now);
    forall k | 0 <= k < 9 ensures Failed(cs, cs[k].name) <==> !cs[k].passed {
      assert cs[k] in cs;
    }
  }

  /** What becomes of the decision under each outcome: an approval or a rejection changes its amount
      alone, and the amount of a swap only; any other outcome turns it into a HOLD of nothing. */
  lemma DecisionUnderOutcome(p: Proposal, s: PolicyState, now: int)
    ensures var v := Verdict(p, s, now);
            && (v.approved <==> v.outcome == Approved)
            && (v.outcome in {Approved, Rejected} ==>
                v.finalDecision == p.decision.(amount := v.finalDecision.amount))
            && (p.decision.action != "SWAP" && v.outcome in {Approved, Rejected} ==> v.finalDecision == p.decision)
            && (v.outcome in {ForceHold, Queued, Restricted} ==>
                v.finalDecision == p.decision.(action := "HOLD", amount := 0.0))
  {
    assert Verdict(p, s, now).finalDecision == FinalDecision(p, Verdict(p, s, now).outcome);
  }

  /** Both tokens are on the whitelist. */
  predicate Listed(d: Decision) { d.fromToken in ALLOWED_TOKENS && d.toToken in ALLOWED_TOKENS }

  /** The whitelist check looks for the first unlisted token and takes an empty one for "none found":
      it passes listed tokens, and whatever such an empty token hides. */
  lemma TokenCheckMeaning(p: Proposal)
    ensures var d := p.decision;
            CheckTokens(p).passed <==>
            Listed(d) || d.fromToken == "" || (d.fromToken in ALLOWED_TOKENS && d.toToken == "")
  {
    assert "" !in ALLOWED_TOKENS;
  }

  function SampleProposal(fromToken: string, toToken: string): Proposal {
    var price := TokenPrice(100.0, 0.0);
    Proposal(Decision("SWAP", fromToken, toToken, 0.1, 1.0, "", []), Profile("rex", 0.15, 0.45, 0.2, 1.0, -20.0),
             Balance(2.0, map[]), Prices(price, price, price, price), None, 0.0, 1.0)
  }

  lemma SampleAmount(fromToken: string, toToken: string)
    ensures SizedAmount(SampleProposal(fromToken, toToken)) == 0.2
    ensures PortfolioUsd(SampleProposal(fromToken, toToken).balance, SampleProposal(fromToken, toToken).prices) == 200.0
  {
    assert (0.2 * 10000.0 + 0.5).Floor == 2000;
  }

  lemma SamplePasses(fromToken: string, toToken: string)
    ensures var p := SampleProposal(fromToken, toToken);
            && CheckAction(p).passed && CheckConfidence(p).passed && CheckVolume(p).passed && CheckBalance(p).passed
            && CheckSpread(p).passed && CheckRate(p, INITIAL_STATE, 0).passed && CheckStopLoss(p, INITIAL_STATE).passed
  {
    SampleAmount(fromToken, toToken);
  }

  lemma PassesMeanApproval(p: Proposal, s: PolicyState, now: int)
    requires CheckAction(p).passed && CheckTokens(p).passed && CheckConfidence(p).passed && CheckVolume(p).passed
    requires CheckRate(p, s, now).passed && CheckBalance(p).passed && CheckSpread(p).passed
        && CheckStopLoss(p, s).passed
    ensures Verdict(p, s, now).approved
  {
  }

  /** The engine alone approves this input, whose tokens are not listed. Schema validation keeps it
      from ever being asked: see `ControlPlaneRuns.EveryCheckSeesListedTokens`. */
  lemma UnlistedTokensCanBeApproved()
    ensures ApprovesSwap(SampleProposal("", "DOGE"), INITIAL_STATE, 0)
  {
    SamplePasses("", "DOGE");
    PassesMeanApproval(SampleProposal("", "DOGE"), INITIAL_STATE, 0);
  }

  lemma ApprovedAmountIsSized(p: Proposal, s: PolicyState, now: int)
    requires IsSwap(p) && Verdict(p, s, now).approved
    ensures Verdict(p, s, now).finalDecision.amount == SizedAmount(p)
  {
    assert Verdict(p, s, now).finalDecision == FinalDecision(p, Approved);
  }

  // ----- The approved amount ---------------------------------------------------------------

  /** An amount with at most four decimals. */
  predicate FourDecimals(x: real) {
    (x * 10000.0).Floor as real == x * 10000.0
  }

  lemma Round4Monotone(x: real, y: real)
    requires 0.0 <= x <= y
    ensures 0.0 <= Round4(x) <= Round4(y)
  {
    FloorMonotone(x * 10000.0 + 0.5, y * 10000.0 + 0.5);
    FloorMonotone(0.0, x * 10000.0 + 0.5);
  }

  lemma Round4Between(low: real, x: real, high: real)
    requires 0.0 <= low <= x <= high
    ensures Round4(low) <= Round4(x) <= Round4(high)
  {
    Round4Monotone(low, x);
    Round4Monotone(x, high);
  }

  lemma FloorMonotone(x: real, y: real)
    requires x <= y
    ensures x.Floor <= y.Floor
  {
  }

  lemma Round4Exact(x: real)
    requires 0.0 <= x && FourDecimals(x)
    ensures Round4(x) == x
  {
    var n := (x * 10000.0).Floor;
    assert (n as real + 0.5).Floor == n;
  }

  lemma Round4Decimals(x: real)
    ensures FourDecimals(Round4(x))
  {
    var n := if x < 0.0 then -((-x) * 10000.0 + 0.5).Floor else (x * 10000.0 + 0.5).Floor;
    assert Round4(x) * 10000.0 == n as real;
    assert (n as real).Floor == n;
  }

  lemma FactorBounds(c1: real, c2: real)
    requires c1 <= c2
    ensures 0.5 <= VolatilityFactor(c2) <= VolatilityFactor(c1) <= 1.0
  {
  }

  lemma TimesNonNegative(a: real, b: real)
    requires 0.0 <= a && 0.0 <= b
    ensures 0.0 <= Times(a, b)
  {
  }

  lemma TimesMonotone(a: real, b: real, c: real, d: real)
    requires 0.0 <= a <= b && 0.0 <= c <= d
    ensures 0.0 <= Times(a, c) <= Times(b, d)
  {
    TimesNonNegative(a, c);
    TimesNonNegative(b - a, c);
    TimesNonNegative(b, d - c);
    assert b * d - a * c == (b - a) * c + b * (d - c);
  }

  lemma TimesFraction(a: real, c: real)
    requires 0.0 <= a && 0.0 <= c <= 1.0
    ensures 0.0 <= Times(a, c) <= a
    ensures 0.5 <= c ==> a / 2.0 <= Times(a, c)
  {
    TimesNonNegative(a, c);
    TimesNonNegative(a, 1.0 - c);
    assert a * (1.0 - c) == a - a * c;
    if 0.5 <= c {
      TimesNonNegative(a, c - 0.5);
      assert a * (c - 0.5) == a * c - a / 2.0;
    }
  }

  /** More confidence never means less, a larger 24h move never means more. */
  lemma SafeAmountMonotone(maxTx: real, conf1: real, conf2: real, change1: real, change2: real)
    requires 0.0 <= maxTx && 0.0 <= conf1 <= conf2 && change2 <= change1
    ensures 0.0 <= SafeAmount(maxTx, conf1, change1) <= SafeAmount(maxTx, conf2, change2)
  {
    FactorBounds(change2, change1);
    TimesMonotone(maxTx, maxTx, conf1, conf2);
    TimesMonotone(Times(maxTx, conf1), Times(maxTx, conf2), VolatilityFactor(change1), VolatilityFactor(change2));
    Round4Monotone(Times(Times(maxTx, conf1), VolatilityFactor(change1)),
        Times(Times(maxTx, conf2), VolatilityFactor(change2)));
  }

  /** The sized amount of a confident decision lies between half the scaled maximum and the rounded maximum. */
  lemma SafeAmountBounds(maxTx: real, minConfidence: real, confidence: real, change: real)
    requires 0.0 <= maxTx && 0.0 <= minConfidence <= confidence <= 1.0
    ensures Round4(Times(maxTx, minConfidence) / 2.0) <= SafeAmount(maxTx, confidence, change) <= Round4(maxTx)
  {
    var scaled := Times(maxTx, confidence);
    FactorBounds(change, change);
    TimesMonotone(maxTx, maxTx, minConfidence, confidence);
    TimesFraction(maxTx, confidence);
    TimesFraction(scaled, VolatilityFactor(change));
    Round4Between(Times(maxTx, minConfidence) / 2.0, Times(scaled, VolatilityFactor(change)), maxTx);
  }

  /** The configured maximum bounds every sized amount exactly when rounding does not raise it;
      every maximum with at most four decimals qualifies. */
  lemma MaximumBoundsIff(maxTx: real)
    requires 0.0 <= maxTx
    ensures (forall confidence, change | 0.0 <= confidence <= 1.0 :: SafeAmount(maxTx, confidence, change) <= maxTx)
            <==> Round4(maxTx) <= maxTx
    ensures FourDecimals(maxTx) ==> Round4(maxTx) <= maxTx
  {
    forall confidence, change | 0.0 <= confidence <= 1.0 ensures SafeAmount(maxTx, confidence, change)
        <= Round4(maxTx) {
      SafeAmountBounds(maxTx, 0.0, confidence, change);
    }
    assert SafeAmount(maxTx, 1.0, 0.0) == Round4(maxTx) by {
      assert maxTx * 1.0 * (1.0 - 0.0) == maxTx;
    }
    if FourDecimals(maxTx) {
      Round4Exact(maxTx);
    }
  }

  /** A profile as the registry writes it, and a decision as the parser lets it through. */
  ghost predicate WellFormed(p: Proposal) {
    && 0.0 <= p.profile.maxTxAmountSol && FourDecimals(p.profile.maxTxAmountSol)
    && 0.0 <= p.profile.minConfidence
    && 0.0 <= p.decision.confidence <= 1.0
  }

  /** What each of the nine checks establishes when the call approves. */
  lemma ApprovalMeansPasses(p: Proposal, s: PolicyState, now: int)
    requires Verdict(p, s, now).approved
    ensures CheckAction(p).passed && CheckTokens(p).passed && CheckConfidence(p).passed && CheckVolume(p).passed
    ensures CheckRate(p, s, now).passed && CheckBalance(p).passed && CheckSpread(p).passed && CheckStopLoss(p, s).passed
  {
  }

  /** Approval changes nothing of a decision but its amount. */
  lemma ApprovedKeepsDecision(p: Proposal, s: PolicyState, now: int)
    ensures var v := Verdict(p, s, now);
            v.approved ==> v.finalDecision == p.decision.(amount := v.finalDecision.amount)
  {
    if Verdict(p, s, now).approved {
      assert Verdict(p, s, now).finalDecision == FinalDecision(p, Approved);
    }
  }

  /** Everything the rest of the pipeline relies on when a swap is approved. */
  lemma ApprovedSwap(p: Proposal, s: PolicyState, now: int)
    requires ApprovesSwap(p, s, now) && WellFormed(p)
    ensures
      var amount := Verdict(p, s, now).finalDecision.amount;
      && Verdict(p, s, now).finalDecision == p.decision.(amount := amount)
      && Round4(Times(p.profile.maxTxAmountSol, p.profile.minConfidence) / 2.0) <= amount <= p.profile.maxTxAmountSol
      && 0.0 <= amount && FourDecimals(amount)
      && p.dailyVolumeUsedSol + amount <= p.profile.dailyVolumeCapSol
      && p.balance.sol - amount >= FEE_RESERVE_SOL
      && MeetsSpread(p)
  {
    ApprovalMeansPasses(p, s, now);
    ApprovedAmount(p);
    assert Verdict(p, s, now).finalDecision == FinalDecision(p, Approved);
  }

  lemma ApprovedAmount(p: Proposal)
    requires IsSwap(p) && WellFormed(p) && CheckConfidence(p).passed
    ensures Round4(Times(p.profile.maxTxAmountSol, p.profile.minConfidence) / 2.0) <= SizedAmount(p)
        <= p.profile.maxTxAmountSol
    ensures 0.0 <= SizedAmount(p) && FourDecimals(SizedAmount(p))
  {
    var change := Change24h(p.prices, p.decision.fromToken);
    SafeAmountBounds(p.profile.maxTxAmountSol, p.profile.minConfidence, p.decision.confidence, change);
    SafeAmountMonotone(p.profile.maxTxAmountSol, p.decision.confidence, p.decision.confidence, change, change);
    Round4Exact(p.profile.maxTxAmountSol);
    Round4Decimals(Times(Times(p.profile.maxTxAmountSol, p.decision.confidence), VolatilityFactor(change)));
  }

  /** The amount the strategist (or the guardian, by modifying it) proposed for a swap has no
      influence on anything the engine answers or remembers, whatever the outcome. */
  lemma ProposedAmountIrrelevant(p: Proposal, amount: real, s: PolicyState, now: int, recordedAt: int)
    requires IsSwap(p)
    ensures Verdict(p.(decision := p.decision.(amount := amount)), s, now) == Verdict(p, s, now)
    ensures NextState(p.(decision := p.decision.(amount := amount)), s, now, recordedAt)
        == NextState(p, s, now, recordedAt)
  {
    var q := p.(decision := p.decision.(amount := amount));
    assert Checks(q, s, now) == Checks(p, s, now);
  }
}
