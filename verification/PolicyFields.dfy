/** The policy engine's answer in terms of the fields it is given: what each flag tests, what the
    sized amount is, and what the call leaves behind. */
module PolicyFields {
  import opened Results
  import opened Policy
  import opened PolicyLaws

  // ----- The sized amount ----------------------------------------------------------------------

  /** The size of the 24h move of the token to sell; a token without a price entry did not move. */
  predicate MovedBy(p: Proposal, change: real) {
    var d := p.decision;
    && 0.0 <= change
    && (d.fromToken == "SOL" ==> change == p.prices.sol.change24h || change == -p.prices.sol.change24h)
    && (d.fromToken == "USDC" ==> change == p.prices.usdc.change24h || change == -p.prices.usdc.change24h)
    && (d.fromToken == "RAY" ==> change == p.prices.ray.change24h || change == -p.prices.ray.change24h)
    && (d.fromToken == "BONK" ==> change == p.prices.bonk.change24h || change == -p.prices.bonk.change24h)
    && (d.fromToken !in {"SOL", "USDC", "RAY", "BONK"} ==> change == 0.0)
  }

  /** Nothing up to 5 %, then one hundredth for each further percentage point, at most one half. */
  predicate Penalised(change: real, penalty: real) {
    && (change <= 5.0 ==> penalty == 0.0)
    && (5.0 < change <= 55.0 ==> penalty * 100.0 == change - 5.0)
    && (55.0 < change ==> penalty == 0.5)
  }

  /** The nearest amount with four decimals, and on a tie the one of larger magnitude. */
  predicate NearestFourDecimals(x: real, amount: real) {
    && FourDecimals(amount)
    && (0.0 <= x ==> x - 0.00005 < amount <= x + 0.00005)
    && (x < 0.0 ==> x - 0.00005 <= amount < x + 0.00005)
  }

  lemma Round4Nearest(x: real)
    ensures NearestFourDecimals(x, Round4(x))
  {
    Round4Decimals(x);
    if x < 0.0 {
      var n := ((-x) * 10000.0 + 0.5).Floor;
      assert n as real <= (-x) * 10000.0 + 0.5 < n as real + 1.0;
    } else {
      var n := (x * 10000.0 + 0.5).Floor;
      assert n as real <= x * 10000.0 + 0.5 < n as real + 1.0;
    }
  }

  /** At most one amount with four decimals is nearest in this sense. */
  lemma NearestIsUnique(x: real, a: real, b: real)
    requires NearestFourDecimals(x, a) && NearestFourDecimals(x, b)
    ensures a == b
  {
    if a < b { FourDecimalsApart(a, b); }
    if b < a { FourDecimalsApart(b, a); }
  }

  lemma FourDecimalsApart(a: real, b: real)
    requires FourDecimals(a) && FourDecimals(b) && a < b
    ensures a + 0.0001 <= b
  {
    var i, j := (a * 10000.0).Floor, (b * 10000.0).Floor;
    FloorMonotone(a * 10000.0, b * 10000.0);
    assert i != j;
    assert a * 10000.0 + 1.0 == (i + 1) as real;
    FloorMonotone((i + 1) as real, j as real);
  }

  lemma PenaltyIsPenalised(p: Proposal, change: real, penalty: real)
    requires MovedBy(p, change) && Penalised(change, penalty)
    ensures Change24h(p.prices, p.decision.fromToken) == change && VolatilityFactor(change) == 1.0 - penalty
  {
  }

  /** A swap's amount is replaced by the rounded share of the profile's maximum, whatever the outcome
      of the other checks; it is this amount that check 4 reports and that an approval carries. */
  lemma SizedAmountMeaning(p: Proposal, s: PolicyState, now: int, change: real, penalty: real)
    requires p.decision.action == "SWAP" && MovedBy(p, change) && Penalised(change, penalty)
    ensures var v := Verdict(p, s, now);
            var amount := ShownAmount(v);
            && NearestFourDecimals(p.profile.maxTxAmountSol * p.decision.confidence * (1.0 - penalty), amount)
            && v.checks[3] == PolicyCheck(VolatilitySizing, true, AmountSized(amount))
            && (v.outcome in {Approved, Rejected} ==> v.finalDecision == p.decision.(amount := amount))
  {
    VerdictCarriesSize(p, s, now);
    SizeIsNearest(p, change, penalty);
  }

  lemma SizeIsNearest(p: Proposal, change: real, penalty: real)
    requires p.decision.action == "SWAP" && MovedBy(p, change) && Penalised(change, penalty)
    ensures NearestFourDecimals(p.profile.maxTxAmountSol * p.decision.confidence * (1.0 - penalty), SizedAmount(p))
  {
    PenaltyIsPenalised(p, change, penalty);
    SizeNearest(p.profile.maxTxAmountSol, p.decision.confidence, change, penalty);
  }

  lemma SizeNearest(maxTx: real, confidence: real, change: real, penalty: real)
    requires VolatilityFactor(change) == 1.0 - penalty
    ensures NearestFourDecimals(maxTx * confidence * (1.0 - penalty), SafeAmount(maxTx, confidence, change))
  {
    Round4Nearest(Times(Times(maxTx, confidence), VolatilityFactor(change)));
  }

  lemma VerdictCarriesSize(p: Proposal, s: PolicyState, now: int)
    requires p.decision.action == "SWAP"
    ensures var v := Verdict(p, s, now);
            && ShownAmount(v) == SizedAmount(p)
            && v.checks[3] == PolicyCheck(VolatilitySizing, true, AmountSized(SizedAmount(p)))
            && (v.outcome in {Approved, Rejected} ==> v.finalDecision == p.decision.(amount := SizedAmount(p)))
  {
    assert Verdict(p, s, now).finalDecision == FinalDecision(p, Verdict(p, s, now).outcome);
  }

  /** The amount a verdict reports for its sizing check, 0 when sizing was skipped. */
  function ShownAmount(v: PolicyResult): real {
    if |v.checks| == 9 && v.checks[3].reason.AmountSized? then v.checks[3].reason.amount else 0.0
  }

  // ----- The flags -----------------------------------------------------------------------------

  /** How many of the timestamps are later than `cut`. */
  function CountAfter(timestamps: seq<int>, cut: int): nat {
    |set i | 0 <= i < |timestamps| && timestamps[i] > cut|
  }

  lemma {:induction false} ActiveCounts(timestamps: seq<int>, cut: int)
    ensures |Active(timestamps, cut)| == CountAfter(timestamps, cut)
  {
    if timestamps != [] {
      var n := |timestamps| - 1;
      ActiveCounts(timestamps[..n], cut);
      var before := set i | 0 <= i < n && timestamps[i] > cut;
      assert before == set i | 0 <= i < |timestamps[..n]| && timestamps[..n][i] > cut;
      assert (set i | 0 <= i < |timestamps| && timestamps[i] > cut)
          == if timestamps[n] > cut then before + {n} else before;
    }
  }

  /** The whitelists, the confidence and the spread: a swap meets the threshold with the net spread of
      its quote, or with the gross spread when it has no quote or one with an error. */
  lemma DecisionFlags(p: Proposal, s: PolicyState, now: int)
    ensures var v, d := Verdict(p, s, now), p.decision;
            && |v.checks| == 9
            && (forall k | 0 <= k < 9 :: v.checks[k].name ==
                  [ActionWhitelist, TokenWhitelist, MinConfidence, VolatilitySizing, DailyVolumeCap, RateLimit,
                   BalanceCheck, SpreadThreshold, StopLossCircuit][k])
            && (v.checks[0].passed <==> d.action in {"SWAP", "HOLD", "SKIP"})
            && (v.checks[1].passed <==>
                || d.fromToken == ""
                || (d.fromToken in {"SOL", "USDC", "RAY", "BONK"} && d.toToken in {"SOL", "USDC", "RAY", "BONK", ""}))
            && (v.checks[2].passed <==> (d.action == "SWAP" ==> d.confidence >= p.profile.minConfidence))
            && v.checks[3].passed
            && (v.checks[7].passed <==> (d.action == "SWAP" ==> MeetsSpread(p)))
  {
    TokenCheckMeaning(p);
  }

  /** The volume cap, with the figure its reason names. A decision that is no swap uses no volume. */
  lemma VolumeFlag(p: Proposal, s: PolicyState, now: int)
    ensures var v := Verdict(p, s, now);
            var projected := p.dailyVolumeUsedSol + ShownAmount(v);
            && (v.checks[4].passed <==> projected <= p.profile.dailyVolumeCapSol)
            && v.checks[4].reason in {VolumeWithinCap(projected), VolumeOverCap(projected)}
            && (v.checks[4].reason.VolumeWithinCap? <==> v.checks[4].passed)
            && (p.decision.action != "SWAP" ==> ShownAmount(v) == 0.0)
  {
  }

  /** The balance, with the figure its reason names: the amount and the fee reserve, or the reserve alone. */
  lemma BalanceFlag(p: Proposal, s: PolicyState, now: int)
    ensures var v := Verdict(p, s, now);
            var required := ShownAmount(v) + 0.01;
            && (v.checks[6].passed <==> p.balance.sol >= required)
            && v.checks[6].reason in {BalanceCovers(required), BalanceShort(required)}
            && (v.checks[6].reason.BalanceCovers? <==> v.checks[6].passed)
  {
  }

  /** Fewer than five recorded swaps in the last 60 seconds; an agent without a limiter has none. */
  lemma RateFlag(p: Proposal, s: PolicyState, now: int)
    ensures var v, id := Verdict(p, s, now), p.profile.agentId;
            var used := if id in s.rateLimiters then CountAfter(s.rateLimiters[id], now - 60_000) else 0;
            && (v.checks[5].passed <==> used < 5)
            && v.checks[5].reason in {RateAvailable(used), RateReached(used)}
            && (v.checks[5].reason.RateAvailable? <==> v.checks[5].passed)
  {
    ActiveCounts(Limiter(s, p.profile.agentId), now - 60_000);
  }

  /** What the portfolio is worth: the holdings at their prices, absent holdings counting for nothing. */
  ghost predicate Worth(p: Proposal, value: real) {
    exists usdc, ray, bonk ::
      && Held(p.balance.tokens, "USDC", usdc) && Held(p.balance.tokens, "RAY", ray)
      && Held(p.balance.tokens, "BONK", bonk)
      && value == p.balance.sol * p.prices.sol.usd + usdc * p.prices.usdc.usd + ray * p.prices.ray.usd
          + bonk * p.prices.bonk.usd
  }

  predicate Held(tokens: map<string, real>, token: string, amount: real) {
    (token in tokens ==> amount == tokens[token]) && (token !in tokens ==> amount == 0.0)
  }

  lemma WorthIsPortfolio(p: Proposal, value: real)
    ensures Worth(p, value) <==> value == PortfolioUsd(p.balance, p.prices)
  {
    assert Held(p.balance.tokens, "USDC", Holding(p.balance, "USDC"))
        && Held(p.balance.tokens, "RAY", Holding(p.balance, "RAY"))
        && Held(p.balance.tokens, "BONK", Holding(p.balance, "BONK"));
  }

  lemma DrawdownScaled(value: real, high: real, trigger: real)
    requires high > 0.0
    ensures DrawdownPct(value, high) <= trigger <==> (value - high) * 100.0 <= trigger * high
  {
    var share := (value - high) / high;
    assert share * high == value - high;
    if share * 100.0 <= trigger {
      ProductMonotone(share * 100.0, trigger, high);
    } else {
      ProductStrict(trigger, share * 100.0, high);
    }
    assert share * 100.0 * high == (share * high) * 100.0;
  }

  lemma ProductMonotone(a: real, b: real, c: real)
    requires a <= b && 0.0 <= c
    ensures a * c <= b * c
  {
  }

  lemma ProductStrict(a: real, b: real, c: real)
    requires a < b && 0.0 < c
    ensures a * c < b * c
  {
  }

  /** The session high becomes the larger of the stored high and the portfolio's value. The check
      fails, and closes the latch, exactly when the latch was closed or the value lies the trigger's
      percentage below that high; with a high of zero or less the drawdown counts as zero. */
  lemma StopLossFlag(p: Proposal, s: PolicyState, now: int, recordedAt: int, value: real)
    requires Worth(p, value)
    ensures var v, id, states := Verdict(p, s, now), p.profile.agentId, NextState(p, s, now, recordedAt).stopLossStates;
            && id in states
            && (var high := states[id].sessionHighUsd;
                && value <= high
                && (id in s.stopLossStates ==> s.stopLossStates[id].sessionHighUsd <= high)
                && (high == value || (id in s.stopLossStates && high == s.stopLossStates[id].sessionHighUsd))
                && (v.checks[8].passed <==>
                    && (id in s.stopLossStates ==> !s.stopLossStates[id].restricted)
                    && (if high > 0.0 then (value - high) * 100.0 > p.profile.stopLossTriggerPct * high
                        else 0.0 > p.profile.stopLossTriggerPct)))
            && states[id].restricted == !v.checks[8].passed
            && states - {id} == s.stopLossStates - {id}
  {
    WorthIsPortfolio(p, value);
    var high := RaisedHigh(s, p.profile.agentId, value);
    if high > 0.0 {
      DrawdownScaled(value, high, p.profile.stopLossTriggerPct);
    }
  }

  // ----- What the call leaves behind -----------------------------------------------------------

  lemma {:induction false} ActiveMembers(timestamps: seq<int>, cut: int, t: int)
    ensures multiset(Active(timestamps, cut))[t] == if t > cut then multiset(timestamps)[t] else 0
  {
    if timestamps != [] {
      var n := |timestamps| - 1;
      ActiveMembers(timestamps[..n], cut, t);
      assert timestamps == timestamps[..n] + [timestamps[n]];
    }
  }

  /** The limiter keeps the timestamps of the last 60 seconds, and gains one exactly when a swap is
      approved; no other agent's limiter is touched. */
  lemma LimiterAfter(p: Proposal, s: PolicyState, now: int, recordedAt: int, t: int)
    ensures var id, after := p.profile.agentId, NextState(p, s, now, recordedAt).rateLimiters;
            var recorded := Verdict(p, s, now).approved && p.decision.action == "SWAP" && t == recordedAt;
            var kept := if id in s.rateLimiters && t > now - 60_000 then multiset(s.rateLimiters[id])[t] else 0;
            && id in after
            && multiset(after[id])[t] == kept + (if recorded then 1 else 0)
            && after - {id} == s.rateLimiters - {id}
  {
    ActiveMembers(Limiter(s, p.profile.agentId), now - 60_000, t);
    AppendedMembers(Purged(p, s, now), recordedAt, t);
  }

  lemma AppendedMembers(xs: seq<int>, x: int, t: int)
    ensures multiset(xs + [x])[t] == multiset(xs)[t] + (if t == x then 1 else 0)
  {
  }

  /** A reset opens the latch and forgets the high of an agent that has one, and nothing else. */
  lemma ResetOpensTheLatch(s: PolicyState, agentId: string)
    ensures var after := ResetState(s, agentId);
            && after.rateLimiters == s.rateLimiters
            && after.stopLossStates.Keys == s.stopLossStates.Keys
            && (agentId in s.stopLossStates ==>
                  after.stopLossStates[agentId].sessionHighUsd == 0.0 && !after.stopLossStates[agentId].restricted)
            && after.stopLossStates - {agentId} == s.stopLossStates - {agentId}
  {
  }
}
