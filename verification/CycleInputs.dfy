/** What a cycle makes of the answers it receives: the data it passes on, its prescan, its ways to end, and
    the record of its swap. */
module CycleInputs {
  import opened Results
  import opened Policy
  import opened AuditLog
  import opened PriceOracle
  import opened ProofService
  import Broadcast
  import opened AgentCycle
  import opened AgentCycleLaws
  import opened ControlPlane

  // ----- The data passed on ----------------------------------------------------------------------------

  /** The answers so far are prices, and a quote when one was asked for; `pd` combines them. */
  predicate Fetched(ins: seq<Input>, pd: PriceData) {
    || ins == [PricesArrive(Returned(pd))]
    || (|ins| == 2 && pd.quote.Some? && ins[1] == QuoteArrives(Returned(pd.quote.value)) && ins[0].PricesArrive?
        && ins[0].prices.Returned? && pd == ins[0].prices.value.(quote := pd.quote))
  }

  /** Then came a balance, and a decision. */
  predicate Thought(ins: seq<Input>, pd: PriceData, balance: Balance, d: Decision) {
    var n := |ins|;
    && n >= 2 && Fetched(ins[..n - 2], pd) && ins[n - 2] == BalanceArrives(Returned(balance))
    && ins[n - 1] == StrategistAnswers(Returned(Decided(d)))
  }

  /** Which answers have led to a phase that still waits for the guardian's. */
  ghost predicate Fed(ins: seq<Input>, phase: Phase) {
    var n := |ins|;
    match phase
    case AwaitPrices => ins == []
    case AwaitPrescan(pd) => ins == [PricesArrive(Returned(pd))]
    case AwaitBalance(pd) => Fetched(ins, pd)
    case AwaitStrategist(pd, balance) =>
      n >= 1 && Fetched(ins[..n - 1], pd) && ins[n - 1] == BalanceArrives(Returned(balance))
    case AwaitRequote(pd, balance, d) => Thought(ins, pd, balance, d)
    case AwaitGuardian(pd, balance, d) =>
      || Thought(ins, pd, balance, d)
      || (n >= 1 && d.action == "SWAP" && pd.quote.Some? && ins[n - 1] == QuoteArrives(Returned(pd.quote.value))
          && exists before: Option<Quote> :: Thought(ins[..n - 1], pd.(quote := before), balance, d))
    case _ => true
  }

  lemma FedStep(ins: seq<Input>, c: Cycle, i: Input, s: Surroundings)
    requires Expects(c.phase, i) && Fed(ins, c.phase)
    requires c.phase.AwaitRequote? ==> c.phase.decision.action == "SWAP"
    ensures Fed(ins + [i], Resume(c, i, s).cycle.phase)
    ensures Resume(c, i, s).cycle.phase.AwaitRequote? ==> Resume(c, i, s).cycle.phase.decision.action == "SWAP"
  {
    assert (ins + [i])[..|ins|] == ins;
    match c.phase
    case AwaitStrategist(pd, balance) =>
      if i.strategist.Returned? && i.strategist.value.Decided? {
        assert (ins + [i])[..|ins| - 1] == ins[..|ins| - 1];
      }
    case AwaitRequote(pd, balance, d) =>
      if i.quote.Returned? {
        var quoted := pd.(quote := Some(i.quote.value));
        assert Thought(ins, quoted.(quote := pd.quote), balance, d);
      }
    case AwaitGuardian(_, _, _) => GuardianPhases(c, i, s);
    case _ =>
  }

  function Inputs(ms: seq<Moment>): seq<Input> {
    if ms == [] then [] else Inputs(ms[..|ms| - 1]) + [ms[|ms| - 1].input]
  }

  /** The guardian judges, on every run of a cycle, exactly what the price service, the wallet and the
      strategist answered, with the second quote in the place of the first when one was asked for. */
  lemma {:induction false} AnswersArePassedOn(agentId: string, number: nat, ms: seq<Moment>,
      hash: ProofPayload -> string)
    requires ValidRun(agentId, number, ms, hash)
    ensures var c := CycleAfter(agentId, number, ms, hash);
            Fed(Inputs(ms), c.phase) && c.agentId == agentId && c.number == number
            && (c.phase.AwaitRequote? ==> c.phase.decision.action == "SWAP")
  {
    if ms != [] {
      var front := ms[..|ms| - 1];
      AnswersArePassedOn(agentId, number, front, hash);
      StepExtends(CycleAfter(agentId, number, front, hash), ms[|ms| - 1].input, ms[|ms| - 1].at);
      FedStep(Inputs(front), CycleAfter(agentId, number, front, hash), ms[|ms| - 1].input, ms[|ms| - 1].at);
    }
  }

  // ----- The prescan ---------------------------------------------------------------------------------------

  /** The prescan quotes 0.1 of the candidate at the rotation index, taken modulo the number of candidates;
      the index moves on by one and wraps around. Without candidates it stays and nothing is quoted. */
  lemma PrescanStep(c: Cycle, pd: PriceData, s: Surroundings)
    requires c.phase.AwaitPrices? && WithSpreads(pd)
    ensures var r, cs := Resume(c, PricesArrive(Returned(pd)), s), CandidatesOf(pd.spreads);
            && (cs == [] ==> r.rotation == s.rotation && r.cycle.trace == c.trace + [Emit(PriceFetched(pd))])
            && (cs != [] ==>
                  var rank := s.rotation % |cs|;
                  && r.rotation == (if rank + 1 == |cs| then 0 else rank + 1)
                  && r.cycle.trace == c.trace + [Log("PRESCAN_PAIR", map["rotationIndex" := Num(rank as real)]),
                                                 CallQuote(cs[rank].from, cs[rank].to, 0.1)])
  {
    if CandidatesOf(pd.spreads) != [] { NextIndexCases(s.rotation, |CandidatesOf(pd.spreads)|); }
  }

  /** No other step moves the rotation index or touches the engine, except that the engine is asked when the
      guardian's verdict is no veto. */
  lemma OtherStateKept(c: Cycle, i: Input, s: Surroundings)
    requires Expects(c.phase, i)
    ensures !c.phase.AwaitPrices? ==> Resume(c, i, s).rotation == s.rotation
    ensures Resume(c, i, s).engine == s.engine
        || (c.phase.AwaitGuardian? && i.guardian.Returned? && i.guardian.value.Audited?
            && i.guardian.value.audit.verdict != "VETO")
  {
  }

  // ----- How a cycle ends without a swap -----------------------------------------------------------------------

  /** Whether an answer is an exception. */
  predicate Throws(i: Input) {
    match i
    case PricesArrive(r) => r.Threw?
    case QuoteArrives(r) => r.Threw?
    case BalanceArrives(r) => r.Threw?
    case StrategistAnswers(r) => r.Threw?
    case GuardianAnswers(r) => r.Threw?
    case MemoConfirmed(r) => r.Threw?
    case SwapSettles(_, _, _) => false
  }

  /** Any exception before the swap ends the cycle with CYCLE_ERROR; nothing else of it remains. */
  lemma ExceptionsEndTheCycle(c: Cycle, i: Input, s: Surroundings)
    requires Expects(c.phase, i) && Throws(i) && !c.phase.AwaitUpdatedBalance?
    ensures var r := Resume(c, i, s);
            && r.cycle.phase.Done? && r.engine == s.engine && r.rotation == s.rotation
            && r.cycle.trace == c.trace + [Log("CYCLE_ERROR", map[]), Emit(CycleComplete)]
  {
  }

  /** An unusable strategist's reply, a veto, and an unusable guardian's reply, which counts as a veto, end the
      cycle without asking the engine. */
  lemma VetoesEndTheCycle(c: Cycle, i: Input, s: Surroundings)
    requires Expects(c.phase, i)
    requires || i == StrategistAnswers(Returned(ParseFailed))
             || (i.GuardianAnswers? && i.guardian.Returned? && i.guardian.value.SafetyVeto?)
             || (i.GuardianAnswers? && i.guardian.Returned? && i.guardian.value.audit.verdict == "VETO")
    ensures var r := Resume(c, i, s);
            && r.cycle.phase.Done? && r.engine == s.engine && r.rotation == s.rotation
            && (i.StrategistAnswers? ==>
                  r.cycle.trace == c.trace + [Emit(LlmParseError), Log("LLM_PARSE_ERROR", map[]), Emit(CycleComplete)])
            && (i.GuardianAnswers? && i.guardian.value.SafetyVeto? ==>
                  var veto := GuardianAudit("VETO", i.guardian.value.error, None);
                  r.cycle.trace == c.trace + [Emit(GuardianVerdict(veto)),
                                              Log("GUARDIAN_SAFETY_VETO", map[]), Emit(CycleComplete)])
            && (i.GuardianAnswers? && i.guardian.value.Audited? ==>
                  r.cycle.trace == c.trace + [Emit(GuardianVerdict(i.guardian.value.audit)),
                                              Log("GUARDIAN_AUDIT", map[]), Emit(CycleComplete)])
  {
  }

  /** Once the memo is confirmed, the hash is announced and logged and the swap of the anchored decision called. */
  lemma MemoLeadsToSwap(c: Cycle, i: Input, s: Surroundings)
    requires c.phase.AwaitAnchor? && i.MemoConfirmed? && i.signature.Returned?
    ensures var p, r := c.phase.payload, Resume(c, i, s);
            && r.cycle.phase == AwaitSwap(p) && r.engine == s.engine
            && r.cycle.trace == c.trace + [Emit(ProofAnchored(s.hash(p))),
                                           Log("PROOF_ANCHORED", map["hash" := Str(s.hash(p))]), Emit(TxSigning),
                                           CallSwap(p.decision)]
  {
  }

  // ----- How a swap ends -------------------------------------------------------------------------------------

  /** The first position at which the text of a part can stand is after a prefix without its first letter. */
  lemma PrefixHidesNothing(prefix: string, s: string, part: string)
    requires part != "" && part[0] !in prefix
    ensures Includes(prefix + s, part) <==> Includes(s, part)
  {
    var whole := prefix + s;
    if i :| 0 <= i <= |whole| && OccursAt(whole, part, i) {
      assert whole[i] == whole[i..i + |part|][0] == part[0];
      assert i >= |prefix|;
      assert s[i - |prefix|..i - |prefix| + |part|] == whole[i..i + |part|];
      assert OccursAt(s, part, i - |prefix|);
    }
    if i :| 0 <= i <= |s| && OccursAt(s, part, i) {
      assert whole[|prefix| + i..|prefix| + i + |part|] == s[i..i + |part|];
      assert OccursAt(whole, part, |prefix| + i);
    }
  }

  /** Both attempts of a swap failed. */
  predicate BothFail(i: Input) { i.SwapSettles? && i.first.Throws? && i.second.Throws? }

  predicate MissesTableAt(e: string, k: nat) { k + 28 <= |e| && e[k..k + 28] == "Failed to fetch lookup table" }

  /** A swap both of whose attempts fail is logged as skipped exactly when the second attempt's error
      contains the lookup table message, and otherwise announced and logged as failed; either way the cycle
      ends and nothing is confirmed. */
  lemma FailedSwapEnds(c: Cycle, i: Input, s: Surroundings)
    requires c.phase.AwaitSwap? && BothFail(i)
    ensures var e, r := i.second.error, Resume(c, i, s).cycle;
            var sent := Submits(c.phase.payload.decision.amount, SwapSubmissions(i));
            var skipped := exists k: nat :: MissesTableAt(e, k);
            && r.phase.Done?
            && (skipped ==> r.trace == c.trace + [sent, Log("DEVNET_ALT_SKIP", map[]), Emit(CycleComplete)])
            && (!skipped ==>
                  r.trace == c.trace + [sent, Emit(TxFailed), Log("TX_FAILED", map[]), Emit(CycleComplete)])
  {
    var e := i.second.error;
    var d := c.phase.payload.decision;
    Broadcast.OutcomeRepeatsTheDecision(d, Attempts(i), i.confirmedAt);
    assert Attempts(i)(0) == i.first && Attempts(i)(1) == i.second;
    assert 'F' !in Broadcast.SWAP_FAILED;
    PrefixHidesNothing(Broadcast.SWAP_FAILED, e, LOOKUP_TABLE_ERROR);
    IncludesTable(e);
  }

  lemma IncludesTable(e: string)
    ensures Includes(e, LOOKUP_TABLE_ERROR) <==> exists k: nat :: MissesTableAt(e, k)
  {
    assert |LOOKUP_TABLE_ERROR| == 28;
    if k: nat :| MissesTableAt(e, k) { assert OccursAt(e, LOOKUP_TABLE_ERROR, k); }
    if k :| 0 <= k <= |e| && OccursAt(e, LOOKUP_TABLE_ERROR, k) { assert MissesTableAt(e, k); }
  }

  /** The attempt that is confirmed, if one is. */
  predicate Confirmed(i: Input, a: Broadcast.Attempt) {
    i.SwapSettles? && a.Confirms? && (a == i.first || (i.first.Throws? && a == i.second))
  }

  /** A swap with a confirmed attempt is announced with that attempt's signature and output. */
  lemma ConfirmedSwapAnnounced(c: Cycle, i: Input, s: Surroundings, a: Broadcast.Attempt)
    requires c.phase.AwaitSwap? && Confirmed(i, a)
    ensures var r, p := Resume(c, i, s).cycle, c.phase.payload;
            && r.phase.AwaitUpdatedBalance? && r.phase.payload == p
            && DescribesSwap(r.phase.confirmation, p.decision, a, i.confirmedAt)
            && r.trace == c.trace + [Submits(p.decision.amount, SwapSubmissions(i)), Emit(KoraSigned),
                                     Emit(TxSubmitted), Emit(TxConfirmed(r.phase.confirmation))]
  {
    Broadcast.OutcomeRepeatsTheDecision(c.phase.payload.decision, Attempts(i), i.confirmedAt);
    assert Attempts(i)(0) == i.first && Attempts(i)(1) == i.second;
  }

  /** The confirmation names the decision's tokens and amount, and the signature, the time and the output
      of the attempt. */
  predicate DescribesSwap(conf: Confirmation, d: Decision, a: Broadcast.Attempt, at: int) {
    && a.Confirms? && conf.signature == a.signature && conf.confirmedAt == at
    && conf.fromToken == d.fromToken && conf.toToken == d.toToken && conf.amount == d.amount
    && (conf.output.Some? <==> d.toToken in {"SOL", "USDC", "RAY", "BONK"})
    && (d.toToken == "SOL" ==> conf.output.value * 1000000000.0 == a.outAmount as real)
    && (d.toToken in {"USDC", "RAY"} ==> conf.output.value * 1000000.0 == a.outAmount as real)
    && (d.toToken == "BONK" ==> conf.output.value * 100000.0 == a.outAmount as real)
  }

  // ----- The record of a swap ----------------------------------------------------------------------------------

  /** The last two answers before the end: the swap's attempts and the balance read after it. */
  lemma ConfirmedPhase(c: Cycle, i: Input, s: Surroundings)
    requires Expects(c.phase, i) && Resume(c, i, s).cycle.phase.AwaitUpdatedBalance?
    ensures c.phase.AwaitSwap? && exists a :: Confirmed(i, a)
    ensures Resume(c, i, s).cycle.phase.payload == c.phase.payload
  {
    if c.phase.AwaitGuardian? { GuardianPhases(c, i, s); }
    Broadcast.OutcomeRepeatsTheDecision(c.phase.payload.decision, Attempts(i), i.confirmedAt);
    assert Attempts(i)(0) == i.first && Attempts(i)(1) == i.second;
    if i.first.Confirms? { assert Confirmed(i, i.first); } else { assert Confirmed(i, i.second); }
  }

  /** A settled cycle's record, in terms of the attempt that was confirmed. */
  predicate RecordsSwap(data: map<string, DataValue>, d: Decision, a: Broadcast.Attempt, at: int, proof: string) {
    && a.Confirms?
    && data.Keys == {"signature", "fromToken", "toToken", "amountIn", "amountOut", "timestamp", "proofHash"}
    && data["signature"] == Str(a.signature) && data["timestamp"] == Num(at as real) && data["proofHash"] == Str(proof)
    && data["fromToken"] == Str(d.fromToken) && data["toToken"] == Str(d.toToken) && data["amountIn"] == Num(d.amount)
    && (data["amountOut"].Num? <==> d.toToken in {"SOL", "USDC", "RAY", "BONK"})
    && (d.toToken == "SOL" ==> data["amountOut"].n * 1000000000.0 == a.outAmount as real)
    && (d.toToken in {"USDC", "RAY"} ==> data["amountOut"].n * 1000000.0 == a.outAmount as real)
    && (d.toToken == "BONK" ==> data["amountOut"].n * 100000.0 == a.outAmount as real)
  }

  lemma TxDataRecords(p: ProofPayload, conf: Confirmation, a: Broadcast.Attempt, at: int, proof: string)
    requires DescribesSwap(conf, p.decision, a, at)
    ensures RecordsSwap(TxData(p, conf, proof), p.decision, a, at, proof)
  {
  }

  /** The step that logs a confirmation, and what it had been waiting for. */
  lemma LoggingStep(c: Cycle, i: Input, s: Surroundings, k: nat)
    requires Expects(c.phase, i) && Inv(c, s.hash)
    requires var t := Resume(c, i, s).cycle.trace; k < |t| && t[k].Log? && t[k].name == "TX_CONFIRMED"
    ensures c.phase.AwaitUpdatedBalance? && i.balance.Returned?
    ensures Resume(c, i, s).cycle.trace[k]
        == Log("TX_CONFIRMED", TxData(c.phase.payload, c.phase.confirmation, s.hash(c.phase.payload)))
  {
    StepExtends(c, i, s);
    if k < |c.trace| { SettlementAt(c, s.hash, k); }
    var acts := NewActions(c, Resume(c, i, s).cycle);
    assert acts[k - |c.trace|] in acts;
    if !(c.phase.AwaitUpdatedBalance? && i.balance.Returned?) {
      OthersLogNoConfirmation(c, i, s, acts[k - |c.trace|]);
    } else {
      ConfirmationActions(c, i, s);
    }
  }

  lemma OthersLogNoConfirmation(c: Cycle, i: Input, s: Surroundings, act: Action)
    requires Expects(c.phase, i) && !(c.phase.AwaitUpdatedBalance? && i.balance.Returned?)
    ensures c.trace <= Resume(c, i, s).cycle.trace
    ensures act in NewActions(c, Resume(c, i, s).cycle) ==> !(act.Log? && act.name == "TX_CONFIRMED")
  {
    StepLogs(c, i, s);
  }

  predicate RecordedAs(t: seq<Action>, k: nat, i: Input, p: ProofPayload, a: Broadcast.Attempt,
      hash: ProofPayload -> string)
  {
    && k < |t| && t[k].Log? && Confirmed(i, a) && CallSwap(p.decision) in t
    && RecordsSwap(t[k].data, p.decision, a, i.confirmedAt, hash(p))
  }

  ghost predicate RecordsAttempt(t: seq<Action>, k: nat, i: Input, hash: ProofPayload -> string) {
    exists p: ProofPayload, a: Broadcast.Attempt :: RecordedAs(t, k, i, p, a, hash)
  }

  /** On every run of a cycle, a logged confirmation describes the attempt that the last swap answer
      confirmed: its signature, its time, and its output in whole tokens, next to the tokens and the amount
      of the decision that was swapped and the hash of the payload that was anchored for it. */
  lemma RecordsComeFromTheChain(agentId: string, number: nat, ms: seq<Moment>, hash: ProofPayload -> string, k: nat)
    requires ValidRun(agentId, number, ms, hash)
    requires var t := CycleAfter(agentId, number, ms, hash).trace;
             k < |t| && t[k].Log? && t[k].name == "TX_CONFIRMED"
    ensures |ms| >= 2
    ensures RecordsAttempt(CycleAfter(agentId, number, ms, hash).trace, k, ms[|ms| - 2].input, hash)
  {
    var front, last := ms[..|ms| - 1], ms[|ms| - 1];
    var c, d := CycleAfter(agentId, number, front, hash), CycleAfter(agentId, number, ms, hash);
    RunInv(agentId, number, front, hash);
    LoggingStep(c, last.input, last.at, k);
    StepExtends(c, last.input, last.at);
    var before, settled := front[..|front| - 1], front[|front| - 1];
    assert settled == ms[|ms| - 2];
    var b := CycleAfter(agentId, number, before, hash);
    ConfirmedPhase(b, settled.input, settled.at);
    var a :| Confirmed(settled.input, a);
    ConfirmedSwapAnnounced(b, settled.input, settled.at, a);
    TxDataRecords(c.phase.payload, c.phase.confirmation, a, settled.input.confirmedAt, hash(c.phase.payload));
    SwapCalled(c, hash);
    assert CallSwap(c.phase.payload.decision) in d.trace;
    assert RecordedAs(d.trace, k, settled.input, c.phase.payload, a, hash);
  }

  lemma SwapCalled(c: Cycle, hash: ProofPayload -> string)
    requires Inv(c, hash) && c.phase.AwaitUpdatedBalance?
    ensures CallSwap(c.phase.payload.decision) in c.trace
  {
    assert c.trace[|c.trace| - 5] == c.trace[|c.trace| - 5..][0];
  }
}
