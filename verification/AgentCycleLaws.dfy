/** What the invariant of a cycle's trace means: over whole cycles, and for swaps, settlements, records and
    completions. */
module AgentCycleLaws {
  import opened AuditLog
  import opened ProofService
  import opened AgentCycle

  // ----- Whole cycles -----------------------------------------------------------------------------------------

  datatype Moment = Moment(input: Input, at: Surroundings)

  /** A run of one cycle: at every moment the awaited input arrives, in surroundings that other cycles
      and other agents may have changed arbitrarily since the last moment. */
  ghost predicate ValidRun(agentId: string, number: nat, ms: seq<Moment>, hash: ProofPayload -> string)
    decreases |ms|, 0
  {
    ms == [] ||
    var front := ms[..|ms| - 1];
    && ValidRun(agentId, number, front, hash)
    && ms[|ms| - 1].at.hash == hash
    && Expects(CycleAfter(agentId, number, front, hash).phase, ms[|ms| - 1].input)
  }

  ghost function CycleAfter(agentId: string, number: nat, ms: seq<Moment>, hash: ProofPayload -> string): Cycle
    requires ValidRun(agentId, number, ms, hash)
    decreases |ms|, 1
  {
    if ms == [] then Start(agentId, number)
    else Resume(CycleAfter(agentId, number, ms[..|ms| - 1], hash), ms[|ms| - 1].input, ms[|ms| - 1].at).cycle
  }

  lemma {:induction false} RunInv(agentId: string, number: nat, ms: seq<Moment>, hash: ProofPayload -> string)
    requires ValidRun(agentId, number, ms, hash)
    ensures Inv(CycleAfter(agentId, number, ms, hash), hash)
  {
    if ms == [] {
      StartInv(agentId, number, hash);
    } else {
      RunInv(agentId, number, ms[..|ms| - 1], hash);
      StepInv(CycleAfter(agentId, number, ms[..|ms| - 1], hash), ms[|ms| - 1].input, ms[|ms| - 1].at);
    }
  }

  function StepsLeft(phase: Phase): nat {
    match phase
    case AwaitPrices => 9 case AwaitPrescan(_) => 8 case AwaitBalance(_) => 7 case AwaitStrategist(_, _) => 6
    case AwaitRequote(_, _, _) => 5 case AwaitGuardian(_, _, _) => 4 case AwaitAnchor(_) => 3 case AwaitSwap(_) => 2
    case AwaitUpdatedBalance(_, _) => 1 case Done => 0
  }

  lemma StepProgress(c: Cycle, i: Input, s: Surroundings)
    requires Expects(c.phase, i)
    ensures StepsLeft(Resume(c, i, s).cycle.phase) < StepsLeft(c.phase)
  {
    if c.phase.AwaitGuardian? { GuardianPhases(c, i, s); }
  }

  /** A cycle ends after at most nine answers. */
  lemma {:induction false} CyclesEnd(agentId: string, number: nat, ms: seq<Moment>, hash: ProofPayload -> string)
    requires ValidRun(agentId, number, ms, hash)
    ensures |ms| + StepsLeft(CycleAfter(agentId, number, ms, hash).phase) <= 9
  {
    if ms != [] {
      CyclesEnd(agentId, number, ms[..|ms| - 1], hash);
      StepProgress(CycleAfter(agentId, number, ms[..|ms| - 1], hash), ms[|ms| - 1].input, ms[|ms| - 1].at);
    }
  }

  // ----- What the invariant means -------------------------------------------------------------------------------

  lemma QuietPrefix(t: seq<Action>, m: nat, k: nat)
    requires k < m <= |t| && Quiet(t[..m])
    ensures !IsLate(t[k])
  {
    assert t[..m][k] in t[..m];
  }

  /** The trace of a running cycle, action by action. */
  lemma RunningTraceAt(c: Cycle, hash: ProofPayload -> string, k: nat)
    requires Inv(c, hash) && !c.phase.Done? && k < |c.trace|
    ensures !IsSettlement(c.trace[k]) && !IsEnd(c.trace[k]) && c.trace[k] != Emit(TxFailed)
    ensures c.trace[k].CallSwap? <==>
            (c.phase.AwaitSwap? && k == |c.trace| - 1) || (c.phase.AwaitUpdatedBalance? && k == |c.trace| - 5)
  {
    var n := |c.trace|;
    if c.phase.AwaitSwap? {
      if k < n - 1 { QuietPrefix(c.trace, n - 1, k); }
    } else if c.phase.AwaitUpdatedBalance? {
      if k < n - 5 {
        QuietPrefix(c.trace, n - 5, k);
      } else {
        assert c.trace[k] == c.trace[n - 5..][k - (n - 5)];
        assert k >= n - 3 ==> c.trace[k] == Announced(c.phase.confirmation)[k - (n - 3)];
      }
    } else {
      assert c.trace[..n] == c.trace;
      QuietPrefix(c.trace, n, k);
    }
  }

  /** The trace of a finished cycle, action by action. */
  lemma FinishedTraceAt(sh: Shape, hash: ProofPayload -> string, k: nat)
    requires ShapeOk(sh, hash) && k < |TraceOf(sh, hash)|
    ensures var t := TraceOf(sh, hash);
            var b := |sh.before|;
            && (k < b ==> t[k] == sh.before[k] && !IsLate(t[k]))
            && (sh.NoSwap? && k >= b ==> k == b == |t| - 1 && IsEnd(t[k]))
            && (sh.Held? ==> |t| == b + 4)
            && (sh.Held? && k >= b ==> t[k] == HeldActions(sh.result)[k - b])
            && (sh.Swapped? ==> |t| >= b + 3 && t[b] == CallSwap(sh.payload.decision))
            && (sh.Swapped? && k > b ==>
                  !t[k].CallSwap? && (IsSettlement(t[k]) <==> k == |t| - 2) && (IsEnd(t[k]) <==> k == |t| - 1))
            && (sh.Swapped? && k >= b ==> !IsHoldPass(t[k]))
  {
    var t := TraceOf(sh, hash);
    var b := |sh.before|;
    if sh.Swapped? { SwappedTraceAt(sh, hash, k); }
    if k < b {
      assert t[..b] == sh.before;
      QuietPrefix(t, b, k);
    }
  }

  lemma SwappedTraceAt(sh: Shape, hash: ProofPayload -> string, k: nat)
    requires sh.Swapped? && k < |TraceOf(sh, hash)|
    ensures var t := TraceOf(sh, hash);
            var b := |sh.before|;
            && |t| >= b + 4 && t[b] == CallSwap(sh.payload.decision)
            && (k > b ==> !t[k].CallSwap? && (IsSettlement(t[k]) <==> k == |t| - 2) && (IsEnd(t[k]) <==> k == |t| - 1))
            && (k >= b ==> !IsHoldPass(t[k]))
  {
    var b := |sh.before|;
    var rest := Settling(sh.aftermath, sh.payload, hash);
    assert |TraceOf(sh, hash)| == b + 2 + |rest|;
    SettlingAt(sh.aftermath, sh.payload, hash, if k > b + 1 then k - b - 2 else 0);
    if k > b + 1 { assert TraceOf(sh, hash)[k] == rest[k - b - 2]; }
  }

  /** The actions after the submissions, one by one. */
  lemma SettlingAt(m: Aftermath, p: ProofPayload, hash: ProofPayload -> string, k: nat)
    requires k < |Settling(m, p, hash)|
    ensures var t := Settling(m, p, hash);
            && |t| >= 2 && !t[k].CallSwap? && !IsHoldPass(t[k])
            && (IsSettlement(t[k]) <==> k == |t| - 2) && (IsEnd(t[k]) <==> k == |t| - 1)
  {
  }

  /** Where the swap call stands, and what licensed it. */
  ghost predicate Licensed(c: Cycle, hash: ProofPayload -> string, k: nat)
    requires k < |c.trace|
  {
    exists p: ProofPayload :: Anchored(c.trace[..k], p, hash) && c.trace[k] == CallSwap(p.decision)
        && p.decision.action == "SWAP"
  }

  lemma FinishedSwapCallAt(c: Cycle, hash: ProofPayload -> string, k: nat)
    requires Inv(c, hash) && c.phase.Done? && k < |c.trace| && c.trace[k].CallSwap?
    ensures ShapeOf(c, hash).Swapped? && k == |ShapeOf(c, hash).before| && Licensed(c, hash, k)
  {
    var sh := ShapeOf(c, hash);
    SwapCallOfShape(sh, hash, k);
    assert Anchored(c.trace[..k], sh.payload, hash) && c.trace[k] == CallSwap(sh.payload.decision);
  }

  lemma SwapCallOfShape(sh: Shape, hash: ProofPayload -> string, k: nat)
    requires ShapeOk(sh, hash) && k < |TraceOf(sh, hash)| && TraceOf(sh, hash)[k].CallSwap?
    ensures sh.Swapped? && k == |sh.before| && TraceOf(sh, hash)[..k] == sh.before
    ensures TraceOf(sh, hash)[k] == CallSwap(sh.payload.decision)
  {
    FinishedTraceAt(sh, hash, k);
  }

  lemma RunningSwapCallAt(c: Cycle, hash: ProofPayload -> string, k: nat)
    requires Inv(c, hash) && !c.phase.Done? && k < |c.trace| && c.trace[k].CallSwap?
    ensures k == |c.trace| - (if c.phase.AwaitSwap? then 1 else 5) && Licensed(c, hash, k)
  {
    RunningTraceAt(c, hash, k);
    assert Anchored(c.trace[..k], c.phase.payload, hash);
    if c.phase.AwaitUpdatedBalance? {
      assert c.trace[k] == c.trace[|c.trace| - 5..][0];
    }
  }

  lemma SwapCallAt(c: Cycle, hash: ProofPayload -> string, k: nat)
    requires Inv(c, hash) && k < |c.trace| && c.trace[k].CallSwap?
    ensures c.phase.Done? ==> ShapeOf(c, hash).Swapped? && k == |ShapeOf(c, hash).before|
    ensures !c.phase.Done? ==> k == |c.trace| - if c.phase.AwaitSwap? then 1 else 5
    ensures Licensed(c, hash, k)
  {
    if c.phase.Done? { FinishedSwapCallAt(c, hash, k); } else { RunningSwapCallAt(c, hash, k); }
  }

  /** At any moment of any cycle, a swap that has been executed is the only one, and it executed the
      strategist's decision, up to its amount, which drew no veto, passed all nine checks and had its
      hash anchored just before. */
  lemma SwapOnlyWhenLicensed(c: Cycle, hash: ProofPayload -> string, k: nat)
    requires Inv(c, hash) && k < |c.trace| && c.trace[k].CallSwap?
    ensures Proposed(c.trace[..k], c.trace[k].decision)
    ensures Licensed(c, hash, k)
    ensures forall j: nat | j < |c.trace| && c.trace[j].CallSwap? :: j == k
  {
    SwapCallAt(c, hash, k);
    var p: ProofPayload :| Anchored(c.trace[..k], p, hash) && c.trace[k] == CallSwap(p.decision);
    var t := c.trace[..k];
    assert t == t[..k - 3] + t[k - 3..];
    ProposedAppend(t[..k - 3], t[k - 3..], p.decision);
    forall j: nat | j < |c.trace| && c.trace[j].CallSwap? ensures j == k {
      SwapCallAt(c, hash, j);
    }
  }

  lemma SettlementAt(c: Cycle, hash: ProofPayload -> string, k: nat)
    requires Inv(c, hash) && k < |c.trace| && IsSettlement(c.trace[k])
    ensures c.phase.Done? && ShapeOf(c, hash).Swapped? && k == |c.trace| - 2
  {
    if !c.phase.Done? {
      RunningTraceAt(c, hash, k);
    } else {
      FinishedTraceAt(ShapeOf(c, hash), hash, k);
    }
  }

  /** At most one of TX_CONFIRMED, TX_FAILED and DEVNET_ALT_SKIP is logged per cycle, and a finished
      cycle has logged one exactly when it executed a swap. */
  lemma OneSettlementPerCycle(c: Cycle, hash: ProofPayload -> string)
    requires Inv(c, hash)
    ensures forall i: nat, j: nat | i < |c.trace| && j < |c.trace| && IsSettlement(c.trace[i])
        && IsSettlement(c.trace[j]) :: i == j
    ensures c.phase.Done? ==>
              ((exists i: nat :: i < |c.trace| && IsSettlement(c.trace[i])) <==>
                  (exists j: nat :: j < |c.trace| && c.trace[j].CallSwap?))
  {
    forall i: nat | i < |c.trace| && IsSettlement(c.trace[i])
      ensures c.phase.Done? && ShapeOf(c, hash).Swapped? && i == |c.trace| - 2
    {
      SettlementAt(c, hash, i);
    }
    forall j: nat | c.phase.Done? && j < |c.trace| && c.trace[j].CallSwap? ensures ShapeOf(c, hash).Swapped? {
      SwapCallAt(c, hash, j);
    }
    if c.phase.Done? && ShapeOf(c, hash).Swapped? {
      FinishedTraceAt(ShapeOf(c, hash), hash, 0);
      FinishedTraceAt(ShapeOf(c, hash), hash, |c.trace| - 2);
    }
  }

  /** The record of a swap of the payload's decision that was confirmed as `conf` says. */
  predicate IsRecordOf(a: Action, p: ProofPayload, conf: Confirmation, hash: ProofPayload -> string) {
    && a.Log? && "amountIn" in a.data && a.data["amountIn"] == Num(p.decision.amount)
    && "fromToken" in a.data && a.data["fromToken"] == Str(p.decision.fromToken)
    && "toToken" in a.data && a.data["toToken"] == Str(p.decision.toToken)
    && "amountOut" in a.data && (conf.output.Some? ==> a.data["amountOut"] == Num(conf.output.value))
    && (conf.output.None? ==> a.data["amountOut"] == Other)
    && "signature" in a.data && a.data["signature"] == Str(conf.signature)
    && "timestamp" in a.data && a.data["timestamp"] == Num(conf.confirmedAt as real)
    && "proofHash" in a.data && a.data["proofHash"] == Str(hash(p))
  }

  /** A logged confirmation carries the amount and the tokens of the decision that was swapped, the hash
      of the payload that licensed it, and the signature, the output and the time of the confirmation that
      was announced just before. */
  lemma RecordMatchesProof(c: Cycle, hash: ProofPayload -> string, k: nat)
    requires Inv(c, hash) && k < |c.trace| && c.trace[k].Log? && c.trace[k].name == "TX_CONFIRMED"
    ensures exists p: ProofPayload, m: nat, conf: Confirmation :: RecordedWith(c.trace, k, p, m, conf, hash)
  {
    SettlementAt(c, hash, k);
    RecordOfTrace(ShapeOf(c, hash), c.trace, k, hash);
  }

  /** The k-th action records the confirmation announced two actions before it, of the swap that the m-th
      action called for a payload anchored just before that. */
  predicate RecordedWith(t: seq<Action>, k: nat, p: ProofPayload, m: nat, conf: Confirmation,
      hash: ProofPayload -> string)
  {
    && m < k < |t| && Anchored(t[..m], p, hash) && t[m] == CallSwap(p.decision)
    && k >= 2 && t[k - 2] == Emit(TxConfirmed(conf)) && IsRecordOf(t[k], p, conf, hash)
  }

  lemma RecordOfTrace(sh: Shape, t: seq<Action>, k: nat, hash: ProofPayload -> string)
    requires ShapeOk(sh, hash) && sh.Swapped? && t == TraceOf(sh, hash) && k == |t| - 2
    requires t[k].Log? && t[k].name == "TX_CONFIRMED"
    ensures exists p: ProofPayload, m: nat, conf: Confirmation :: RecordedWith(t, k, p, m, conf, hash)
  {
    RecordOfShape(sh, t, hash);
    assert RecordedWith(t, k, sh.payload, |sh.before|, sh.aftermath.confirmation, hash);
  }

  lemma RecordOfShape(sh: Shape, t: seq<Action>, hash: ProofPayload -> string)
    requires ShapeOk(sh, hash) && sh.Swapped? && t == TraceOf(sh, hash)
    requires |t| >= 2 && t[|t| - 2].Log? && t[|t| - 2].name == "TX_CONFIRMED"
    ensures sh.aftermath.Recorded?
    ensures RecordedWith(t, |t| - 2, sh.payload, |sh.before|, sh.aftermath.confirmation, hash)
  {
    FinishedTraceAt(sh, hash, |t| - 2);
    assert t[..|sh.before|] == sh.before;
    SettlementIsRecord(sh, hash);
  }

  lemma SettlementIsRecord(sh: Shape, hash: ProofPayload -> string)
    requires ShapeOk(sh, hash) && sh.Swapped?
    ensures var t := TraceOf(sh, hash);
            |t| >= 4 && (t[|t| - 2].Log? && t[|t| - 2].name == "TX_CONFIRMED" ==>
                sh.aftermath.Recorded? && t[|t| - 4] == Emit(TxConfirmed(sh.aftermath.confirmation))
                    && IsRecordOf(t[|t| - 2], sh.payload, sh.aftermath.confirmation, hash))
  {
    LastButOne(sh, hash);
    if sh.aftermath.Recorded? {
      var rest := Settling(sh.aftermath, sh.payload, hash);
      assert TraceOf(sh, hash)[|TraceOf(sh, hash)| - 4] == rest[|rest| - 4];
    }
  }

  lemma LastButOne(sh: Shape, hash: ProofPayload -> string)
    requires ShapeOk(sh, hash) && sh.Swapped?
    ensures var t := TraceOf(sh, hash);
            |t| >= 2 && t[|t| - 2] == match sh.aftermath
              case SwapThrew(_, l) => if l then Log("DEVNET_ALT_SKIP", map[]) else Log("TX_FAILED", map[])
              case BalanceThrew(_, _, l) => if l then Log("DEVNET_ALT_SKIP", map[]) else Log("TX_FAILED", map[])
              case Recorded(_, conf) => Log("TX_CONFIRMED", TxData(sh.payload, conf, hash(sh.payload)))
  {
  }

  lemma FinishedEnds(sh: Shape, hash: ProofPayload -> string, k: nat)
    requires ShapeOk(sh, hash) && k < |TraceOf(sh, hash)|
    ensures var t := TraceOf(sh, hash);
            && (IsEnd(t[k]) <==> k == |t| - 1 || (sh.Held? && k == |t| - 2))
            && (IsHoldPass(t[k]) <==> sh.Held? && k == |t| - 4)
  {
    FinishedTraceAt(sh, hash, k);
  }

  /** Every finished cycle ends with `cycle_complete`. It emits it a second time, just before, exactly
      when the engine approved a decision that is not a swap, and never earlier; a running cycle has
      not emitted it. */
  lemma CompletionEndsCycle(c: Cycle, hash: ProofPayload -> string)
    requires Inv(c, hash)
    ensures c.phase.Done? ==> c.trace != [] && IsEnd(c.trace[|c.trace| - 1])
    ensures c.phase.Done? ==>
              (|c.trace| >= 2 && IsEnd(c.trace[|c.trace| - 2]) <==>
                  exists j: nat :: j < |c.trace| && IsHoldPass(c.trace[j]))
    ensures forall k: nat | k < |c.trace| && IsEnd(c.trace[k]) :: c.phase.Done? && k >= |c.trace| - 2
  {
    if c.phase.Done? {
      var sh := ShapeOf(c, hash);
      forall k: nat | k < |c.trace|
        ensures IsEnd(c.trace[k]) <==> k == |c.trace| - 1 || (sh.Held? && k == |c.trace| - 2)
        ensures IsHoldPass(c.trace[k]) <==> sh.Held? && k == |c.trace| - 4
      {
        FinishedEnds(sh, hash, k);
      }
      FinishedTraceAt(sh, hash, 0);
      if sh.Held? { assert IsHoldPass(c.trace[|c.trace| - 4]); }
    } else {
      forall k: nat | k < |c.trace| ensures !IsEnd(c.trace[k]) {
        RunningTraceAt(c, hash, k);
      }
    }
  }

  /** After a confirmed swap: the confirmation is logged exactly when the balance can be read again;
      otherwise a failure (or a skip) is logged although `TX_CONFIRMED` was emitted. */
  lemma ConfirmedButNotLogged(c: Cycle, i: Input, s: Surroundings)
    requires c.phase.AwaitUpdatedBalance? && Expects(c.phase, i) && Inv(c, s.hash)
    ensures var t := Resume(c, i, s).cycle.trace;
            && Emit(TxConfirmed(c.phase.confirmation)) in t
            && |t| >= 2 && IsSettlement(t[|t| - 2])
            && (t[|t| - 2].name == "TX_CONFIRMED" <==> i.balance.Returned?)
            && (t[|t| - 2].name == "TX_FAILED" <==> i.balance == Threw(false))
            && (Emit(TxFailed) in t <==> i.balance == Threw(false))
  {
    var t := Resume(c, i, s).cycle.trace;
    var n := |c.trace|;
    assert c.trace[n - 1] == c.trace[n - 5..][2..][2];
    assert t[n - 1] == c.trace[n - 1];
    forall k: nat | k < n ensures t[k] != Emit(TxFailed) {
      RunningTraceAt(c, s.hash, k);
    }
    if i.balance == Threw(false) {
      assert t[n] == Emit(TxFailed);
    }
  }
}
