/** The volume executed on the chain, as against the volume logged. A transaction whose confirmation fails
    may have taken effect all the same, and a confirmed one is never logged when the balance cannot be
    read afterwards: both are executed beyond what the daily cap counts. */
module ExecutedVolume {
  import opened Results
  import opened AuditLog
  import opened ProofService
  import opened AgentCycle
  import opened ControlPlane
  import Broadcast

  // ----- What a cycle sends and records -----------------------------------------------------------------

  /** A transaction handed to the network, and the amount it swaps. */
  datatype Sent = Sent(submission: Broadcast.Submission, amount: real)

  function SentBy(act: Action): seq<Sent> {
    if act.Submits? then
      seq(|act.submissions|, i requires 0 <= i < |act.submissions| => Sent(act.submissions[i], act.amount))
    else []
  }

  /** Everything the actions hand to the network, in order. */
  function SentIn(t: seq<Action>): seq<Sent> {
    if t == [] then [] else SentIn(t[..|t| - 1]) + SentBy(t[|t| - 1])
  }

  /** The instants that count. */
  type Window = int -> bool

  function Always(): Window { (t: int) => true }

  function Since(start: int): Window { (t: int) => start <= t }

  /** The volumes of a cycle: of everything submitted, of what was confirmed, of what was not, of what took
      effect on the chain, of what did so unconfirmed, and of what was logged; of confirmed swaps that will
      never be logged, and of those still awaiting it. */
  datatype Account = Submitted | Confirmed | Unconfirmed | Executed | Stray | Logged | Lost | Awaiting

  predicate Lands(s: Broadcast.Submission, during: Window) { s.landedAt.Some? && during(s.landedAt.value) }

  predicate CountsAs(s: Broadcast.Submission, acc: Account, during: Window) {
    match acc
    case Submitted => true
    case Confirmed => s.confirmed && Lands(s, during)
    case Unconfirmed => !s.confirmed
    case Executed => Lands(s, during)
    case Stray => !s.confirmed && Lands(s, during)
    case _ => false
  }

  function Total(s: seq<Sent>, acc: Account, during: Window): real {
    if s == [] then 0.0
    else
      var last := s[|s| - 1];
      Total(s[..|s| - 1], acc, during) + if CountsAs(last.submission, acc, during) then last.amount else 0.0
  }

  /** A confirmation in the log says when it was noted. */
  predicate Timed(data: map<string, DataValue>) {
    "amountIn" in data && data["amountIn"].Num? && "timestamp" in data && data["timestamp"].Num?
  }

  function RecordedBy(act: Action, during: Window): real {
    if IsConfirmed(act) && Timed(act.data) && during(act.data["timestamp"].n.Floor) then act.data["amountIn"].n else 0.0
  }

  function RecordedIn(t: seq<Action>, during: Window): real {
    if t == [] then 0.0 else RecordedIn(t[..|t| - 1], during) + RecordedBy(t[|t| - 1], during)
  }

  ghost predicate IsRecorded(t: seq<Action>) { exists act :: act in t && IsConfirmed(act) }

  ghost function Holds(c: Cycle, acc: Account, during: Window): real {
    match acc
    case Logged => RecordedIn(c.trace, during)
    case Lost =>
      if c.phase.Done? && !IsRecorded(c.trace) then Total(SentIn(c.trace), Confirmed, during) else 0.0
    case Awaiting => if c.phase.AwaitUpdatedBalance? then Total(SentIn(c.trace), Confirmed, during) else 0.0
    case _ => Total(SentIn(c.trace), acc, during)
  }

  lemma {:induction false} SentConcat(t: seq<Action>, u: seq<Action>)
    ensures SentIn(t + u) == SentIn(t) + SentIn(u)
  {
    if u == [] {
      assert t + u == t;
    } else {
      var front, last := u[..|u| - 1], u[|u| - 1];
      assert (t + u)[..|t + u| - 1] == t + front;
      SentConcat(t, front);
      assert SentIn(t + u) == (SentIn(t) + SentIn(front)) + SentBy(last) == SentIn(t) + (SentIn(front) + SentBy(last));
    }
  }

  lemma {:induction false} InConcat(t: seq<Action>, u: seq<Action>, during: Window)
    ensures SentIn(t + u) == SentIn(t) + SentIn(u)
    ensures RecordedIn(t + u, during) == RecordedIn(t, during) + RecordedIn(u, during)
  {
    SentConcat(t, u);
    if u == [] {
      assert t + u == t;
    } else {
      assert (t + u)[..|t + u| - 1] == t + u[..|u| - 1];
      InConcat(t, u[..|u| - 1], during);
    }
  }

  predicate Unsent(t: seq<Action>) { forall act | act in t :: !act.Submits? && !IsConfirmed(act) }

  lemma {:induction false} InUnsent(t: seq<Action>, during: Window)
    requires Unsent(t)
    ensures SentIn(t) == [] && RecordedIn(t, during) == 0.0 && !IsRecorded(t)
  {
    if t != [] {
      assert t[|t| - 1] in t && forall act | act in t[..|t| - 1] :: act in t;
      InUnsent(t[..|t| - 1], during);
    }
  }

  lemma InOne(act: Action, during: Window)
    ensures SentIn([act]) == SentBy(act) && RecordedIn([act], during) == RecordedBy(act, during)
  {
    assert [act][..0] == [];
  }

  /** Actions of which only one matters. */
  lemma InAround(t: seq<Action>, act: Action, u: seq<Action>, during: Window)
    requires Unsent(t) && Unsent(u)
    ensures SentIn(t + [act] + u) == SentBy(act) && RecordedIn(t + [act] + u, during) == RecordedBy(act, during)
    ensures IsRecorded(t + [act] + u) <==> IsConfirmed(act)
  {
    InConcat(t, [act], during);
    InConcat(t + [act], u, during);
    InUnsent(t, during);
    InUnsent(u, during);
    InOne(act, during);
    assert act in t + [act] + u;
  }

  // ----- The ledger of a cycle --------------------------------------------------------------------------

  /** What a cycle's swap submitted, for which amount, how it was confirmed, and whether that was logged. */
  datatype Ledger = Ledger(submissions: seq<Broadcast.Submission>, amount: real, confirmation: Option<Confirmation>,
                           recorded: bool)

  const NOTHING: Ledger := Ledger([], 0.0, None, false)

  ghost function LedgerOf(c: Cycle, hash: ProofPayload -> string): Ledger
    requires Inv(c, hash)
  {
    match c.phase
    case AwaitUpdatedBalance(p, conf) =>
      Ledger(c.trace[|c.trace| - 4].submissions, p.decision.amount, Some(conf), false)
    case Done =>
      var sh := ShapeOf(c, hash);
      if !sh.Swapped? then NOTHING
      else
        var m := sh.aftermath;
        Ledger(m.submissions, sh.payload.decision.amount, if m.SwapThrew? then None else Some(m.confirmation),
            m.Recorded?)
    case _ => NOTHING
  }

  /** The trace shows exactly what the ledger says. */
  ghost predicate Shows(t: seq<Action>, l: Ledger, during: Window) {
    && SentIn(t) == SentBy(Submits(l.amount, l.submissions)) && (IsRecorded(t) <==> l.recorded)
    && (l.recorded ==> l.confirmation.Some?)
    && RecordedIn(t, during) == (if l.recorded && during(l.confirmation.value.confirmedAt) then l.amount else 0.0)
  }

  lemma QuietIsUnsent(t: seq<Action>)
    requires Quiet(t)
    ensures Unsent(t)
  {
  }

  lemma ShowsNothing(t: seq<Action>, during: Window)
    requires Unsent(t)
    ensures Shows(t, NOTHING, during)
  {
    InUnsent(t, during);
  }

  /** The part of a trace from the swap call on. */
  lemma ShowsAftermath(m: Aftermath, p: ProofPayload, hash: ProofPayload -> string, during: Window)
    requires !m.SwapThrew? ==> Confirms(m.confirmation, p)
    ensures Shows(Settling(m, p, hash),
                Ledger([], p.decision.amount, if m.SwapThrew? then None else Some(m.confirmation), m.Recorded?), during)
  {
    if m.Recorded? {
      var logged := Log("TX_CONFIRMED", TxData(p, m.confirmation, hash(p)));
      var before := Announced(m.confirmation) + [Emit(BalanceUpdate)];
      assert Settling(m, p, hash) == before + [logged] + [Emit(CycleComplete)];
      InAround(before, logged, [Emit(CycleComplete)], during);
      RecordedByLog(p, m.confirmation, hash(p), during);
    } else {
      InUnsent(Settling(m, p, hash), during);
    }
  }

  lemma RecordedByLog(p: ProofPayload, conf: Confirmation, hash: string, during: Window)
    ensures RecordedBy(Log("TX_CONFIRMED", TxData(p, conf, hash)), during)
        == if during(conf.confirmedAt) then conf.amount else 0.0
  {
    assert (conf.confirmedAt as real).Floor == conf.confirmedAt;
  }

  lemma ShowsSwapped(sh: Shape, hash: ProofPayload -> string, during: Window)
    requires ShapeOk(sh, hash) && sh.Swapped?
    ensures var m := sh.aftermath;
            Shows(TraceOf(sh, hash),
                Ledger(m.submissions, sh.payload.decision.amount, if m.SwapThrew? then None else Some(m.confirmation),
                    m.Recorded?), during)
  {
    var m, call := sh.aftermath, sh.before + [CallSwap(sh.payload.decision)];
    var rest := Settling(m, sh.payload, hash);
    QuietIsUnsent(sh.before);
    ShowsAftermath(m, sh.payload, hash, during);
    var conf := if m.SwapThrew? then None else Some(m.confirmation);
    ShowsAll(call, m.submissions, rest, Ledger([], sh.payload.decision.amount, conf, m.Recorded?), during);
    assert TraceOf(sh, hash) == call + [Submits(sh.payload.decision.amount, m.submissions)] + rest;
  }

  lemma ShowsAll(before: seq<Action>, subs: seq<Broadcast.Submission>, rest: seq<Action>, l: Ledger, during: Window)
    requires Unsent(before) && Shows(rest, l, during) && l.submissions == []
    ensures Shows(before + [Submits(l.amount, subs)] + rest, l.(submissions := subs), during)
  {
    var sent := Submits(l.amount, subs);
    InAround(before, sent, [], during);
    assert before + [sent] + [] == before + [sent];
    InConcat(before + [sent], rest, during);
    if IsRecorded(rest) {
      var act :| act in rest && IsConfirmed(act);
      assert act in before + [sent] + rest;
    }
  }

  lemma ShowsUnswapped(sh: Shape, hash: ProofPayload -> string, during: Window)
    requires ShapeOk(sh, hash) && !sh.Swapped?
    ensures Shows(TraceOf(sh, hash), NOTHING, during)
  {
    QuietIsUnsent(sh.before);
    ShowsNothing(TraceOf(sh, hash), during);
  }

  lemma ShowsConfirmed(c: Cycle, hash: ProofPayload -> string, during: Window)
    requires Inv(c, hash) && c.phase.AwaitUpdatedBalance?
    ensures Shows(c.trace, LedgerOf(c, hash), during)
  {
    var t, n := c.trace, |c.trace|;
    QuietIsUnsent(t[..n - 5]);
    ShowsBroadcast(t[..n - 5], t[n - 5..], c.phase.payload, c.phase.confirmation, during);
    assert t[n - 4] == t[n - 5..][1] && t == t[..n - 5] + t[n - 5..];
  }

  lemma ShowsBroadcast(before: seq<Action>, t: seq<Action>, p: ProofPayload, conf: Confirmation, during: Window)
    requires Unsent(before) && Broadcasts(t, p, conf)
    ensures Shows(before + t, Ledger(t[1].submissions, p.decision.amount, Some(conf), false), during)
  {
    var call, announced := before + [t[0]], Announced(conf);
    assert before + t == call + [t[1]] + announced;
    InAround(call, t[1], announced, during);
  }

  /** A cycle submits at most two transactions, of which at most the last is confirmed, and logs at most
      that one: its trace shows what the ledger says. */
  lemma CycleShowsLedger(c: Cycle, hash: ProofPayload -> string, during: Window)
    requires Inv(c, hash)
    ensures Shows(c.trace, LedgerOf(c, hash), during)
    ensures Broadcast.Fits(LedgerOf(c, hash).submissions, LedgerOf(c, hash).confirmation)
    ensures |SentIn(c.trace)| <= 2
  {
    var t, n := c.trace, |c.trace|;
    if c.phase.Done? {
      var sh := ShapeOf(c, hash);
      if sh.Swapped? { ShowsSwapped(sh, hash, during); } else { ShowsUnswapped(sh, hash, during); }
    } else if c.phase.AwaitUpdatedBalance? {
      assert t[n - 4] == t[n - 5..][1];
      ShowsConfirmed(c, hash, during);
    } else {
      QuietIsUnsent(if c.phase.AwaitSwap? then t[..n - 1] else t);
      assert c.phase.AwaitSwap? ==> t == t[..n - 1] + [CallSwap(c.phase.payload.decision)];
      ShowsNothing(t, during);
    }
  }

  // ----- The accounts of a cycle ------------------------------------------------------------------------

  function Part(subs: seq<Broadcast.Submission>, k: nat, amount: real, acc: Account, during: Window): real {
    if k < |subs| && CountsAs(subs[k], acc, during) then amount else 0.0
  }

  lemma TotalOfTwo(subs: seq<Broadcast.Submission>, amount: real, acc: Account, during: Window)
    requires |subs| <= 2
    ensures Total(SentBy(Submits(amount, subs)), acc, during)
        == Part(subs, 0, amount, acc, during) + Part(subs, 1, amount, acc, during)
  {
    var s := SentBy(Submits(amount, subs));
    if |s| == 2 {
      assert s[..1] == [s[0]] && s[..1][..0] == [];
      assert Total(s[..1], acc, during) == 0.0 + Part(subs, 0, amount, acc, during);
    } else if |s| == 1 {
      assert s[..0] == [];
    }
  }

  lemma SentAccounts(s: seq<Sent>, l: Ledger, during: Window)
    requires s == SentBy(Submits(l.amount, l.submissions))
    requires Broadcast.Fits(l.submissions, l.confirmation) && l.amount >= 0.0
    ensures Total(s, Executed, during) == Total(s, Confirmed, during) + Total(s, Stray, during)
    ensures 0.0 <= Total(s, Stray, during) <= Total(s, Unconfirmed, during)
    ensures Total(s, Submitted, during) == Total(s, Confirmed, Always()) + Total(s, Unconfirmed, during)
    ensures 0.0 <= Total(s, Confirmed, during) <= l.amount && Total(s, Submitted, during) <= 2.0 * l.amount
  {
    TotalOfTwo(l.submissions, l.amount, Executed, during);
    TotalOfTwo(l.submissions, l.amount, Confirmed, during);
    TotalOfTwo(l.submissions, l.amount, Stray, during);
    TotalOfTwo(l.submissions, l.amount, Unconfirmed, during);
    TotalOfTwo(l.submissions, l.amount, Submitted, during);
    TotalOfTwo(l.submissions, l.amount, Confirmed, Always());
  }

  /** The whole amount is confirmed or none, and none since an instant after the confirmation. */
  lemma ConfirmedAccount(s: seq<Sent>, l: Ledger, start: int)
    requires s == SentBy(Submits(l.amount, l.submissions))
    requires Broadcast.Fits(l.submissions, l.confirmation) && l.amount >= 0.0
    ensures Total(s, Confirmed, Always()) == if l.confirmation.Some? then l.amount else 0.0
    ensures 0.0 <= Total(s, Confirmed, Since(start))
        <= if l.confirmation.Some? && start <= l.confirmation.value.confirmedAt then l.amount else 0.0
  {
    TotalOfTwo(l.submissions, l.amount, Confirmed, Always());
    TotalOfTwo(l.submissions, l.amount, Confirmed, Since(start));
  }

  /** The amounts a cycle submits for lie between 0 and the maximum. */
  predicate Bounded(t: seq<Action>, max: real) { forall act | act in t && act.Submits? :: 0.0 <= act.amount <= max }

  lemma LedgerBounded(c: Cycle, hash: ProofPayload -> string, max: real)
    requires Inv(c, hash) && Bounded(c.trace, max) && 0.0 <= max
    ensures 0.0 <= LedgerOf(c, hash).amount <= max
  {
    var t, n := c.trace, |c.trace|;
    if c.phase.Done? && ShapeOf(c, hash).Swapped? {
      var sh := ShapeOf(c, hash);
      assert t[|sh.before| + 1] == Submits(sh.payload.decision.amount, sh.aftermath.submissions);
      assert t[|sh.before| + 1] in t;
    } else if c.phase.AwaitUpdatedBalance? {
      assert t[n - 4] == t[n - 5..][1] && t[n - 4] in t;
    }
  }

  /** Executed is confirmed plus stray, stray is at most unconfirmed, and submitted is confirmed plus
      unconfirmed. */
  ghost predicate SentAddsUp(c: Cycle, during: Window) {
    && Holds(c, Executed, during) == Holds(c, Confirmed, during) + Holds(c, Stray, during)
    && 0.0 <= Holds(c, Stray, during) <= Holds(c, Unconfirmed, during)
    && Holds(c, Submitted, during) == Holds(c, Confirmed, Always()) + Holds(c, Unconfirmed, during)
  }

  /** What is confirmed is logged, lost or awaited; since an instant, at most that. */
  ghost predicate ConfirmedAddsUp(c: Cycle, start: int) {
    && Holds(c, Confirmed, Always())
        == Holds(c, Logged, Always()) + Holds(c, Lost, Always()) + Holds(c, Awaiting, Always())
    && Holds(c, Confirmed, Since(start))
        <= Holds(c, Logged, Since(start)) + Holds(c, Lost, Since(start)) + Holds(c, Awaiting, Since(start))
  }

  lemma CycleSentAddsUp(c: Cycle, hash: ProofPayload -> string, max: real, during: Window)
    requires Inv(c, hash) && Bounded(c.trace, max) && 0.0 <= max
    ensures SentAddsUp(c, during)
    ensures 0.0 <= Holds(c, Confirmed, during) <= max && Holds(c, Submitted, during) <= 2.0 * max
  {
    LedgerBounded(c, hash, max);
    CycleShowsLedger(c, hash, during);
    SentAccounts(SentIn(c.trace), LedgerOf(c, hash), during);
  }

  /** Where the confirmation of a cycle's swap stands. */
  lemma ConfirmationStands(c: Cycle, hash: ProofPayload -> string)
    requires Inv(c, hash)
    ensures var l := LedgerOf(c, hash);
            && (l.recorded ==> c.phase.Done? && l.confirmation.Some?)
            && (!c.phase.Done? && !c.phase.AwaitUpdatedBalance? ==> l == NOTHING)
            && (c.phase.AwaitUpdatedBalance? ==> l.amount == c.phase.payload.decision.amount && !l.recorded)
  {
  }

  lemma CycleConfirmedAddsUp(c: Cycle, hash: ProofPayload -> string, max: real, start: int)
    requires Inv(c, hash) && Bounded(c.trace, max) && 0.0 <= max
    ensures ConfirmedAddsUp(c, start)
  {
    var l := LedgerOf(c, hash);
    LedgerBounded(c, hash, max);
    CycleShowsLedger(c, hash, Always());
    CycleShowsLedger(c, hash, Since(start));
    ShowsConfirmation(c.trace, l, start);
    if l.confirmation.Some? { ConfirmationIsSomewhere(c, hash); } else { ConfirmationStands(c, hash); }
    ThenAddsUp(c, l, start);
  }

  lemma ThenAddsUp(c: Cycle, l: Ledger, start: int)
    requires l.recorded ==> l.confirmation.Some? && c.phase.Done? && IsRecorded(c.trace)
    requires l.confirmation.Some? ==>
               if c.phase.Done? then l.recorded <==> IsRecorded(c.trace) else c.phase.AwaitUpdatedBalance?
    requires l.recorded ==> Total(SentIn(c.trace), Confirmed, Always()) == RecordedIn(c.trace, Always())
    requires l.recorded ==> Total(SentIn(c.trace), Confirmed, Since(start)) <= RecordedIn(c.trace, Since(start))
    requires !l.recorded ==> RecordedIn(c.trace, Always()) == RecordedIn(c.trace, Since(start)) == 0.0
    requires l.confirmation.None? ==>
               Total(SentIn(c.trace), Confirmed, Always()) == Total(SentIn(c.trace), Confirmed, Since(start)) == 0.0
    ensures ConfirmedAddsUp(c, start)
  {
  }

  /** What a trace shows of its confirmation. */
  lemma ShowsConfirmation(t: seq<Action>, l: Ledger, start: int)
    requires Shows(t, l, Always()) && Shows(t, l, Since(start))
    requires Broadcast.Fits(l.submissions, l.confirmation) && l.amount >= 0.0
    ensures l.recorded ==> Total(SentIn(t), Confirmed, Always()) == RecordedIn(t, Always())
    ensures l.recorded ==> Total(SentIn(t), Confirmed, Since(start)) <= RecordedIn(t, Since(start))
    ensures !l.recorded ==> RecordedIn(t, Always()) == RecordedIn(t, Since(start)) == 0.0
    ensures l.confirmation.None? ==>
              Total(SentIn(t), Confirmed, Always()) == Total(SentIn(t), Confirmed, Since(start)) == 0.0
  {
    ConfirmedAccount(SentIn(t), l, start);
  }

  /** A confirmed swap that is neither logged nor lost is awaited. */
  lemma ConfirmationIsSomewhere(c: Cycle, hash: ProofPayload -> string)
    requires Inv(c, hash) && LedgerOf(c, hash).confirmation.Some?
    ensures if c.phase.Done? then LedgerOf(c, hash).recorded <==> IsRecorded(c.trace) else c.phase.AwaitUpdatedBalance?
    ensures LedgerOf(c, hash).recorded ==> c.phase.Done? && IsRecorded(c.trace)
  {
    CycleShowsLedger(c, hash, Always());
    ConfirmationStands(c, hash);
  }

  lemma AwaitedIsPending(c: Cycle, hash: ProofPayload -> string, max: real, start: int)
    requires Inv(c, hash) && Bounded(c.trace, max) && 0.0 <= max
    requires InFlight(c) ==> 0.0 <= c.phase.payload.decision.amount
    ensures Holds(c, Awaiting, Since(start)) <= Pending(c, c.agentId)
  {
    if c.phase.AwaitUpdatedBalance? {
      LedgerBounded(c, hash, max);
      ConfirmationStands(c, hash);
      CycleShowsLedger(c, hash, Since(start));
      ConfirmedAccount(SentIn(c.trace), LedgerOf(c, hash), start);
    }
  }

  // ----- The accounts of an agent -----------------------------------------------------------------------

  /** An account over all cycles of an agent. */
  ghost function Sum(cs: seq<Cycle>, a: string, acc: Account, during: Window): real {
    if cs == [] then 0.0 else Sum(cs[..|cs| - 1], a, acc, during) + Of(cs[|cs| - 1], a, acc, during)
  }

  ghost function Of(c: Cycle, a: string, acc: Account, during: Window): real {
    if c.agentId == a then Holds(c, acc, during) else 0.0
  }

  ghost predicate SumAddsUp(cs: seq<Cycle>, a: string, during: Window, start: int) {
    && Sum(cs, a, Executed, during) == Sum(cs, a, Confirmed, during) + Sum(cs, a, Stray, during)
    && 0.0 <= Sum(cs, a, Stray, during) <= Sum(cs, a, Unconfirmed, during)
    && Sum(cs, a, Submitted, during) == Sum(cs, a, Confirmed, Always()) + Sum(cs, a, Unconfirmed, during)
    && Sum(cs, a, Confirmed, Always())
        == Sum(cs, a, Logged, Always()) + Sum(cs, a, Lost, Always()) + Sum(cs, a, Awaiting, Always())
    && Sum(cs, a, Confirmed, Since(start))
        <= Sum(cs, a, Logged, Since(start)) + Sum(cs, a, Lost, Since(start)) + Sum(cs, a, Awaiting, Since(start))
    && Sum(cs, a, Awaiting, Since(start)) <= PendingSum(cs, a)
  }

  ghost predicate CycleOk(c: Cycle, setup: Setup) {
    var p := setup.profiles(c.agentId);
    ProfileOk(p) && Inv(c, setup.hash) && CycleBounds(c, p) && Bounded(c.trace, p.maxTxAmountSol)
  }

  lemma {:induction false} CyclesAddUp(cs: seq<Cycle>, a: string, during: Window, start: int, setup: Setup)
    requires forall c | c in cs :: CycleOk(c, setup)
    ensures SumAddsUp(cs, a, during, start)
  {
    if cs != [] {
      var c := cs[|cs| - 1];
      assert c in cs && forall d | d in cs[..|cs| - 1] :: d in cs;
      CyclesAddUp(cs[..|cs| - 1], a, during, start, setup);
      OneAddsUp(c, during, start, setup);
    }
  }

  lemma OneAddsUp(c: Cycle, during: Window, start: int, setup: Setup)
    requires CycleOk(c, setup)
    ensures SentAddsUp(c, during) && ConfirmedAddsUp(c, start)
    ensures Holds(c, Awaiting, Since(start)) <= Pending(c, c.agentId)
  {
    var max := setup.profiles(c.agentId).maxTxAmountSol;
    CycleSentAddsUp(c, setup.hash, max, during);
    CycleConfirmedAddsUp(c, setup.hash, max, start);
    AwaitedIsPending(c, setup.hash, max, start);
  }

  lemma {:induction false} SumUpdate(cs: seq<Cycle>, i: nat, c: Cycle, a: string, acc: Account, during: Window)
    requires i < |cs|
    ensures Sum(cs[i := c], a, acc, during)
        == Sum(cs, a, acc, during) - Of(cs[i], a, acc, during) + Of(c, a, acc, during)
  {
    var n := |cs| - 1;
    if i == n {
      assert cs[i := c][..n] == cs[..n];
    } else {
      assert cs[i := c][..n] == cs[..n][i := c];
      SumUpdate(cs[..n], i, c, a, acc, during);
    }
  }

  // ----- The accounts and the log -----------------------------------------------------------------------

  /** No confirmation was logged before it was noted. */
  ghost predicate StampedInOrder(log: seq<AuditEntry>) {
    forall e | e in log && e.event == "TX_CONFIRMED" && Timed(e.data) :: e.data["timestamp"].n.Floor <= e.ts
  }

  ghost predicate LoggedSince(log: seq<AuditEntry>, start: int) { forall e | e in log :: start <= e.ts }

  predicate Telling(acts: seq<Action>) { forall act | act in acts && IsConfirmed(act) :: Timed(act.data) }

  /** What an action adds to the volume, against what it records. */
  ghost predicate Tells(es: seq<AuditEntry>, acts: seq<Action>, own: bool, at: int, a: string, start: int) {
    && (StampedInOrder(es) ==> Volume(es, a, start) >= if own then RecordedIn(acts, Since(start)) else 0.0)
    && (start <= at ==> Volume(es, a, start) == if own then RecordedIn(acts, Always()) else 0.0)
  }

  lemma EntryTells(c: Cycle, act: Action, at: int, a: string, start: int)
    requires (IsConfirmed(act) ==> Timed(act.data)) && AmountsNonNegative(EntryOf(c, act, at))
    ensures Tells(EntryOf(c, act, at), [act], c.agentId == a, at, a, start)
  {
    InOne(act, Since(start));
    InOne(act, Always());
    if act.Log? {
      var e := AuditEntry(at, c.agentId, c.number, act.name, act.data);
      VolumeOfOne(e, a, start);
      assert EntryOf(c, act, at) == [e] && e in [e];
    }
  }

  /** The entries of actions, against what the actions record. */
  lemma {:induction false} EntriesTell(c: Cycle, acts: seq<Action>, at: int, a: string, start: int)
    requires Telling(acts) && AmountsNonNegative(Entries(c, acts, at))
    ensures Tells(Entries(c, acts, at), acts, c.agentId == a, at, a, start)
  {
    if acts != [] {
      var front, last := acts[..|acts| - 1], acts[|acts| - 1];
      var es, more := Entries(c, front, at), EntryOf(c, last, at);
      assert last in acts && acts == front + [last] && Entries(c, acts, at) == es + more;
      EntriesTell(c, front, at, a, start);
      EntryTells(c, last, at, a, start);
      TellsBoth(es, more, front, [last], c.agentId == a, at, a, start);
    }
  }

  lemma TellsBoth(es: seq<AuditEntry>, more: seq<AuditEntry>, acts: seq<Action>, rest: seq<Action>, own: bool, at: int,
      a: string, start: int)
    requires Tells(es, acts, own, at, a, start) && Tells(more, rest, own, at, a, start)
    ensures Tells(es + more, acts + rest, own, at, a, start)
  {
    VolumeConcat(es, more, a, start);
    InConcat(acts, rest, Since(start));
    InConcat(acts, rest, Always());
    assert (forall e | e in es :: e in es + more) && forall e | e in more :: e in es + more;
  }

  /** The log holds what the cycles have logged: since an instant, at least; if it has nothing older,
      exactly. */
  ghost predicate LogTells(w: World, a: string, start: int) {
    && (StampedInOrder(w.log) ==> Volume(w.log, a, start) >= Sum(w.cycles, a, Logged, Since(start)))
    && (LoggedSince(w.log, start) ==> Volume(w.log, a, start) == Sum(w.cycles, a, Logged, Always()))
  }

  lemma StepTells(w: World, s: Step, setup: Setup, a: string, start: int)
    requires WorldInv(w, setup) && SetupOk(setup) && Enabled(w, s) && LogTells(w, a, start)
    ensures LogTells(After(w, s, setup), a, start)
  {
    if s.Advance? {
      AdvanceTells(w, s.index, s.input, s.clock, setup, a, start);
    } else if s.LogOther? {
      OtherEntryTells(w, s.entry, a, start);
    } else if s.Begin? {
      var c := Start(s.agentId, s.number);
      InUnsent(c.trace, Since(start));
      InUnsent(c.trace, Always());
      assert (w.cycles + [c])[..|w.cycles|] == w.cycles;
    }
  }

  lemma OtherEntryTells(w: World, e: AuditEntry, a: string, start: int)
    requires LogTells(w, a, start) && e.event != "TX_CONFIRMED"
    ensures LogTells(w.(log := w.log + [e]), a, start)
  {
    VolumeConcat(w.log, [e], a, start);
    VolumeOfOne(e, a, start);
    assert forall x | x in w.log :: x in w.log + [e];
  }

  lemma AdvanceTells(w: World, index: nat, input: Input, k: Clock, setup: Setup, a: string, start: int)
    requires WorldInv(w, setup) && SetupOk(setup) && Enabled(w, Advance(index, input, k)) && LogTells(w, a, start)
    ensures LogTells(After(w, Advance(index, input, k), setup), a, start)
  {
    var c, d := w.cycles[index], Stepped(w, index, input, k, setup).cycle;
    var s := Around(w, c, k, setup);
    StepVolumes(w, index, input, k, setup, a);
    StepIsTelling(c, input, s);
    StepExtends(c, input, s);
    EntriesTell(c, NewActions(c, d), k.loggedAt, a, start);
    LogGrows(w, After(w, Advance(index, input, k), setup), index, d, k.loggedAt, a, start);
  }

  /** A logged confirmation says when it was noted. */
  lemma StepIsTelling(c: Cycle, i: Input, s: Surroundings)
    requires Expects(c.phase, i)
    ensures c.trace <= Resume(c, i, s).cycle.trace && Telling(NewActions(c, Resume(c, i, s).cycle))
  {
    StepExtends(c, i, s);
    if c.phase.AwaitUpdatedBalance? && i.balance.Returned? {
      ConfirmationActions(c, i, s);
    } else {
      StepLogs(c, i, s);
    }
  }

  /** A cycle goes on, and its new actions are logged. */
  lemma LogGrows(w: World, w': World, index: nat, d: Cycle, at: int, a: string, start: int)
    requires LogTells(w, a, start) && index < |w.cycles| && w'.cycles == w.cycles[index := d]
    requires w.cycles[index].trace <= d.trace && w.cycles[index].agentId == d.agentId
    requires w'.log == w.log + Entries(w.cycles[index], NewActions(w.cycles[index], d), at)
    requires var c := w.cycles[index];
             Tells(Entries(c, NewActions(c, d), at), NewActions(c, d), c.agentId == a, at, a, start)
    ensures LogTells(w', a, start)
  {
    var c := w.cycles[index];
    var acts := NewActions(c, d);
    var es := Entries(c, acts, at);
    VolumeConcat(w.log, es, a, start);
    LoggedGrows(w.cycles, index, d, a, Since(start));
    LoggedGrows(w.cycles, index, d, a, Always());
    EntriesAt(c, acts, at);
    assert forall e | e in w.log :: e in w'.log;
    assert forall e | e in es :: e in w'.log;
  }

  lemma LoggedGrows(cs: seq<Cycle>, index: nat, d: Cycle, a: string, during: Window)
    requires index < |cs| && cs[index].trace <= d.trace && cs[index].agentId == d.agentId
    ensures Sum(cs[index := d], a, Logged, during)
        == Sum(cs, a, Logged, during)
           + (if d.agentId == a then RecordedIn(NewActions(cs[index], d), during) else 0.0)
  {
    assert d.trace == cs[index].trace + NewActions(cs[index], d);
    InConcat(cs[index].trace, NewActions(cs[index], d), during);
    SumUpdate(cs, index, d, a, Logged, during);
  }

  lemma {:induction false} EntriesAt(c: Cycle, acts: seq<Action>, at: int)
    ensures forall e | e in Entries(c, acts, at) :: e.ts == at
    ensures Entries(c, acts, at) == [] ==> RecordedIn(acts, Always()) == 0.0
  {
    if acts != [] { EntriesAt(c, acts[..|acts| - 1], at); }
  }
}
