/** What the paymaster's fee payer may lose in a transaction: the running total over its system
    instructions, with checked additions and saturating subtractions on 64-bit words. */
module FeeOutflow {
  import opened Results

  const U64_MAX: int := 0xFFFF_FFFF_FFFF_FFFF

  type u64 = x: int | 0 <= x <= U64_MAX

  type Pubkey = string

  datatype FeeError =
    | OutflowOverflow
    | OutflowTotalOverflow
    | TransferFeeOverflow
    | FeeOverflow
    | MarginOverflow
    | StrictPricingViolation
    | ConfigError
    | External(what: string)

  datatype SystemInstruction =
    | SystemTransfer(lamports: u64, sender: Pubkey, receiver: Pubkey)
    | SystemCreateAccount(lamports: u64, payer: Pubkey)
    | SystemWithdrawNonceAccount(lamports: u64, nonceAuthority: Pubkey, recipient: Pubkey)

  type Transfer = i: SystemInstruction | i.SystemTransfer? witness SystemTransfer(0, "", "")
  type Creation = i: SystemInstruction | i.SystemCreateAccount? witness SystemCreateAccount(0, "")
  type Withdrawal = i: SystemInstruction | i.SystemWithdrawNonceAccount? witness SystemWithdrawNonceAccount(0, "", "")

  /** The parsed instructions, grouped by kind; `splOutflow` is the lamport value of the SPL
      transfers, absent when the transaction has none. */
  datatype Parsed = Parsed(
    transfers: seq<Transfer>,
    creations: seq<Creation>,
    withdrawals: seq<Withdrawal>,
    splOutflow: Option<Result<u64, FeeError>>)

  // ----- Flows --------------------------------------------------------------------------------

  /** The instruction takes its lamports from the fee payer. */
  predicate Pays(i: SystemInstruction, feePayer: Pubkey) {
    match i
    case SystemTransfer(_, sender, _) => sender == feePayer
    case SystemCreateAccount(_, payer) => payer == feePayer
    case SystemWithdrawNonceAccount(_, authority, _) => authority == feePayer
  }

  /** The instruction hands its lamports to the fee payer. */
  predicate Receives(i: SystemInstruction, feePayer: Pubkey) {
    match i
    case SystemTransfer(_, _, receiver) => receiver == feePayer
    case SystemCreateAccount(_, _) => false
    case SystemWithdrawNonceAccount(_, _, recipient) => recipient == feePayer
  }

  function When(b: bool, x: int): seq<int> { if b then [x] else [] }

  /** What one instruction moves out of (positive) and into (negative) the fee payer's account; an
      instruction between the fee payer and itself does both, the outflow first. */
  function Flows(i: SystemInstruction, feePayer: Pubkey): seq<int> {
    var lamports: int := i.lamports;
    When(Pays(i, feePayer), lamports) + When(Receives(i, feePayer), -lamports)
  }

  function AllFlows(instructions: seq<SystemInstruction>, feePayer: Pubkey): seq<int> {
    if instructions == [] then []
    else AllFlows(instructions[..|instructions| - 1], feePayer) + Flows(instructions[|instructions| - 1], feePayer)
  }

  /** The flows of a transaction in processing order: transfers, then creations, then withdrawals. */
  function SolFlows(p: Parsed, feePayer: Pubkey): seq<int> {
    AllFlows(p.transfers, feePayer) + AllFlows(p.creations, feePayer) + AllFlows(p.withdrawals, feePayer)
  }

  function Sum(flows: seq<int>): int {
    if flows == [] then 0 else Sum(flows[..|flows| - 1]) + flows[|flows| - 1]
  }

  /** What flows out, with no credit for what flows in. */
  function Gross(flows: seq<int>): int {
    if flows == [] then 0 else Gross(flows[..|flows| - 1]) + Max(flows[|flows| - 1], 0)
  }

  /** The running total, were its additions unbounded. */
  function Level(flows: seq<int>): (level: int)
    ensures level >= 0
  {
    if flows == [] then 0 else Max(Level(flows[..|flows| - 1]) + flows[|flows| - 1], 0)
  }

  /** Every intermediate total fits in 64 bits. */
  ghost predicate Fits(flows: seq<int>) {
    forall j | 0 <= j <= |flows| :: Level(flows[..j]) <= U64_MAX
  }

  // ----- What the running total is ------------------------------------------------------------

  ghost predicate IsMaxSuffixSum(flows: seq<int>, total: int) {
    && (exists k | 0 <= k <= |flows| :: total == Sum(flows[k..]))
    && (forall k | 0 <= k <= |flows| :: Sum(flows[k..]) <= total)
  }

  lemma {:induction false} SumConcat(a: seq<int>, b: seq<int>)
    ensures Sum(a + b) == Sum(a) + Sum(b)
  {
    if b == [] {
      assert a + b == a;
    } else {
      assert (a + b)[..|a + b| - 1] == a + b[..|b| - 1];
      SumConcat(a, b[..|b| - 1]);
    }
  }

  /** Without overflow the fold computes the largest sum of a suffix of the flows. */
  lemma {:induction false} LevelIsMaxSuffixSum(flows: seq<int>)
    ensures IsMaxSuffixSum(flows, Level(flows))
  {
    if flows == [] {
      assert Level(flows) == Sum(flows[0..]);
    } else {
      var init, x := flows[..|flows| - 1], flows[|flows| - 1];
      LevelIsMaxSuffixSum(init);
      assert flows[|flows|..] == [];
      forall k | 0 <= k <= |init|
        ensures Sum(flows[k..]) == Sum(init[k..]) + x
      {
        assert flows[k..] == init[k..] + [x];
        assert (init[k..] + [x])[..|init[k..]|] == init[k..];
      }
      var k :| 0 <= k <= |init| && Level(init) == Sum(init[k..]);
      assert Level(flows) == Sum(flows[k..]) || Level(flows) == Sum(flows[|flows|..]);
    }
  }

  /** The total lies between the net loss and the gross outflow, and is never negative. */
  lemma {:induction false} LevelBetweenNetAndGross(flows: seq<int>)
    ensures Max(0, Sum(flows)) <= Level(flows) <= Gross(flows)
  {
    if flows != [] {
      LevelBetweenNetAndGross(flows[..|flows| - 1]);
    }
  }

  /** The total is the net loss exactly when at no point more had come in than gone out. */
  lemma {:induction false} LevelIsNetIff(flows: seq<int>)
    ensures Level(flows) == Sum(flows) <==> forall k | 0 <= k <= |flows| :: Sum(flows[..k]) >= 0
  {
    LevelIsMaxSuffixSum(flows);
    forall k | 0 <= k <= |flows|
      ensures Sum(flows) == Sum(flows[..k]) + Sum(flows[k..])
    {
      assert flows == flows[..k] + flows[k..];
      SumConcat(flows[..k], flows[k..]);
    }
    if forall k | 0 <= k <= |flows| :: Sum(flows[..k]) >= 0 {
      var k :| 0 <= k <= |flows| && Level(flows) == Sum(flows[k..]);
      assert Sum(flows[..k]) >= 0;
      assert flows[0..] == flows;
    }
  }

  /** Income that precedes every payment is never credited. */
  lemma {:induction false} EarlyIncomeIsIgnored(income: seq<int>, rest: seq<int>)
    requires forall x | x in income :: x <= 0
    ensures Level(income + rest) == Level(rest)
  {
    if rest != [] {
      assert (income + rest)[..|income + rest| - 1] == income + rest[..|rest| - 1];
      EarlyIncomeIsIgnored(income, rest[..|rest| - 1]);
    } else if income != [] {
      assert income + rest == income;
      var init := income[..|income| - 1];
      assert init + rest == init;
      assert forall x | x in init :: x in income;
      EarlyIncomeIsIgnored(init, rest);
      assert income[|income| - 1] in income;
    } else {
      assert income + rest == rest;
    }
  }

  // ----- When the fold overflows --------------------------------------------------------------

  /** Some run of consecutive flows adds up to more than a 64-bit word. */
  ghost predicate HasOverflowingRun(flows: seq<int>) {
    exists i, j | 0 <= i <= j <= |flows| :: Sum(flows[i..j]) > 0xFFFF_FFFF_FFFF_FFFF
  }

  /** An intermediate total fails to fit exactly when some contiguous run of flows does. */
  lemma FitsIff(flows: seq<int>)
    ensures Fits(flows) <==> !HasOverflowingRun(flows)
  {
    forall j | 0 <= j <= |flows|
      ensures Level(flows[..j]) > U64_MAX <==> exists i | 0 <= i <= j :: Sum(flows[i..j]) > U64_MAX
    {
      LevelIsMaxSuffixSum(flows[..j]);
      assert forall i | 0 <= i <= j :: flows[..j][i..] == flows[i..j];
    }
  }

  // ----- The fold -----------------------------------------------------------------------------

  /** `total.checked_add(x)` */
  function CheckedAdd(total: u64, x: u64): (r: Option<u64>)
    ensures r.Some? <==> total + x <= U64_MAX
  {
    if total + x <= U64_MAX then Some(total + x) else None
  }

  /** `total.saturating_sub(x)` */
  function SaturatingSub(total: u64, x: u64): u64 {
    if total >= x then total - x else 0
  }

  /** The running total on 64-bit words: an outflow is added with a check, an inflow subtracted down
      to zero at most. */
  function Next(total: Option<int>, x: int): Option<int> {
    if total.None? || total.value + x > U64_MAX then None else Some(Max(total.value + x, 0))
  }

  function Checked(flows: seq<int>): Option<int> {
    if flows == [] then Some(0) else Next(Checked(flows[..|flows| - 1]), flows[|flows| - 1])
  }

  lemma OneMore(flows: seq<int>, b: bool, x: int)
    ensures Checked(flows + When(b, x)) == if b then Next(Checked(flows), x) else Checked(flows)
  {
    if b {
      assert (flows + [x])[..|flows|] == flows;
    } else {
      assert flows + [] == flows;
    }
  }

  lemma {:induction false} CheckedIsLevel(flows: seq<int>)
    ensures Checked(flows) == if Fits(flows) then Some(Level(flows)) else None
  {
    if flows != [] {
      var init := flows[..|flows| - 1];
      CheckedIsLevel(init);
      assert flows[..|flows|] == flows;
      assert forall j | 0 <= j <= |init| :: init[..j] == flows[..j];
      assert Fits(flows) <==> Fits(init) && Level(flows) <= U64_MAX;
    }
  }

  /** One instruction's step of the fold. */
  function Account(total: u64, i: SystemInstruction, feePayer: Pubkey): Option<u64> {
    var paid := if Pays(i, feePayer) then CheckedAdd(total, i.lamports) else Some(total);
    if paid.Some? && Receives(i, feePayer) then Some(SaturatingSub(paid.value, i.lamports)) else paid
  }

  /** The account after one instruction, given the option of a total before it. */
  function AccountIf(before: Option<u64>, i: SystemInstruction, feePayer: Pubkey): Option<u64> {
    if before.None? then None else Account(before.value, i, feePayer)
  }

  /** The fold over the rest of the instructions, as the loops run it. */
  function Fold(before: Option<u64>, instructions: seq<SystemInstruction>, feePayer: Pubkey): Option<u64> {
    if instructions == [] then before
    else
      AccountIf(Fold(before, instructions[..|instructions| - 1], feePayer), instructions[|instructions| - 1], feePayer)
  }

  lemma FoldNext(before: Option<u64>, instructions: seq<SystemInstruction>, n: nat, feePayer: Pubkey)
    requires n < |instructions|
    ensures Fold(before, instructions[..n + 1], feePayer)
        == AccountIf(Fold(before, instructions[..n], feePayer), instructions[n], feePayer)
  {
    assert instructions[..n + 1][..n] == instructions[..n];
  }

  /** Once the fold has failed it stays failed. */
  lemma {:induction false} FoldFailed(before: Option<u64>, instructions: seq<SystemInstruction>, n: nat,
      feePayer: Pubkey)
    requires n <= |instructions| && Fold(before, instructions[..n], feePayer).None?
    ensures Fold(before, instructions, feePayer).None?
    decreases |instructions| - n
  {
    if n == |instructions| {
      assert instructions[..n] == instructions;
    } else {
      FoldNext(before, instructions, n, feePayer);
      FoldFailed(before, instructions, n + 1, feePayer);
    }
  }

  lemma AccountIsNext(total: u64, i: SystemInstruction, feePayer: Pubkey)
    ensures var lamports: int := i.lamports;
            var paid := if Pays(i, feePayer) then Next(Some(total), lamports) else Some(total);
            Account(total, i, feePayer) == if Receives(i, feePayer) then Next(paid, -lamports) else paid
  {
  }

  lemma Regroup(a: seq<int>, b: seq<int>, c: seq<int>)
    ensures a + (b + c) == a + b + c
  {
  }

  lemma OneInstruction(before: Option<u64>, seen: seq<int>, i: SystemInstruction, feePayer: Pubkey)
    requires before == Checked(seen)
    ensures Checked(seen + Flows(i, feePayer)) == AccountIf(before, i, feePayer)
  {
    var lamports: int := i.lamports;
    var out, back := When(Pays(i, feePayer), lamports), When(Receives(i, feePayer), -lamports);
    OneMore(seen, Pays(i, feePayer), lamports);
    OneMore(seen + out, Receives(i, feePayer), -lamports);
    Regroup(seen, out, back);
    if before.Some? { AccountIsNext(before.value, i, feePayer); }
  }

  /** The fold over instructions is the checked total of their flows. */
  lemma {:induction false} FoldIsChecked(seen: seq<int>, instructions: seq<SystemInstruction>, feePayer: Pubkey)
    ensures Fold(Checked(seen), instructions, feePayer) == Checked(seen + AllFlows(instructions, feePayer))
  {
    if instructions == [] {
      assert seen + AllFlows(instructions, feePayer) == seen;
    } else {
      var init, last := instructions[..|instructions| - 1], instructions[|instructions| - 1];
      var flows := AllFlows(init, feePayer);
      FoldIsChecked(seen, init, feePayer);
      OneInstruction(Fold(Checked(seen), init, feePayer), seen + flows, last, feePayer);
      Regroup(seen, flows, Flows(last, feePayer));
    }
  }

  /** The total over the system instructions; absent when an addition overflows. */
  function SolOutflow(feePayer: Pubkey, p: Parsed): Option<u64> {
    Fold(Fold(Fold(Some(0), p.transfers, feePayer), p.creations, feePayer), p.withdrawals, feePayer)
  }

  lemma SolOutflowIsChecked(feePayer: Pubkey, p: Parsed)
    ensures SolOutflow(feePayer, p) == Checked(SolFlows(p, feePayer))
  {
    var t, c := AllFlows(p.transfers, feePayer), AllFlows(p.creations, feePayer);
    FoldIsChecked([], p.transfers, feePayer);
    assert [] + t == t;
    FoldIsChecked(t, p.creations, feePayer);
    FoldIsChecked(t + c, p.withdrawals, feePayer);
  }

  function Outflow(feePayer: Pubkey, p: Parsed): Result<u64, FeeError> {
    match SolOutflow(feePayer, p)
    case None => Err(OutflowOverflow)
    case Some(total) => AddSpl(total, p.splOutflow)
  }

  function AddSpl(total: u64, splOutflow: Option<Result<u64, FeeError>>): Result<u64, FeeError> {
    match splOutflow
    case None => Ok(total)
    case Some(Err(e)) => Err(e)
    case Some(Ok(spl)) => if CheckedAdd(total, spl).Some? then Ok(total + spl) else Err(OutflowTotalOverflow)
  }

  // ----- The ledger of one account -------------------------------------------------------------

  /** What an instruction moves out of (positive) and into (negative) an account, read off its fields; a
      payment to itself counts as out first. */
  predicate Moves(i: SystemInstruction, key: Pubkey, flows: seq<int>) {
    match i
    case SystemTransfer(n, sender, receiver) => MovesBetween(n, sender, receiver, key, flows)
    case SystemCreateAccount(n, payer) => flows == if key == payer then [n] else []
    case SystemWithdrawNonceAccount(n, authority, recipient) => MovesBetween(n, authority, recipient, key, flows)
  }

  predicate MovesBetween(n: int, source: Pubkey, target: Pubkey, key: Pubkey, flows: seq<int>) {
    && (key == source && key == target ==> flows == [n, -n])
    && (key == source && key != target ==> flows == [n])
    && (key != source && key == target ==> flows == [-n])
    && (key != source && key != target ==> flows == [])
  }

  /** The flows of an account through a list of instructions, one instruction after the other. */
  ghost predicate Ledger(instructions: seq<SystemInstruction>, key: Pubkey, flows: seq<int>) {
    if instructions == [] then flows == []
    else exists cut | 0 <= cut <= |flows| ::
           && Ledger(instructions[..|instructions| - 1], key, flows[..cut])
           && Moves(instructions[|instructions| - 1], key, flows[cut..])
  }

  /** Transfers first, then creations, then withdrawals, whatever their order in the transaction. */
  function InProcessingOrder(p: Parsed): seq<SystemInstruction> {
    p.transfers + p.creations + p.withdrawals
  }

  lemma MovesAreFlows(i: SystemInstruction, key: Pubkey, flows: seq<int>)
    ensures Moves(i, key, flows) <==> flows == Flows(i, key)
  {
  }

  /** An account has exactly one ledger. */
  lemma {:induction false} LedgerIsFlows(instructions: seq<SystemInstruction>, key: Pubkey, flows: seq<int>)
    ensures Ledger(instructions, key, flows) <==> flows == AllFlows(instructions, key)
  {
    if instructions != [] {
      var init, last := instructions[..|instructions| - 1], instructions[|instructions| - 1];
      forall cut | 0 <= cut <= |flows|
        ensures Ledger(init, key, flows[..cut]) && Moves(last, key, flows[cut..])
            <==> flows[..cut] == AllFlows(init, key) && flows[cut..] == Flows(last, key)
      {
        LedgerIsFlows(init, key, flows[..cut]);
        MovesAreFlows(last, key, flows[cut..]);
      }
      CutAt(flows, AllFlows(init, key), Flows(last, key));
    }
  }

  lemma CutAt(flows: seq<int>, a: seq<int>, b: seq<int>)
    ensures flows == a + b <==> exists cut | 0 <= cut <= |flows| :: flows[..cut] == a && flows[cut..] == b
  {
    if flows == a + b {
      assert flows[..|a|] == a && flows[|a|..] == b;
    }
  }

  lemma {:induction false} FlowsConcat(a: seq<SystemInstruction>, b: seq<SystemInstruction>, key: Pubkey)
    ensures AllFlows(a + b, key) == AllFlows(a, key) + AllFlows(b, key)
  {
    if b == [] {
      assert a + b == a;
    } else {
      var n := |b| - 1;
      assert (a + b)[..|a + b| - 1] == a + b[..n] && (a + b)[|a + b| - 1] == b[n];
      FlowsConcat(a, b[..n], key);
      Regroup(AllFlows(a, key), AllFlows(b[..n], key), Flows(b[n], key));
    }
  }

  lemma LedgerOfParsed(p: Parsed, key: Pubkey, flows: seq<int>)
    ensures Ledger(InProcessingOrder(p), key, flows) <==> flows == SolFlows(p, key)
  {
    LedgerIsFlows(InProcessingOrder(p), key, flows);
    FlowsConcat(p.transfers + p.creations, p.withdrawals, key);
    FlowsConcat(p.transfers, p.creations, key);
  }

  /** What the lamports and the SPL transfers of a transaction come to. */
  ghost predicate IsOutflow(flows: seq<int>, splOutflow: Option<Result<u64, FeeError>>, r: Result<u64, FeeError>) {
    && (HasOverflowingRun(flows) ==> r == Err(OutflowOverflow))
    && (!HasOverflowingRun(flows) ==>
          match splOutflow
          case None => r.Ok? && IsMaxSuffixSum(flows, r.value)
          case Some(Err(e)) => r == Err(e)
          case Some(Ok(spl)) =>
            exists sol: nat :: IsMaxSuffixSum(flows, sol)
              && (if sol + spl <= 0xFFFF_FFFF_FFFF_FFFF then r == Ok(sol + spl) else r == Err(OutflowTotalOverflow)))
  }

  /** The fee payer's outflow: an error exactly when its ledger has an overflowing run; otherwise the
      ledger's largest suffix sum, plus the value of the SPL transfers if there are any. */
  lemma OutflowMeaning(feePayer: Pubkey, p: Parsed, ledger: seq<int>)
    requires Ledger(InProcessingOrder(p), feePayer, ledger)
    ensures IsOutflow(ledger, p.splOutflow, Outflow(feePayer, p))
  {
    LedgerOfParsed(p, feePayer, ledger);
    SolOutflowIsChecked(feePayer, p);
    CheckedIsLevel(ledger);
    FitsIff(ledger);
    LevelIsMaxSuffixSum(ledger);
  }

  /** What a ledger sums to: an account that neither pays nor is paid has an empty one, and of the two ends
      of a transfer one loses what the other gains. */
  lemma LedgerOfOne(i: SystemInstruction, key: Pubkey, flows: seq<int>)
    requires Moves(i, key, flows)
    ensures match i
            case SystemTransfer(n, sender, receiver) =>
              Sum(flows) == (if key == sender then n else 0) - (if key == receiver then n else 0)
            case SystemCreateAccount(n, payer) => Sum(flows) == if key == payer then n else 0
            case SystemWithdrawNonceAccount(n, authority, recipient) =>
              Sum(flows) == (if key == authority then n else 0) - (if key == recipient then n else 0)
  {
    var n: int := i.lamports;
    SumOfOne(n);
    SumOfOne(-n);
    assert [n, -n] == [n] + [-n];
    SumConcat([n], [-n]);
  }

  lemma SumOfOne(n: int)
    ensures Sum([n]) == n
  {
    assert [n][..0] == [];
  }

  lemma StaysFailed(instructions: seq<SystemInstruction>, feePayer: Pubkey)
    ensures Fold(None, instructions, feePayer).None?
  {
    FoldFailed(None, instructions, 0, feePayer);
  }

  method CalculateFeePayerOutflow(feePayer: Pubkey, p: Parsed) returns (r: Result<u64, FeeError>)
    ensures r == Outflow(feePayer, p)
    ensures forall ledger :: Ledger(InProcessingOrder(p), feePayer, ledger) ==> IsOutflow(ledger, p.splOutflow, r)
  {
    forall ledger | Ledger(InProcessingOrder(p), feePayer, ledger)
      ensures IsOutflow(ledger, p.splOutflow, Outflow(feePayer, p))
    {
      OutflowMeaning(feePayer, p, ledger);
    }
    var total: u64 := 0;
    for n := 0 to |p.transfers|
      invariant Fold(Some(0), p.transfers[..n], feePayer) == Some(total)
    {
      var i := p.transfers[n];
      FoldNext(Some(0), p.transfers, n, feePayer);
      if i.sender == feePayer {
        var sum := CheckedAdd(total, i.lamports);
        if sum.None? {
          FoldFailed(Some(0), p.transfers, n + 1, feePayer);
          StaysFailed(p.creations, feePayer);
          StaysFailed(p.withdrawals, feePayer);
          return Err(OutflowOverflow);
        }
        total := sum.value;
      }
      if i.receiver == feePayer {
        total := SaturatingSub(total, i.lamports);
      }
    }
    assert p.transfers[..|p.transfers|] == p.transfers;
    ghost var transfersTotal := total;
    for n := 0 to |p.creations|
      invariant Fold(Some(transfersTotal), p.creations[..n], feePayer) == Some(total)
    {
      var i := p.creations[n];
      FoldNext(Some(transfersTotal), p.creations, n, feePayer);
      if i.payer == feePayer {
        var sum := CheckedAdd(total, i.lamports);
        if sum.None? {
          FoldFailed(Some(transfersTotal), p.creations, n + 1, feePayer);
          StaysFailed(p.withdrawals, feePayer);
          return Err(OutflowOverflow);
        }
        total := sum.value;
      }
    }
    assert p.creations[..|p.creations|] == p.creations;
    ghost var creationsTotal := total;
    for n := 0 to |p.withdrawals|
      invariant Fold(Some(creationsTotal), p.withdrawals[..n], feePayer) == Some(total)
    {
      var i := p.withdrawals[n];
      FoldNext(Some(creationsTotal), p.withdrawals, n, feePayer);
      if i.nonceAuthority == feePayer {
        var sum := CheckedAdd(total, i.lamports);
        if sum.None? {
          FoldFailed(Some(creationsTotal), p.withdrawals, n + 1, feePayer);
          return Err(OutflowOverflow);
        }
        total := sum.value;
      }
      if i.recipient == feePayer {
        total := SaturatingSub(total, i.lamports);
      }
    }
    assert p.withdrawals[..|p.withdrawals|] == p.withdrawals;
    if p.splOutflow.None? { return Ok(total); }
    if p.splOutflow.value.Err? { return Err(p.splOutflow.value.error); }
    var sum := CheckedAdd(total, p.splOutflow.value.value);
    if sum.None? { return Err(OutflowTotalOverflow); }
    return Ok(sum.value);
  }

  /** A largest suffix sum is unique, so the property fixes the total. */
  lemma MaxSuffixSumIsUnique(flows: seq<int>, total: int)
    requires IsMaxSuffixSum(flows, total)
    ensures total == Level(flows)
  {
    LevelIsMaxSuffixSum(flows);
  }
}
