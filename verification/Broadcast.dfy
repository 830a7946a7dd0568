/** Broadcasting a swap: token amounts as whole base units, and the loop that retries the pipeline of
    quote, transaction, signatures, submission and confirmation once. */
module Broadcast {
  import opened Results
  import Policy
  import PolicyLaws

  datatype Token = SOL | USDC | RAY | BONK

  /** Base units per whole token. */
  function Units(token: Token): real {
    match token case SOL => 1000000000.0 case USDC => 1000000.0 case RAY => 1000000.0 case BONK => 100000.0
  }

  function ToBaseUnits(amount: real, token: Token): int {
    match token
    case SOL => (amount * 1000000000.0).Floor
    case USDC => (amount * 1000000.0).Floor
    case RAY => (amount * 1000000.0).Floor
    case BONK => (amount * 100000.0).Floor
  }

  function FromBaseUnits(n: int, token: Token): real {
    match token
    case SOL => n as real / 1000000000.0
    case USDC => n as real / 1000000.0
    case RAY => n as real / 1000000.0
    case BONK => n as real / 100000.0
  }

  /** Converting to base units and back never gains, loses less than one base unit, and loses nothing
      exactly when the amount is a whole number of base units. */
  lemma ConversionLoss(amount: real, token: Token)
    ensures var back := FromBaseUnits(ToBaseUnits(amount, token), token);
            && back <= amount < back + 1.0 / Units(token)
            && (back == amount <==> exists n: int :: amount == FromBaseUnits(n, token))
  {
    var n := ToBaseUnits(amount, token);
    if k: int :| amount == FromBaseUnits(k, token) {
      BaseUnitsRoundTrip(k, token);
    }
  }

  /** Whole base units survive the way to an amount and back. */
  lemma BaseUnitsRoundTrip(n: int, token: Token)
    ensures ToBaseUnits(FromBaseUnits(n, token), token) == n
  {
    assert (n as real).Floor == n;
  }

  /** An amount with at most four decimals is a whole number of base units of every token. */
  lemma FourDecimalsConvertExactly(amount: real, token: Token)
    requires PolicyLaws.FourDecimals(amount)
    ensures FromBaseUnits(ToBaseUnits(amount, token), token) == amount
  {
    var n := (amount * 10000.0).Floor;
    assert amount == n as real / 10000.0;
    var k := n * (match token case SOL => 100000 case USDC => 100 case RAY => 100 case BONK => 10);
    assert FromBaseUnits(k, token) == amount;
    BaseUnitsRoundTrip(k, token);
  }

  /** The amount of an approved swap reaches the exchange unrounded, whatever the input token. */
  lemma ApprovedAmountsConvertExactly(p: Policy.Proposal, s: Policy.PolicyState, now: int, token: Token)
    requires Policy.ApprovesSwap(p, s, now) && PolicyLaws.WellFormed(p)
    ensures var amount := Policy.Verdict(p, s, now).finalDecision.amount;
            FromBaseUnits(ToBaseUnits(amount, token), token) == amount
  {
    PolicyLaws.ApprovedSwap(p, s, now);
    FourDecimalsConvertExactly(Policy.Verdict(p, s, now).finalDecision.amount, token);
  }

  /** The token a symbol names; the functions above are undefined on any other symbol. */
  function TokenOf(symbol: string): Option<Token> {
    if symbol == "SOL" then Some(SOL)
    else if symbol == "USDC" then Some(USDC)
    else if symbol == "RAY" then Some(RAY)
    else if symbol == "BONK" then Some(BONK)
    else None
  }

  // ----- The retry loop -----------------------------------------------------------------------

  const MAX_RETRY: nat := 1
  const RETRY_DELAY_MS: nat := 2000

  datatype Stage = Quote | SwapTransaction | Deserialize | PartialSign | Cosign | Submit | Confirm

  /** How one pass through the pipeline ends: an exception at some stage, or a confirmed signature and
      the quoted output in base units. A pass that reaches confirmation has submitted `signature`. For
      the record, and unknown to the pipeline: when the transaction took effect on the chain. It may
      have done so although its confirmation failed (`landing`); a confirmed one has, some time before
      the confirmation was noted (`lag`). */
  datatype Attempt =
    | Throws(stage: Stage, error: string, signature: string, landing: Option<int>)
    | Confirms(signature: string, outAmount: int, signer: string, lag: nat)
  {
    predicate Submitted() { Confirms? || stage == Confirm }
  }

  /** A transaction handed to the network, whether it was confirmed, and when it took effect, if ever. */
  datatype Submission = Submission(signature: string, confirmed: bool, landedAt: Option<int>)

  function SubmissionOf(a: Attempt, now: int): Submission {
    match a
    case Throws(_, _, signature, landing) => Submission(signature, false, landing)
    case Confirms(signature, _, _, lag) => Submission(signature, true, Some(now - lag))
  }

  /** `output` is absent when the output token has no known number of decimals. */
  datatype TxConfirmation = TxConfirmation(
    signature: string, fromToken: string, toToken: string, amount: real, output: Option<real>, confirmedAt: int)

  datatype SwapResult = SwapResult(signature: string, confirmation: TxConfirmation, koraSignerAddress: string)

  /** What a confirmed attempt reports. */
  function ResultOf(d: Policy.Decision, a: Attempt, now: int): SwapResult
    requires a.Confirms?
  {
    var token := TokenOf(d.toToken);
    var output := if token.Some? then Some(FromBaseUnits(a.outAmount, token.value)) else None;
    SwapResult(a.signature, TxConfirmation(a.signature, d.fromToken, d.toToken, d.amount, output, now), a.signer)
  }

  /** What a success says about the confirmed attempt and the decision: the quoted output is given in
      whole tokens exactly when the output token is one of the four whose decimals are known. */
  predicate Reports(r: SwapResult, d: Policy.Decision, a: Attempt, now: int) {
    var c := r.confirmation;
    && a.Confirms? && r.signature == c.signature == a.signature && r.koraSignerAddress == a.signer
    && c.fromToken == d.fromToken && c.toToken == d.toToken && c.amount == d.amount && c.confirmedAt == now
    && (c.output.Some? <==> d.toToken in {"SOL", "USDC", "RAY", "BONK"})
    && (d.toToken == "SOL" ==> c.output.value * 1000000000.0 == a.outAmount as real)
    && (d.toToken in {"USDC", "RAY"} ==> c.output.value * 1000000.0 == a.outAmount as real)
    && (d.toToken == "BONK" ==> c.output.value * 100000.0 == a.outAmount as real)
  }

  lemma ResultReports(d: Policy.Decision, a: Attempt, now: int)
    requires a.Confirms?
    ensures Reports(ResultOf(d, a, now), d, a, now)
  {
  }

  /** The reported output converts back to the base units that were quoted. */
  lemma ReportedOutputIsQuoted(r: SwapResult, d: Policy.Decision, a: Attempt, now: int, token: Token)
    requires Reports(r, d, a, now)
    requires (token.SOL? && d.toToken == "SOL") || (token.USDC? && d.toToken == "USDC")
        || (token.RAY? && d.toToken == "RAY") || (token.BONK? && d.toToken == "BONK")
    ensures ToBaseUnits(r.confirmation.output.value, token) == a.outAmount
  {
    assert (a.outAmount as real).Floor == a.outAmount;
  }

  /** What precedes the last attempt's message in the error of a swap. */
  const SWAP_FAILED: string := "[BroadcastService] " + "Swap failed after " + "2 attempt(s): "

  /** What the retry loop comes to from its k-th attempt on. */
  function OutcomeFrom(d: Policy.Decision, attempts: nat -> Attempt, k: nat, now: int): Result<SwapResult, string>
    decreases MAX_RETRY - k
  {
    if attempts(k).Confirms? then Ok(ResultOf(d, attempts(k), now))
    else if k >= MAX_RETRY then Err(SWAP_FAILED + attempts(k).error)
    else OutcomeFrom(d, attempts, k + 1, now)
  }

  function Outcome(d: Policy.Decision, attempts: nat -> Attempt, now: int): Result<SwapResult, string> {
    OutcomeFrom(d, attempts, 0, now)
  }

  /** A swap succeeds exactly when the first or the second attempt does, and reports the first that
      does; one that fails ends in the second attempt's error. */
  lemma OutcomeRepeatsTheDecision(d: Policy.Decision, attempts: nat -> Attempt, now: int)
    ensures match Outcome(d, attempts, now)
            case Ok(r) =>
              || Reports(r, d, attempts(0), now)
              || (attempts(0).Throws? && Reports(r, d, attempts(1), now))
            case Err(e) => attempts(0).Throws? && attempts(1).Throws? && e == SWAP_FAILED + attempts(1).error
  {
    assert Outcome(d, attempts, now)
        == if attempts(0).Confirms? then Ok(ResultOf(d, attempts(0), now)) else OutcomeFrom(d, attempts, 1, now);
  }

  /** The transactions handed to the network by the first `n` attempts. */
  function Submissions(attempts: nat -> Attempt, n: nat, now: int): seq<Submission> {
    if n == 0 then []
    else Submissions(attempts, n - 1, now)
         + (if attempts(n - 1).Submitted() then [SubmissionOf(attempts(n - 1), now)] else [])
  }

  function AttemptsMade(attempts: nat -> Attempt): nat { if attempts(0).Confirms? then 1 else MAX_RETRY + 1 }

  /** All that one swap hands to the network. */
  function AllSubmissions(attempts: nat -> Attempt, now: int): seq<Submission> {
    Submissions(attempts, AttemptsMade(attempts), now)
  }

  /** At most two submissions, of which the last one was confirmed if the swap was, and no other. */
  predicate Fits(subs: seq<Submission>, confirmation: Option<TxConfirmation>) {
    && |subs| <= MAX_RETRY + 1
    && (forall i | 0 <= i < |subs| :: subs[i].confirmed <==> confirmation.Some? && i == |subs| - 1)
    && (confirmation.Some? ==> subs != [] && IsSubmissionOf(subs[|subs| - 1], confirmation.value))
  }

  predicate IsSubmissionOf(s: Submission, c: TxConfirmation) {
    s.signature == c.signature && s.landedAt.Some? && s.landedAt.value <= c.confirmedAt
  }

  /** What a swap submits fits its outcome. It submits something that is not confirmed exactly when an
      attempt it makes fails at confirmation. */
  lemma SubmissionsFitTheOutcome(d: Policy.Decision, attempts: nat -> Attempt, now: int)
    ensures var subs := AllSubmissions(attempts, now);
            && Fits(subs, match Outcome(d, attempts, now) case Ok(r) => Some(r.confirmation) case Err(_) => None)
            && ((exists s :: s in subs && !s.confirmed) <==>
                  exists k | 0 <= k < AttemptsMade(attempts) :: attempts(k).Throws? && attempts(k).stage == Confirm)
  {
    assert Submissions(attempts, 0, now) == [];
    var first := Submissions(attempts, 1, now);
    assert first == if attempts(0).Submitted() then [SubmissionOf(attempts(0), now)] else [];
    if attempts(0).Throws? {
      assert Outcome(d, attempts, now) == OutcomeFrom(d, attempts, 1, now);
      var more := if attempts(1).Submitted() then [SubmissionOf(attempts(1), now)] else [];
      assert AllSubmissions(attempts, now) == first + more;
      if attempts(0).Submitted() { assert SubmissionOf(attempts(0), now) in first + more; }
      if attempts(1).Submitted() { assert SubmissionOf(attempts(1), now) in first + more; }
    }
  }

  /** One swap: it succeeds exactly when one of the first two attempts does, reporting the first such
      attempt and the decision's own amount; otherwise the second attempt's error is thrown. */
  method ExecuteSwap(d: Policy.Decision, attempts: nat -> Attempt, now: int)
    returns (r: Result<SwapResult, string>, made: nat, slept: nat, submitted: seq<Submission>)
    ensures r == Outcome(d, attempts, now)
    ensures 1 <= made <= 2
    ensures forall k | 0 <= k < made - 1 :: attempts(k).Throws?
    ensures r.Ok? <==> attempts(made - 1).Confirms?
    ensures r.Ok? <==> attempts(0).Confirms? || attempts(1).Confirms?
    ensures r.Ok? ==> Reports(r.value, d, attempts(made - 1), now)
    ensures r.Err? ==> made == 2 && r.error == SWAP_FAILED + attempts(1).error
    ensures slept == 2000 * (made - 1)
    ensures made == AttemptsMade(attempts) && submitted == AllSubmissions(attempts, now)
  {
    var attempt := 0;
    made, slept, submitted := 0, 0, [];
    r := Err("Unexpected execution path.");
    while attempt <= MAX_RETRY
      invariant made == attempt <= MAX_RETRY
      invariant forall k | 0 <= k < attempt :: attempts(k).Throws?
      invariant Outcome(d, attempts, now) == OutcomeFrom(d, attempts, attempt, now)
      invariant slept == RETRY_DELAY_MS * attempt
      invariant submitted == Submissions(attempts, attempt, now)
      decreases MAX_RETRY + 1 - attempt
    {
      var a := attempts(attempt);
      made := made + 1;
      if a.Submitted() { submitted := submitted + [SubmissionOf(a, now)]; }
      if a.Confirms? {
        r := Ok(ResultOf(d, a, now));
        return;
      }
      attempt := attempt + 1;
      if attempt > MAX_RETRY {
        r := Err(SWAP_FAILED + a.error);
        return;
      }
      slept := slept + RETRY_DELAY_MS;
    }
    assert false;
  }

  /** A swap is submitted at most once unless its first attempt got through submission and then failed
      to be confirmed: exactly then can the retry put a second transaction on the chain. */
  lemma SubmittedTwiceIff(attempts: nat -> Attempt, now: int)
    ensures |AllSubmissions(attempts, now)| <= 2
    ensures |AllSubmissions(attempts, now)| == 2 <==>
              attempts(0).Throws? && attempts(0).stage == Confirm && attempts(1).Submitted()
  {
    assert Submissions(attempts, 0, now) == [];
    assert |Submissions(attempts, 1, now)| == if attempts(0).Submitted() then 1 else 0;
  }

  /** What one attempt hands to the network: nothing unless it got as far as the confirmation; then its
      signature, marked as confirmed if it was, with the time it took effect. */
  lemma SubmissionsAppend(attempts: nat -> Attempt, n: nat, now: int)
    ensures Submissions(attempts, 0, now) == []
    ensures Submissions(attempts, n + 1, now) == Submissions(attempts, n, now) +
              match attempts(n)
              case Confirms(signature, _, _, lag) => [Submission(signature, true, Some(now - lag))]
              case Throws(stage, _, signature, landing) =>
                if stage == Confirm then [Submission(signature, false, landing)] else []
  {
  }

  /** The retry happens exactly when the first attempt fails, and nothing is retried twice. */
  lemma AllSubmissionsMeaning(attempts: nat -> Attempt, now: int)
    ensures AllSubmissions(attempts, now) == Submissions(attempts, if attempts(0).Throws? then 2 else 1, now)
  {
  }
}
