/** How the paymaster prices a transaction: the fee components and their checked sum, the payment
    analysis, and the price model applied to the sum. */
module FeeTotals {
  import opened Results
  import opened FeeOutflow

  const LAMPORTS_PER_SIGNATURE: u64 := 5000
  const ESTIMATED_LAMPORTS_FOR_PAYMENT_INSTRUCTION: u64 := 50

  datatype TotalFeeCalculation = TotalFeeCalculation(
    totalFeeLamports: u64,
    baseFee: u64,
    koraSignatureFee: u64,
    feePayerOutflow: u64,
    paymentInstructionFee: u64,
    transferFeeAmount: u64)
  {
    static function NewFixed(total: u64): TotalFeeCalculation { TotalFeeCalculation(total, 0, 0, 0, 0, 0) }

    /** The mathematical sum of the components. */
    function ComponentSum(): int {
      baseFee + koraSignatureFee + feePayerOutflow + paymentInstructionFee + transferFeeAmount
    }

    function GetTotalFeeLamports(): Result<u64, FeeError> {
      AddAll([baseFee, koraSignatureFee, feePayerOutflow, paymentInstructionFee, transferFeeAmount])
    }
  }

  // ----- The checked sum ----------------------------------------------------------------------

  function Total(fees: seq<u64>): int {
    if fees == [] then 0 else Total(fees[..|fees| - 1]) + fees[|fees| - 1]
  }

  function CheckedTotal(fees: seq<u64>): Option<u64> {
    if fees == [] then Some(0)
    else
      var sum := CheckedTotal(fees[..|fees| - 1]);
      if sum.None? then None else CheckedAdd(sum.value, fees[|fees| - 1])
  }

  /** A chain of `checked_add`s over non-negative words fails exactly when the final sum does not fit. */
  lemma {:induction false} CheckedTotalIsTotal(fees: seq<u64>)
    ensures Total(fees) >= 0
    ensures CheckedTotal(fees) == if Total(fees) <= U64_MAX then Some(Total(fees)) else None
  {
    if fees != [] { CheckedTotalIsTotal(fees[..|fees| - 1]); }
  }

  function AddAll(fees: seq<u64>): Result<u64, FeeError> {
    match CheckedTotal(fees) case Some(total) => Ok(total) case None => Err(FeeOverflow)
  }

  lemma TotalOfFive(a: u64, b: u64, c: u64, d: u64, e: u64)
    ensures AddAll([a, b, c, d, e]) == if a + b + c + d + e <= U64_MAX then Ok(a + b + c + d + e) else Err(FeeOverflow)
  {
    var fees: seq<u64> := [a, b, c, d, e];
    CheckedTotalIsTotal(fees);
    var f4: seq<u64>, f3: seq<u64>, f2: seq<u64>, f1: seq<u64> := [a, b, c, d], [a, b, c], [a, b], [a];
    assert fees[..4] == f4 && f4[..3] == f3 && f3[..2] == f2 && f2[..1] == f1 && f1[..0] == [];
    assert Total(f1) == a;
    assert Total(f2) == a + b;
    assert Total(f3) == a + b + c;
    assert Total(f4) == a + b + c + d;
  }

  // ----- Signers ------------------------------------------------------------------------------

  /** The first `numSigners` account keys sign; `take` stops at the end of the list. */
  predicate IsFeePayerInSigners(keys: seq<Pubkey>, numSigners: nat, feePayer: Pubkey) {
    feePayer in keys[..Min(numSigners, |keys|)]
  }

  // ----- Payments -----------------------------------------------------------------------------

  /** One SPL transfer as the analysis meets it. `owner` is the owner of the destination account:
      absent when the account cannot be fetched, an error when it is no token account. `mintFee` is
      the Token-2022 fee of the transfer, absent when the instruction names no mint; a mint without
      a fee configuration yields `Ok(None)`. */
  datatype SplTransfer = SplTransfer(
    owner: Option<Result<Pubkey, FeeError>>,
    is2022: bool,
    mintFee: Option<Result<Option<u64>, FeeError>>)
  {
    predicate PaysTo(destination: Pubkey) { owner == Some(Ok(destination)) }

    predicate HasBadOwner() { owner.Some? && owner.value.Err? }

    predicate HasBadFee(destination: Pubkey) {
      PaysTo(destination) && is2022 && mintFee.Some? && mintFee.value.Err?
    }

    predicate Faulty(destination: Pubkey) { HasBadOwner() || HasBadFee(destination) }

    /** What the transfer adds to the total of transfer fees. */
    function Fee(destination: Pubkey): u64 {
      if PaysTo(destination) && is2022 && mintFee.Some? && mintFee.value.Ok? && mintFee.value.value.Some?
      then mintFee.value.value.value else 0
    }

    function Fault(destination: Pubkey): FeeError
      requires Faulty(destination)
    {
      if HasBadOwner() then owner.value.error else mintFee.value.error
    }
  }

  predicate HasPayment(transfers: seq<SplTransfer>, destination: Pubkey) {
    exists k | 0 <= k < |transfers| :: transfers[k].PaysTo(destination)
  }

  ghost predicate NoneFaulty(transfers: seq<SplTransfer>, n: nat, destination: Pubkey)
    requires n <= |transfers|
  {
    forall k | 0 <= k < n :: !transfers[k].Faulty(destination)
  }

  /** The fees of the payments among the first `n` transfers. */
  function FeesOf(transfers: seq<SplTransfer>, n: nat, destination: Pubkey): (fees: nat)
    requires n <= |transfers|
  {
    if n == 0 then 0 else FeesOf(transfers, n - 1, destination) + transfers[n - 1].Fee(destination)
  }

  function Fees(transfers: seq<SplTransfer>, destination: Pubkey): nat { FeesOf(transfers, |transfers|, destination) }

  lemma {:induction false} FeesGrowTo(transfers: seq<SplTransfer>, n: nat, m: nat, destination: Pubkey)
    requires n <= m <= |transfers|
    ensures FeesOf(transfers, n, destination) <= FeesOf(transfers, m, destination)
    decreases m - n
  {
    if n < m { FeesGrowTo(transfers, n + 1, m, destination); }
  }

  /** The transfer at which the analysis gives up, and with what. */
  ghost predicate FailsAt(transfers: seq<SplTransfer>, k: nat, destination: Pubkey, error: FeeError) {
    && k < |transfers| && NoneFaulty(transfers, k, destination) && FeesOf(transfers, k, destination) <= U64_MAX
    && if transfers[k].Faulty(destination) then error == transfers[k].Fault(destination)
       else error == TransferFeeOverflow && FeesOf(transfers, k + 1, destination) > U64_MAX
  }

  /** The analysis gives up at one transfer only. */
  lemma FailsOnce(transfers: seq<SplTransfer>, k: nat, j: nat, destination: Pubkey, e: FeeError, f: FeeError)
    requires FailsAt(transfers, k, destination, e) && FailsAt(transfers, j, destination, f)
    ensures k == j && e == f
  {
    if k < j { FeesGrowTo(transfers, k + 1, j, destination); }
    if j < k { FeesGrowTo(transfers, j + 1, k, destination); }
  }

  /** The analysis fails exactly when some transfer is faulty or the fees of the payments exceed a
      64-bit word; otherwise it says whether there was a payment, and adds up the payments' fees. */
  method AnalyzePaymentInstructions(transfers: seq<SplTransfer>, destination: Pubkey)
    returns (r: Result<(bool, u64), FeeError>)
    ensures r.Ok? <==> NoneFaulty(transfers, |transfers|, destination) && Fees(transfers, destination) <= U64_MAX
    ensures r.Ok? ==> r.value == (HasPayment(transfers, destination), Fees(transfers, destination))
    ensures r.Err? ==> exists k: nat :: FailsAt(transfers, k, destination, r.error)
  {
    var hasPayment := false;
    var total: u64 := 0;
    for k := 0 to |transfers|
      invariant NoneFaulty(transfers, k, destination)
      invariant hasPayment <==> exists j | 0 <= j < k :: transfers[j].PaysTo(destination)
      invariant total == FeesOf(transfers, k, destination)
    {
      var t := transfers[k];
      if t.owner.Some? && t.owner.value.Err? {
        assert FailsAt(transfers, k, destination, t.owner.value.error);
        return Err(t.owner.value.error);
      }
      if t.owner.Some? && t.owner.value.value == destination {
        hasPayment := true;
        if t.is2022 && t.mintFee.Some? {
          if t.mintFee.value.Err? {
            assert FailsAt(transfers, k, destination, t.mintFee.value.error);
            return Err(t.mintFee.value.error);
          }
          if t.mintFee.value.value.Some? {
            var sum := CheckedAdd(total, t.mintFee.value.value.value);
            if sum.None? {
              FeesGrowTo(transfers, k + 1, |transfers|, destination);
              assert FailsAt(transfers, k, destination, TransferFeeOverflow);
              return Err(TransferFeeOverflow);
            }
            total := sum.value;
          }
        }
      }
    }
    return Ok((hasPayment, total));
  }

  // ----- The transaction's fee ------------------------------------------------------------------

  /** What the estimate asks of the chain and of the transaction. */
  datatype Transaction = Transaction(
    baseFee: Result<u64, FeeError>,
    keys: seq<Pubkey>,
    numSigners: nat,
    instructions: Parsed,
    splTransfers: seq<SplTransfer>)

  function SignatureFee(tx: Transaction, feePayer: Pubkey): u64 {
    if IsFeePayerInSigners(tx.keys, tx.numSigners, feePayer) then 0 else LAMPORTS_PER_SIGNATURE
  }

  function PaymentInstructionFee(tx: Transaction, destination: Pubkey, isPaymentRequired: bool): u64 {
    if isPaymentRequired && !HasPayment(tx.splTransfers, destination) then ESTIMATED_LAMPORTS_FOR_PAYMENT_INSTRUCTION
        else 0
  }

  /** The estimate of a transaction: the error of its first failing part, or the exact sum of its
      components if that fits in 64 bits. The signature and the payment instruction are charged only
      when they are missing. */
  ghost predicate IsEstimate(
      tx: Transaction, feePayer: Pubkey, destination: Pubkey, isPaymentRequired: bool,
      r: Result<TotalFeeCalculation, FeeError>)
  {
    var outflow, transfers := Outflow(feePayer, tx.instructions), tx.splTransfers;
    if tx.baseFee.Err? then r == Err(tx.baseFee.error)
    else if outflow.Err? then r == Err(outflow.error)
    else if !NoneFaulty(transfers, |transfers|, destination) || Fees(transfers, destination) > U64_MAX then
      r.Err? && exists k: nat :: FailsAt(transfers, k, destination, r.error)
    else
      var signature, payment := SignatureFee(tx, feePayer), PaymentInstructionFee(tx, destination, isPaymentRequired);
      var sum := tx.baseFee.value + signature + outflow.value + payment + Fees(transfers, destination);
      if sum > U64_MAX then r == Err(FeeOverflow)
      else r == Ok(TotalFeeCalculation(sum, tx.baseFee.value, signature, outflow.value, payment,
          Fees(transfers, destination)))
  }

  method EstimateTransactionFee(tx: Transaction, feePayer: Pubkey, destination: Pubkey, isPaymentRequired: bool)
    returns (r: Result<TotalFeeCalculation, FeeError>)
    ensures IsEstimate(tx, feePayer, destination, isPaymentRequired, r)
    ensures r.Ok? ==> r.value.totalFeeLamports == r.value.ComponentSum()
    ensures r.Ok? ==> r.value.GetTotalFeeLamports() == Ok(r.value.totalFeeLamports)
  {
    if tx.baseFee.Err? { return Err(tx.baseFee.error); }
    var signatureFee: u64 := 0;
    if !IsFeePayerInSigners(tx.keys, tx.numSigners, feePayer) {
      signatureFee := LAMPORTS_PER_SIGNATURE;
    }
    var outflow := CalculateFeePayerOutflow(feePayer, tx.instructions);
    if outflow.Err? { return Err(outflow.error); }
    var analysis := AnalyzePaymentInstructions(tx.splTransfers, destination);
    if analysis.Err? { return Err(analysis.error); }
    var (hasPayment, transferFee) := analysis.value;
    var paymentFee: u64 := if isPaymentRequired && !hasPayment then ESTIMATED_LAMPORTS_FOR_PAYMENT_INSTRUCTION else 0;
    var total := AddAll([tx.baseFee.value, signatureFee, outflow.value, paymentFee, transferFee]);
    TotalOfFive(tx.baseFee.value, signatureFee, outflow.value, paymentFee, transferFee);
    if total.Err? { return Err(total.error); }
    return Ok(TotalFeeCalculation(total.value, tx.baseFee.value, signatureFee, outflow.value, paymentFee, transferFee));
  }

  // ----- Pricing ------------------------------------------------------------------------------

  /** The largest decimal the source's arithmetic can hold. */
  const DECIMAL_MAX: real := 79228162514264337593543950335.0

  /** A margin is absent when the configured floating-point number has no decimal value. */
  datatype PriceModel = Margin(margin: Option<real>) | Fixed(lamports: Result<u64, FeeError>, strict: bool) | Free

  function Ceil(x: real): int { -((-x).Floor) }

  function Scaled(fee: u64, multiplier: real): real { fee as real * multiplier }

  function Representable(x: real): Option<real> {
    if -DECIMAL_MAX <= x <= DECIMAL_MAX then Some(x) else None
  }

  /** `get_required_lamports_with_margin` under a margin model. */
  function WithMargin(fee: u64, margin: Option<real>): Result<u64, FeeError> {
    if margin.None? then Err(MarginOverflow)
    else if Representable(1.0 + margin.value).None? then Err(MarginOverflow)
    else
      var product := Scaled(fee, 1.0 + margin.value);
      if Representable(product).None? || product < 0.0 || Ceil(product) > U64_MAX then Err(MarginOverflow)
      else Ok(Ceil(product))
  }

  function AsReal(n: int): real { n as real }

  /** The least integer that is no less than `x`. */
  ghost predicate IsCeiling(x: real, n: int) {
    x <= AsReal(n) && forall m: int :: x <= AsReal(m) ==> n <= m
  }

  lemma CeilIsCeiling(x: real)
    ensures IsCeiling(x, Ceil(x))
  {
    forall m: int | x <= AsReal(m)
      ensures Ceil(x) <= m
    {
      assert (-m) as real <= -x;
    }
  }

  lemma ScaledMonotone(f: u64, g: u64, multiplier: real)
    requires f <= g && multiplier >= 0.0
    ensures Scaled(f, multiplier) <= Scaled(g, multiplier)
  {
  }

  lemma ScaledCovers(fee: u64, multiplier: real)
    requires multiplier >= 1.0
    ensures Scaled(fee, multiplier) >= fee as real
  {
  }

  /** Under a non-negative margin the charge is the fee times one plus the margin, rounded up to the
      next lamport: never below the fee, the fee itself without a margin. It fails only if the
      multiplier is beyond the decimal range or the charge beyond a 64-bit word. */
  lemma MarginCharge(fee: u64, margin: real)
    requires margin >= 0.0
    ensures var r, charge := WithMargin(fee, Some(margin)), Ceil(Scaled(fee, 1.0 + margin));
            && (r.Ok? <==> 1.0 + margin <= DECIMAL_MAX && charge <= U64_MAX)
            && (r.Ok? ==> IsCeiling(Scaled(fee, 1.0 + margin), r.value) && r.value >= fee)
            && (margin == 0.0 ==> r == Ok(fee))
  {
    ScaledCovers(fee, 1.0 + margin);
    CeilIsCeiling(Scaled(fee, 1.0 + margin));
    if margin == 0.0 {
      assert Scaled(fee, 1.0) == fee as real;
      assert Ceil(fee as real) == fee;
    }
  }

  /** The charge for a fee under any margin: at least the fee times one plus the margin, and less than one
      lamport more. There is none without a decimal margin, or when the multiplier is beyond the decimal
      range, or when the product is negative or beyond a 64-bit word. */
  ghost predicate IsCharge(fee: u64, margin: Option<real>, r: Result<u64, FeeError>) {
    match margin
    case None => r == Err(MarginOverflow)
    case Some(m) =>
      var product := fee as real * (1.0 + m);
      && (r.Ok? <==> -79228162514264337593543950335.0 <= 1.0 + m <= 79228162514264337593543950335.0
                     && 0.0 <= product <= 18446744073709551615.0)
      && (r.Ok? ==> product <= r.value as real < product + 1.0)
      && (r.Err? ==> r.error == MarginOverflow)
  }

  lemma CeilBounds(x: real)
    ensures x <= Ceil(x) as real < x + 1.0
    ensures Ceil(x) <= U64_MAX <==> x <= 18446744073709551615.0
  {
    assert (-x).Floor as real <= -x < (-x).Floor as real + 1.0;
    assert Ceil(x) as real == -((-x).Floor as real);
    assert U64_MAX as real == 18446744073709551615.0;
    if x <= U64_MAX as real {
      CeilIsCeiling(x);
      assert x <= AsReal(U64_MAX);
    }
  }

  lemma WithMarginCharges(fee: u64, margin: Option<real>)
    ensures IsCharge(fee, margin, WithMargin(fee, margin))
  {
    if margin.Some? {
      var product := Scaled(fee, 1.0 + margin.value);
      CeilBounds(product);
      ChargeOf(fee, margin.value, product);
    }
  }

  lemma ChargeOf(fee: u64, m: real, product: real)
    requires product == Scaled(fee, 1.0 + m)
    requires product <= Ceil(product) as real < product + 1.0
    requires Ceil(product) <= U64_MAX <==> product <= 18446744073709551615.0
    ensures IsCharge(fee, Some(m), WithMargin(fee, Some(m)))
  {
  }

  /** A larger fee is never charged less, and fails whenever the smaller one does. */
  lemma MarginMonotone(small: u64, large: u64, margin: real)
    requires small <= large && margin >= 0.0 && WithMargin(large, Some(margin)).Ok?
    ensures WithMargin(small, Some(margin)).Ok?
    ensures WithMargin(small, Some(margin)).value <= WithMargin(large, Some(margin)).value
  {
    MarginCharge(small, margin);
    MarginCharge(large, margin);
    ScaledMonotone(small, large, 1.0 + margin);
    CeilIsCeiling(Scaled(small, 1.0 + margin));
    CeilIsCeiling(Scaled(large, 1.0 + margin));
  }

  /** The price put on an estimate: a strict fixed price keeps the real components beside it. */
  function Priced(model: PriceModel, estimate: TotalFeeCalculation): Result<TotalFeeCalculation, FeeError> {
    match model
    case Free => Ok(TotalFeeCalculation.NewFixed(0))
    case Fixed(Err(e), _) => Err(e)
    case Fixed(Ok(lamports), strict) =>
      if strict then Ok(estimate.(totalFeeLamports := lamports)) else Ok(TotalFeeCalculation.NewFixed(lamports))
    case Margin(margin) => Charged(estimate, WithMargin(estimate.totalFeeLamports, margin))
  }

  function Charged(estimate: TotalFeeCalculation, total: Result<u64, FeeError>): Result<TotalFeeCalculation, FeeError> {
    match total case Ok(lamports) => Ok(estimate.(totalFeeLamports := lamports)) case Err(e) => Err(e)
  }

  predicate SameComponents(q: TotalFeeCalculation, e: TotalFeeCalculation) {
    && q.baseFee == e.baseFee && q.koraSignatureFee == e.koraSignatureFee && q.feePayerOutflow == e.feePayerOutflow
    && q.paymentInstructionFee == e.paymentInstructionFee && q.transferFeeAmount == e.transferFeeAmount
  }

  /** What a model quotes for an estimated transaction: a strict fixed price, or the charge under a margin,
      beside the estimate's own components. */
  ghost predicate IsQuote(model: PriceModel, estimate: TotalFeeCalculation, r: Result<TotalFeeCalculation, FeeError>) {
    && (r.Ok? ==> SameComponents(r.value, estimate))
    && match model
       case Fixed(lamports, _) => lamports.Ok? && r.Ok? && r.value.totalFeeLamports == lamports.value
       case Margin(margin) =>
         IsCharge(estimate.totalFeeLamports, margin, if r.Ok? then Ok(r.value.totalFeeLamports) else Err(r.error))
       case Free => false
  }

  lemma PricedIsQuote(model: PriceModel, estimate: TotalFeeCalculation)
    requires model.Margin? || (model.Fixed? && model.lamports.Ok? && model.strict)
    ensures IsQuote(model, estimate, Priced(model, estimate))
  {
    if model.Margin? { WithMarginCharges(estimate.totalFeeLamports, model.margin); }
  }

  /** Free charges nothing and a fixed price its own amount. A strict fixed price that can be told and a
      margin fail with the transaction's estimate, or put their price on it; nothing else needs one. */
  method EstimateKoraFee(model: PriceModel, tx: Transaction, feePayer: Pubkey, destination: Pubkey,
      isPaymentRequired: bool)
    returns (r: Result<TotalFeeCalculation, FeeError>)
    ensures model.Free? ==> r == Ok(TotalFeeCalculation(0, 0, 0, 0, 0, 0))
    ensures model.Fixed? && model.lamports.Err? ==> r == Err(model.lamports.error)
    ensures model.Fixed? && model.lamports.Ok? && !model.strict ==>
        r == Ok(TotalFeeCalculation(model.lamports.value, 0, 0, 0, 0, 0))
    ensures model.Fixed? && model.lamports.Ok? && model.strict && r.Ok? ==>
        r.value.totalFeeLamports == model.lamports.value
    ensures model.Margin? || (model.Fixed? && model.lamports.Ok? && model.strict) ==>
              exists estimate: Result<TotalFeeCalculation, FeeError> ::
                && IsEstimate(tx, feePayer, destination, isPaymentRequired, estimate)
                && if estimate.Ok? then IsQuote(model, estimate.value, r) else r == estimate
  {
    match model
    case Free =>
      return Ok(TotalFeeCalculation.NewFixed(0));
    case Fixed(lamports, strict) =>
      if lamports.Err? { return Err(lamports.error); }
      if !strict { return Ok(TotalFeeCalculation.NewFixed(lamports.value)); }
      var fee := EstimateTransactionFee(tx, feePayer, destination, isPaymentRequired);
      if fee.Err? { return fee; }
      PricedIsQuote(model, fee.value);
      return Ok(fee.value.(totalFeeLamports := lamports.value));
    case Margin(margin) =>
      var fee := EstimateTransactionFee(tx, feePayer, destination, isPaymentRequired);
      if fee.Err? { return fee; }
      PricedIsQuote(model, fee.value);
      var total := WithMargin(fee.value.totalFeeLamports, margin);
      if total.Err? { return Err(total.error); }
      return Ok(fee.value.(totalFeeLamports := total.value));
  }

  /** The estimate is determined, its error included. */
  lemma EstimateIsUnique(
      tx: Transaction, feePayer: Pubkey, destination: Pubkey, isPaymentRequired: bool,
      r: Result<TotalFeeCalculation, FeeError>, q: Result<TotalFeeCalculation, FeeError>)
    requires IsEstimate(tx, feePayer, destination, isPaymentRequired, r)
        && IsEstimate(tx, feePayer, destination, isPaymentRequired, q)
    ensures r == q
  {
    if k: nat, j: nat :|
      r.Err? && q.Err? && FailsAt(tx.splTransfers, k, destination, r.error)
          && FailsAt(tx.splTransfers, j, destination, q.error)
    {
      FailsOnce(tx.splTransfers, k, j, destination, r.error, q.error);
    }
  }

  /** Under a non-negative margin a quote covers what the transaction costs the paymaster, and without one
      it is exactly that. */
  lemma MarginCovers(estimate: TotalFeeCalculation, margin: real, quote: TotalFeeCalculation)
    requires margin >= 0.0 && estimate.totalFeeLamports == estimate.ComponentSum()
    requires IsQuote(Margin(Some(margin)), estimate, Ok(quote))
    ensures quote.ComponentSum() == estimate.ComponentSum() <= quote.totalFeeLamports
    ensures margin == 0.0 ==> quote.totalFeeLamports == estimate.ComponentSum()
  {
    ScaledCovers(estimate.totalFeeLamports, 1.0 + margin);
    LamportsBetween(estimate.totalFeeLamports, quote.totalFeeLamports, Scaled(estimate.totalFeeLamports, 1.0 + margin));
    if margin == 0.0 { assert Scaled(estimate.totalFeeLamports, 1.0) == estimate.totalFeeLamports as real; }
  }

  lemma LamportsBetween(fee: int, charge: int, x: real)
    requires fee as real <= x <= charge as real < x + 1.0
    ensures fee <= charge
    ensures x == fee as real ==> charge == fee
  {
    assert (fee as real).Floor == fee && (charge as real).Floor == charge;
  }

  // ----- Strict pricing -------------------------------------------------------------------------

  /** `validate_strict_pricing_with_fee`: under a strict fixed price a quote below its own components is
      rejected. */
  function ValidateStrictPricing(model: PriceModel, fee: TotalFeeCalculation): Result<(), FeeError> {
    if !(model.Fixed? && model.strict) then Ok(())
    else
      match fee.GetTotalFeeLamports()
      case Err(e) => Err(e)
      case Ok(total) => if fee.totalFeeLamports < total then Err(StrictPricingViolation) else Ok(())
  }

  /** Under a strict fixed price a transaction is accepted exactly when what it is estimated to cost the
      paymaster does not exceed the price. */
  lemma StrictQuotesAreCovered(
      price: u64, tx: Transaction, feePayer: Pubkey, destination: Pubkey, isPaymentRequired: bool,
          estimate: TotalFeeCalculation, quote: TotalFeeCalculation)
    requires IsEstimate(tx, feePayer, destination, isPaymentRequired, Ok(estimate))
    requires IsQuote(Fixed(Ok(price), true), estimate, Ok(quote))
    ensures ValidateStrictPricing(Fixed(Ok(price), true), quote)
        == if estimate.ComponentSum() <= price then Ok(()) else Err(StrictPricingViolation)
  {
    TotalOfFive(quote.baseFee, quote.koraSignatureFee, quote.feePayerOutflow, quote.paymentInstructionFee,
        quote.transferFeeAmount);
  }

  /** No other model rejects a quote. */
  lemma OnlyStrictPricesReject(model: PriceModel, quote: TotalFeeCalculation)
    ensures model.Margin? || model.Free? || !model.strict ==> ValidateStrictPricing(model, quote) == Ok(())
    ensures model.Fixed? && model.strict ==>
              (ValidateStrictPricing(model, quote).Ok? <==> quote.ComponentSum() <= quote.totalFeeLamports)
  {
    TotalOfFive(quote.baseFee, quote.koraSignatureFee, quote.feePayerOutflow, quote.paymentInstructionFee,
        quote.transferFeeAmount);
  }

  // ----- The parts of an estimate -----------------------------------------------------------------

  /** What one transfer means for the analysis, read off its fields: it pays when the destination account's
      owner is the payment address; an account that is no token account stops the analysis, and so does the
      unreadable mint of a Token-2022 payment. */
  lemma TransferMeaning(t: SplTransfer, destination: Pubkey)
    ensures t.PaysTo(destination) <==> t.owner.Some? && t.owner.value.Ok? && t.owner.value.value == destination
    ensures t.Faulty(destination) <==>
              || (t.owner.Some? && t.owner.value.Err?)
              || (t.owner == Some(Ok(destination)) && t.is2022 && t.mintFee.Some? && t.mintFee.value.Err?)
    ensures t.owner.Some? && t.owner.value.Err? ==> t.Fault(destination) == t.owner.value.error
    ensures t.owner == Some(Ok(destination)) && t.is2022 && t.mintFee.Some? && t.mintFee.value.Err? ==>
              t.Fault(destination) == t.mintFee.value.error
    ensures t.Fee(destination) == MintFee(t, destination)
  {
  }

  /** The Token-2022 fee of a payment. */
  function MintFee(t: SplTransfer, destination: Pubkey): int {
    match t
    case SplTransfer(Some(Ok(owner)), true, Some(Ok(Some(fee)))) => if owner == destination then fee else 0
    case _ => 0
  }

  function MintFees(transfers: seq<SplTransfer>, destination: Pubkey): seq<int> {
    seq(|transfers|, k requires 0 <= k < |transfers| => MintFee(transfers[k], destination))
  }

  lemma {:induction false} FeesAreMintFees(transfers: seq<SplTransfer>, n: nat, destination: Pubkey)
    requires n <= |transfers|
    ensures FeesOf(transfers, n, destination) == Sum(MintFees(transfers[..n], destination))
  {
    if n > 0 {
      FeesAreMintFees(transfers, n - 1, destination);
      TransferMeaning(transfers[n - 1], destination);
      var fees := MintFees(transfers[..n], destination);
      assert fees[..n - 1] == MintFees(transfers[..n - 1], destination);
    }
  }

  /** What the components of an estimate charge: the chain's own fee, 5000 lamports unless the fee payer is
      among the signers, 50 lamports for a payment that is required and missing, the fee payer's outflow and
      the Token-2022 fees of the payments; the total is their sum. */
  lemma EstimateMeaning(tx: Transaction, feePayer: Pubkey, destination: Pubkey, isPaymentRequired: bool,
      e: TotalFeeCalculation, ledger: seq<int>)
    requires IsEstimate(tx, feePayer, destination, isPaymentRequired, Ok(e))
    requires Ledger(InProcessingOrder(tx.instructions), feePayer, ledger)
    ensures tx.baseFee == Ok(e.baseFee)
    ensures e.koraSignatureFee
        == if exists k: nat :: k < tx.numSigners && k < |tx.keys| && tx.keys[k] == feePayer then 0 else 5000
    ensures IsOutflow(ledger, tx.instructions.splOutflow, Ok(e.feePayerOutflow))
    ensures e.paymentInstructionFee
        == if isPaymentRequired && !(exists t :: t in tx.splTransfers && t.owner == Some(Ok(destination)))
           then 50 else 0
    ensures e.transferFeeAmount == Sum(MintFees(tx.splTransfers, destination))
    ensures e.totalFeeLamports
        == e.baseFee + e.koraSignatureFee + e.feePayerOutflow + e.paymentInstructionFee + e.transferFeeAmount
  {
    OutflowMeaning(feePayer, tx.instructions, ledger);
    FeesAreMintFees(tx.splTransfers, |tx.splTransfers|, destination);
    assert tx.splTransfers[..|tx.splTransfers|] == tx.splTransfers;
    SignersMeaning(tx.keys, tx.numSigners, feePayer);
    PaymentMeaning(tx.splTransfers, destination);
  }

  /** A failing estimate: the chain's own error before any other, then an overflow of the fee payer's ledger,
      then the error of its SPL transfers, then whatever stopped the payment analysis. */
  lemma EstimateErrors(tx: Transaction, feePayer: Pubkey, destination: Pubkey, isPaymentRequired: bool,
      error: FeeError, ledger: seq<int>)
    requires IsEstimate(tx, feePayer, destination, isPaymentRequired, Err(error))
    requires Ledger(InProcessingOrder(tx.instructions), feePayer, ledger)
    ensures tx.baseFee.Err? ==> error == tx.baseFee.error
    ensures tx.baseFee.Ok? && HasOverflowingRun(ledger) ==> error == OutflowOverflow
    ensures tx.baseFee.Ok? && !HasOverflowingRun(ledger) ==>
              || tx.instructions.splOutflow == Some(Err(error))
              || error in {OutflowTotalOverflow, FeeOverflow}
              || exists k: nat :: FailsAt(tx.splTransfers, k, destination, error)
  {
    OutflowMeaning(feePayer, tx.instructions, ledger);
  }

  lemma SignersMeaning(keys: seq<Pubkey>, numSigners: nat, feePayer: Pubkey)
    ensures IsFeePayerInSigners(keys, numSigners, feePayer)
        <==> exists k: nat :: k < numSigners && k < |keys| && keys[k] == feePayer
  {
    var signers := keys[..Min(numSigners, |keys|)];
    if k: nat :| k < numSigners && k < |keys| && keys[k] == feePayer { assert signers[k] == feePayer; }
    if feePayer in signers {
      var k: nat :| k < |signers| && signers[k] == feePayer;
      assert keys[k] == feePayer;
    }
  }

  lemma PaymentMeaning(transfers: seq<SplTransfer>, destination: Pubkey)
    ensures HasPayment(transfers, destination) <==>
            exists t :: t in transfers && t.owner == Some(Ok(destination))
  {
    if k :| 0 <= k < |transfers| && transfers[k].PaysTo(destination) { assert transfers[k] in transfers; }
  }
}
