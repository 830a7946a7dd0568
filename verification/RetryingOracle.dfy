/** The retrying price oracle with its exponential back-off, and the Jupiter oracle's conversion of
    dollar prices into prices in SOL. */
module RetryingOracle {
  import opened Results

  datatype OracleError = Failed(what: string) | NoTokenPrices | BadPrice(mint: string) | NoPriceData(mint: string)

  datatype PriceSource = Jupiter | Mock

  datatype TokenPrice = TokenPrice(price: real, confidence: real, source: PriceSource)

  type Prices = map<string, TokenPrice>

  // ----- Retrying -----------------------------------------------------------------------------

  function Pow2(n: nat): (p: nat)
    ensures p >= 1
  {
    if n == 0 then 1 else 2 * Pow2(n - 1)
  }

  /** `base` doubled `n` times. */
  function Doubled(base: nat, n: nat): nat { if n == 0 then base else 2 * Doubled(base, n - 1) }

  /** Total sleep before attempt `n + 1`. */
  function Slept(base: nat, n: nat): nat { if n == 0 then 0 else Slept(base, n - 1) + Doubled(base, n - 1) }

  /** The sleep of a run of `calls` attempts: the delay doubles after each failure but the last. */
  function TotalSleep(base: nat, calls: nat): nat
    requires calls >= 1
  {
    base * (Pow2(calls - 1) - 1)
  }

  lemma {:induction false} SleptIsGeometric(base: nat, n: nat)
    ensures Doubled(base, n) == base * Pow2(n)
    ensures Slept(base, n) == TotalSleep(base, n + 1)
  {
    if n > 0 {
      SleptIsGeometric(base, n - 1);
      DoubleProduct(base, Pow2(n - 1));
    }
  }

  lemma DoubleProduct(base: nat, p: nat)
    ensures 2 * (base * p) == base * (2 * p)
    ensures base * (p - 1) + base * p == base * (2 * p - 1)
  {
  }

  /** `replies(k)` is the inner oracle's answer to attempt `k`. The loop stops at the first success;
      `calls` attempts were made and `slept` milliseconds spent waiting between them. */
  method GetTokenPrices(maxRetries: nat, base: nat, mints: seq<string>, replies: nat -> Result<Prices, OracleError>)
    returns (r: Result<Prices, OracleError>, calls: nat, slept: nat)
    ensures mints == [] ==> r == Ok(map[]) && calls == 0 && slept == 0
    ensures mints != [] ==>
              && calls <= maxRetries
              && (r.Ok? <==> exists k | 0 <= k < maxRetries :: replies(k).Ok?)
              && (forall k | 0 <= k < calls - 1 :: replies(k).Err?)
              && (if maxRetries == 0 then r == Err(NoTokenPrices) else calls >= 1 && r == replies(calls - 1))
              && (r.Err? ==> calls == maxRetries)
              && slept == if calls == 0 then 0 else TotalSleep(base, calls)
  {
    if mints == [] { return Ok(map[]), 0, 0; }
    var lastError: Option<OracleError> := None;
    var delay := base;
    calls, slept := 0, 0;
    for attempt := 0 to maxRetries
      invariant calls == attempt
      invariant forall k | 0 <= k < attempt :: replies(k).Err?
      invariant lastError == if attempt == 0 then None else Some(replies(attempt - 1).error)
      invariant attempt < maxRetries ==> delay == Doubled(base, attempt) && slept == Slept(base, attempt)
      invariant attempt == 0 ==> slept == 0
      invariant attempt == maxRetries && attempt > 0 ==> slept == Slept(base, attempt - 1)
    {
      var reply := replies(attempt);
      calls := calls + 1;
      if reply.Ok? {
        SleptIsGeometric(base, attempt);
        return reply, calls, slept;
      }
      lastError := Some(reply.error);
      if attempt < maxRetries - 1 {
        slept := slept + delay;
        delay := delay * 2;
      }
    }
    if maxRetries > 0 { SleptIsGeometric(base, maxRetries - 1); }
    r := Err(if lastError.Some? then lastError.value else NoTokenPrices);
  }

  /** One token's price: absent from a successful answer is an error of its own. */
  method GetTokenPrice(maxRetries: nat, base: nat, mint: string, replies: nat -> Result<Prices, OracleError>)
    returns (r: Result<TokenPrice, OracleError>)
    ensures r.Ok? <==> exists k | 0 <= k < maxRetries ::
              replies(k).Ok? && mint in replies(k).value && forall j | 0 <= j < k :: replies(j).Err?
    ensures r.Ok? ==> exists k | 0 <= k < maxRetries ::
              replies(k).Ok? && mint in replies(k).value && r.value == replies(k).value[mint]
                  && forall j | 0 <= j < k :: replies(j).Err?
    ensures (forall k | 0 <= k < maxRetries :: replies(k).Err?) && maxRetries > 0 ==>
              r == Err(replies(maxRetries - 1).error)
    ensures r.Err? && ((exists k | 0 <= k < maxRetries :: replies(k).Ok?) || maxRetries == 0) ==>
              r.error == NoTokenPrices
  {
    var prices, calls, _ := GetTokenPrices(maxRetries, base, [mint], replies);
    if prices.Err? { return Err(prices.error); }
    assert replies(calls - 1).Ok?;
    if mint !in prices.value {
      assert forall k | 0 <= k < maxRetries && replies(k).Ok?
          && (forall j | 0 <= j < k :: replies(j).Err?) :: k == calls - 1;
      return Err(NoTokenPrices);
    }
    return Ok(prices.value[mint]);
  }

  // ----- Jupiter ------------------------------------------------------------------------------

  const SOL_MINT := "So11111111111111111111111111111111111111112"
  const MAX_REASONABLE_PRICE: real := 1000000.0
  const MIN_REASONABLE_PRICE: real := 0.000000001
  const JUPITER_DEFAULT_CONFIDENCE: real := 0.95

  /** A dollar price as parsed; absent when it is not a finite number. */
  type UsdPrice = Option<real>

  predicate ValidatePriceData(price: UsdPrice) {
    price.Some? && price.value > 0.0 && price.value <= MAX_REASONABLE_PRICE && price.value >= MIN_REASONABLE_PRICE
  }

  /** A finite dollar price between a billionth and a million, both included. */
  predicate Sane(price: UsdPrice) { price.Some? && 0.000000001 <= price.value <= 1000000.0 }

  lemma ValidIsSane(price: UsdPrice)
    ensures ValidatePriceData(price) <==> Sane(price)
  {
  }

  /** The first mint without a price, or with an insane one, is the one complained about. */
  predicate ComplainsAbout(response: map<string, UsdPrice>, mints: seq<string>, i: nat, e: OracleError) {
    && i < |mints| && (forall j | 0 <= j < i :: mints[j] in response && Sane(response[mints[j]]))
    && (mints[i] !in response ==> e == NoPriceData(mints[i]))
    && (mints[i] in response ==> !Sane(response[mints[i]]) && e == BadPrice(mints[i]))
  }

  /** Both prices within the sanity bounds: the quotient is within their square, and is 1 for equal prices. */
  lemma QuotientBounds(token: real, sol: real)
    requires MIN_REASONABLE_PRICE <= token <= MAX_REASONABLE_PRICE
    requires MIN_REASONABLE_PRICE <= sol <= MAX_REASONABLE_PRICE
    ensures 0.000000000000001 <= token / sol <= 1000000000000000.0
    ensures token == sol ==> token / sol == 1.0
  {
    var q := token / sol;
    assert q * sol == token;
    Positive(token, sol);
    if q > 1000000000000000.0 {
      ProductGrows(1000000000000000.0, q, MIN_REASONABLE_PRICE, sol);
    }
    if q < 0.000000000000001 {
      ProductGrows(q, 0.000000000000001, sol, MAX_REASONABLE_PRICE);
    }
  }

  lemma Positive(a: real, b: real)
    requires a > 0.0 && b > 0.0
    ensures a / b > 0.0 && a / a == 1.0
  {
  }

  lemma ProductGrows(a: real, b: real, c: real, d: real)
    requires 0.0 < a < b && 0.0 < c <= d
    ensures a * c < b * d
  {
    assert b * c - a * c == (b - a) * c > 0.0;
    assert b * d - b * c == b * (d - c) >= 0.0;
  }

  function InSol(token: real, sol: real): TokenPrice
    requires sol != 0.0
  {
    TokenPrice(token / sol, JUPITER_DEFAULT_CONFIDENCE, Jupiter)
  }

  lemma PricedInSol(token: real, sol: real)
    requires ValidatePriceData(Some(token)) && ValidatePriceData(Some(sol))
    ensures var price := InSol(token, sol).price;
            && price * sol == token && 0.000000000000001 <= price <= 1000000000000000.0
            && (token == sol ==> price == 1.0)
  {
    QuotientBounds(token, sol);
  }

  /** The conversion of a parsed answer: it succeeds exactly when SOL and every requested mint have a
      sane dollar price, and then prices exactly the requested mints, each in SOL. */
  method ConvertToSol(response: map<string, UsdPrice>, mints: seq<string>) returns (r: Result<Prices, OracleError>)
    ensures mints == [] ==> r == Ok(map[])
    ensures mints != [] ==> (r.Ok? <==>
              && SOL_MINT in response && Sane(response[SOL_MINT])
              && forall m | m in mints :: m in response && Sane(response[m]))
    ensures r.Err? ==> exists i: nat :: ComplainsAbout(response, [SOL_MINT] + mints, i, r.error)
    ensures r.Ok? && mints != [] ==>
              && r.value.Keys == (set m | m in mints)
              && (forall m | m in mints ::
                    && r.value[m].price * response[SOL_MINT].value == response[m].value
                    && 0.000000000000001 <= r.value[m].price <= 1000000000000000.0
                    && r.value[m].source == Jupiter && r.value[m].confidence == 0.95)
              && (SOL_MINT in mints ==> r.value[SOL_MINT].price == 1.0)
  {
    if mints == [] { return Ok(map[]); }
    ghost var asked := [SOL_MINT] + mints;
    if SOL_MINT !in response {
      assert ComplainsAbout(response, asked, 0, NoPriceData(SOL_MINT));
      return Err(NoPriceData(SOL_MINT));
    }
    var sol := response[SOL_MINT];
    if !ValidatePriceData(sol) {
      assert ComplainsAbout(response, asked, 0, BadPrice(SOL_MINT));
      return Err(BadPrice(SOL_MINT));
    }
    var result: Prices := map[];
    for i := 0 to |mints|
      invariant forall j | 0 <= j < i :: mints[j] in response && ValidatePriceData(response[mints[j]])
      invariant result.Keys == (set m | m in mints[..i])
      invariant forall m | m in result :: m in response && ValidatePriceData(response[m])
                  && result[m] == InSol(response[m].value, sol.value)
    {
      var mint := mints[i];
      assert mint in mints && mints[..i + 1] == mints[..i] + [mint];
      assert asked[i + 1] == mint && forall j | 0 < j <= i :: asked[j] == mints[j - 1];
      if mint !in response {
        assert ComplainsAbout(response, asked, i + 1, NoPriceData(mint));
        return Err(NoPriceData(mint));
      }
      if !ValidatePriceData(response[mint]) {
        assert ComplainsAbout(response, asked, i + 1, BadPrice(mint));
        return Err(BadPrice(mint));
      }
      result := result[mint := InSol(response[mint].value, sol.value)];
    }
    assert mints[..|mints|] == mints;
    forall m | m in mints
      ensures
        && result[m].price * sol.value == response[m].value
        && 0.000000000000001 <= result[m].price <= 1000000000000000.0
        && (m == SOL_MINT ==> result[m].price == 1.0)
    {
      PricedInSol(response[m].value, sol.value);
    }
    assert mints[0] in result;
    return Ok(result);
  }
}
