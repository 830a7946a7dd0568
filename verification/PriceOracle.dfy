/** Layer 1: momentum spreads between token pairs, the candidate list an agent builds from them, best first,
    and the agent's rotation through that list from one cycle to the next. */
module PriceOracle {
  import opened Results
  import Policy

  const TOKENS: set<string> := {"SOL", "USDC", "RAY", "BONK"}
  const SPREAD_PAIRS: seq<(string, string)> := [("SOL", "USDC"), ("RAY", "SOL"), ("BONK", "SOL"), ("RAY", "USDC")]
  const NEUTRAL_BELOW: real := 0.5

  /** One entry of the spreads record: its key `BASE_QUOTE` and its value. */
  datatype Spread = Spread(key: string, spreadPct: real, direction: string)

  datatype PriceData = PriceData(timestamp: int, stale: bool, prices: Policy.Prices, spreads: seq<Spread>,
                                 quote: Option<Policy.Quote>)

  datatype Candidate = Candidate(from: string, to: string, spreadPct: real)

  function Change(prices: Policy.Prices, token: string): real {
    match token
    case "SOL" => prices.sol.change24h
    case "USDC" => prices.usdc.change24h
    case "RAY" => prices.ray.change24h
    case _ => prices.bonk.change24h
  }

  /** `Math.round(x * 1000) / 1000` */
  function Round3(x: real): real { (x * 1000.0 + 0.5).Floor as real / 1000.0 }

  function CalculateSpread(base: string, quote: string, prices: Policy.Prices): Spread {
    var divergence := Change(prices, base) - Change(prices, quote);
    var spreadPct := Policy.Abs(divergence);
    Spread(base + "_" + quote, Round3(spreadPct),
           if spreadPct < NEUTRAL_BELOW then "neutral"
           else if divergence > 0.0 then base + "_overpriced"
           else quote + "_overpriced")
  }

  function SpreadsOf(pairs: seq<(string, string)>, prices: Policy.Prices): seq<Spread> {
    seq(|pairs|, i requires 0 <= i < |pairs| => CalculateSpread(pairs[i].0, pairs[i].1, prices))
  }

  method BuildSpreads(prices: Policy.Prices) returns (spreads: seq<Spread>)
    ensures spreads == SpreadsOf(SPREAD_PAIRS, prices)
    ensures |spreads| == 4 && spreads[0].key == "SOL_USDC" && spreads[1].key == "RAY_SOL"
        && spreads[2].key == "BONK_SOL" && spreads[3].key == "RAY_USDC"
  {
    spreads := [];
    for i := 0 to |SPREAD_PAIRS|
      invariant spreads == SpreadsOf(SPREAD_PAIRS[..i], prices)
    {
      spreads := spreads + [CalculateSpread(SPREAD_PAIRS[i].0, SPREAD_PAIRS[i].1, prices)];
    }
    assert SPREAD_PAIRS[..|SPREAD_PAIRS|] == SPREAD_PAIRS;
  }

  // ----- The candidate list ---------------------------------------------------------------------

  function IndexOf(s: string, c: char): nat {
    if s == "" || s[0] == c then 0 else 1 + IndexOf(s[1..], c)
  }

  /** The first two parts of `key.split('_')`. */
  function SplitKey(key: string): (string, string) {
    var i := IndexOf(key, '_');
    if i >= |key| then (key, "")
    else var rest := key[i + 1..]; (key[..i], rest[..Min(IndexOf(rest, '_'), |rest|)])
  }

  /** The pair of a spread that is not neutral: from the token named by the direction to the other. */
  function Orient(s: Spread): Candidate {
    var (a, b) := SplitKey(s.key);
    if a <= s.direction then Candidate(a, b, s.spreadPct) else Candidate(b, a, s.spreadPct)
  }

  function Oriented(spreads: seq<Spread>): seq<Candidate> {
    if spreads == [] then []
    else
      var last := spreads[|spreads| - 1];
      Oriented(spreads[..|spreads| - 1]) + if last.direction == "neutral" then [] else [Orient(last)]
  }

  function InsertDescending(c: Candidate, sorted: seq<Candidate>): seq<Candidate> {
    if sorted == [] || c.spreadPct > sorted[0].spreadPct then [c] + sorted
    else [sorted[0]] + InsertDescending(c, sorted[1..])
  }

  /** The stable sort by `b.spreadPct - a.spreadPct`. */
  function SortDescending(cs: seq<Candidate>): seq<Candidate> {
    if cs == [] then [] else InsertDescending(cs[|cs| - 1], SortDescending(cs[..|cs| - 1]))
  }

  predicate Descending(cs: seq<Candidate>) {
    forall i, j | 0 <= i < j < |cs| :: cs[i].spreadPct >= cs[j].spreadPct
  }

  lemma {:induction false} InsertMembers(c: Candidate, sorted: seq<Candidate>)
    ensures multiset(InsertDescending(c, sorted)) == multiset(sorted) + multiset{c}
  {
    if sorted != [] && c.spreadPct <= sorted[0].spreadPct {
      InsertMembers(c, sorted[1..]);
      assert sorted == [sorted[0]] + sorted[1..];
    }
  }

  lemma {:induction false} InsertKeepsOrder(c: Candidate, sorted: seq<Candidate>)
    requires Descending(sorted)
    ensures Descending(InsertDescending(c, sorted))
  {
    if sorted != [] && c.spreadPct <= sorted[0].spreadPct {
      var rest := InsertDescending(c, sorted[1..]);
      InsertKeepsOrder(c, sorted[1..]);
      InsertMembers(c, sorted[1..]);
      forall k | 0 <= k < |rest| ensures sorted[0].spreadPct >= rest[k].spreadPct {
        assert rest[k] in multiset(rest);
        assert rest[k] == c || rest[k] in sorted[1..];
      }
    }
  }

  lemma {:induction false} SortsDescending(cs: seq<Candidate>)
    ensures Descending(SortDescending(cs))
    ensures multiset(SortDescending(cs)) == multiset(cs)
  {
    if cs != [] {
      SortsDescending(cs[..|cs| - 1]);
      InsertKeepsOrder(cs[|cs| - 1], SortDescending(cs[..|cs| - 1]));
      InsertMembers(cs[|cs| - 1], SortDescending(cs[..|cs| - 1]));
      assert cs == cs[..|cs| - 1] + [cs[|cs| - 1]];
    }
  }

  function CandidatesOf(spreads: seq<Spread>): seq<Candidate> { SortDescending(Oriented(spreads)) }

  lemma {:induction false} SplitJoined(a: string, b: string)
    requires '_' !in a && '_' !in b
    ensures SplitKey(a + "_" + b) == (a, b)
  {
    IndexOfSeparator(a, b);
    NoSeparator(b);
    var key := a + "_" + b;
    assert key[..|a|] == a && key[|a| + 1..] == b;
    assert b[..|b|] == b;
  }

  lemma {:induction false} IndexOfSeparator(a: string, b: string)
    requires '_' !in a
    ensures IndexOf(a + "_" + b, '_') == |a|
  {
    if a != "" {
      assert (a + "_" + b)[1..] == a[1..] + "_" + b;
      IndexOfSeparator(a[1..], b);
    }
  }

  lemma {:induction false} NoSeparator(b: string)
    requires '_' !in b
    ensures IndexOf(b, '_') == |b|
  {
    if b != "" {
      NoSeparator(b[1..]);
    }
  }

  /** Token names contain no separator and start with different letters, so a direction identifies its token. */
  lemma TokenNames(a: string, b: string)
    requires a in TOKENS && b in TOKENS && a != b
    ensures '_' !in a && '_' !in b && a != "" && b != "" && a[0] != b[0]
  {
  }

  /** The 24h change of one of the four tokens. */
  predicate ChangeIs(prices: Policy.Prices, token: string, change: real) {
    && token in {"SOL", "USDC", "RAY", "BONK"}
    && (token == "SOL" ==> change == prices.sol.change24h) && (token == "USDC" ==> change == prices.usdc.change24h)
    && (token == "RAY" ==> change == prices.ray.change24h) && (token == "BONK" ==> change == prices.bonk.change24h)
  }

  /** `y` has at most three decimals and is nearest to `x`, the larger one on a tie. */
  predicate NearestThreeDecimals(x: real, y: real) {
    (y * 1000.0).Floor as real == y * 1000.0 && x - 0.0005 < y <= x + 0.0005
  }

  lemma Round3Nearest(x: real)
    ensures NearestThreeDecimals(x, Round3(x))
  {
    var n := (x * 1000.0 + 0.5).Floor;
    assert Round3(x) * 1000.0 == n as real;
    assert (n as real).Floor == n;
  }

  /** The candidate of a pair goes from the token with the stronger momentum to the weaker one, by at
      least half a percentage point; its spread is that difference, rounded. A smaller difference makes the
      pair neutral. */
  lemma PairOriented(base: string, quote: string, prices: Policy.Prices, b: real, q: real)
    requires ChangeIs(prices, base, b) && ChangeIs(prices, quote, q) && base != quote
    ensures var s := CalculateSpread(base, quote, prices);
            && s.key == base + "_" + quote && NearestThreeDecimals(if b >= q then b - q else q - b, s.spreadPct)
            && (s.direction == "neutral" <==> -0.5 < b - q < 0.5)
            && (b - q >= 0.5 ==>
                s.direction == base + "_overpriced" && Orient(s) == Candidate(base, quote, s.spreadPct))
            && (q - b >= 0.5 ==>
                s.direction == quote + "_overpriced" && Orient(s) == Candidate(quote, base, s.spreadPct))
  {
    Round3Nearest(if b >= q then b - q else q - b);
    Directions(base, quote);
    var s := CalculateSpread(base, quote, prices);
    SpreadOf(base, quote, prices, b, q);
    OrientOf(base, quote, s);
  }

  lemma Directions(base: string, quote: string)
    requires base in TOKENS && quote in TOKENS && base != quote
    ensures base + "_overpriced" != "neutral" && quote + "_overpriced" != "neutral"
    ensures base + "_overpriced" != quote + "_overpriced"
  {
    TokenNames(base, quote);
    assert |base + "_overpriced"| > |"neutral"| && |quote + "_overpriced"| > |"neutral"|;
    assert (base + "_overpriced")[0] == base[0] && (quote + "_overpriced")[0] == quote[0];
  }

  lemma SpreadOf(base: string, quote: string, prices: Policy.Prices, b: real, q: real)
    requires ChangeIs(prices, base, b) && ChangeIs(prices, quote, q)
    ensures CalculateSpread(base, quote, prices)
        == Spread(base + "_" + quote, Round3(if b >= q then b - q else q - b),
             if -0.5 < b - q < 0.5 then "neutral" else if b > q then base + "_overpriced" else quote + "_overpriced")
  {
    assert Change(prices, base) == b && Change(prices, quote) == q;
  }

  lemma OrientOf(base: string, quote: string, s: Spread)
    requires base in TOKENS && quote in TOKENS && base != quote && s.key == base + "_" + quote
    ensures s.direction == base + "_overpriced" ==> Orient(s) == Candidate(base, quote, s.spreadPct)
    ensures s.direction == quote + "_overpriced" ==> Orient(s) == Candidate(quote, base, s.spreadPct)
  {
    TokenNames(base, quote);
    SplitJoined(base, quote);
    assert base <= base + "_overpriced";
    assert (quote + "_overpriced")[0] == quote[0];
  }

  /** The candidate leads from a token to one whose change was at least half a percentage point smaller. */
  predicate LeadsDown(c: Candidate, prices: Policy.Prices, f: real, t: real) {
    && ChangeIs(prices, c.from, f) && ChangeIs(prices, c.to, t)
    && f - t >= 0.5 && NearestThreeDecimals(f - t, c.spreadPct)
  }

  ghost predicate WellOriented(c: Candidate, prices: Policy.Prices) {
    exists f, t :: LeadsDown(c, prices, f, t)
  }

  /** The candidates with a given spread, in order. */
  function WithSpread(cs: seq<Candidate>, x: real): seq<Candidate> {
    if cs == [] then [] else (if cs[0].spreadPct == x then [cs[0]] else []) + WithSpread(cs[1..], x)
  }

  lemma {:induction false} WithSpreadAppend(cs: seq<Candidate>, c: Candidate, x: real)
    ensures WithSpread(cs + [c], x) == WithSpread(cs, x) + (if c.spreadPct == x then [c] else [])
  {
    if cs != [] {
      assert (cs + [c])[1..] == cs[1..] + [c];
      WithSpreadAppend(cs[1..], c, x);
    } else {
      assert [c][1..] == [];
    }
  }

  lemma {:induction false} NoneWithSpread(cs: seq<Candidate>, x: real)
    requires forall c | c in cs :: c.spreadPct != x
    ensures WithSpread(cs, x) == []
  {
    if cs != [] {
      assert cs[0] in cs;
      NoneWithSpread(cs[1..], x);
    }
  }

  lemma {:induction false} InsertIsStable(c: Candidate, sorted: seq<Candidate>, x: real)
    requires Descending(sorted)
    ensures WithSpread(InsertDescending(c, sorted), x)
        == WithSpread(sorted, x) + (if c.spreadPct == x then [c] else [])
  {
    if sorted == [] || c.spreadPct > sorted[0].spreadPct {
      if c.spreadPct == x { NoneWithSpread(sorted, x); }
      assert ([c] + sorted)[1..] == sorted;
    } else {
      InsertIsStable(c, sorted[1..], x);
      assert ([sorted[0]] + InsertDescending(c, sorted[1..]))[1..] == InsertDescending(c, sorted[1..]);
    }
  }

  /** Candidates with equal spreads keep their order. */
  lemma {:induction false} SortIsStable(cs: seq<Candidate>, x: real)
    ensures WithSpread(SortDescending(cs), x) == WithSpread(cs, x)
  {
    if cs != [] {
      var front := cs[..|cs| - 1];
      SortIsStable(front, x);
      IsSorted(front);
      InsertIsStable(cs[|cs| - 1], SortDescending(front), x);
      WithSpreadOfLast(cs, x);
    }
  }

  lemma IsSorted(cs: seq<Candidate>)
    ensures Descending(SortDescending(cs))
  {
    SortsDescending(cs);
  }

  lemma WithSpreadOfLast(cs: seq<Candidate>, x: real)
    requires cs != []
    ensures var last := cs[|cs| - 1];
            WithSpread(cs, x) == WithSpread(cs[..|cs| - 1], x) + (if last.spreadPct == x then [last] else [])
  {
    assert cs == cs[..|cs| - 1] + [cs[|cs| - 1]];
    WithSpreadAppend(cs[..|cs| - 1], cs[|cs| - 1], x);
  }

  /** Neutral pairs are left out, the others oriented and kept in order. */
  lemma OrientedAppend(spreads: seq<Spread>, s: Spread)
    ensures Oriented([]) == []
    ensures Oriented(spreads + [s]) == Oriented(spreads) + (if s.direction == "neutral" then [] else [Orient(s)])
  {
    assert (spreads + [s])[..|spreads|] == spreads;
  }

  /** The list is a permutation of the oriented non-neutral pairs in descending order of spread; every pair
      that is not neutral is in it. */
  lemma CandidatesMeaning(prices: Policy.Prices)
    ensures var spreads := SpreadsOf(SPREAD_PAIRS, prices);
            var cs := CandidatesOf(spreads);
            && Descending(cs) && multiset(cs) == multiset(Oriented(spreads))
            && (forall c | c in cs :: WellOriented(c, prices))
            && (forall i | 0 <= i < |spreads| && spreads[i].direction != "neutral" :: Orient(spreads[i]) in cs)
  {
    var spreads := SpreadsOf(SPREAD_PAIRS, prices);
    SortsDescending(Oriented(spreads));
    forall i | 0 <= i < |spreads| && spreads[i].direction != "neutral"
      ensures Orient(spreads[i]) in CandidatesOf(spreads)
    {
      OrientedFrom(spreads, Orient(spreads[i]));
      assert Orient(spreads[i]) in multiset(Oriented(spreads));
      assert Orient(spreads[i]) in multiset(CandidatesOf(spreads));
    }
    forall c | c in CandidatesOf(spreads) ensures WellOriented(c, prices) {
      assert c in multiset(CandidatesOf(spreads));
      assert c in multiset(Oriented(spreads));
      CandidateWellOriented(prices, c);
    }
  }

  lemma CandidateWellOriented(prices: Policy.Prices, c: Candidate)
    requires c in Oriented(SpreadsOf(SPREAD_PAIRS, prices))
    ensures WellOriented(c, prices)
  {
    var spreads := SpreadsOf(SPREAD_PAIRS, prices);
    OrientedFrom(spreads, c);
    var i :| 0 <= i < |spreads| && spreads[i].direction != "neutral" && c == Orient(spreads[i]);
    PairsAreTokens(i);
    OrientedLeadsDown(SPREAD_PAIRS[i].0, SPREAD_PAIRS[i].1, prices, c);
  }

  lemma OrientedLeadsDown(base: string, quote: string, prices: Policy.Prices, c: Candidate)
    requires base in TOKENS && quote in TOKENS && base != quote
    requires var s := CalculateSpread(base, quote, prices); s.direction != "neutral" && c == Orient(s)
    ensures WellOriented(c, prices)
  {
    var b, q := Change(prices, base), Change(prices, quote);
    PairOriented(base, quote, prices, b, q);
    if b >= q { assert LeadsDown(c, prices, b, q); } else { assert LeadsDown(c, prices, q, b); }
  }

  lemma PairsAreTokens(i: nat)
    requires i < |SPREAD_PAIRS|
    ensures SPREAD_PAIRS[i].0 in TOKENS && SPREAD_PAIRS[i].1 in TOKENS && SPREAD_PAIRS[i].0 != SPREAD_PAIRS[i].1
  {
    assert "SOL"[0] != "USDC"[0] && "RAY"[0] != "SOL"[0] && "BONK"[0] != "SOL"[0] && "RAY"[0] != "USDC"[0];
  }

  lemma {:induction false} OrientedFrom(spreads: seq<Spread>, c: Candidate)
    ensures c in Oriented(spreads) <==>
            exists i | 0 <= i < |spreads| :: spreads[i].direction != "neutral" && c == Orient(spreads[i])
  {
    if spreads != [] {
      var front := spreads[..|spreads| - 1];
      OrientedFrom(front, c);
      assert forall i | 0 <= i < |front| :: front[i] == spreads[i];
    }
  }

  // ----- The rotation -----------------------------------------------------------------------------

  /** The rank looked at with a stored index, and the index stored next. */
  function Rank(index: nat, n: nat): nat
    requires n > 0
  {
    index % n
  }

  function NextIndex(index: nat, n: nat): nat
    requires n > 0
  {
    (Rank(index, n) + 1) % n
  }

  /** The ranks looked at in k consecutive cycles over a list of constant length. */
  function Ranks(index: nat, n: nat, k: nat): seq<nat>
    requires n > 0
    decreases k
  {
    if k == 0 then [] else [Rank(index, n)] + Ranks(NextIndex(index, n), n, k - 1)
  }

  function Shifted(v: nat, j: nat, n: nat): int { if v + j < n then v + j else v + j - n }

  lemma NextIndexCases(index: nat, n: nat)
    requires n > 0
    ensures NextIndex(index, n) == Shifted(index % n, 1, n) && NextIndex(index, n) % n == NextIndex(index, n)
  {
    assert 0 <= index % n < n;
    if index % n + 1 == n {
      assert (index % n + 1) % n == 0;
    }
  }

  lemma {:induction false} RanksClosedForm(index: nat, n: nat, k: nat)
    requires 0 < n && k <= n
    ensures |Ranks(index, n, k)| == k
    ensures forall j: nat | j < k :: Ranks(index, n, k)[j] == Shifted(index % n, j, n)
    decreases k
  {
    if k > 0 {
      NextIndexCases(index, n);
      RanksClosedForm(NextIndex(index, n), n, k - 1);
    }
  }

  /** Any n consecutive cycles over a list of n candidates look at every rank exactly once,
      whatever index earlier cycles over lists of other lengths have left behind. */
  lemma RotationIsFair(index: nat, n: nat, rank: nat)
    requires rank < n
    ensures |Ranks(index, n, n)| == n
    ensures exists j: nat | j < n :: Ranks(index, n, n)[j] == rank && forall i: nat | i < n
        && i != j :: Ranks(index, n, n)[i] != rank
  {
    RanksClosedForm(index, n, n);
    var v := index % n;
    var j: nat := if rank >= v then rank - v else rank + n - v;
    assert j < n && Ranks(index, n, n)[j] == rank;
  }

  /** The part of an agent that survives a cycle. */
  class Agent {
    var cycleCount: nat
    var prescanRotationIndex: nat

    constructor ()
      ensures cycleCount == 0 && prescanRotationIndex == 0
    {
      cycleCount, prescanRotationIndex := 0, 0;
    }

    method BeginCycle() returns (cycle: nat)
      modifies this`cycleCount
      ensures cycle == cycleCount == old(cycleCount) + 1
    {
      cycleCount := cycleCount + 1;
      cycle := cycleCount;
    }

    method BuildCandidateList(spreads: seq<Spread>) returns (candidates: seq<Candidate>)
      ensures candidates == CandidatesOf(spreads)
      ensures Descending(candidates)
    {
      candidates := [];
      for i := 0 to |spreads|
        invariant candidates == Oriented(spreads[..i])
      {
        assert spreads[..i + 1][..i] == spreads[..i];
        if spreads[i].direction == "neutral" {
          continue;
        }
        var (tokenA, tokenB) := SplitKey(spreads[i].key);
        var pair := if tokenA <= spreads[i].direction then Candidate(tokenA, tokenB, spreads[i].spreadPct)
                    else Candidate(tokenB, tokenA, spreads[i].spreadPct);
        candidates := candidates + [pair];
      }
      assert spreads[..|spreads|] == spreads;
      SortsDescending(candidates);
      candidates := SortDescending(candidates);
    }

    /** Picks the next pair of the rotation; an empty list leaves the index alone. */
    method NextPrescan(candidates: seq<Candidate>) returns (pick: Option<Candidate>)
      modifies this`prescanRotationIndex
      ensures candidates == [] ==> pick == None && prescanRotationIndex == old(prescanRotationIndex)
      ensures candidates != [] ==>
                var rank := old(prescanRotationIndex) % |candidates|;
                && pick == Some(candidates[rank])
                && prescanRotationIndex == if rank + 1 == |candidates| then 0 else rank + 1
    {
      if candidates != [] { NextIndexCases(prescanRotationIndex, |candidates|); }
      pick := None;
      if |candidates| > 0 {
        var idx := prescanRotationIndex % |candidates|;
        pick := Some(candidates[idx]);
        prescanRotationIndex := (idx + 1) % |candidates|;
      }
    }
  }
}
