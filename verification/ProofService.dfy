/** Layer 5: the canonical serialization of a proof payload, the anchored hash and its verification, and
    what the hash binds of a payload, which is less than it shows. SHA-256 and Number::toString are
    parameters. */
module ProofService {
  import opened Results
  import opened Json
  import Policy
  import PriceOracle

  // ----- `Object.keys(payload).sort()` --------------------------------------------------------------

  /** The order of `Array.prototype.sort` on strings: by code units, a proper prefix first. */
  predicate Before(a: string, b: string) {
    b != "" && (a == "" || a[0] < b[0] || (a[0] == b[0] && Before(a[1..], b[1..])))
  }

  function InsertSorted(k: string, ks: seq<string>): seq<string> {
    if ks == [] || Before(k, ks[0]) then [k] + ks else [ks[0]] + InsertSorted(k, ks[1..])
  }

  function SortStrings(ks: seq<string>): seq<string> {
    if ks == [] then [] else InsertSorted(ks[0], SortStrings(ks[1..]))
  }

  predicate StrictlySorted(ks: seq<string>) {
    forall i, j | 0 <= i < j < |ks| :: Before(ks[i], ks[j])
  }

  predicate Distinct(ks: seq<string>) {
    forall i, j | 0 <= i < j < |ks| :: ks[i] != ks[j]
  }

  lemma {:induction false} BeforeIrreflexive(a: string)
    ensures !Before(a, a)
  {
    if a != "" {
      BeforeIrreflexive(a[1..]);
    }
  }

  lemma {:induction false} BeforeTotal(a: string, b: string)
    requires a != b
    ensures Before(a, b) || Before(b, a)
  {
    if a != "" && b != "" && a[0] == b[0] {
      assert a == [a[0]] + a[1..] && b == [b[0]] + b[1..];
      BeforeTotal(a[1..], b[1..]);
    }
  }

  lemma {:induction false} BeforeTransitive(a: string, b: string, c: string)
    requires Before(a, b) && Before(b, c)
    ensures Before(a, c)
  {
    if a != "" && a[0] == b[0] == c[0] {
      BeforeTransitive(a[1..], b[1..], c[1..]);
    }
  }

  lemma {:induction false} InsertIntoSorted(k: string, ks: seq<string>)
    requires StrictlySorted(ks) && k !in ks
    ensures StrictlySorted(InsertSorted(k, ks))
    ensures forall x :: x in InsertSorted(k, ks) <==> x == k || x in ks
  {
    if ks != [] && Before(k, ks[0]) {
      forall j | 0 <= j < |ks| ensures Before(k, ks[j]) {
        if j > 0 {
          BeforeTransitive(k, ks[0], ks[j]);
        }
      }
    } else if ks != [] {
      var rest := InsertSorted(k, ks[1..]);
      InsertIntoSorted(k, ks[1..]);
      BeforeTotal(k, ks[0]);
      assert ks == [ks[0]] + ks[1..];
      forall j | 0 <= j < |rest| ensures Before(ks[0], rest[j]) {
        assert rest[j] in rest;
      }
    }
  }

  lemma {:induction false} SortsDistinct(ks: seq<string>)
    requires Distinct(ks)
    ensures StrictlySorted(SortStrings(ks))
    ensures forall x :: x in SortStrings(ks) <==> x in ks
  {
    if ks != [] {
      SortsDistinct(ks[1..]);
      assert ks[0] !in ks[1..];
      InsertIntoSorted(ks[0], SortStrings(ks[1..]));
    }
  }

  /** A set of strings has one strictly sorted listing. */
  lemma {:induction false} SortedListingUnique(xs: seq<string>, ys: seq<string>)
    requires StrictlySorted(xs) && StrictlySorted(ys)
    requires forall x :: x in xs <==> x in ys
    ensures xs == ys
  {
    assert ys != [] ==> ys[0] in ys;
    if xs != [] {
      assert xs[0] in xs;
      SameHead(xs, ys);
      SameTail(xs, ys);
      SortedListingUnique(xs[1..], ys[1..]);
    }
  }

  lemma SameHead(xs: seq<string>, ys: seq<string>)
    requires xs != [] && ys != [] && StrictlySorted(xs) && StrictlySorted(ys)
    requires forall x :: x in xs <==> x in ys
    ensures xs[0] == ys[0]
  {
    assert xs[0] in ys && ys[0] in xs;
    if xs[0] != ys[0] {
      BeforeTransitive(xs[0], ys[0], xs[0]);
      BeforeIrreflexive(xs[0]);
    }
  }

  lemma SameTail(xs: seq<string>, ys: seq<string>)
    requires xs != [] && ys != [] && StrictlySorted(xs) && StrictlySorted(ys) && xs[0] == ys[0]
    requires forall x :: x in xs <==> x in ys
    ensures forall x :: x in xs[1..] <==> x in ys[1..]
  {
    BeforeIrreflexive(xs[0]);
    forall x ensures x in xs[1..] <==> x in xs && x != xs[0] {
      if x in xs[1..] {
        var j :| 0 <= j < |xs[1..]| && xs[1..][j] == x;
        assert Before(xs[0], xs[j + 1]);
      }
    }
    forall x ensures x in ys[1..] <==> x in ys && x != ys[0] {
      if x in ys[1..] {
        var j :| 0 <= j < |ys[1..]| && ys[1..][j] == x;
        assert Before(ys[0], ys[j + 1]);
      }
    }
  }

  // ----- Serialization and verification ---------------------------------------------------------------

  /** `JSON.stringify(payload, Object.keys(payload).sort())` */
  function SerializePayload(payload: Json): string
    requires payload.Obj?
  {
    Serialize(payload, KeysOf(payload))
  }

  /** `Object.keys(payload).sort()` */
  function KeysOf(payload: Json): seq<string>
    requires payload.Obj?
  {
    SortStrings(KeyList(payload.fields))
  }

  function Anchor(payload: Json, sha256: string -> string): string
    requires payload.Obj?
  {
    sha256(SerializePayload(payload))
  }

  predicate Verify(payload: Json, expectedHash: string, sha256: string -> string)
    requires payload.Obj?
  {
    sha256(SerializePayload(payload)) == expectedHash
  }

  lemma SortedKeysAgree(v: Json, w: Json)
    requires v.Obj? && w.Obj? && SameData(v, w) && Distinct(KeyList(v.fields)) && Distinct(KeyList(w.fields))
    ensures SortStrings(KeyList(v.fields)) == SortStrings(KeyList(w.fields))
  {
    SortsDistinct(KeyList(v.fields));
    SortsDistinct(KeyList(w.fields));
    SortedListingUnique(SortStrings(KeyList(v.fields)), SortStrings(KeyList(w.fields)));
  }

  /** Serialization does not depend on the order of properties at any depth. */
  lemma PayloadIgnoresOrder(v: Json, w: Json)
    requires v.Obj? && w.Obj? && SameData(v, w) && Distinct(KeyList(v.fields)) && Distinct(KeyList(w.fields))
    ensures SerializePayload(v) == SerializePayload(w)
  {
    SortedKeysAgree(v, w);
    SerializeIgnoresOrder(v, w, SortStrings(KeyList(v.fields)));
  }

  /** Every anchored payload verifies, also after a store has reordered its properties. */
  lemma AnchoredVerifies(payload: Json, stored: Json, sha256: string -> string)
    requires payload.Obj? && stored.Obj? && SameData(payload, stored)
    requires Distinct(KeyList(payload.fields)) && Distinct(KeyList(stored.fields))
    ensures Verify(stored, Anchor(payload, sha256), sha256)
  {
    PayloadIgnoresOrder(payload, stored);
  }

  /** With a hash that does not collide on the two texts, a payload verifies against another's hash
      exactly when their projections are equal, each onto its own top-level keys. The stored payload
      may have gained or lost some of them. */
  lemma VerifiesIffProjectionEqual(payload: Json, other: Json, sha256: string -> string)
    requires payload.Obj? && other.Obj? && Printable(payload) && Printable(other)
    requires sha256(SerializePayload(payload)) == sha256(SerializePayload(other)) ==>
        SerializePayload(payload) == SerializePayload(other)
    ensures Verify(other, Anchor(payload, sha256), sha256) <==>
            Project(payload, KeysOf(payload)) == Project(other, KeysOf(other))
  {
    ParseSerialized(payload, KeysOf(payload));
    ParseSerialized(other, KeysOf(other));
    SerializeShowsProjection(payload, KeysOf(payload));
    SerializeShowsProjection(other, KeysOf(other));
  }

  // ----- The proof payload -----------------------------------------------------------------------------

  datatype GuardianAudit = GuardianAudit(verdict: string, challenge: string, modifiedAmount: Option<real>)

  datatype ProofPayload = ProofPayload(agentId: string, cycle: nat, timestamp: int, decision: Policy.Decision,
                                       guardian: GuardianAudit, checks: seq<Policy.PolicyCheck>,
                                           prices: PriceOracle.PriceData)

  /** Number::toString and the wording of a check, which are not modelled. */
  datatype Texts = Texts(number: real -> string, name: Policy.CheckName -> string, reason: Policy.Reason -> string)

  /** What is used of them: numbers print as number texts, different integers differently. */
  ghost predicate NumberTexts(t: Texts) {
    && (forall x :: IsNumberText(t.number(x)))
    && (forall m: int, n: int :: IntText(m, t) == IntText(n, t) ==> m == n)
  }

  function IntText(n: int, t: Texts): string { t.number(n as real) }

  function IntJson(n: int, t: Texts): Json { Num(IntText(n, t)) }

  function NumJson(x: real, t: Texts): Json { Num(t.number(x)) }

  function StringsJson(ss: seq<string>): Items {
    if ss == [] then NoItems else Item(Str(ss[0]), StringsJson(ss[1..]))
  }

  /** An object literal. */
  function Members(ms: seq<(string, Json)>): Fields {
    if ms == [] then NoFields else Field(ms[0].0, ms[0].1, Members(ms[1..]))
  }

  function DecisionMembers(d: Policy.Decision, t: Texts): seq<(string, Json)> {
    [("decision", Str(d.action)), ("fromToken", Str(d.fromToken)), ("toToken", Str(d.toToken)),
        ("amount", NumJson(d.amount, t)),
     ("confidence", NumJson(d.confidence, t)), ("reasoning", Str(d.reasoning)),
         ("riskFlags", Arr(StringsJson(d.riskFlags)))]
  }

  function AuditMembers(a: GuardianAudit, t: Texts): seq<(string, Json)> {
    [("verdict", Str(a.verdict)), ("challenge", Str(a.challenge)),
     ("modifiedAmount", if a.modifiedAmount.Some? then NumJson(a.modifiedAmount.value, t) else Null)]
  }

  function CheckMembers(c: Policy.PolicyCheck, t: Texts): seq<(string, Json)> {
    [("name", Str(t.name(c.name))), ("passed", Bool(c.passed)), ("reason", Str(t.reason(c.reason)))]
  }

  function ChecksJson(cs: seq<Policy.PolicyCheck>, t: Texts): Items {
    if cs == [] then NoItems else Item(Obj(Members(CheckMembers(cs[0], t))), ChecksJson(cs[1..], t))
  }

  function TokenPriceJson(p: Policy.TokenPrice, t: Texts): Json {
    Obj(Members([("usd", NumJson(p.usd, t)), ("change24h", NumJson(p.change24h, t))]))
  }

  function PricesJson(p: Policy.Prices, t: Texts): Json {
    Obj(Members([("SOL", TokenPriceJson(p.sol, t)), ("USDC", TokenPriceJson(p.usdc, t)),
                 ("RAY", TokenPriceJson(p.ray, t)), ("BONK", TokenPriceJson(p.bonk, t))]))
  }

  function SpreadsJson(ss: seq<PriceOracle.Spread>, t: Texts): Json {
    Obj(Members(seq(|ss|, i requires 0 <= i < |ss| =>
      (ss[i].key, Obj(Members([("spreadPct", NumJson(ss[i].spreadPct, t)), ("direction", Str(ss[i].direction))]))))))
  }

  function QuoteJson(q: Policy.Quote, t: Texts): Json {
    Obj(Members([("fromToken", Str(q.fromToken)), ("toToken", Str(q.toToken)),
                 ("netSpreadVsMarket", NumJson(q.netSpreadVsMarket, t)), ("error", Str(q.error))]))
  }

  function PriceMembers(d: PriceOracle.PriceData, t: Texts): seq<(string, Json)> {
    [("timestamp", IntJson(d.timestamp, t)), ("stale", Bool(d.stale)), ("prices", PricesJson(d.prices, t)),
        ("spreads", SpreadsJson(d.spreads, t))]
    + if d.quote.Some? then [("executionQuote", QuoteJson(d.quote.value, t))] else []
  }

  function PayloadMembers(p: ProofPayload, t: Texts): seq<(string, Json)> {
    [("agentId", Str(p.agentId)), ("cycle", IntJson(p.cycle, t)), ("timestamp", IntJson(p.timestamp, t)),
     ("strategistDecision", Obj(Members(DecisionMembers(p.decision, t)))),
         ("guardianVerdict", Obj(Members(AuditMembers(p.guardian, t)))),
     ("policyChecks", Arr(ChecksJson(p.checks, t))), ("priceSnapshot", Obj(Members(PriceMembers(p.prices, t))))]
  }

  function PayloadJson(p: ProofPayload, t: Texts): Json { Obj(Members(PayloadMembers(p, t))) }

  const PAYLOAD_KEYS: seq<string> :=
    ["agentId", "cycle", "guardianVerdict", "policyChecks", "priceSnapshot", "strategistDecision", "timestamp"]

  lemma PayloadKeysSorted()
    ensures StrictlySorted(PAYLOAD_KEYS)
  {
    assert "cycle"[0] == 'c' && "agentId"[0] == 'a';
    assert Before("agentId", "cycle") && Before("cycle", "guardianVerdict")
        && Before("guardianVerdict", "policyChecks");
    assert Before("policyChecks", "priceSnapshot") by {
      assert "policyChecks"[1..][0] == 'o' && "priceSnapshot"[1..][0] == 'r';
    }
    assert Before("priceSnapshot", "strategistDecision") && Before("strategistDecision", "timestamp");
    AdjacentSorted(PAYLOAD_KEYS);
  }

  lemma {:induction false} AdjacentSorted(ks: seq<string>)
    requires forall i | 0 <= i < |ks| - 1 :: Before(ks[i], ks[i + 1])
    ensures StrictlySorted(ks)
  {
    if |ks| > 1 {
      AdjacentSorted(ks[1..]);
      forall j | 1 <= j < |ks| ensures Before(ks[0], ks[j]) {
        if j > 1 {
          assert Before(ks[1..][0], ks[1..][j - 1]);
          BeforeTransitive(ks[0], ks[1], ks[j]);
        }
      }
      forall i, j | 0 <= i < j < |ks| ensures Before(ks[i], ks[j]) {
        if i > 0 {
          assert Before(ks[1..][i - 1], ks[1..][j - 1]);
        }
      }
    }
  }

  // ----- What the payload's hash binds -------------------------------------------------------------------

  function Names(ms: seq<(string, Json)>): seq<string> {
    seq(|ms|, i requires 0 <= i < |ms| => ms[i].0)
  }

  lemma {:induction false} KeysOfMembers(ms: seq<(string, Json)>)
    ensures KeyList(Members(ms)) == Names(ms)
  {
    if ms != [] {
      KeysOfMembers(ms[1..]);
      assert Names(ms) == [ms[0].0] + Names(ms[1..]);
    }
  }

  lemma {:induction false} LookupMember(ms: seq<(string, Json)>, i: nat)
    requires i < |ms| && Distinct(Names(ms))
    ensures Lookup(Members(ms), ms[i].0) == Some(ms[i].1)
  {
    assert Names(ms)[0] == ms[0].0 && Names(ms)[i] == ms[i].0;
    if i > 0 {
      assert Names(ms[1..]) == Names(ms)[1..];
      LookupMember(ms[1..], i - 1);
    }
  }

  lemma PayloadNames(p: ProofPayload, t: Texts)
    ensures var names := ["agentId", "cycle", "timestamp", "strategistDecision", "guardianVerdict", "policyChecks",
        "priceSnapshot"];
            Names(PayloadMembers(p, t)) == names && Distinct(names) && forall x :: x in names <==> x in PAYLOAD_KEYS
  {
    var names := ["agentId", "cycle", "timestamp", "strategistDecision", "guardianVerdict", "policyChecks",
        "priceSnapshot"];
    assert names[0][0] == 'a' && names[1][0] == 'c' && names[2][0] == 't' && names[3][0] == 's' && names[4][0] == 'g';
    assert names[5][0] == 'p' && names[6][0] == 'p' && names[5][1] == 'o' && names[6][1] == 'r';
  }

  lemma PayloadKeyList(p: ProofPayload, t: Texts)
    ensures SortStrings(KeyList(Members(PayloadMembers(p, t)))) == PAYLOAD_KEYS
  {
    var names := Names(PayloadMembers(p, t));
    KeysOfMembers(PayloadMembers(p, t));
    PayloadNames(p, t);
    PayloadKeysSorted();
    SortsDistinct(names);
    SortedListingUnique(SortStrings(names), PAYLOAD_KEYS);
  }

  predicate Unlisted(k: string) { k !in PAYLOAD_KEYS }

  lemma {:induction false} NothingKept(ms: seq<(string, Json)>, todo: seq<string>)
    requires forall k | k in Names(ms) :: Unlisted(k)
    requires forall k | k in todo :: k in PAYLOAD_KEYS
    ensures ProjectFields(Members(ms), todo, PAYLOAD_KEYS) == NoFields
  {
    if todo != [] {
      KeysOfMembers(ms);
      LookupDefined(Members(ms), todo[0]);
      NothingKept(ms, todo[1..]);
    }
  }

  lemma UnlistedKeys()
    ensures Unlisted("decision") && Unlisted("fromToken") && Unlisted("toToken") && Unlisted("amount")
    ensures Unlisted("confidence") && Unlisted("reasoning") && Unlisted("riskFlags")
    ensures Unlisted("verdict") && Unlisted("challenge") && Unlisted("modifiedAmount")
    ensures Unlisted("name") && Unlisted("passed") && Unlisted("reason")
    ensures Unlisted("stale") && Unlisted("prices") && Unlisted("spreads") && Unlisted("executionQuote")
  {
  }

  lemma DecisionKept(d: Policy.Decision, t: Texts)
    ensures Project(Obj(Members(DecisionMembers(d, t))), PAYLOAD_KEYS) == Obj(NoFields)
  {
    UnlistedKeys();
    assert Names(DecisionMembers(d, t)) == ["decision", "fromToken", "toToken", "amount", "confidence", "reasoning",
        "riskFlags"];
    NothingKept(DecisionMembers(d, t), PAYLOAD_KEYS);
  }

  lemma AuditKept(a: GuardianAudit, t: Texts)
    ensures Project(Obj(Members(AuditMembers(a, t))), PAYLOAD_KEYS) == Obj(NoFields)
  {
    UnlistedKeys();
    assert Names(AuditMembers(a, t)) == ["verdict", "challenge", "modifiedAmount"];
    NothingKept(AuditMembers(a, t), PAYLOAD_KEYS);
  }

  function EmptyObjects(n: nat): Items { if n == 0 then NoItems else Item(Obj(NoFields), EmptyObjects(n - 1)) }

  lemma {:induction false} ChecksKept(cs: seq<Policy.PolicyCheck>, t: Texts)
    ensures ProjectItems(ChecksJson(cs, t), PAYLOAD_KEYS) == EmptyObjects(|cs|)
  {
    if cs != [] {
      UnlistedKeys();
      assert Names(CheckMembers(cs[0], t)) == ["name", "passed", "reason"];
      NothingKept(CheckMembers(cs[0], t), PAYLOAD_KEYS);
      ChecksKept(cs[1..], t);
    }
  }

  /** Only the listed names of an object matter, in list order. */
  lemma {:induction false} OneKept(k: string, v: Json, others: seq<(string, Json)>, todo: seq<string>)
    requires forall n | n in Names(others) :: Unlisted(n)
    requires forall n | n in todo :: n in PAYLOAD_KEYS
    requires Distinct(todo)
    ensures ProjectFields(Field(k, v, Members(others)), todo, PAYLOAD_KEYS)
            == if k in todo then Field(k, Project(v, PAYLOAD_KEYS), NoFields) else NoFields
  {
    if todo != [] {
      KeysOfMembers(others);
      LookupDefined(Members(others), todo[0]);
      assert forall n | n in todo[1..] :: n in todo;
      OneKept(k, v, others, todo[1..]);
    }
  }

  lemma PricesKept(d: PriceOracle.PriceData, t: Texts)
    ensures Project(Obj(Members(PriceMembers(d, t))), PAYLOAD_KEYS)
        == Obj(Field("timestamp", IntJson(d.timestamp, t), NoFields))
  {
    var ms := PriceMembers(d, t);
    UnlistedKeys();
    PayloadKeysSorted();
    SortedDistinct(PAYLOAD_KEYS);
    forall n | n in Names(ms[1..]) ensures Unlisted(n) {
      var i :| 0 <= i < |ms[1..]| && Names(ms[1..])[i] == n;
      assert n == ms[i + 1].0;
    }
    OneKept(ms[0].0, ms[0].1, ms[1..], PAYLOAD_KEYS);
    assert PAYLOAD_KEYS[6] == "timestamp";
  }

  lemma SortedDistinct(ks: seq<string>)
    requires StrictlySorted(ks)
    ensures Distinct(ks)
  {
    forall i, j | 0 <= i < j < |ks| ensures ks[i] != ks[j] {
      BeforeIrreflexive(ks[i]);
    }
  }

  /** All that is left of a payload: the keys of nested objects are filtered by the same list, so that
      of the decision, the verdict and each check only the braces remain. */
  function KeptMembers(p: ProofPayload, t: Texts): seq<(string, Json)> {
    [("agentId", Str(p.agentId)), ("cycle", IntJson(p.cycle, t)), ("guardianVerdict", Obj(NoFields)),
     ("policyChecks", Arr(EmptyObjects(|p.checks|))),
     ("priceSnapshot", Obj(Field("timestamp", IntJson(p.prices.timestamp, t), NoFields))),
     ("strategistDecision", Obj(NoFields)), ("timestamp", IntJson(p.timestamp, t))]
  }

  lemma {:induction false} ProjectListed(fields: Fields, todo: seq<string>, keys: seq<string>,
      kept: seq<(string, Json)>)
    requires |kept| == |todo|
    requires forall i | 0 <= i < |todo| ::
               kept[i].0 == todo[i] && Lookup(fields, todo[i]).Some?
                   && kept[i].1 == Project(Lookup(fields, todo[i]).value, keys)
    ensures ProjectFields(fields, todo, keys) == Members(kept)
  {
    if todo != [] {
      ProjectListed(fields, todo[1..], keys, kept[1..]);
    }
  }

  lemma PayloadLookups(p: ProofPayload, t: Texts)
    ensures forall i: nat | i < 7 ::
              Lookup(Members(PayloadMembers(p, t)), PayloadMembers(p, t)[i].0) == Some(PayloadMembers(p, t)[i].1)
  {
    PayloadNames(p, t);
    forall i: nat | i < 7
      ensures Lookup(Members(PayloadMembers(p, t)), PayloadMembers(p, t)[i].0) == Some(PayloadMembers(p, t)[i].1)
    {
      LookupMember(PayloadMembers(p, t), i);
    }
  }

  /** Where each listed key stands in the payload. */
  const POSITIONS: seq<nat> := [0, 1, 4, 5, 6, 3, 2]

  lemma PayloadKept(p: ProofPayload, t: Texts)
    ensures Project(PayloadJson(p, t), PAYLOAD_KEYS) == Obj(Members(KeptMembers(p, t)))
  {
    var ms, kept := PayloadMembers(p, t), KeptMembers(p, t);
    PayloadLookups(p, t);
    DecisionKept(p.decision, t);
    AuditKept(p.guardian, t);
    ChecksKept(p.checks, t);
    PricesKept(p.prices, t);
    forall i: nat | i < 7
      ensures kept[i].0 == PAYLOAD_KEYS[i] == ms[POSITIONS[i]].0
          && kept[i].1 == Project(ms[POSITIONS[i]].1, PAYLOAD_KEYS)
    {
    }
    ProjectListed(Members(ms), PAYLOAD_KEYS, PAYLOAD_KEYS, kept);
  }

  lemma {:induction false} EmptyObjectsInjective(m: nat, n: nat)
    requires EmptyObjects(m) == EmptyObjects(n)
    ensures m == n
  {
    if m > 0 && n > 0 {
      EmptyObjectsInjective(m - 1, n - 1);
    }
  }

  lemma {:induction false} EmptyObjectsPrintable(n: nat)
    ensures PrintableItems(EmptyObjects(n))
  {
    if n > 0 {
      EmptyObjectsPrintable(n - 1);
    }
  }

  predicate PrintableMembers(ms: seq<(string, Json)>) { forall m | m in ms :: Printable(m.1) }

  lemma {:induction false} MembersPrintable(ms: seq<(string, Json)>)
    requires PrintableMembers(ms)
    ensures PrintableFields(Members(ms))
  {
    if ms != [] {
      assert ms[0] in ms;
      MembersPrintable(ms[1..]);
    }
  }

  lemma KeptPrintable(p: ProofPayload, t: Texts)
    requires NumberTexts(t)
    ensures Printable(Obj(Members(KeptMembers(p, t))))
  {
    EmptyObjectsPrintable(|p.checks|);
    var ms := KeptMembers(p, t);
    assert IsNumberText(IntText(p.cycle, t)) && IsNumberText(IntText(p.timestamp, t))
        && IsNumberText(IntText(p.prices.timestamp, t));
    assert PrintableFields(NoFields);
    assert Printable(ms[4].1) by {
      assert PrintableFields(Field("timestamp", IntJson(p.prices.timestamp, t), NoFields));
    }
    assert Printable(ms[0].1) && Printable(ms[1].1) && Printable(ms[2].1) && Printable(ms[3].1) && Printable(ms[5].1)
        && Printable(ms[6].1);
    MembersPrintable(ms);
  }

  /** The five facts a hash depends on. */
  predicate SameBoundFacts(p: ProofPayload, q: ProofPayload) {
    && p.agentId == q.agentId && p.cycle == q.cycle && p.timestamp == q.timestamp
    && |p.checks| == |q.checks| && p.prices.timestamp == q.prices.timestamp
  }

  lemma {:induction false} MembersInjective(ms: seq<(string, Json)>, ns: seq<(string, Json)>)
    requires |ms| == |ns| && Members(ms) == Members(ns)
    ensures ms == ns
  {
    if ms != [] {
      MembersInjective(ms[1..], ns[1..]);
      assert ms == [ms[0]] + ms[1..] && ns == [ns[0]] + ns[1..];
    }
  }

  lemma KeptEqualIff(p: ProofPayload, q: ProofPayload, t: Texts)
    requires NumberTexts(t)
    ensures Obj(Members(KeptMembers(p, t))) == Obj(Members(KeptMembers(q, t))) <==> SameBoundFacts(p, q)
  {
    var ms, ns := KeptMembers(p, t), KeptMembers(q, t);
    if Members(ms) == Members(ns) {
      MembersInjective(ms, ns);
      assert ms[0] == ns[0] && ms[1] == ns[1] && ms[3] == ns[3] && ms[4] == ns[4] && ms[6] == ns[6];
      EmptyObjectsInjective(|p.checks|, |q.checks|);
    }
  }

  /** Two payloads have the same serialization exactly when they agree on the agent, the cycle, the two
      timestamps and the number of checks. The hash says nothing about the decision, its amount, the
      guardian's verdict, the outcome of any check or any price. */
  lemma HashBindsExactly(p: ProofPayload, q: ProofPayload, t: Texts)
    requires NumberTexts(t)
    ensures SerializePayload(PayloadJson(p, t)) == SerializePayload(PayloadJson(q, t)) <==> SameBoundFacts(p, q)
  {
    PayloadKeyList(p, t);
    PayloadKeyList(q, t);
    PayloadKept(p, t);
    PayloadKept(q, t);
    KeptEqualIff(p, q, t);
    SerializeShowsProjection(PayloadJson(p, t), PAYLOAD_KEYS);
    SerializeShowsProjection(PayloadJson(q, t), PAYLOAD_KEYS);
    KeptPrintable(p, t);
    KeptPrintable(q, t);
    ShowInjective(Obj(Members(KeptMembers(p, t))), Obj(Members(KeptMembers(q, t))));
  }

  lemma ShowInjective(v: Json, w: Json)
    requires Printable(v) && Printable(w)
    ensures Show(v) == Show(w) ==> v == w
  {
    ParseShown(v, "");
    ParseShown(w, "");
    assert Show(v) + "" == Show(v) && Show(w) + "" == Show(w);
  }

  /** In particular a record whose decision was replaced after anchoring still verifies. */
  lemma ReplacedDecisionVerifies(p: ProofPayload, d: Policy.Decision, t: Texts, sha256: string -> string)
    requires NumberTexts(t)
    ensures Verify(PayloadJson(p.(decision := d), t), Anchor(PayloadJson(p, t), sha256), sha256)
  {
    HashBindsExactly(p, p.(decision := d), t);
  }
}
