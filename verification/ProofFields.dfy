/** What a proof payload says, property by property, and the very text that is hashed for it: how the keys
    are ordered, what a projection keeps, how strings are escaped and members joined, and what the payload
    holds under each of its names. */
module ProofFields {
  import opened Results
  import opened Json
  import Policy
  import PriceOracle
  import opened ProofService

  // ----- The sort and the projection -------------------------------------------------------------------

  /** `i` is the first position at which the texts differ; a text that ends there comes first. */
  predicate DiffersAt(a: string, b: string, i: nat) {
    i <= |a| && i < |b| && a[..i] == b[..i] && (i == |a| || (i < |a| && a[i] < b[i]))
  }

  /** The order of the keys: by the first code unit in which they differ, a proper prefix before the longer text. */
  lemma {:induction false} BeforeMeaning(a: string, b: string)
    ensures Before(a, b) <==> exists i: nat :: DiffersAt(a, b, i)
  {
    if b != "" && a != "" {
      BeforeMeaning(a[1..], b[1..]);
      if a[0] < b[0] { assert DiffersAt(a, b, 0); }
      if a[0] == b[0] && Before(a[1..], b[1..]) {
        var i: nat :| DiffersAt(a[1..], b[1..], i);
        DifferLater(a, b, i);
      }
      if i: nat :| DiffersAt(a, b, i) {
        if i > 0 { DifferEarlier(a, b, i); }
      }
    } else if b != "" {
      assert DiffersAt(a, b, 0);
    }
  }

  lemma DifferLater(a: string, b: string, i: nat)
    requires a != "" && b != "" && a[0] == b[0] && DiffersAt(a[1..], b[1..], i)
    ensures DiffersAt(a, b, i + 1)
  {
    assert a[..i + 1] == [a[0]] + a[1..][..i] && b[..i + 1] == [b[0]] + b[1..][..i];
  }

  lemma DifferEarlier(a: string, b: string, i: nat)
    requires a != "" && b != "" && i > 0 && DiffersAt(a, b, i)
    ensures a[0] == b[0] && DiffersAt(a[1..], b[1..], i - 1)
  {
    assert a[0] == a[..i][0] == b[..i][0] == b[0];
    assert a[1..][..i - 1] == a[..i][1..] && b[1..][..i - 1] == b[..i][1..];
  }

  /** At every depth a projection has exactly the listed properties of the original, each projected. */
  lemma {:induction false} ProjectionHas(fields: Fields, todo: seq<string>, keys: seq<string>, k: string)
    ensures Lookup(ProjectFields(fields, todo, keys), k)
        == if k in todo && Lookup(fields, k).Some? then Some(Project(Lookup(fields, k).value, keys)) else None
  {
    if todo != [] { ProjectionHas(fields, todo[1..], keys, k); }
  }

  // ----- The text that is hashed -------------------------------------------------------------------------

  /** The parts with commas between them. */
  function Joined(parts: seq<string>): string {
    if parts == [] then "" else if |parts| == 1 then parts[0] else parts[0] + "," + Joined(parts[1..])
  }

  function Pair(key: string, text: string): string { "\"" + key + "\":" + text }

  /** No character that JSON escapes. */
  predicate PlainChar(c: char) { c as int >= 32 && c != '\"' && c != '\\' }

  predicate Plain(s: string) { forall i | 0 <= i < |s| :: PlainChar(s[i]) }

  lemma {:induction false} PlainQuote(s: string)
    requires Plain(s)
    ensures Quote(s) == "\"" + s + "\""
  {
    PlainEscape(s);
  }

  lemma {:induction false} PlainEscape(s: string)
    requires Plain(s)
    ensures Escape(s) == s
  {
    if s != "" {
      assert PlainChar(s[0]);
      PlainEscape(s[1..]);
      assert s == [s[0]] + s[1..];
    }
  }

  /** The escapes: two characters for the ones with a letter of their own, a backslash before quotes and
      backslashes, six characters for every other control character, and nothing else is touched. */
  lemma EscapeTable(c: char)
    ensures EscapeChar('\"') == ['\\', '\"'] && EscapeChar('\\') == ['\\', '\\']
    ensures EscapeChar(8 as char) == "\\b" && EscapeChar(9 as char) == "\\t" && EscapeChar(10 as char) == "\\n"
    ensures EscapeChar(12 as char) == "\\f" && EscapeChar(13 as char) == "\\r"
    ensures c as int < 32 && c as int !in {8, 9, 10, 12, 13} ==>
              |EscapeChar(c)| == 6 && EscapeChar(c)[..4] == ['\\', 'u', '0', '0']
                  && HexValue(EscapeChar(c)[4]) == Some(c as int / 16)
                  && HexValue(EscapeChar(c)[5]) == Some(c as int % 16)
    ensures c as int >= 32 && c != '\"' && c != '\\' ==> EscapeChar(c) == [c]
  {
    if c as int < 32 && c as int !in {8, 9, 10, 12, 13} {
      HexRoundTrip(c as int / 16);
      HexRoundTrip(c as int % 16);
    }
  }

  function PairsOf(ms: seq<(string, Json)>): seq<string> {
    seq(|ms|, i requires 0 <= i < |ms| => Pair(ms[i].0, Show(ms[i].1)))
  }

  predicate PlainNames(ms: seq<(string, Json)>) { forall m | m in ms :: Plain(m.0) }

  /** An object shows its members in order, joined by commas between braces. */
  lemma {:induction false} MembersText(ms: seq<(string, Json)>, comma: bool)
    requires PlainNames(ms)
    ensures ShowFields(Members(ms), comma) == (if comma && ms != [] then "," else "") + Joined(PairsOf(ms)) + "}"
  {
    if ms != [] {
      assert ms[0] in ms;
      PlainQuote(ms[0].0);
      MembersText(ms[1..], true);
      MemberText(ms, comma);
    }
  }

  lemma MemberText(ms: seq<(string, Json)>, comma: bool)
    requires ms != [] && Quote(ms[0].0) == "\"" + ms[0].0 + "\""
    requires ShowFields(Members(ms[1..]), true)
        == (if ms[1..] != [] then "," else "") + Joined(PairsOf(ms[1..])) + "}"
    ensures ShowFields(Members(ms), comma) == (if comma then "," else "") + Joined(PairsOf(ms)) + "}"
  {
    var key, text, sep := ms[0].0, Show(ms[0].1), if comma then "," else "";
    var parts, others := PairsOf(ms), PairsOf(ms[1..]);
    assert parts[0] == Pair(key, text) && parts[1..] == others;
    assert Members(ms) == Field(key, ms[0].1, Members(ms[1..]));
    PairText(sep, key, text);
    if |parts| == 1 {
      assert parts == [Pair(key, text)];
      Nothing(Pair(key, text));
    } else {
      Regrouped(sep, Pair(key, text), ",", Joined(others), "}");
    }
  }

  lemma Nothing(s: string)
    ensures "" + Joined([]) + "}" == "}" && Joined([s]) == s
  {
  }

  lemma PairText(sep: string, key: string, text: string)
    ensures sep + ("\"" + key + "\"") + ":" + text == sep + Pair(key, text)
  {
    var open := "\"" + key;
    assert "\"" + ":" == "\":";
    Assoc(sep, open + "\"", ":");
    Assoc(open, "\"", ":");
    Assoc(sep, open + "\":", text);
  }

  lemma Assoc(a: string, b: string, c: string)
    ensures a + b + c == a + (b + c)
  {
  }

  lemma Regrouped(sep: string, first: string, comma: string, rest: string, close: string)
    ensures (sep + first) + (comma + rest + close) == sep + (first + comma + rest) + close
  {
    Assoc(sep + first, comma + rest, close);
    Assoc(sep, first, comma + rest);
    Assoc(first, comma, rest);
  }

  /** n empty objects. */
  function Braces(n: nat): seq<string> { seq(n, i => "{}") }

  lemma {:induction false} EmptyObjectsText(n: nat, comma: bool)
    ensures ShowItems(EmptyObjects(n), comma) == (if comma && n > 0 then "," else "") + Joined(Braces(n)) + "]"
  {
    if n > 0 {
      EmptyObjectsText(n - 1, true);
      assert Braces(n)[1..] == Braces(n - 1) && Show(Obj(NoFields)) == "{}";
      Regrouped(if comma then "," else "", "{}", ",", Joined(Braces(n - 1)), "]");
    }
  }

  /** The seven members of the text of a payload. */
  function PayloadTexts(p: ProofPayload, t: Texts): seq<string> {
    [Pair("agentId", Quote(p.agentId)), Pair("cycle", t.number(p.cycle as real)), Pair("guardianVerdict", "{}"),
     Pair("policyChecks", "[" + Joined(Braces(|p.checks|)) + "]"),
     Pair("priceSnapshot", "{" + Pair("timestamp", t.number(p.prices.timestamp as real)) + "}"),
     Pair("strategistDecision", "{}"), Pair("timestamp", t.number(p.timestamp as real))]
  }

  lemma PlainKeys()
    ensures Plain("agentId") && Plain("cycle") && Plain("guardianVerdict") && Plain("policyChecks")
    ensures Plain("priceSnapshot") && Plain("strategistDecision") && Plain("timestamp")
  {
  }

  lemma KeptTexts(p: ProofPayload, t: Texts)
    ensures PlainNames(KeptMembers(p, t)) && PairsOf(KeptMembers(p, t)) == PayloadTexts(p, t)
  {
    KeptNames(p, t);
    FirstTexts(p, t);
    LastTexts(p, t);
    KeptPairs(KeptMembers(p, t), PayloadTexts(p, t));
  }

  predicate TextAt(ms: seq<(string, Json)>, texts: seq<string>, i: nat)
    requires i < |ms| && i < |texts|
  {
    texts[i] == Pair(ms[i].0, Show(ms[i].1))
  }

  lemma FirstTexts(p: ProofPayload, t: Texts)
    ensures forall i | 0 <= i < 4 :: TextAt(KeptMembers(p, t), PayloadTexts(p, t), i)
  {
    var ms, texts := KeptMembers(p, t), PayloadTexts(p, t);
    ChecksText(|p.checks|);
    assert TextAt(ms, texts, 0) && TextAt(ms, texts, 1) && TextAt(ms, texts, 2) && TextAt(ms, texts, 3);
  }

  lemma LastTexts(p: ProofPayload, t: Texts)
    ensures forall i | 4 <= i < 7 :: TextAt(KeptMembers(p, t), PayloadTexts(p, t), i)
  {
    FifthText(p, t);
    assert TextAt(KeptMembers(p, t), PayloadTexts(p, t), 5) && TextAt(KeptMembers(p, t), PayloadTexts(p, t), 6);
  }

  lemma FifthText(p: ProofPayload, t: Texts)
    ensures TextAt(KeptMembers(p, t), PayloadTexts(p, t), 4)
  {
    SnapshotText(p, t);
    var snapshot := Obj(Field("timestamp", IntJson(p.prices.timestamp, t), NoFields));
    assert KeptMembers(p, t)[4] == ("priceSnapshot", snapshot);
    assert PayloadTexts(p, t)[4] == Pair("priceSnapshot", Show(snapshot));
  }

  lemma KeptNames(p: ProofPayload, t: Texts)
    ensures PlainNames(KeptMembers(p, t))
  {
    PlainKeys();
    var ms := KeptMembers(p, t);
    forall m | m in ms ensures Plain(m.0) {
      var i :| 0 <= i < 7 && ms[i] == m;
      assert ms[i].0 in {"agentId", "cycle", "guardianVerdict", "policyChecks", "priceSnapshot", "strategistDecision",
          "timestamp"};
    }
  }

  lemma KeptPairs(ms: seq<(string, Json)>, texts: seq<string>)
    requires |ms| == |texts| && forall i | 0 <= i < |ms| :: TextAt(ms, texts, i)
    ensures PairsOf(ms) == texts
  {
    forall i | 0 <= i < |ms| ensures PairsOf(ms)[i] == texts[i] {
      assert TextAt(ms, texts, i);
    }
  }

  lemma ChecksText(n: nat)
    ensures Show(Arr(EmptyObjects(n))) == "[" + Joined(Braces(n)) + "]"
  {
    EmptyObjectsText(n, false);
    Assoc("[", Joined(Braces(n)), "]");
    assert "" + Joined(Braces(n)) == Joined(Braces(n));
  }

  lemma SnapshotText(p: ProofPayload, t: Texts)
    ensures Show(Obj(Field("timestamp", IntJson(p.prices.timestamp, t), NoFields)))
        == "{" + Pair("timestamp", t.number(p.prices.timestamp as real)) + "}"
  {
    PlainKeys();
    OneMemberText("timestamp", IntJson(p.prices.timestamp, t));
  }

  lemma OneMemberText(k: string, v: Json)
    requires Plain(k)
    ensures Show(Obj(Field(k, v, NoFields))) == "{" + Pair(k, Show(v)) + "}"
  {
    OneMember(k, v);
    PlainQuote(k);
    PairText("", k, Show(v));
    assert "" + Quote(k) == Quote(k) && "" + Pair(k, Show(v)) == Pair(k, Show(v));
    Assoc("{", Pair(k, Show(v)), "}");
  }

  lemma OneMember(k: string, v: Json)
    ensures Show(Obj(Field(k, v, NoFields))) == "{" + ("" + Quote(k) + ":" + Show(v) + "}")
  {
    assert ShowFields(NoFields, true) == "}";
  }

  /** The text that is hashed, to the letter: of the decision, the verdict, every check and the prices only
      braces and one timestamp appear in it. */
  lemma PayloadText(p: ProofPayload, t: Texts)
    ensures SerializePayload(PayloadJson(p, t)) == "{" + Joined(PayloadTexts(p, t)) + "}"
  {
    PayloadKeyList(p, t);
    PayloadKept(p, t);
    SerializeShowsProjection(PayloadJson(p, t), PAYLOAD_KEYS);
    KeptTexts(p, t);
    MembersObject(KeptMembers(p, t));
  }

  /** An anchored hash is that of this text, and verification compares with nothing else. */
  lemma AnchoredText(p: ProofPayload, t: Texts, sha256: string -> string, expected: string)
    ensures var text := "{" + Joined(PayloadTexts(p, t)) + "}";
            && Anchor(PayloadJson(p, t), sha256) == sha256(text)
            && (Verify(PayloadJson(p, t), expected, sha256) <==> sha256(text) == expected)
  {
    PayloadText(p, t);
  }

  lemma MembersObject(ms: seq<(string, Json)>)
    requires PlainNames(ms)
    ensures Show(Obj(Members(ms))) == "{" + Joined(PairsOf(ms)) + "}"
  {
    MembersText(ms, false);
    assert "" + Joined(PairsOf(ms)) == Joined(PairsOf(ms));
    Assoc("{", Joined(PairsOf(ms)), "}");
  }

  // ----- What the payload says -------------------------------------------------------------------------------

  predicate Has(fields: Fields, key: string, v: Json) { Lookup(fields, key) == Some(v) }

  predicate HasObject(fields: Fields, key: string, inner: Fields) { Has(fields, key, Obj(inner)) }

  /** The seven properties of a payload. */
  lemma PayloadSays(p: ProofPayload, t: Texts)
    ensures var fields := Members(PayloadMembers(p, t));
            && Has(fields, "agentId", Str(p.agentId)) && Has(fields, "cycle", Num(t.number(p.cycle as real)))
            && Has(fields, "timestamp", Num(t.number(p.timestamp as real)))
            && HasObject(fields, "strategistDecision", Members(DecisionMembers(p.decision, t)))
            && HasObject(fields, "guardianVerdict", Members(AuditMembers(p.guardian, t)))
            && Has(fields, "policyChecks", Arr(ChecksJson(p.checks, t)))
            && HasObject(fields, "priceSnapshot", Members(PriceMembers(p.prices, t)))
  {
    var ms := PayloadMembers(p, t);
    PayloadLookups(p, t);
    assert ms[0].0 == "agentId" && ms[1].0 == "cycle" && ms[2].0 == "timestamp" && ms[3].0 == "strategistDecision";
    assert ms[4].0 == "guardianVerdict" && ms[5].0 == "policyChecks" && ms[6].0 == "priceSnapshot";
  }

  lemma AllLookups(ms: seq<(string, Json)>)
    requires Distinct(Names(ms))
    ensures forall i | 0 <= i < |ms| :: Has(Members(ms), ms[i].0, ms[i].1)
  {
    forall i | 0 <= i < |ms| ensures Has(Members(ms), ms[i].0, ms[i].1) {
      LookupMember(ms, i);
    }
  }

  /** The decision as the payload shows it. */
  lemma DecisionSays(d: Policy.Decision, t: Texts)
    ensures var fields := Members(DecisionMembers(d, t));
            && Has(fields, "decision", Str(d.action)) && Has(fields, "fromToken", Str(d.fromToken))
            && Has(fields, "toToken", Str(d.toToken)) && Has(fields, "amount", Num(t.number(d.amount)))
            && Has(fields, "confidence", Num(t.number(d.confidence))) && Has(fields, "reasoning", Str(d.reasoning))
            && Has(fields, "riskFlags", Arr(StringsJson(d.riskFlags)))
  {
    var ms := DecisionMembers(d, t);
    DecisionNames(d, t);
    AllLookups(ms);
    assert ms[0].0 == "decision" && ms[1].0 == "fromToken" && ms[2].0 == "toToken" && ms[3].0 == "amount";
    assert ms[4].0 == "confidence" && ms[5].0 == "reasoning" && ms[6].0 == "riskFlags";
  }

  lemma DecisionNames(d: Policy.Decision, t: Texts)
    ensures Distinct(Names(DecisionMembers(d, t)))
  {
    assert Names(DecisionMembers(d, t))
        == ["decision", "fromToken", "toToken", "amount", "confidence", "reasoning", "riskFlags"];
    assert "reasoning"[1] == 'e' && "riskFlags"[1] == 'i';
  }

  /** The verdict, and each check, as the payload shows them. */
  lemma VerdictSays(a: GuardianAudit, c: Policy.PolicyCheck, t: Texts)
    ensures var fields := Members(AuditMembers(a, t));
            && Has(fields, "verdict", Str(a.verdict)) && Has(fields, "challenge", Str(a.challenge))
            && (a.modifiedAmount.None? ==> Has(fields, "modifiedAmount", Null))
            && (a.modifiedAmount.Some? ==> Has(fields, "modifiedAmount", Num(t.number(a.modifiedAmount.value))))
    ensures var fields := Members(CheckMembers(c, t));
            && Has(fields, "name", Str(t.name(c.name))) && Has(fields, "passed", Bool(c.passed))
            && Has(fields, "reason", Str(t.reason(c.reason)))
  {
    var ms, ns := AuditMembers(a, t), CheckMembers(c, t);
    assert Names(ms) == ["verdict", "challenge", "modifiedAmount"] && Names(ns) == ["name", "passed", "reason"];
    AllLookups(ms);
    AllLookups(ns);
    assert ms[0].0 == "verdict" && ms[1].0 == "challenge" && ms[2].0 == "modifiedAmount";
    assert ns[0].0 == "name" && ns[1].0 == "passed" && ns[2].0 == "reason";
  }

  function ItemsOf(items: Items): seq<Json> {
    match items case NoItems => [] case Item(v, rest) => [v] + ItemsOf(rest)
  }

  /** Risk flags and checks appear in order, one item for each. */
  lemma {:induction false} ListsSay(flags: seq<string>, cs: seq<Policy.PolicyCheck>, t: Texts)
    ensures ItemsOf(StringsJson(flags)) == seq(|flags|, i requires 0 <= i < |flags| => Str(flags[i]))
    ensures ItemsOf(ChecksJson(cs, t)) == seq(|cs|, i requires 0 <= i < |cs| => Obj(Members(CheckMembers(cs[i], t))))
    decreases |flags| + |cs|
  {
    if flags != [] {
      ListsSay(flags[1..], [], t);
    }
    if cs != [] {
      ListsSay([], cs[1..], t);
    }
  }

  /** The price snapshot: both figures of all four tokens, every spread under its own key, and the quote if
      there is one. */
  lemma PricesSay(d: PriceOracle.PriceData, t: Texts)
    ensures var fields := Members(PriceMembers(d, t));
            && Has(fields, "timestamp", Num(t.number(d.timestamp as real))) && Has(fields, "stale", Bool(d.stale))
            && Has(fields, "prices", PricesJson(d.prices, t)) && Has(fields, "spreads", SpreadsJson(d.spreads, t))
            && (d.quote.Some? ==> Has(fields, "executionQuote", QuoteJson(d.quote.value, t)))
            && (d.quote.None? ==> Lookup(fields, "executionQuote") == None)
  {
    var ms := PriceMembers(d, t);
    var names := ["timestamp", "stale", "prices", "spreads"];
    assert names[1][1] == 't' && names[3][1] == 'p';
    assert Names(ms) == if d.quote.Some? then names + ["executionQuote"] else names;
    AllLookups(ms);
    assert ms[0].0 == "timestamp" && ms[1].0 == "stale" && ms[2].0 == "prices" && ms[3].0 == "spreads";
    if d.quote.Some? {
      assert ms[4].0 == "executionQuote";
    } else {
      KeysOfMembers(ms);
      LookupDefined(Members(ms), "executionQuote");
    }
  }

  lemma TokenPricesSay(p: Policy.Prices, t: Texts)
    ensures var fields := PricesJson(p, t).fields;
            && Has(fields, "SOL", TokenPriceJson(p.sol, t)) && Has(fields, "USDC", TokenPriceJson(p.usdc, t))
            && Has(fields, "RAY", TokenPriceJson(p.ray, t)) && Has(fields, "BONK", TokenPriceJson(p.bonk, t))
  {
    var ms := [("SOL", TokenPriceJson(p.sol, t)), ("USDC", TokenPriceJson(p.usdc, t)),
               ("RAY", TokenPriceJson(p.ray, t)), ("BONK", TokenPriceJson(p.bonk, t))];
    assert Names(ms) == ["SOL", "USDC", "RAY", "BONK"];
    AllLookups(ms);
    assert ms[0].0 == "SOL" && ms[1].0 == "USDC" && ms[2].0 == "RAY" && ms[3].0 == "BONK";
  }

  lemma TokenPriceSays(p: Policy.TokenPrice, t: Texts)
    ensures Has(TokenPriceJson(p, t).fields, "usd", Num(t.number(p.usd)))
    ensures Has(TokenPriceJson(p, t).fields, "change24h", Num(t.number(p.change24h)))
  {
    var ms := [("usd", NumJson(p.usd, t)), ("change24h", NumJson(p.change24h, t))];
    assert Names(ms) == ["usd", "change24h"];
    AllLookups(ms);
    assert ms[0].0 == "usd" && ms[1].0 == "change24h";
  }

  lemma QuoteSays(q: Policy.Quote, t: Texts)
    ensures var fields := QuoteJson(q, t).fields;
            && Has(fields, "fromToken", Str(q.fromToken)) && Has(fields, "toToken", Str(q.toToken))
            && Has(fields, "netSpreadVsMarket", Num(t.number(q.netSpreadVsMarket)))
            && Has(fields, "error", Str(q.error))
  {
    var ms := [("fromToken", Str(q.fromToken)), ("toToken", Str(q.toToken)),
               ("netSpreadVsMarket", NumJson(q.netSpreadVsMarket, t)), ("error", Str(q.error))];
    assert Names(ms) == ["fromToken", "toToken", "netSpreadVsMarket", "error"];
    AllLookups(ms);
    assert ms[0].0 == "fromToken" && ms[1].0 == "toToken" && ms[2].0 == "netSpreadVsMarket" && ms[3].0 == "error";
  }
}
