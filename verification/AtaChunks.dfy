/** Creating the paymaster's missing token accounts: finding them through the account cache, and creating
    them in chunks of one transaction each, with an account of how far it got when a chunk fails. */
module AtaChunks {
  import opened Results
  import AccountCache

  type Pubkey = string

  datatype AtaToCreate = AtaToCreate(mint: Pubkey, ata: Pubkey, tokenProgram: Pubkey)

  datatype Instruction =
    | SetComputeUnitPrice(price: nat)
    | SetComputeUnitLimit(units: nat)
    | CreateAta(payer: Pubkey, address: Pubkey, mint: Pubkey, tokenProgram: Pubkey)

  /** How the attempt to get one chunk on the chain ends. */
  datatype Attempt = NoBlockhash | NotSigned | NotConfirmed | Confirmed

  datatype AtaError =
    | RpcError(chunk: nat) | SigningError(chunk: nat) | ZeroChunkSize
    | MintUnavailable(mint: Pubkey) | NoTokenProgram(mint: Pubkey)

  /** What the run tells the operator; errors before sending are reported by the error alone. */
  datatype Report =
    | Silent
    | NoneCreated
    | SomeCreated(created: seq<AtaToCreate>, remaining: int)
    | AllCreated(all: seq<AtaToCreate>)

  // ----- Chunks -------------------------------------------------------------------------------

  /** `slice::chunks(size)` */
  function Chunks<T>(s: seq<T>, size: nat): seq<seq<T>>
    requires size >= 1
    decreases |s|
  {
    if s == [] then [] else [s[..Min(size, |s|)]] + Chunks(s[Min(size, |s|)..], size)
  }

  function Concat<T>(parts: seq<seq<T>>): seq<T> {
    if parts == [] then [] else Concat(parts[..|parts| - 1]) + parts[|parts| - 1]
  }

  lemma {:induction false} ConcatCons<T>(first: seq<T>, rest: seq<seq<T>>)
    ensures Concat([first] + rest) == first + Concat(rest)
    decreases |rest|
  {
    var parts := [first] + rest;
    if rest == [] {
      assert parts[..0] == [] && Concat(parts) == Concat([]) + first;
    } else {
      assert parts[..|parts| - 1] == [first] + rest[..|rest| - 1];
      ConcatCons(first, rest[..|rest| - 1]);
      assert first + Concat(rest[..|rest| - 1]) + rest[|rest| - 1] == first + Concat(rest);
    }
  }

  /** How many of `total` elements the first `c` chunks hold. */
  function Reached(c: nat, size: nat, total: nat): nat { Min(Multiple(c, size), total) }

  /** The first `c` chunks hold exactly the first `min(c * size, n)` elements, in order. */
  lemma {:induction false} ChunksArePrefixes<T>(s: seq<T>, size: nat, c: nat)
    requires size >= 1 && c <= |Chunks(s, size)|
    ensures Concat(Chunks(s, size)[..c]) == s[..Reached(c, size, |s|)]
    decreases c
  {
    if c > 0 {
      var n := Min(size, |s|);
      var rest, k := Chunks(s[n..], size), Reached(c - 1, size, |s| - n);
      assert Chunks(s, size)[..c] == [s[..n]] + rest[..c - 1];
      ConcatCons(s[..n], rest[..c - 1]);
      ChunksArePrefixes(s[n..], size, c - 1);
      Rejoin(s, n, k);
      assert Reached(c, size, |s|) == n + k;
    }
  }

  lemma Rejoin<T>(s: seq<T>, n: nat, k: nat)
    requires n + k <= |s|
    ensures s[..n] + s[n..][..k] == s[..n + k]
  {
  }

  /** Chunks are never empty, all but the last are full, and there are just enough of them. */
  lemma {:induction false} ChunkSizes<T>(s: seq<T>, size: nat)
    requires size >= 1
    ensures var chunks := Chunks(s, size);
            && (forall c | 0 <= c < |chunks| :: 1 <= |chunks[c]| <= size && (c + 1 < |chunks| ==> |chunks[c]| == size))
            && |s| <= Multiple(|chunks|, size) && (s != [] ==> Multiple(|chunks| - 1, size) < |s|)
    decreases |s|
  {
    if s != [] {
      var n := Min(size, |s|);
      ChunkSizes(s[n..], size);
      var rest := Chunks(s[n..], size);
      assert Chunks(s, size) == [s[..n]] + rest;
      if |s| <= size { assert s[n..] == [] && rest == []; }
    }
  }

  /** Cutting into chunks loses nothing and reorders nothing. */
  lemma ChunksConcatenate<T>(s: seq<T>, size: nat)
    requires size >= 1
    ensures Concat(Chunks(s, size)) == s
  {
    ChunksArePrefixes(s, size, |Chunks(s, size)|);
    ChunkSizes(s, size);
    assert Chunks(s, size)[..|Chunks(s, size)|] == Chunks(s, size);
  }

  // ----- Creating -----------------------------------------------------------------------------

  function Creation(payer: Pubkey, address: Pubkey, a: AtaToCreate): Instruction {
    CreateAta(payer, address, a.mint, a.tokenProgram)
  }

  function Creations(payer: Pubkey, address: Pubkey, atas: seq<AtaToCreate>): (r: seq<Instruction>)
    ensures |r| == |atas|
  {
    seq(|atas|, i requires 0 <= i < |atas| => Creation(payer, address, atas[i]))
  }

  /** The compute budget every chunk's transaction starts with. */
  function Budget(price: Option<nat>, units: Option<nat>): seq<Instruction> {
    (if price.Some? then [SetComputeUnitPrice(price.value)] else [])
        + (if units.Some? then [SetComputeUnitLimit(units.value)] else [])
  }

  /** The transactions of the first chunks, each behind the compute budget. */
  ghost predicate AreTransactions(sent: seq<seq<Instruction>>, budget: seq<Instruction>,
      chunks: seq<seq<Instruction>>) {
    |sent| <= |chunks| && forall c | 0 <= c < |sent| :: sent[c] == budget + chunks[c]
  }

  /** Chunks are sent in order until one does not get through. `attempts(c)` is how chunk `c` fares;
      `sent` are the confirmed transactions. The accounts confirmed and reported as created are
      always exactly the first `min(c * size, total)`, where `c` chunks got through. A chunk size of
      zero ends the run (the source panics) before anything is sent. */
  method CreateAtasForSigner(
      payer: Pubkey, address: Pubkey, atas: seq<AtaToCreate>, price: Option<nat>, units: Option<nat>, size: nat,
          attempts: nat -> Attempt)
    returns (r: Result<nat, AtaError>, sent: seq<seq<Instruction>>, report: Report)
    ensures size == 0 ==> r == Err(ZeroChunkSize) && sent == [] && report == Silent
    ensures size >= 1 ==>
            var chunks := Chunks(Creations(payer, address, atas), size);
            && AreTransactions(sent, Budget(price, units), chunks)
            && Concat(chunks[..|sent|]) == Creations(payer, address, atas[..Reached(|sent|, size, |atas|)])
            && (forall c | 0 <= c < |sent| :: attempts(c) == Confirmed)
            && (r.Ok? <==> forall c | 0 <= c < |chunks| :: attempts(c) == Confirmed)
            && (r.Ok? ==> |sent| == |chunks| && r.value == |atas| && report == AllCreated(atas))
            && (r.Err? ==> |sent| < |chunks| && Failure(r.error, report, attempts(|sent|), atas,
                Reached(|sent|, size, |atas|), |sent| + 1))
  {
    if size == 0 { return Err(ZeroChunkSize), [], Silent; }
    var instructions := Creations(payer, address, atas);
    var chunks := Chunks(instructions, size);
    var total := |instructions|;
    var created: nat := 0;
    sent := [];
    for c := 0 to |chunks|
      invariant |sent| == c && AreTransactions(sent, Budget(price, units), chunks)
      invariant forall j | 0 <= j < c :: attempts(j) == Confirmed
      invariant created == Reached(c, size, total)
    {
      CreatedSoFar(payer, address, atas, size, c);
      var transaction: seq<Instruction> := [];
      if price.Some? { transaction := transaction + [SetComputeUnitPrice(price.value)]; }
      if units.Some? { transaction := transaction + [SetComputeUnitLimit(units.value)]; }
      assert transaction == Budget(price, units);
      transaction := transaction + chunks[c];
      var attempt := attempts(c);
      assert attempt != Confirmed ==> |sent| < |chunks| && attempts(|sent|) != Confirmed;
      if attempt == NoBlockhash {
        return Err(RpcError(c + 1)), sent, Silent;
      }
      if attempt == NotSigned {
        return Err(SigningError(c + 1)), sent, Silent;
      }
      if attempt == NotConfirmed {
        report := if created > 0 then SomeCreated(atas[..created], total - created) else NoneCreated;
        return Err(RpcError(c + 1)), sent, report;
      }
      sent := sent + [transaction];
      created := Min(created + |chunks[c]|, |atas|);
    }
    CreatedSoFar(payer, address, atas, size, |chunks|);
    return Ok(total), sent, AllCreated(atas);
  }

  lemma CreatedSoFar(payer: Pubkey, address: Pubkey, atas: seq<AtaToCreate>, size: nat, c: nat)
    requires size >= 1 && c <= |Chunks(Creations(payer, address, atas), size)|
    ensures var chunks, reached := Chunks(Creations(payer, address, atas), size), Reached(c, size, |atas|);
            && Concat(chunks[..c]) == Creations(payer, address, atas[..reached])
            && (c < |chunks| ==> Reached(c + 1, size, |atas|) == Min(reached + |chunks[c]|, |atas|))
  {
    var instructions := Creations(payer, address, atas);
    var chunks, reached := Chunks(instructions, size), Reached(c, size, |atas|);
    ChunksArePrefixes(instructions, size, c);
    assert instructions[..reached] == Creations(payer, address, atas[..reached]);
    if c < |chunks| {
      ChunksArePrefixes(instructions, size, c + 1);
      assert chunks[..c + 1][..c] == chunks[..c];
      assert Concat(chunks[..c + 1]) == Concat(chunks[..c]) + chunks[c];
      assert |Concat(chunks[..c + 1])| == reached + |chunks[c]|;
    }
  }

  /** How a run that stopped at chunk `number`, with `created` accounts confirmed, is reported. */
  ghost predicate Failure(error: AtaError, report: Report, attempt: Attempt, atas: seq<AtaToCreate>, created: nat,
      number: nat)
    requires created <= |atas|
  {
    match attempt
    case NoBlockhash => error == RpcError(number) && report == Silent
    case NotSigned => error == SigningError(number) && report == Silent
    case NotConfirmed =>
      && error == RpcError(number)
      && report == if created > 0 then SomeCreated(atas[..created], |atas| - created) else NoneCreated
    case Confirmed => false
  }

  /** The k-th element of the c-th chunk. */
  lemma {:induction false} ChunkAt<T>(s: seq<T>, size: nat, c: nat, k: nat)
    requires size >= 1 && c < |Chunks(s, size)| && k < |Chunks(s, size)[c]|
    ensures Multiple(c, size) + k < |s| && Chunks(s, size)[c][k] == s[Multiple(c, size) + k]
    decreases c
  {
    var n := Min(size, |s|);
    if c > 0 { ChunkAt(s[n..], size, c - 1, k); }
  }

  /** The transaction of a chunk, instruction by instruction: the price and the limit that were given, then one
      creation for each account of the chunk, paid by the payer and owned by the address. */
  lemma TransactionMeaning(payer: Pubkey, address: Pubkey, atas: seq<AtaToCreate>, price: Option<nat>,
      units: Option<nat>, size: nat, c: nat, k: nat)
    requires size >= 1
    requires var chunks := Chunks(Creations(payer, address, atas), size); c < |chunks| && k < |chunks[c]|
    ensures var chunk, i := Chunks(Creations(payer, address, atas), size)[c], Multiple(c, size) + k;
            i < |atas| && chunk[k] == CreateAta(payer, address, atas[i].mint, atas[i].tokenProgram)
    ensures price.None? && units.None? ==> Budget(price, units) == []
    ensures price.Some? && units.None? ==> Budget(price, units) == [SetComputeUnitPrice(price.value)]
    ensures price.None? && units.Some? ==> Budget(price, units) == [SetComputeUnitLimit(units.value)]
    ensures price.Some? && units.Some? ==>
              Budget(price, units) == [SetComputeUnitPrice(price.value), SetComputeUnitLimit(units.value)]
  {
    ChunkAt(Creations(payer, address, atas), size, c, k);
  }

  // ----- Finding ------------------------------------------------------------------------------

  /** A configured mint, its token account's address, and what the account cache answers for both. */
  datatype MintLookup = MintLookup(mint: Pubkey, ata: Pubkey, ataAnswer: AccountCache.Outcome,
      mintAnswer: AccountCache.Outcome)
  {
    /** Any error counts as a missing account. */
    predicate IsMissing() { ataAnswer.Err? }

    /** The token program that owns the mint, if the mint can be fetched and its owner is one. */
    function Program(programOf: Pubkey -> Option<Pubkey>): Result<Pubkey, AtaError> {
      if mintAnswer.Err? then Err(MintUnavailable(mint))
      else match programOf(mintAnswer.value.owner) case Some(program) => Ok(program)
          case None => Err(NoTokenProgram(mint))
    }
  }

  function Valid(configured: seq<Option<MintLookup>>): seq<MintLookup> {
    if configured == [] then []
    else
      var last := configured[|configured| - 1];
      Valid(configured[..|configured| - 1]) + (if last.Some? then [last.value] else [])
  }

  function Missing(mints: seq<MintLookup>): seq<MintLookup> {
    if mints == [] then []
    else
      var last := mints[|mints| - 1];
      Missing(mints[..|mints| - 1]) + (if last.IsMissing() then [last] else [])
  }

  /** The first `n` missing accounts have a program. */
  ghost predicate AllResolved(missing: seq<MintLookup>, n: nat, programOf: Pubkey -> Option<Pubkey>)
    requires n <= |missing|
  {
    forall k | 0 <= k < n :: missing[k].Program(programOf).Ok?
  }

  /** The accounts to create for the missing ones. */
  ghost predicate AreFound(found: seq<AtaToCreate>, missing: seq<MintLookup>, programOf: Pubkey -> Option<Pubkey>) {
    && |found| == |missing| && AllResolved(missing, |missing|, programOf)
    && forall k | 0 <= k < |found| ::
         found[k] == AtaToCreate(missing[k].mint, missing[k].ata, missing[k].Program(programOf).value)
  }

  /** What the search answers, given what the lookups did. */
  ghost predicate IsSearch(configured: seq<Option<MintLookup>>, programOf: Pubkey -> Option<Pubkey>,
      r: Result<seq<AtaToCreate>, AtaError>) {
    var missing := Missing(Valid(configured));
    && (r.Ok? <==> AllResolved(missing, |missing|, programOf))
    && (r.Ok? ==> AreFound(r.value, missing, programOf))
    && (r.Err? ==> exists k | 0 <= k < |missing| ::
                     AllResolved(missing, k, programOf) && missing[k].Program(programOf) == Err(r.error))
  }

  /** The found list names exactly the valid configured mints whose account lookup failed, in order; the
      search fails exactly when the program of one of them cannot be told, with the error of the first.
      Unreadable configured mints (absent here) are skipped. */
  method FindMissingAtas(configured: seq<Option<MintLookup>>, programOf: Pubkey -> Option<Pubkey>)
    returns (r: Result<seq<AtaToCreate>, AtaError>)
    ensures IsSearch(configured, programOf, r)
  {
    var mints: seq<MintLookup> := [];
    for i := 0 to |configured|
      invariant mints == Valid(configured[..i])
    {
      assert configured[..i + 1][..i] == configured[..i];
      if configured[i].Some? { mints := mints + [configured[i].value]; }
    }
    assert configured[..|configured|] == configured;
    if mints == [] { return Ok([]); }
    var found: seq<AtaToCreate> := [];
    for i := 0 to |mints|
      invariant AreFound(found, Missing(mints[..i]), programOf)
    {
      ghost var missing := Missing(mints[..i]);
      var m := mints[i];
      MissingNext(mints, i);
      if m.ataAnswer.Err? {
        if m.mintAnswer.Err? {
          FirstUnresolved(mints, i, programOf);
          return Err(MintUnavailable(m.mint));
        }
        var program := programOf(m.mintAnswer.value.owner);
        if program.None? {
          FirstUnresolved(mints, i, programOf);
          return Err(NoTokenProgram(m.mint));
        }
        found := found + [AtaToCreate(m.mint, m.ata, program.value)];
      }
    }
    assert mints[..|mints|] == mints;
    return Ok(found);
  }

  /** Unreadable mints are skipped, and the order is kept. */
  lemma ValidAppend(configured: seq<Option<MintLookup>>, m: Option<MintLookup>)
    ensures Valid([]) == [] && Valid(configured + [m]) == Valid(configured) + (if m.Some? then [m.value] else [])
  {
    assert (configured + [m])[..|configured|] == configured;
  }

  lemma MissingNext(mints: seq<MintLookup>, n: nat)
    requires n < |mints|
    ensures Missing(mints[..n + 1]) == Missing(mints[..n]) + (if mints[n].IsMissing() then [mints[n]] else [])
  {
    assert mints[..n + 1][..n] == mints[..n];
  }

  lemma {:induction false} MissingPrefix(mints: seq<MintLookup>, n: nat)
    requires n <= |mints|
    ensures Missing(mints[..n]) <= Missing(mints)
    decreases |mints| - n
  {
    if n == |mints| {
      assert mints[..n] == mints;
    } else {
      MissingNext(mints, n);
      MissingPrefix(mints, n + 1);
    }
  }

  lemma FirstUnresolved(mints: seq<MintLookup>, n: nat, programOf: Pubkey -> Option<Pubkey>)
    requires n < |mints| && mints[n].IsMissing() && mints[n].Program(programOf).Err?
    requires var before := Missing(mints[..n]); AllResolved(before, |before|, programOf)
    ensures var missing, k := Missing(mints), |Missing(mints[..n])|;
            && k < |missing| && missing[k] == mints[n] && AllResolved(missing, k, programOf)
            && !AllResolved(missing, |missing|, programOf)
  {
    MissingNext(mints, n);
    MissingPrefix(mints, n + 1);
    var before, missing := Missing(mints[..n]), Missing(mints);
    assert missing[..|before| + 1] == before + [mints[n]];
    assert missing[|before|] == mints[n];
    assert forall k | 0 <= k < |before| :: missing[k] == missing[..|before| + 1][k];
  }

  // ----- What the search may get wrong -----------------------------------------------------------

  /** A call for the key has returned this. */
  ghost predicate Consulted(s: AccountCache.State, key: Pubkey, answer: AccountCache.Outcome) {
    exists id: nat, at: real :: AccountCache.Returned(s, id, answer, at) && s.calls[id].key == key
  }

  /** A call for the key was handed the account, which was on the chain during the call, or was served
      by the cache and had been there less than `age` before. */
  ghost predicate SawAccount(chain: AccountCache.Chain, s: AccountCache.State, key: Pubkey,
      account: AccountCache.Account, age: real) {
    exists id: nat, at: real :: AccountCache.Returned(s, id, Ok(account), at) && s.calls[id].key == key
        && (AccountCache.OnChainDuring(chain, key, account, s.calls[id].startedAt, at)
            || (s.calls[id].answer.None? && AccountCache.OnChainSince(chain, key, account, at, age)))
  }

  /** A call for the key failed, by a failed request, or because there was no account at some instant
      of the call. */
  ghost predicate SawNone(chain: AccountCache.Chain, s: AccountCache.State, key: Pubkey) {
    exists id: nat, at: real, failed: AccountCache.Outcome ::
      AccountCache.Returned(s, id, failed, at) && s.calls[id].key == key && failed.Err?
          && (failed.error.RpcFailure? || AccountCache.AbsentDuring(chain, key, s.calls[id].startedAt, at))
  }

  lemma LookupMeaning(chain: AccountCache.Chain, config: AccountCache.Config, latency: real,
      events: seq<AccountCache.Event>, key: Pubkey, answer: AccountCache.Outcome)
    requires AccountCache.TimelyRun(chain, config, latency, events) && config.loaded && config.ttl < AccountCache.TWO_63
    requires Consulted(AccountCache.Run(chain, config, events), key, answer)
    ensures var s := AccountCache.Run(chain, config, events);
            Seen(chain, s, key, answer, config.ttl as real + latency)
  {
    var s := AccountCache.Run(chain, config, events);
    var id: nat, at: real :| AccountCache.Returned(s, id, answer, at) && s.calls[id].key == key;
    AccountCache.RunInv(chain, config, latency, events);
    AccountCache.AnswerMeaning(chain, config, latency, s.now, s.calls[id]);
  }

  /** All lookups of a search went through the cache: those of every token account, and those of the
      mints of the accounts not found. */
  ghost predicate LooksUpIn(s: AccountCache.State, configured: seq<Option<MintLookup>>) {
    forall m | m in Valid(configured) ::
      Consulted(s, m.ata, m.ataAnswer) && (m.IsMissing() ==> Consulted(s, m.mint, m.mintAnswer))
  }

  predicate Names(found: seq<AtaToCreate>, m: MintLookup) {
    exists f :: f in found && f.mint == m.mint && f.ata == m.ata
  }

  /** An account to create: its lookup saw none, and its program owns an account the mint's lookup saw. */
  ghost predicate RightlyNamed(chain: AccountCache.Chain, s: AccountCache.State, f: AtaToCreate,
      programOf: Pubkey -> Option<Pubkey>, age: real) {
    && SawNone(chain, s, f.ata)
    && exists account: AccountCache.Account ::
         SawAccount(chain, s, f.mint, account, age) && programOf(account.owner) == Some(f.tokenProgram)
  }

  /** What makes a search fail: the lookup of a mint saw none, or an account that no program owns. */
  ghost predicate RightlyFailed(chain: AccountCache.Chain, s: AccountCache.State, m: MintLookup, error: AtaError,
      programOf: Pubkey -> Option<Pubkey>, age: real) {
    && SawNone(chain, s, m.ata)
    && if error == MintUnavailable(m.mint) then SawNone(chain, s, m.mint)
       else error == NoTokenProgram(m.mint)
            && exists account: AccountCache.Account ::
                 SawAccount(chain, s, m.mint, account, age) && programOf(account.owner).None?
  }

  /** What a lookup of a search saw. */
  ghost predicate Seen(chain: AccountCache.Chain, s: AccountCache.State, key: Pubkey, answer: AccountCache.Outcome,
      age: real) {
    if answer.Ok? then SawAccount(chain, s, key, answer.value, age) else SawNone(chain, s, key)
  }

  ghost predicate AllSeen(chain: AccountCache.Chain, s: AccountCache.State, mints: seq<MintLookup>, age: real) {
    forall m | m in mints ::
      Seen(chain, s, m.ata, m.ataAnswer, age) && (m.IsMissing() ==> Seen(chain, s, m.mint, m.mintAnswer, age))
  }

  /** What the answer of a search is worth. */
  ghost predicate IsTold(chain: AccountCache.Chain, s: AccountCache.State, mints: seq<MintLookup>,
      programOf: Pubkey -> Option<Pubkey>, r: Result<seq<AtaToCreate>, AtaError>, age: real) {
    match r
    case Ok(found) =>
      && (forall f | f in found :: RightlyNamed(chain, s, f, programOf, age))
      && (forall m | m in mints && !Names(found, m) ::
            m.ataAnswer.Ok? && SawAccount(chain, s, m.ata, m.ataAnswer.value, age))
    case Err(error) => exists m :: m in mints && RightlyFailed(chain, s, m, error, programOf, age)
  }

  lemma FoundIsTold(chain: AccountCache.Chain, s: AccountCache.State, mints: seq<MintLookup>,
      programOf: Pubkey -> Option<Pubkey>, found: seq<AtaToCreate>, age: real)
    requires AllSeen(chain, s, mints, age) && AreFound(found, Missing(mints), programOf)
    ensures IsTold(chain, s, mints, programOf, Ok(found), age)
  {
    var missing := Missing(mints);
    forall m | m in missing ensures Names(found, m) {
      var k :| 0 <= k < |missing| && missing[k] == m;
      assert found[k] in found;
    }
    forall m | m in mints ensures m in missing <==> m.IsMissing() { MissingMembers(mints, m); }
    forall f | f in found ensures RightlyNamed(chain, s, f, programOf, age) {
      var k :| 0 <= k < |found| && found[k] == f;
      MissingMembers(mints, missing[k]);
      assert missing[k] in missing && missing[k].Program(programOf).Ok?;
    }
  }

  lemma FailureIsTold(chain: AccountCache.Chain, s: AccountCache.State, mints: seq<MintLookup>,
      programOf: Pubkey -> Option<Pubkey>, m: MintLookup, error: AtaError, age: real)
    requires AllSeen(chain, s, mints, age) && m in Missing(mints) && m.Program(programOf) == Err(error)
    ensures IsTold(chain, s, mints, programOf, Err(error), age)
  {
    MissingMembers(mints, m);
    assert RightlyFailed(chain, s, m, error, programOf, age);
  }

  /** The search reads through the account cache, for token accounts and for mints. What it answers is
      wrong in two ways only: an account gone during the whole lookup counts as existing, or a mint's
      former owner is taken, when the cache served an entry younger than the time-to-live plus the
      latency; an account or a mint there during the whole lookup counts as missing when a request
      failed. */
  lemma WrongLookups(chain: AccountCache.Chain, config: AccountCache.Config, latency: real,
      events: seq<AccountCache.Event>, configured: seq<Option<MintLookup>>, programOf: Pubkey -> Option<Pubkey>,
      r: Result<seq<AtaToCreate>, AtaError>)
    requires AccountCache.TimelyRun(chain, config, latency, events) && config.loaded && config.ttl < AccountCache.TWO_63
    requires LooksUpIn(AccountCache.Run(chain, config, events), configured) && IsSearch(configured, programOf, r)
    ensures IsTold(chain, AccountCache.Run(chain, config, events), Valid(configured), programOf, r,
                config.ttl as real + latency)
  {
    var s, age, mints := AccountCache.Run(chain, config, events), config.ttl as real + latency, Valid(configured);
    forall m | m in mints
      ensures Seen(chain, s, m.ata, m.ataAnswer, age)
      ensures m.IsMissing() ==> Seen(chain, s, m.mint, m.mintAnswer, age)
    {
      LookupMeaning(chain, config, latency, events, m.ata, m.ataAnswer);
      if m.IsMissing() { LookupMeaning(chain, config, latency, events, m.mint, m.mintAnswer); }
    }
    if r.Ok? {
      FoundIsTold(chain, s, mints, programOf, r.value, age);
    } else {
      var missing := Missing(mints);
      var k :| 0 <= k < |missing| && missing[k].Program(programOf) == Err(r.error);
      FailureIsTold(chain, s, mints, programOf, missing[k], r.error, age);
    }
  }

  lemma {:induction false} MissingMembers(mints: seq<MintLookup>, m: MintLookup)
    ensures m in Missing(mints) <==> m in mints && m.IsMissing()
  {
    if mints != [] { MissingMembers(mints[..|mints| - 1], m); }
  }
}
