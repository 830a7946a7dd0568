/** The account cache in front of the RPC node, under concurrent calls, a clock and a changing chain. */
module AccountCache {
  import opened Results

  type Pubkey = string

  // Any number of concurrent `get_account` calls, each advancing one external interaction at a time. Times are in
  // seconds; the cache's own timestamps are whole seconds.

  datatype Account = Account(lamports: nat, owner: Pubkey, data: seq<nat>)

  datatype CacheError = AccountNotFound(key: Pubkey) | RpcFailure(what: string) | ConfigError

  type Outcome = Result<Account, CacheError>

  /** `readAt`, when the node read the account, is kept for the record; the source does not store it. */
  datatype CachedAccount = CachedAccount(account: Account, cachedAt: int, readAt: real)

  /** `loaded`: the configuration could be read; `enabled`: it turns the cache on and names a server;
      `pool`: the connection pool was initialised. */
  datatype Config = Config(loaded: bool, enabled: bool, pool: bool, ttl: nat)
  {
    predicate Caching() { loaded && enabled && pool }
  }

  /** The accounts on the chain at every instant. */
  type Chain = (Pubkey, real) -> Option<Account>

  /** Where a call is: about to ask the cache, holding its answer, about to ask the node (and whether
      the answer will be cached), about to stamp the node's answer, about to store it, or returned. */
  datatype Phase =
    | Looking
    | Deciding(found: Option<CachedAccount>)
    | Fetching(caching: bool)
    | Stamping(account: Account, readAt: real)
    | Storing(entry: CachedAccount)
    | Done(result: Outcome, at: real, readAt: real)

  /** A call and what the node answered it, if it has asked. For the record: the calls that had returned
      when it began, and of a returned call, when the node read what it hands back. */
  datatype Call = Call(key: Pubkey, forceRefresh: bool, startedAt: real, before: set<nat>, answer: Option<Outcome>,
      phase: Phase)

  datatype State = State(now: real, store: map<Pubkey, CachedAccount>, calls: map<nat, Call>)

  datatype Event =
    | Tick(elapsed: real)
    | Begin(id: nat, key: Pubkey, forceRefresh: bool)
    | Lookup(id: nat, failed: bool)
    | Decide(id: nat)
    | Fetch(id: nat, failure: Option<string>)
    | Stamp(id: nat)
    | Store(id: nat, failed: bool)
    | Evict(key: Pubkey)

  const INITIAL: State := State(0.0, map[], map[])

  // ----- Steps --------------------------------------------------------------------------------

  const TWO_63: int := 0x8000_0000_0000_0000

  /** `ttl as i64` */
  function AsI64(n: nat): int {
    var low := n % (2 * TWO_63);
    if low < TWO_63 then low else low - 2 * TWO_63
  }

  predicate StillValid(e: CachedAccount, now: real, ttl: nat) { now.Floor - e.cachedAt < AsI64(ttl) }

  function FirstPhase(config: Config, forceRefresh: bool, now: real): Phase {
    if !config.loaded then Done(Err(ConfigError), now, now)
    else if !config.Caching() then Fetching(false)
    else if forceRefresh then Fetching(true)
    else Looking
  }

  /** What the node says at an instant, unless the request itself fails. */
  function Answer(chain: Chain, key: Pubkey, now: real, failure: Option<string>): Outcome {
    match failure
    case Some(what) => Err(RpcFailure(what))
    case None => match chain(key, now) case Some(account) => Ok(account) case None => Err(AccountNotFound(key))
  }

  /** A call's next step under an event meant for it; an event that does not fit its phase changes
      nothing. */
  function Advance(chain: Chain, config: Config, s: State, c: Call, e: Event): Call {
    if e.Lookup? && c.phase.Looking? then
      c.(phase := Deciding(if e.failed || c.key !in s.store then None else Some(s.store[c.key])))
    else if e.Decide? && c.phase.Deciding? then
      if c.phase.found.Some? && StillValid(c.phase.found.value, s.now, config.ttl)
      then c.(phase := Done(Ok(c.phase.found.value.account), s.now, c.phase.found.value.readAt))
      else c.(phase := Fetching(true))
    else if e.Fetch? && c.phase.Fetching? then
      var answer := Answer(chain, c.key, s.now, e.failure);
      c.(answer := Some(answer),
         phase := if answer.Ok? && c.phase.caching then Stamping(answer.value, s.now) else Done(answer, s.now, s.now))
    else if e.Stamp? && c.phase.Stamping? then
      c.(phase := Storing(CachedAccount(c.phase.account, s.now.Floor, c.phase.readAt)))
    else if e.Store? && c.phase.Storing? then
      c.(phase := Done(Ok(c.phase.entry.account), s.now, c.phase.entry.readAt))
    else c
  }

  function ReturnedCalls(s: State): set<nat> { set id | id in s.calls && s.calls[id].phase.Done? }

  function Step(chain: Chain, config: Config, s: State, e: Event): State {
    if e.Tick? then
      if e.elapsed >= 0.0 then s.(now := s.now + e.elapsed) else s
    else if e.Evict? then
      s.(store := s.store - {e.key})
    else if e.Begin? then
      if e.id in s.calls then s
      else s.(calls := s.calls[e.id := Call(e.key, e.forceRefresh, s.now, ReturnedCalls(s), None,
          FirstPhase(config, e.forceRefresh, s.now))])
    else if e.id !in s.calls then s
    else
      var c := s.calls[e.id];
      s.(store := if e.Store? && !e.failed && c.phase.Storing? then s.store[c.key := c.phase.entry] else s.store,
         calls := s.calls[e.id := Advance(chain, config, s, c, e)])
  }

  function Run(chain: Chain, config: Config, events: seq<Event>): State {
    if events == [] then INITIAL
    else Step(chain, config, Run(chain, config, events[..|events| - 1]), events[|events| - 1])
  }

  // ----- What every state keeps -----------------------------------------------------------------

  ghost predicate OnChain(chain: Chain, key: Pubkey, account: Account, t: real) { chain(key, t) == Some(account) }

  /** The results that say what was on the chain: an account, or that there is none. */
  predicate IsReading(result: Outcome) { result.Ok? || result.error.AccountNotFound? }

  /** The chain was as such a result says. */
  ghost predicate ReadsAs(chain: Chain, key: Pubkey, result: Outcome, t: real) {
    if result.Ok? then OnChain(chain, key, result.value, t) else Absent(chain, key, t)
  }

  /** The account was on the chain at an instant of the closed interval. */
  ghost predicate OnChainDuring(chain: Chain, key: Pubkey, account: Account, from: real, to: real) {
    exists t: real :: from <= t <= to && OnChain(chain, key, account, t)
  }

  ghost predicate Absent(chain: Chain, key: Pubkey, t: real) { chain(key, t) == None }

  /** There was no account at an instant of the closed interval. */
  ghost predicate AbsentDuring(chain: Chain, key: Pubkey, from: real, to: real) {
    exists t: real :: from <= t <= to && Absent(chain, key, t)
  }

  /** There was none at any of them. */
  ghost predicate AbsentThroughout(chain: Chain, key: Pubkey, from: real, to: real) {
    forall t: real | from <= t <= to :: Absent(chain, key, t)
  }

  /** The account was on the chain less than `age` before `now`. */
  ghost predicate OnChainSince(chain: Chain, key: Pubkey, account: Account, now: real, age: real) {
    exists t: real :: now - age < t <= now && OnChain(chain, key, account, t)
  }

  ghost predicate ReadAndStamped(chain: Chain, key: Pubkey, e: CachedAccount, now: real, latency: real, stamped: real) {
    && e.readAt <= stamped <= now && stamped - e.readAt <= latency && e.cachedAt == stamped.Floor
    && OnChain(chain, key, e.account, e.readAt)
  }

  /** An entry was read from the chain and stamped within the latency bound. */
  ghost predicate Sourced(chain: Chain, key: Pubkey, e: CachedAccount, now: real, latency: real) {
    exists stamped: real :: ReadAndStamped(chain, key, e, now, latency, stamped)
  }

  /** What a returned call may hand back: the node's own answer to it, if it asked; an account the
      cache vouches for, if it did not. */
  ghost predicate ResultOk(chain: Chain, config: Config, latency: real, c: Call, result: Outcome, at: real,
      readAt: real) {
    && (IsReading(result) ==> readAt <= at && ReadsAs(chain, c.key, result, readAt))
    &&
    match c.answer
    case Some(answer) =>
      && result == answer
      && config.loaded
      && (result.Ok? ==> OnChainDuring(chain, c.key, result.value, c.startedAt, at))
      && (result.Err? && !result.error.RpcFailure? ==> AbsentDuring(chain, c.key, c.startedAt, at))
    case None =>
      || (!config.loaded && result == Err(ConfigError))
      || (config.Caching() && !c.forceRefresh && result.Ok? && AsI64(config.ttl) > 0
          && OnChainSince(chain, c.key, result.value, at, AsI64(config.ttl) as real + latency))
  }

  ghost predicate CallOk(chain: Chain, config: Config, latency: real, now: real, c: Call) {
    && c.startedAt <= now
    && match c.phase
       case Looking => c.answer.None? && config.Caching() && !c.forceRefresh
       case Deciding(found) =>
         && c.answer.None? && config.Caching() && !c.forceRefresh
         && (found.Some? ==> Sourced(chain, c.key, found.value, now, latency))
       case Fetching(caching) => c.answer.None? && config.loaded && caching == config.Caching()
       case Stamping(account, readAt) =>
         && c.answer == Some(Ok(account)) && config.loaded
         && c.startedAt <= readAt <= now && OnChain(chain, c.key, account, readAt)
       case Storing(entry) =>
         && c.answer == Some(Ok(entry.account)) && config.loaded
         && c.startedAt <= entry.readAt <= now && OnChain(chain, c.key, entry.account, entry.readAt)
         && Sourced(chain, c.key, entry, now, latency)
       case Done(result, at, readAt) =>
         c.startedAt <= at <= now
         && ResultOk(chain, config, latency, c, result, at, readAt)
  }

  ghost predicate Inv(chain: Chain, config: Config, latency: real, s: State) {
    && (forall key | key in s.store :: Sourced(chain, key, s.store[key], s.now, latency))
    && (forall id | id in s.calls :: CallOk(chain, config, latency, s.now, s.calls[id]))
  }

  /** No read waits longer than the bound for its stamp. */
  predicate Timely(latency: real, s: State, e: Event) {
    e.Stamp? && e.id in s.calls && s.calls[e.id].phase.Stamping? ==> s.now - s.calls[e.id].phase.readAt <= latency
  }

  predicate TimelyRun(chain: Chain, config: Config, latency: real, events: seq<Event>) {
    events == [] ||
    var init := events[..|events| - 1];
    TimelyRun(chain, config, latency, init) && Timely(latency, Run(chain, config, init), events[|events| - 1])
  }

  // ----- Preservation ---------------------------------------------------------------------------

  lemma SourcedLater(chain: Chain, key: Pubkey, e: CachedAccount, now: real, later: real, latency: real)
    requires Sourced(chain, key, e, now, latency) && now <= later
    ensures Sourced(chain, key, e, later, latency)
  {
    var stamped: real :| ReadAndStamped(chain, key, e, now, latency, stamped);
    assert ReadAndStamped(chain, key, e, later, latency, stamped);
  }

  lemma CallOkLater(chain: Chain, config: Config, latency: real, now: real, later: real, c: Call)
    requires CallOk(chain, config, latency, now, c) && now <= later
    ensures CallOk(chain, config, latency, later, c)
  {
    match c.phase
    case Deciding(found) => if found.Some? { SourcedLater(chain, c.key, found.value, now, later, latency); }
    case Storing(entry) =>
      SourcedLater(chain, c.key, entry, now, later, latency);
      var t: real :| c.startedAt <= t <= now && OnChain(chain, c.key, entry.account, t);
      assert c.startedAt <= t <= later && OnChain(chain, c.key, entry.account, t);
    case Looking =>
    case Fetching(_) =>
    case Stamping(_, _) =>
    case Done(_, _, _) =>
  }

  /** Whole-second arithmetic: an entry whose age in whole seconds is below the limit was stamped
      less than the limit ago. */
  lemma YoungerThan(stamped: real, now: real, limit: int)
    requires now.Floor - stamped.Floor < limit
    ensures now - stamped < limit as real
  {
    assert now < (now.Floor + 1) as real && stamped >= stamped.Floor as real;
    assert (now.Floor + 1) as real - stamped.Floor as real <= limit as real;
  }

  lemma ValidEntryIsRecent(chain: Chain, config: Config, latency: real, key: Pubkey, e: CachedAccount, now: real)
    requires Sourced(chain, key, e, now, latency) && StillValid(e, now, config.ttl)
    ensures OnChainSince(chain, key, e.account, now, AsI64(config.ttl) as real + latency) && AsI64(config.ttl) > 0
  {
    var stamped: real :| ReadAndStamped(chain, key, e, now, latency, stamped);
    YoungerThan(stamped, now, AsI64(config.ttl));
    assert now - (AsI64(config.ttl) as real + latency) < e.readAt <= now && OnChain(chain, key, e.account, e.readAt);
  }

  lemma AdvanceOk(chain: Chain, config: Config, latency: real, s: State, c: Call, e: Event)
    requires Inv(chain, config, latency, s) && CallOk(chain, config, latency, s.now, c)
    requires e.Stamp? && c.phase.Stamping? ==> s.now - c.phase.readAt <= latency
    ensures CallOk(chain, config, latency, s.now, Advance(chain, config, s, c, e))
  {
    if e.Decide? && c.phase.Deciding? {
      if c.phase.found.Some? && StillValid(c.phase.found.value, s.now, config.ttl) {
        ValidEntryIsRecent(chain, config, latency, c.key, c.phase.found.value, s.now);
      }
    } else if e.Fetch? && c.phase.Fetching? {
      var answer := Answer(chain, c.key, s.now, e.failure);
      if answer.Ok? {
        assert OnChain(chain, c.key, answer.value, s.now);
        assert OnChainDuring(chain, c.key, answer.value, c.startedAt, s.now);
      } else {
        assert e.failure.None? ==> Absent(chain, c.key, s.now);
        assert e.failure.None? ==> AbsentDuring(chain, c.key, c.startedAt, s.now);
      }
    } else if e.Stamp? && c.phase.Stamping? {
      var entry := CachedAccount(c.phase.account, s.now.Floor, c.phase.readAt);
      assert ReadAndStamped(chain, c.key, entry, s.now, latency, s.now);
      assert c.startedAt <= c.phase.readAt <= s.now && OnChain(chain, c.key, c.phase.account, c.phase.readAt);
    }
  }

  lemma StepInv(chain: Chain, config: Config, latency: real, s: State, e: Event)
    requires Inv(chain, config, latency, s) && Timely(latency, s, e)
    ensures Inv(chain, config, latency, Step(chain, config, s, e))
  {
    var s' := Step(chain, config, s, e);
    if e.Tick? {
      forall key | key in s'.store ensures Sourced(chain, key, s'.store[key], s'.now, latency) {
        SourcedLater(chain, key, s.store[key], s.now, s'.now, latency);
      }
      forall id | id in s'.calls ensures CallOk(chain, config, latency, s'.now, s'.calls[id]) {
        CallOkLater(chain, config, latency, s.now, s'.now, s.calls[id]);
      }
    } else if !e.Begin? && !e.Evict? && e.id in s.calls {
      AdvanceOk(chain, config, latency, s, s.calls[e.id], e);
    }
  }

  lemma {:induction false} RunInv(chain: Chain, config: Config, latency: real, events: seq<Event>)
    requires TimelyRun(chain, config, latency, events)
    ensures Inv(chain, config, latency, Run(chain, config, events))
  {
    if events != [] {
      var init := events[..|events| - 1];
      RunInv(chain, config, latency, init);
      StepInv(chain, config, latency, Run(chain, config, init), events[|events| - 1]);
    }
  }

  // ----- The guarantees -------------------------------------------------------------------------

  ghost predicate Returned(s: State, id: nat, result: Outcome, at: real) {
    id in s.calls && s.calls[id].phase.Done? && s.calls[id].phase.result == result && s.calls[id].phase.at == at
  }

  /** Whatever the calls around it, the node, the cache and the chain do: an account handed back by a
      call was on the chain during the call, or less than the time-to-live plus the read-to-stamp
      latency before it returned. */
  lemma ReturnedAccountsAreRecent(chain: Chain, config: Config, latency: real, events: seq<Event>, id: nat,
      account: Account, at: real)
    requires TimelyRun(chain, config, latency, events) && config.ttl < TWO_63
    requires Returned(Run(chain, config, events), id, Ok(account), at)
    ensures var c := Run(chain, config, events).calls[id];
            || OnChainDuring(chain, c.key, account, c.startedAt, at)
            || OnChainSince(chain, c.key, account, at, config.ttl as real + latency)
  {
    RunInv(chain, config, latency, events);
  }

  /** A time-to-live of zero, or beyond the signed range, never lets the cache answer: every account
      handed back was then on the chain during the call. */
  lemma ZeroOrHugeTtlDisablesTheCache(
      chain: Chain, config: Config, latency: real, events: seq<Event>, id: nat, account: Account, at: real)
    requires TimelyRun(chain, config, latency, events) && (config.ttl == 0 || TWO_63 <= config.ttl < 2 * TWO_63)
    requires Returned(Run(chain, config, events), id, Ok(account), at)
    ensures var c := Run(chain, config, events).calls[id];
            OnChainDuring(chain, c.key, account, c.startedAt, at)
  {
    RunInv(chain, config, latency, events);
    assert AsI64(config.ttl) <= 0;
  }

  /** A forced refresh, and every call while the cache is off, hands back what the node said during
      the call itself. */
  lemma RefreshReadsDuringTheCall(chain: Chain, config: Config, latency: real, events: seq<Event>, id: nat,
      account: Account, at: real)
    requires TimelyRun(chain, config, latency, events)
    requires Returned(Run(chain, config, events), id, Ok(account), at)
    requires Run(chain, config, events).calls[id].forceRefresh || !config.Caching()
    ensures var c := Run(chain, config, events).calls[id];
            c.answer == Some(Ok(account)) && OnChainDuring(chain, c.key, account, c.startedAt, at)
  {
    RunInv(chain, config, latency, events);
  }

  /** Only the configuration and the node can make a call fail: a call that asked the node hands back
      the node's answer, failures of the cache before or after notwithstanding, and a call that did not
      ask, with its configuration loaded, succeeds. */
  lemma OutcomesComeFromTheNode(chain: Chain, config: Config, latency: real, events: seq<Event>, id: nat,
      result: Outcome, at: real)
    requires TimelyRun(chain, config, latency, events)
    requires Returned(Run(chain, config, events), id, result, at)
    ensures var c := Run(chain, config, events).calls[id];
            match c.answer
            case Some(answer) => config.loaded && result == answer
            case None => if config.loaded then result.Ok? else result == Err(ConfigError)
  {
    RunInv(chain, config, latency, events);
  }

  /** What a returned call can be relied on for. */
  lemma AnswerMeaning(chain: Chain, config: Config, latency: real, now: real, c: Call)
    requires CallOk(chain, config, latency, now, c) && c.phase.Done? && config.loaded && config.ttl < TWO_63
    ensures match c.phase.result
            case Ok(account) =>
              || OnChainDuring(chain, c.key, account, c.startedAt, c.phase.at)
              || (c.answer.None? && OnChainSince(chain, c.key, account, c.phase.at, config.ttl as real + latency))
            case Err(error) => error.RpcFailure? || AbsentDuring(chain, c.key, c.startedAt, c.phase.at)
  {
  }

  /** An account handed back although it was gone throughout the call was served by the cache, and was
      still there less than the time-to-live plus the latency before. */
  lemma GoneAccountsComeFromTheCache(
      chain: Chain, config: Config, latency: real, events: seq<Event>, id: nat, account: Account, at: real)
    requires TimelyRun(chain, config, latency, events) && config.ttl < TWO_63
    requires Returned(Run(chain, config, events), id, Ok(account), at)
    requires var c := Run(chain, config, events).calls[id]; AbsentThroughout(chain, c.key, c.startedAt, at)
    ensures var c := Run(chain, config, events).calls[id];
            && c.answer.None? && config.Caching() && !c.forceRefresh
            && OnChainSince(chain, c.key, account, at, config.ttl as real + latency)
  {
    RunInv(chain, config, latency, events);
    var c := Run(chain, config, events).calls[id];
    assert forall t: real :: OnChain(chain, c.key, account, t) ==> !Absent(chain, c.key, t);
  }

  /** An account not handed back although it was there throughout the call is due to a failed request. */
  lemma PresentAccountsAreMissedByFailures(
      chain: Chain, config: Config, latency: real, events: seq<Event>, id: nat, error: CacheError, at: real)
    requires TimelyRun(chain, config, latency, events) && config.loaded
    requires Returned(Run(chain, config, events), id, Err(error), at)
    requires var c := Run(chain, config, events).calls[id]; !AbsentDuring(chain, c.key, c.startedAt, at)
    ensures error.RpcFailure?
  {
    RunInv(chain, config, latency, events);
  }

  // ----- Progress -------------------------------------------------------------------------------

  function StepsLeft(p: Phase): nat {
    match p
    case Looking => 5 case Deciding(_) => 4 case Fetching(_) => 3 case Stamping(_, _) => 2 case Storing(_) => 1
        case Done(_, _, _) => 0
  }

  /** The interaction a call is waiting for, whatever its outcome. */
  predicate Awaited(p: Phase, e: Event) {
    match p
    case Looking => e.Lookup? case Deciding(_) => e.Decide? case Fetching(_) => e.Fetch?
    case Stamping(_, _) => e.Stamp? case Storing(_) => e.Store? case Done(_, _, _) => false
  }

  /** How many of the events are the awaited interaction of the call at the time they occur. */
  function Moves(chain: Chain, config: Config, events: seq<Event>, id: nat): nat {
    if events == [] then 0
    else
      var init, e := events[..|events| - 1], events[|events| - 1];
      var s := Run(chain, config, init);
      Moves(chain, config, init, id) + (if !e.Tick? && !e.Evict? && e.id == id && id in s.calls
          && Awaited(s.calls[id].phase, e) then 1 else 0)
  }

  /** A call returns after at most five interactions, and never changes its mind. */
  lemma {:induction false} CallsTakeFiveSteps(chain: Chain, config: Config, events: seq<Event>, id: nat)
    ensures var s := Run(chain, config, events);
            if id in s.calls then Moves(chain, config, events, id) + StepsLeft(s.calls[id].phase) <= 5
            else Moves(chain, config, events, id) == 0
  {
    if events != [] {
      var init, e := events[..|events| - 1], events[|events| - 1];
      CallsTakeFiveSteps(chain, config, init, id);
      var s := Run(chain, config, init);
      if id in s.calls && !e.Tick? && !e.Evict? && !e.Begin? && e.id == id {
        AdvanceCounts(chain, config, s, s.calls[id], e);
      }
    }
  }

  lemma AdvanceCounts(chain: Chain, config: Config, s: State, c: Call, e: Event)
    ensures var c' := Advance(chain, config, s, c, e);
            if Awaited(c.phase, e) then StepsLeft(c'.phase) < StepsLeft(c.phase) else c' == c
  {
  }
}
