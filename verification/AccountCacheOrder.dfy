/** The order of the account cache's reads: when a call that starts after another has returned is sure not
    to hand back an older reading, and a run for each condition in which reads go backwards without it. */
module AccountCacheOrder {
  import opened Results
  import opened AccountCache

  // ----- Readings -----------------------------------------------------------------------------------

  predicate IsFor(s: State, id: nat, key: Pubkey) { id in s.calls && s.calls[id].key == key }

  /** Between the node's answer and the end of the attempt to store it. */
  predicate IsStoring(c: Call) { c.phase.Stamping? || c.phase.Storing? }

  /** When the node read what a call holds or has handed back: an account, or that there is none. */
  function Reading(c: Call): Option<real> {
    match c.phase
    case Looking => None
    case Deciding(found) => if found.Some? then Some(found.value.readAt) else None
    case Fetching(_) => None
    case Stamping(_, readAt) => Some(readAt)
    case Storing(entry) => Some(entry.readAt)
    case Done(result, _, readAt) => if IsReading(result) then Some(readAt) else None
  }

  /** The same, but for what a call has found in the cache and will not use. */
  function Held(config: Config, now: real, c: Call): Option<real> {
    if c.phase.Deciding? && c.phase.found.Some? && !StillValid(c.phase.found.value, now, config.ttl) then None
    else Reading(c)
  }

  // ----- Orderly runs -------------------------------------------------------------------------------

  /** No store for the key fails. */
  predicate StoreSucceeds(s: State, e: Event, key: Pubkey) {
    e.Store? && e.failed ==> !(IsFor(s, e.id, key) && s.calls[e.id].phase.Storing?)
  }

  /** No two calls for the key are between fetch and store at once. */
  predicate FetchesAlone(s: State, e: Event, key: Pubkey) {
    e.Fetch? && IsFor(s, e.id, key) && s.calls[e.id].phase.Fetching? ==>
      forall id | id in s.calls :: !(IsFor(s, id, key) && IsStoring(s.calls[id]))
  }

  predicate Servable(config: Config, s: State, key: Pubkey) {
    key in s.store && StillValid(s.store[key], s.now, config.ttl)
  }

  /** No fetch for the key finds no account while the cache could still serve one. */
  predicate FindsWhatIsCached(chain: Chain, config: Config, s: State, e: Event, key: Pubkey) {
    (e.Fetch? && IsFor(s, e.id, key) && s.calls[e.id].phase.Fetching?
     && Answer(chain, key, s.now, e.failure) == Err(AccountNotFound(key))) ==>
      !Servable(config, s, key)
  }

  /** The one of these conditions that a run may break. */
  datatype Slip = NoSlip | FailedStore | OverlappingFetches | VanishedAccount

  predicate Orderly(slip: Slip, chain: Chain, config: Config, s: State, e: Event, key: Pubkey) {
    && (slip.FailedStore? || StoreSucceeds(s, e, key))
    && (slip.OverlappingFetches? || FetchesAlone(s, e, key))
    && (slip.VanishedAccount? || FindsWhatIsCached(chain, config, s, e, key))
  }

  predicate OrderlyRun(slip: Slip, chain: Chain, config: Config, key: Pubkey, events: seq<Event>) {
    events == [] ||
    var init, e := events[..|events| - 1], events[|events| - 1];
    OrderlyRun(slip, chain, config, key, init) && Orderly(slip, chain, config, Run(chain, config, init), e, key)
  }

  // ----- What orderly runs keep ---------------------------------------------------------------------

  /** No reading is from the future. */
  ghost predicate PastReadings(s: State, key: Pubkey) {
    && (key in s.store ==> s.store[key].readAt <= s.now)
    && (forall id | IsFor(s, id, key) && Reading(s.calls[id]).Some? :: Reading(s.calls[id]).value <= s.now)
  }

  /** While it can be served, the cached reading is at least as recent as any that has left the cache or
      been handed back. */
  ghost predicate FreshStore(config: Config, s: State, key: Pubkey) {
    Servable(config, s, key) ==>
      forall id | IsFor(s, id, key) && !IsStoring(s.calls[id]) && Held(config, s.now, s.calls[id]).Some? ::
        Held(config, s.now, s.calls[id]).value <= s.store[key].readAt
  }

  /** A reading about to be stored is the only one, and the most recent. */
  ghost predicate FreshStoring(config: Config, s: State, key: Pubkey) {
    forall p | IsFor(s, p, key) && IsStoring(s.calls[p]) ::
      && (key in s.store ==> s.store[key].readAt <= Reading(s.calls[p]).value)
      && (forall id | IsFor(s, id, key) && id != p ::
            !IsStoring(s.calls[id]) && (Held(config, s.now, s.calls[id]).Some? ==>
                Held(config, s.now, s.calls[id]).value <= Reading(s.calls[p]).value))
  }

  /** The later call's reading is no older than the earlier one's. */
  ghost predicate NotOlder(config: Config, s: State, later: nat, earlier: nat)
    requires later in s.calls && earlier in s.calls
  {
    var r, q := Held(config, s.now, s.calls[earlier]), Held(config, s.now, s.calls[later]);
    r.Some? && q.Some? ==> r.value <= q.value
  }

  ghost predicate InOrder(config: Config, s: State, key: Pubkey) {
    forall d, e | IsFor(s, d, key) && e in s.calls[d].before ::
      e in s.calls && s.calls[e].phase.Done? && (s.calls[e].key == key ==> NotOlder(config, s, d, e))
  }

  ghost predicate CachingOk(config: Config, s: State) {
    && (!config.Caching() ==> s.store == map[])
    && (forall id | id in s.calls ::
          && (s.calls[id].phase.Fetching? ==> s.calls[id].phase.caching == config.Caching())
          && (IsStoring(s.calls[id]) || s.calls[id].phase.Deciding? ==> config.Caching()))
    && (forall id | id in s.calls && s.calls[id].phase.Looking? :: config.Caching())
  }

  ghost predicate OrderInv(config: Config, s: State, key: Pubkey) {
    PastReadings(s, key) && FreshStore(config, s, key) && FreshStoring(config, s, key) && InOrder(config, s, key)
      && CachingOk(config, s)
  }

  // ----- Preservation -------------------------------------------------------------------------------

  ghost predicate PhaseOk(config: Config, d: Call) {
    && (d.phase.Fetching? ==> d.phase.caching == config.Caching())
    && (IsStoring(d) || d.phase.Deciding? || d.phase.Looking? ==> config.Caching())
  }

  /** A new call has no reading, and every returned call before it. */
  lemma BeginOrder(config: Config, s: State, id: nat, d: Call, key: Pubkey)
    requires OrderInv(config, s, key) && id !in s.calls && d.before == ReturnedCalls(s)
    requires Reading(d).None? && !IsStoring(d) && PhaseOk(config, d)
    ensures OrderInv(config, s.(calls := s.calls[id := d]), key)
  {
  }

  lemma QuietOrder(chain: Chain, config: Config, s: State, e: Event, key: Pubkey)
    requires OrderInv(config, s, key) && (e.Tick? || e.Evict?)
    ensures OrderInv(config, Step(chain, config, s, e), key)
  {
  }

  /** The same call, further on. */
  predicate Continues(c: Call, d: Call) { d.key == c.key && d.before == c.before && !c.phase.Done? }

  /** A call goes on with the reading it had, or drops it. */
  lemma KeepsReading(config: Config, s: State, id: nat, d: Call, key: Pubkey)
    requires OrderInv(config, s, key) && id in s.calls && Continues(s.calls[id], d) && PhaseOk(config, d)
    requires IsStoring(d) == IsStoring(s.calls[id]) && !d.phase.Deciding?
        && (Reading(d) == Held(config, s.now, s.calls[id]) || (Reading(d).None? && !IsStoring(d)))
    ensures OrderInv(config, s.(calls := s.calls[id := d]), key)
  {
  }

  /** A call takes up the cached reading. */
  lemma TakesCached(config: Config, s: State, id: nat, d: Call, key: Pubkey)
    requires OrderInv(config, s, key) && id in s.calls && Continues(s.calls[id], d) && PhaseOk(config, d)
        && d.phase.Deciding?
    requires !IsStoring(s.calls[id])
    requires d.key == key && Reading(d).Some? ==> key in s.store && d.phase.found == Some(s.store[key])
    ensures OrderInv(config, s.(calls := s.calls[id := d]), key)
  {
  }

  /** A call takes up a new reading, on its way to the cache. */
  lemma ReadsNow(config: Config, s: State, id: nat, d: Call, key: Pubkey)
    requires OrderInv(config, s, key) && id in s.calls && Continues(s.calls[id], d) && PhaseOk(config, d)
        && IsStoring(d)
    requires !IsStoring(s.calls[id]) && Reading(d) == Some(s.now)
    requires d.key == key ==> forall k | k in s.calls :: !(IsFor(s, k, key) && IsStoring(s.calls[k]))
    ensures OrderInv(config, s.(calls := s.calls[id := d]), key)
  {
  }

  /** A call returns with a new reading that does not go to the cache, which has nothing to serve. */
  lemma ReturnsNow(config: Config, s: State, id: nat, d: Call, key: Pubkey)
    requires OrderInv(config, s, key) && id in s.calls && Continues(s.calls[id], d) && d.phase.Done?
    requires !IsStoring(s.calls[id]) && Reading(d) == Some(s.now)
    requires d.key == key ==>
               !Servable(config, s, key) && forall k | k in s.calls :: !(IsFor(s, k, key) && IsStoring(s.calls[k]))
    ensures OrderInv(config, s.(calls := s.calls[id := d]), key)
  {
  }

  /** A call returns its reading and leaves it in the cache. */
  lemma StoresReading(config: Config, s: State, id: nat, d: Call, entry: CachedAccount, key: Pubkey)
    requires OrderInv(config, s, key) && id in s.calls && Continues(s.calls[id], d) && d.phase.Done?
    requires IsStoring(s.calls[id]) && Reading(d) == Reading(s.calls[id]) == Some(entry.readAt)
    ensures OrderInv(config, s.(store := s.store[d.key := entry], calls := s.calls[id := d]), key)
  {
  }

  /** A call for another key returns without leaving its reading in the cache. */
  lemma StoreFailsElsewhere(config: Config, s: State, id: nat, d: Call, key: Pubkey)
    requires OrderInv(config, s, key) && id in s.calls && Continues(s.calls[id], d) && d.phase.Done? && d.key != key
    ensures OrderInv(config, s.(calls := s.calls[id := d]), key)
  {
  }

  lemma StepOrder(chain: Chain, config: Config, s: State, e: Event, key: Pubkey)
    requires OrderInv(config, s, key) && Orderly(NoSlip, chain, config, s, e, key)
    ensures OrderInv(config, Step(chain, config, s, e), key)
  {
    if e.Tick? || e.Evict? {
      QuietOrder(chain, config, s, e, key);
    } else if e.Begin? {
      if e.id !in s.calls { BeginOrder(config, s, e.id, Step(chain, config, s, e).calls[e.id], key); }
    } else if e.id in s.calls {
      AdvanceOrder(chain, config, s, e, key);
    }
  }

  lemma AdvanceOrder(chain: Chain, config: Config, s: State, e: Event, key: Pubkey)
    requires OrderInv(config, s, key) && Orderly(NoSlip, chain, config, s, e, key)
    requires !e.Tick? && !e.Evict? && !e.Begin? && e.id in s.calls
    ensures OrderInv(config, Step(chain, config, s, e), key)
  {
    var c, d := s.calls[e.id], Advance(chain, config, s, s.calls[e.id], e);
    if e.Lookup? && c.phase.Looking? {
      TakesCached(config, s, e.id, d, key);
    } else if e.Fetch? && c.phase.Fetching? && IsReading(Answer(chain, c.key, s.now, e.failure)) {
      if IsStoring(d) { ReadsNow(config, s, e.id, d, key); } else { ReturnsNow(config, s, e.id, d, key); }
    } else if e.Store? && c.phase.Storing? {
      if e.failed {
        StoreFailsElsewhere(config, s, e.id, d, key);
      } else {
        StoresReading(config, s, e.id, d, c.phase.entry, key);
      }
    } else if d == c {
      assert s.calls[e.id := d] == s.calls;
    } else {
      KeepsReading(config, s, e.id, d, key);
    }
  }

  lemma {:induction false} OrderlyRunInv(chain: Chain, config: Config, key: Pubkey, events: seq<Event>)
    requires OrderlyRun(NoSlip, chain, config, key, events)
    ensures OrderInv(config, Run(chain, config, events), key)
  {
    if events != [] {
      var init := events[..|events| - 1];
      OrderlyRunInv(chain, config, key, init);
      StepOrder(chain, config, Run(chain, config, init), events[|events| - 1], key);
    }
  }

  // ----- Reads in order -----------------------------------------------------------------------------

  /** When no store for a key fails, no two calls for it are between fetch and store at once, and none
      finds the account gone while the cache could still serve it, a call that starts after another has
      returned never hands back an older reading: the chain was as the two results say, the account there
      or not, at instants in that order. */
  lemma ReadsInOrder(chain: Chain, config: Config, latency: real, events: seq<Event>, key: Pubkey, earlier: nat,
      later: nat)
    requires OrderlyRun(NoSlip, chain, config, key, events) && TimelyRun(chain, config, latency, events)
    requires var s := Run(chain, config, events);
             && IsFor(s, earlier, key) && IsFor(s, later, key) && earlier in s.calls[later].before
             && s.calls[later].phase.Done? && IsReading(s.calls[later].phase.result)
             && s.calls[earlier].phase.Done? && IsReading(s.calls[earlier].phase.result)
    ensures var c, d := Run(chain, config, events).calls[earlier].phase, Run(chain, config, events).calls[later].phase;
            ReadsAs(chain, key, c.result, c.readAt) && ReadsAs(chain, key, d.result, d.readAt) && c.readAt <= d.readAt
  {
    OrderlyRunInv(chain, config, key, events);
    RunInv(chain, config, latency, events);
    var s := Run(chain, config, events);
    assert NotOlder(config, s, later, earlier);
  }

  // ----- Reads out of order -------------------------------------------------------------------------

  const OLD_ACCOUNT: Account := Account(1, "owner", [])
  const NEW_ACCOUNT: Account := Account(2, "owner", [])

  function ChangingChain(key: Pubkey, t: real): Option<Account> { Some(if t < 1.0 then OLD_ACCOUNT else NEW_ACCOUNT) }

  function Replay(chain: Chain, config: Config, s: State, events: seq<Event>): State
    decreases |events|
  {
    if events == [] then s else Replay(chain, config, Step(chain, config, s, events[0]), events[1..])
  }

  lemma {:induction false} RunIsReplay(chain: Chain, config: Config, a: seq<Event>, b: seq<Event>)
    ensures Run(chain, config, a + b) == Replay(chain, config, Run(chain, config, a), b)
    decreases |b|
  {
    if b == [] {
      assert a + b == a;
    } else {
      assert a + b == (a + [b[0]]) + b[1..];
      assert (a + [b[0]])[..|a|] == a;
      RunIsReplay(chain, config, a + [b[0]], b[1..]);
    }
  }

  /** The call has handed back what the node read at t. */
  predicate HandsBack(s: State, id: nat, t: real) {
    id in s.calls && s.calls[id].phase.Done? && Reading(s.calls[id]) == Some(t)
  }

  /** Reads go backwards: a call that started after another had returned hands back an older reading. */
  ghost predicate GoesBackwards(s: State, earlier: nat, later: nat) {
    exists t: real, u: real ::
      && HandsBack(s, earlier, t) && HandsBack(s, later, u) && u < t
      && s.calls[earlier].key == s.calls[later].key && earlier in s.calls[later].before
  }

  /** A run that keeps all conditions but one gets to the state. */
  ghost predicate Gets(slip: Slip, chain: Chain, config: Config, s: State) {
    exists events: seq<Event> :: OrderlyRun(slip, chain, config, "k", events) && Run(chain, config, events) == s
  }

  lemma GetsOn(slip: Slip, chain: Chain, config: Config, s: State, e: Event)
    requires Gets(slip, chain, config, s) && Orderly(slip, chain, config, s, e, "k")
    ensures Gets(slip, chain, config, Step(chain, config, s, e))
  {
    var events: seq<Event> :| OrderlyRun(slip, chain, config, "k", events) && Run(chain, config, events) == s;
    assert (events + [e])[..|events|] == events && (events + [e])[|events|] == e;
    OneMore(slip, chain, config, events + [e], s);
  }

  lemma OneMore(slip: Slip, chain: Chain, config: Config, events: seq<Event>, s: State)
    requires events != [] && OrderlyRun(slip, chain, config, "k", events[..|events| - 1])
        && Run(chain, config, events[..|events| - 1]) == s && Orderly(slip, chain, config, s, events[|events| - 1], "k")
    ensures OrderlyRun(slip, chain, config, "k", events)
        && Run(chain, config, events) == Step(chain, config, s, events[|events| - 1])
  {
  }

  /** A run that keeps all conditions but one, and in which reads go backwards. */
  ghost predicate CanGoBackwards(slip: Slip, chain: Chain, config: Config) {
    exists events: seq<Event>, earlier: nat, later: nat ::
      OrderlyRun(slip, chain, config, "k", events) && GoesBackwards(Run(chain, config, events), earlier, later)
  }

  /** Once the cache can serve a reading older than one that has been handed back, the next call is
      handed it. */
  lemma StaleEntryIsServed(slip: Slip, chain: Chain, config: Config, s: State, t: real)
    requires Gets(slip, chain, config, s) && config.Caching() && Servable(config, s, "k") && 2 !in s.calls
    requires HandsBack(s, 1, t) && s.calls[1].key == "k" && s.store["k"].readAt < t
    ensures CanGoBackwards(slip, chain, config)
  {
    GetsOn(slip, chain, config, s, Begin(2, "k", false));
    EntryIsServed(slip, chain, config, Step(chain, config, s, Begin(2, "k", false)), 2);
    var served := Served(Step(chain, config, s, Begin(2, "k", false)), 2);
    assert HandsBack(served, 1, t) && HandsBack(served, 2, s.store["k"].readAt);
    var events: seq<Event> :| OrderlyRun(slip, chain, config, "k", events) && Run(chain, config, events) == served;
    assert GoesBackwards(Run(chain, config, events), 1, 2);
  }

  /** The call looks the entry up, finds it still valid and returns it. */
  function Served(s: State, id: nat): State
    requires id in s.calls && s.calls[id].key in s.store
  {
    var c := s.calls[id];
    s.(calls := s.calls[id := c.(phase := Done(Ok(s.store[c.key].account), s.now, s.store[c.key].readAt))])
  }

  lemma EntryIsServed(slip: Slip, chain: Chain, config: Config, s: State, id: nat)
    requires Gets(slip, chain, config, s) && id in s.calls && s.calls[id].phase.Looking? && s.calls[id].key == "k"
    requires Servable(config, s, "k")
    ensures Gets(slip, chain, config, Served(s, id))
  {
    var found := s.(calls := s.calls[id := s.calls[id].(phase := Deciding(Some(s.store["k"])))]);
    assert Step(chain, config, s, Lookup(id, false)) == found;
    GetsOn(slip, chain, config, s, Lookup(id, false));
    EntryIsJudged(slip, chain, config, s, found, id);
  }

  lemma EntryIsJudged(slip: Slip, chain: Chain, config: Config, s: State, found: State, id: nat)
    requires id in s.calls && s.calls[id].key == "k" && Servable(config, s, "k")
    requires Gets(slip, chain, config, found)
        && found == s.(calls := s.calls[id := s.calls[id].(phase := Deciding(Some(s.store["k"])))])
    ensures Gets(slip, chain, config, Served(s, id))
  {
    GetsOn(slip, chain, config, found, Decide(id));
    assert Step(chain, config, found, Decide(id)) == Served(s, id);
  }

  /** The call stamps what it has read, and tries to store it. */
  function Stored(s: State, id: nat, failed: bool): State
    requires id in s.calls && s.calls[id].phase.Stamping?
  {
    var c, p := s.calls[id], s.calls[id].phase;
    s.(calls := s.calls[id := c.(phase := Done(Ok(p.account), s.now, p.readAt))],
       store := if failed then s.store else s.store[c.key := CachedAccount(p.account, s.now.Floor, p.readAt)])
  }

  lemma StampsAndStores(slip: Slip, chain: Chain, config: Config, s: State, id: nat, failed: bool)
    requires Gets(slip, chain, config, s) && id in s.calls && s.calls[id].phase.Stamping?
    requires failed ==> slip.FailedStore?
    ensures Gets(slip, chain, config, Stored(s, id, failed))
  {
    var stamped := Step(chain, config, s, Stamp(id));
    GetsOn(slip, chain, config, s, Stamp(id));
    GetsOn(slip, chain, config, stamped, Store(id, failed));
    assert Step(chain, config, stamped, Store(id, failed)) == Stored(s, id, failed);
  }

  const OLD: CachedAccount := CachedAccount(OLD_ACCOUNT, 0, 0.0)

  /** Call 0 has stored the old account. */
  function AfterFirst(): State {
    State(0.0, map["k" := OLD],
        map[0 := Call("k", true, 0.0, {}, Some(Ok(OLD_ACCOUNT)), Done(Ok(OLD_ACCOUNT), 0.0, 0.0))])
  }

  lemma TheFirstIsStored(slip: Slip, chain: Chain, config: Config)
    requires config.Caching() && chain("k", 0.0) == Some(OLD_ACCOUNT)
    ensures Gets(slip, chain, config, AfterFirst())
  {
    TheFirstIsRead(slip, chain, config);
    StampsAndStores(slip, chain, config, AfterSlowRead(), 0, false);
  }

  /** Call 0 has read the old account, and not stamped it. */
  function AfterSlowRead(): State {
    State(0.0, map[], map[0 := Call("k", true, 0.0, {}, Some(Ok(OLD_ACCOUNT)), Stamping(OLD_ACCOUNT, 0.0))])
  }

  lemma TheFirstIsRead(slip: Slip, chain: Chain, config: Config)
    requires config.Caching() && chain("k", 0.0) == Some(OLD_ACCOUNT)
    ensures Gets(slip, chain, config, AfterSlowRead())
  {
    assert OrderlyRun(slip, chain, config, "k", []) && Run(chain, config, []) == INITIAL;
    assert ReturnedCalls(INITIAL) == {};
    GetsOn(slip, chain, config, INITIAL, Begin(0, "k", true));
    GetsOn(slip, chain, config, Step(chain, config, INITIAL, Begin(0, "k", true)), Fetch(0, None));
  }

  /** Then, two seconds later, call 1 has begun to refresh. */
  lemma TheSecondBegins(slip: Slip, chain: Chain, config: Config, s: State)
    requires Gets(slip, chain, config, s) && config.Caching() && s.now == 0.0 && 1 !in s.calls
    ensures Gets(slip, chain, config, AfterBegin(s))
  {
    GetsOn(slip, chain, config, s, Tick(2.0));
    GetsOn(slip, chain, config, s.(now := 2.0), Begin(1, "k", true));
    assert ReturnedCalls(s.(now := 2.0)) == ReturnedCalls(s);
  }

  function AfterBegin(s: State): State {
    s.(now := 2.0, calls := s.calls[1 := Call("k", true, 2.0, ReturnedCalls(s), None, Fetching(true))])
  }

  /** Call 1 reads the new account, and fails to store it. */
  lemma FailedStoreGoesBackwards(config: Config)
    requires config.Caching() && 2 < config.ttl < TWO_63
    ensures CanGoBackwards(FailedStore, ChangingChain, config)
  {
    var chain: Chain := ChangingChain;
    TheFirstIsStored(FailedStore, chain, config);
    TheSecondBegins(FailedStore, chain, config, AfterFirst());
    var begun := AfterBegin(AfterFirst());
    GetsOn(FailedStore, chain, config, begun, Fetch(1, None));
    TheStoreFails(config, Step(chain, config, begun, Fetch(1, None)));
  }

  lemma TheStoreFails(config: Config, s: State)
    requires Gets(FailedStore, ChangingChain, config, s) && config.Caching() && 2 < config.ttl < TWO_63
    requires s.now == 2.0 && "k" in s.store && s.store["k"] == OLD && 2 !in s.calls
    requires 1 in s.calls && s.calls[1].key == "k" && s.calls[1].phase == Stamping(NEW_ACCOUNT, 2.0)
    ensures CanGoBackwards(FailedStore, ChangingChain, config)
  {
    var chain: Chain := ChangingChain;
    StampsAndStores(FailedStore, chain, config, s, 1, true);
    StaleEntryIsServed(FailedStore, chain, config, Stored(s, 1, true), 2.0);
  }

  /** While call 0 holds the old account, call 1 reads the new one and stores it; then call 0 stores the
      old one over it. */
  lemma OverlapGoesBackwards(config: Config)
    requires config.Caching() && 0 < config.ttl < TWO_63
    ensures CanGoBackwards(OverlappingFetches, ChangingChain, config)
  {
    var chain: Chain := ChangingChain;
    TheFirstIsRead(OverlappingFetches, chain, config);
    TheSecondBegins(OverlappingFetches, chain, config, AfterSlowRead());
    var begun := AfterBegin(AfterSlowRead());
    GetsOn(OverlappingFetches, chain, config, begun, Fetch(1, None));
    TheFirstOvertakes(config, Step(chain, config, begun, Fetch(1, None)));
  }

  lemma TheFirstOvertakes(config: Config, s: State)
    requires Gets(OverlappingFetches, ChangingChain, config, s) && config.Caching() && 0 < config.ttl < TWO_63
    requires s.now == 2.0 && 1 in s.calls && s.calls[1].key == "k" && s.calls[1].phase == Stamping(NEW_ACCOUNT, 2.0)
    requires 0 in s.calls && s.calls[0].key == "k" && s.calls[0].phase == Stamping(OLD_ACCOUNT, 0.0)
    requires 2 !in s.calls
    ensures CanGoBackwards(OverlappingFetches, ChangingChain, config)
  {
    var chain: Chain := ChangingChain;
    var stored := Stored(s, 1, false);
    StampsAndStores(OverlappingFetches, chain, config, s, 1, false);
    StampsAndStores(OverlappingFetches, chain, config, stored, 0, false);
    StaleEntryIsServed(OverlappingFetches, chain, config, Stored(stored, 0, false), 2.0);
  }

  // ----- A closed account ---------------------------------------------------------------------------

  function ClosingChain(key: Pubkey, t: real): Option<Account> { if t < 1.0 then Some(OLD_ACCOUNT) else None }

  /** Call 1 is told that the account is gone, and leaves the entry in the cache. */
  lemma VanishedAccountComesBack(config: Config)
    requires config.Caching() && 2 < config.ttl < TWO_63
    ensures CanGoBackwards(VanishedAccount, ClosingChain, config)
  {
    var chain: Chain := ClosingChain;
    TheFirstIsStored(VanishedAccount, chain, config);
    TheSecondBegins(VanishedAccount, chain, config, AfterFirst());
    TheFetchFindsNone(config, AfterBegin(AfterFirst()));
  }

  lemma TheFetchFindsNone(config: Config, s: State)
    requires Gets(VanishedAccount, ClosingChain, config, s) && config.Caching() && 2 < config.ttl < TWO_63
    requires s.now == 2.0 && "k" in s.store && s.store["k"] == OLD && 2 !in s.calls
    requires 1 in s.calls && s.calls[1].key == "k" && s.calls[1].phase == Fetching(true)
    requires forall id | id in s.calls :: !IsStoring(s.calls[id])
    ensures CanGoBackwards(VanishedAccount, ClosingChain, config)
  {
    var chain: Chain := ClosingChain;
    GetsOn(VanishedAccount, chain, config, s, Fetch(1, None));
    StaleEntryIsServed(VanishedAccount, chain, config, Step(chain, config, s, Fetch(1, None)), 2.0);
  }

  /** The call was handed an account that is gone from the chain for good since before it started. */
  ghost predicate ServesClosed(chain: Chain, s: State, id: nat) {
    exists account: Account, at: real :: Returned(s, id, Ok(account), at)
        && forall t: real | s.calls[id].startedAt <= t :: Absent(chain, s.calls[id].key, t)
  }

  /** A call that starts after the account was closed can still be served it by the cache. */
  lemma ClosedAccountsCanBeServed(config: Config)
    requires config.Caching() && 2 < config.ttl < TWO_63
    ensures exists events: seq<Event>, id: nat :: ServesClosed(ClosingChain, Run(ClosingChain, config, events), id)
  {
    var chain: Chain := ClosingChain;
    TheFirstIsStored(NoSlip, chain, config);
    GetsOn(NoSlip, chain, config, AfterFirst(), Tick(2.0));
    var late := AfterFirst().(now := 2.0);
    var begun := Step(chain, config, late, Begin(1, "k", false));
    GetsOn(NoSlip, chain, config, late, Begin(1, "k", false));
    ClosedAccountIsServed(config, begun);
  }

  lemma ClosedAccountIsServed(config: Config, s: State)
    requires Gets(NoSlip, ClosingChain, config, s) && config.Caching() && 2 < config.ttl < TWO_63
    requires s.now == 2.0 && "k" in s.store && s.store["k"] == OLD && 1 in s.calls && s.calls[1].key == "k"
    requires s.calls[1].phase.Looking? && s.calls[1].startedAt == 2.0
    ensures exists events: seq<Event>, id: nat :: ServesClosed(ClosingChain, Run(ClosingChain, config, events), id)
  {
    var chain: Chain := ClosingChain;
    var served := Served(s, 1);
    EntryIsServed(NoSlip, chain, config, s, 1);
    assert Returned(served, 1, Ok(OLD_ACCOUNT), 2.0);
    var events: seq<Event> :| OrderlyRun(NoSlip, chain, config, "k", events) && Run(chain, config, events) == served;
    assert ServesClosed(ClosingChain, Run(chain, config, events), 1);
  }
}
