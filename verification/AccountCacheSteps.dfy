/** The cache at work: what a call does with each answer, and that a fresh entry is served without asking
    the node, whatever other calls do meanwhile. */
module AccountCacheSteps {
  import opened Results
  import opened AccountCache

  predicate Live(s: State, id: nat) { id in s.calls }

  /** How a call begins: it fails without a configuration, asks the node directly while the cache is off, is
      named no server or was never initialised, asks the node and caches the answer when a refresh is forced,
      and asks the cache otherwise. */
  lemma BeginMeaning(chain: Chain, config: Config, s: State, id: nat, key: Pubkey, forceRefresh: bool)
    requires id !in s.calls
    ensures var s' := Step(chain, config, s, Begin(id, key, forceRefresh));
            && s'.store == s.store && s'.now == s.now && s'.calls - {id} == s.calls
            && id in s'.calls
            && var c := s'.calls[id];
               && c.key == key && c.forceRefresh == forceRefresh && c.startedAt == s.now && c.answer == None
               && (forall j :: j in c.before <==> j in s.calls && s.calls[j].phase.Done?)
               && (!config.loaded ==> c.phase == Done(Err(ConfigError), s.now, s.now))
               && (config.loaded && !(config.enabled && config.pool) ==> c.phase == Fetching(false))
               && (config.loaded && config.enabled && config.pool && forceRefresh ==> c.phase == Fetching(true))
               && (config.loaded && config.enabled && config.pool && !forceRefresh ==> c.phase == Looking)
  {
  }

  /** Time only moves forward, an eviction removes one entry, and neither touches a call; an event meant for an
      unknown call changes nothing. */
  lemma TickAndEvictMeaning(chain: Chain, config: Config, s: State, elapsed: real, key: Pubkey, e: Event)
    ensures Step(chain, config, s, Tick(elapsed)) == s.(now := if elapsed < 0.0 then s.now else s.now + elapsed)
    ensures Step(chain, config, s, Evict(key)) == s.(store := s.store - {key})
    ensures !e.Tick? && !e.Evict? && !e.Begin? && e.id !in s.calls ==> Step(chain, config, s, e) == s
  {
  }

  /** The cache answers with the entry stored under the call's own key, if there is one and the lookup works. */
  lemma LookupMeaning(chain: Chain, config: Config, s: State, id: nat, failed: bool)
    requires Live(s, id) && s.calls[id].phase.Looking?
    ensures var s', key := Step(chain, config, s, Lookup(id, failed)), s.calls[id].key;
            && s'.store == s.store && s'.calls - {id} == s.calls - {id} && id in s'.calls
            && s'.calls[id] == s.calls[id].(phase := s'.calls[id].phase)
            && (!failed && key in s.store ==> s'.calls[id].phase == Deciding(Some(s.store[key])))
            && (failed || key !in s.store ==> s'.calls[id].phase == Deciding(None))
  {
  }

  /** The entry is handed back exactly while its age in whole seconds is below the time-to-live; otherwise the
      node is asked and its answer cached. */
  lemma DecideMeaning(chain: Chain, config: Config, s: State, id: nat)
    requires Live(s, id) && s.calls[id].phase.Deciding? && config.ttl < 0x8000_0000_0000_0000
    ensures var s', found := Step(chain, config, s, Decide(id)), s.calls[id].phase.found;
            && s'.store == s.store && s'.calls - {id} == s.calls - {id} && id in s'.calls
            && s'.calls[id] == s.calls[id].(phase := s'.calls[id].phase)
            && (found.Some? && s.now.Floor - found.value.cachedAt < config.ttl ==>
                  s'.calls[id].phase == Done(Ok(found.value.account), s.now, found.value.readAt))
            && (found.None? || s.now.Floor - found.value.cachedAt >= config.ttl ==>
                  s'.calls[id].phase == Fetching(true))
  {
  }

  /** The node's answer: the account as it is on the chain at that instant, that there is none, or a failure
      of the request. Only an account is cached, and only by a call that caches. */
  lemma FetchMeaning(chain: Chain, config: Config, s: State, id: nat, failure: Option<string>)
    requires Live(s, id) && s.calls[id].phase.Fetching?
    ensures var s', c := Step(chain, config, s, Fetch(id, failure)), s.calls[id];
            && s'.store == s.store && s'.calls - {id} == s.calls - {id} && id in s'.calls
            && s'.calls[id].answer.Some?
            && var answer := s'.calls[id].answer.value;
               && (failure.Some? ==> answer == Err(RpcFailure(failure.value)))
               && (failure.None? && chain(c.key, s.now).None? ==> answer == Err(AccountNotFound(c.key)))
               && (failure.None? && chain(c.key, s.now).Some? ==> answer == Ok(chain(c.key, s.now).value))
               && (answer.Ok? && c.phase.caching ==> s'.calls[id].phase == Stamping(answer.value, s.now))
               && (answer.Err? || !c.phase.caching ==> s'.calls[id].phase == Done(answer, s.now, s.now))
  {
  }

  /** The answer is stamped with the whole second of a later reading of the clock, stored under the call's own
      key unless storing fails, and handed back in either case. */
  lemma StampAndStoreMeaning(chain: Chain, config: Config, s: State, id: nat, failed: bool)
    requires Live(s, id)
    ensures s.calls[id].phase.Stamping? ==>
              var s', p := Step(chain, config, s, Stamp(id)), s.calls[id].phase;
              s' == s.(calls := s.calls[id := s.calls[id].(phase
                         := Storing(CachedAccount(p.account, s.now.Floor, p.readAt)))])
    ensures s.calls[id].phase.Storing? ==>
              var s', entry := Step(chain, config, s, Store(id, failed)), s.calls[id].phase.entry;
              && s'.calls == s.calls[id := s.calls[id].(phase := Done(Ok(entry.account), s.now, entry.readAt))]
              && s'.store == if failed then s.store else s.store[s.calls[id].key := entry]
  {
  }

  // ----- A fresh entry is served -----------------------------------------------------------------------

  function RunFrom(chain: Chain, config: Config, s: State, events: seq<Event>): State {
    if events == [] then s
    else Step(chain, config, RunFrom(chain, config, s, events[..|events| - 1]), events[|events| - 1])
  }

  /** The event is no interaction of the call. */
  predicate Elsewhere(e: Event, id: nat) { e.Tick? || e.Evict? || e.id != id }

  /** No call can change another. */
  lemma {:induction false} OthersLeaveCallsAlone(chain: Chain, config: Config, s: State, events: seq<Event>, id: nat)
    requires Live(s, id) && forall e | e in events :: Elsewhere(e, id)
    ensures var s' := RunFrom(chain, config, s, events);
            id in s'.calls && s'.calls[id] == s.calls[id] && s'.now >= s.now
  {
    if events != [] {
      var init := events[..|events| - 1];
      assert events[|events| - 1] in events && forall e | e in init :: e in events;
      OthersLeaveCallsAlone(chain, config, s, init, id);
    }
  }

  /** The event does not touch what is stored under the key. */
  predicate KeepsEntry(s: State, e: Event, key: Pubkey) {
    && (e.Evict? ==> e.key != key)
    && (e.Store? && e.id in s.calls ==> s.calls[e.id].key != key)
  }

  ghost predicate KeepEntry(chain: Chain, config: Config, s: State, events: seq<Event>, key: Pubkey) {
    events == [] ||
    var init := events[..|events| - 1];
    KeepEntry(chain, config, s, init, key)
    && KeepsEntry(RunFrom(chain, config, s, init), events[|events| - 1], key)
  }

  /** An entry stays until it is evicted or another call for the same key stores. */
  lemma {:induction false} EntriesStay(chain: Chain, config: Config, s: State, events: seq<Event>, key: Pubkey)
    requires key in s.store && KeepEntry(chain, config, s, events, key)
    ensures var s' := RunFrom(chain, config, s, events);
            key in s'.store && s'.store[key] == s.store[key]
  {
    if events != [] { EntriesStay(chain, config, s, events[..|events| - 1], key); }
  }

  /** The life of an entry and of a call that meets it: `stored` runs from a store to the lookup, `looking` from
      the lookup to the call's decision. */
  function Hit(chain: Chain, config: Config, s: State, writer: nat, stored: seq<Event>, reader: nat,
      looking: seq<Event>): State
  {
    var written := RunFrom(chain, config, Step(chain, config, s, Store(writer, false)), stored);
    Step(chain, config, RunFrom(chain, config, Step(chain, config, written, Lookup(reader, false)), looking),
        Decide(reader))
  }

  /** What the node answered one call is handed to any later one that looks it up before its time-to-live in
      whole seconds is over, without asking the node, unless it was evicted or replaced before the lookup;
      what happens between the lookup and the decision, to this key or any other, makes no difference. */
  lemma FreshEntriesAreServed(chain: Chain, config: Config, s: State, writer: nat, stored: seq<Event>, reader: nat,
      looking: seq<Event>)
    requires Live(s, writer) && s.calls[writer].phase.Storing? && config.ttl < 0x8000_0000_0000_0000
    requires var after, key := Step(chain, config, s, Store(writer, false)), s.calls[writer].key;
             && KeepEntry(chain, config, after, stored, key)
             && var w := RunFrom(chain, config, after, stored);
                && Live(w, reader) && w.calls[reader].phase.Looking? && w.calls[reader].key == key
                && (forall e | e in looking :: Elsewhere(e, reader))
    ensures var entry, s' := s.calls[writer].phase.entry, Hit(chain, config, s, writer, stored, reader, looking);
            && reader in s'.calls
            && (s'.now.Floor - entry.cachedAt < config.ttl ==>
                  s'.calls[reader].phase == Done(Ok(entry.account), s'.now, entry.readAt))
            && (s'.now.Floor - entry.cachedAt >= config.ttl ==> s'.calls[reader].phase == Fetching(true))
  {
    StampAndStoreMeaning(chain, config, s, writer, false);
    var after, key := Step(chain, config, s, Store(writer, false)), s.calls[writer].key;
    EntriesStay(chain, config, after, stored, key);
    var w := RunFrom(chain, config, after, stored);
    LookupMeaning(chain, config, w, reader, false);
    var met := Step(chain, config, w, Lookup(reader, false));
    OthersLeaveCallsAlone(chain, config, met, looking, reader);
    DecideMeaning(chain, config, RunFrom(chain, config, met, looking), reader);
  }
}
