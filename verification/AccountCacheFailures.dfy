/** What a failure of the cache server can change: two runs of the account cache that differ in one failed
    lookup, or in one failed store, compared event by event up to the return of the call concerned. */
module AccountCacheFailures {
  import opened Results
  import opened AccountCache
  import opened AccountCacheOrder

  function Later(now: real, e: Event): real { if e.Tick? && e.elapsed >= 0.0 then now + e.elapsed else now }

  /** When the call judges what its lookup found. */
  function DecisionTime(now: real, id: nat, events: seq<Event>): real
    decreases |events|
  {
    if events == [] || (events[0].Decide? && events[0].id == id) then now
    else DecisionTime(Later(now, events[0]), id, events[1..])
  }

  /** After its lookup a call no longer depends on the store, nor on other calls. */
  lemma {:induction false} SameCall(chain: Chain, config: Config, s: State, t: State, id: nat, events: seq<Event>)
    requires s.now == t.now && id in s.calls && id in t.calls && s.calls[id] == t.calls[id]
        && !s.calls[id].phase.Looking?
    ensures var u, v := Replay(chain, config, s, events), Replay(chain, config, t, events);
            id in u.calls && id in v.calls && u.calls[id] == v.calls[id]
    decreases |events|
  {
    if events != [] {
      SameCall(chain, config, Step(chain, config, s, events[0]), Step(chain, config, t, events[0]), id, events[1..]);
    }
  }

  lemma {:induction false} ReturnedStays(chain: Chain, config: Config, s: State, id: nat, events: seq<Event>)
    requires id in s.calls && s.calls[id].phase.Done?
    ensures id in Replay(chain, config, s, events).calls && Replay(chain, config, s, events).calls[id] == s.calls[id]
    decreases |events|
  {
    if events != [] { ReturnedStays(chain, config, Step(chain, config, s, events[0]), id, events[1..]); }
  }

  /** A call on its way to the node, or back from it. */
  predicate Asks(c: Call) {
    !c.phase.Looking? && (c.phase.Deciding? ==> c.phase.found.None?) && c.answer == AnswerIn(c.phase)
  }

  /** The node's answer that a phase holds or has handed back. */
  function AnswerIn(p: Phase): Option<Outcome> {
    match p
    case Stamping(account, _) => Some(Ok(account))
    case Storing(entry) => Some(Ok(entry.account))
    case Done(result, _, _) => Some(result)
    case _ => None
  }

  lemma {:induction false} StillAsks(chain: Chain, config: Config, s: State, id: nat, events: seq<Event>)
    requires id in s.calls && Asks(s.calls[id])
    ensures id in Replay(chain, config, s, events).calls && Asks(Replay(chain, config, s, events).calls[id])
    decreases |events|
  {
    if events != [] { StillAsks(chain, config, Step(chain, config, s, events[0]), id, events[1..]); }
  }

  /** Whether a call is served what its lookup found. */
  predicate Serves(config: Config, found: Option<CachedAccount>, at: real) {
    found.Some? && StillValid(found.value, at, config.ttl)
  }

  /** Two calls that differ in what their lookups found, one of them nothing. */
  lemma {:induction false} Diverge(chain: Chain, config: Config, s: State, t: State, id: nat,
      found: Option<CachedAccount>, events: seq<Event>)
    requires s.now == t.now && id in s.calls && id in t.calls
    requires s.calls[id].phase == Deciding(found) && t.calls[id] == s.calls[id].(phase := Deciding(None))
    ensures var u, v := Replay(chain, config, s, events), Replay(chain, config, t, events);
            && id in u.calls && id in v.calls
            && (v.calls[id].phase.Done? ==>
                  if Serves(config, found, DecisionTime(s.now, id, events))
                  then u.calls[id].phase.Done? && u.calls[id].phase.result == Ok(found.value.account)
                  else u.calls[id] == v.calls[id])
    decreases |events|
  {
    if events != [] {
      var u, v := Step(chain, config, s, events[0]), Step(chain, config, t, events[0]);
      if events[0].Decide? && events[0].id == id {
        SameOrServed(chain, config, u, v, id, found, s.now, events[1..]);
      } else {
        Diverge(chain, config, u, v, id, found, events[1..]);
      }
    }
  }

  /** The two calls once they have decided. */
  lemma SameOrServed(chain: Chain, config: Config, u: State, v: State, id: nat, found: Option<CachedAccount>, at: real,
      events: seq<Event>)
    requires u.now == v.now && id in u.calls && id in v.calls
    requires if Serves(config, found, at)
             then u.calls[id].phase.Done? && u.calls[id].phase.result == Ok(found.value.account)
             else u.calls[id] == v.calls[id]
    requires !v.calls[id].phase.Looking?
    ensures var u', v' := Replay(chain, config, u, events), Replay(chain, config, v, events);
            && id in u'.calls && id in v'.calls
            && if Serves(config, found, at)
               then u'.calls[id].phase.Done? && u'.calls[id].phase.result == Ok(found.value.account)
               else u'.calls[id] == v'.calls[id]
  {
    if Serves(config, found, at) {
      ReturnedStays(chain, config, u, id, events);
      SameCall(chain, config, v, v, id, events);
    } else {
      SameCall(chain, config, u, v, id, events);
    }
  }

  /** The call of one run, and the same call of the run in which the lookup or store differs. */
  function CallAfter(chain: Chain, config: Config, init: seq<Event>, e: Event, rest: seq<Event>,
      id: nat): Option<Call> {
    var s := Run(chain, config, init + [e] + rest);
    if id in s.calls then Some(s.calls[id]) else None
  }

  lemma AfterOne(chain: Chain, config: Config, init: seq<Event>, e: Event, rest: seq<Event>)
    ensures Run(chain, config, init + [e] + rest)
        == Replay(chain, config, Step(chain, config, Run(chain, config, init), e), rest)
  {
    RunIsReplay(chain, config, init + [e], rest);
    assert (init + [e])[..|init|] == init;
  }

  /** Two runs with the same events, but for one lookup that fails in the second. Once the call has
      returned in the second, it has in the first, and the second hands back what the node answered.
      One succeeds and the other does not exactly when the entry that was found was still valid when
      the call judged it and the node answered an error; the first run then succeeds. */
  lemma FailedLookupMatters(chain: Chain, config: Config, init: seq<Event>, id: nat, rest: seq<Event>)
    requires var s := Run(chain, config, init); id in s.calls && s.calls[id].phase.Looking? && s.calls[id].answer.None?
    requires var d := CallAfter(chain, config, init, Lookup(id, true), rest, id); d.Some? && d.value.phase.Done?
    ensures var s := Run(chain, config, init);
            var key := s.calls[id].key;
            var c := CallAfter(chain, config, init, Lookup(id, false), rest, id);
            var d := CallAfter(chain, config, init, Lookup(id, true), rest, id);
            && c.Some? && c.value.phase.Done? && d.value.answer == Some(d.value.phase.result)
            && (c.value.phase.result.Ok? != d.value.phase.result.Ok? <==>
                  && key in s.store && StillValid(s.store[key], DecisionTime(s.now, id, rest), config.ttl)
                  && d.value.phase.result.Err?)
  {
    var s := Run(chain, config, init);
    var key := s.calls[id].key;
    var found := if key in s.store then Some(s.store[key]) else None;
    var u, v := Step(chain, config, s, Lookup(id, false)), Step(chain, config, s, Lookup(id, true));
    AfterOne(chain, config, init, Lookup(id, false), rest);
    AfterOne(chain, config, init, Lookup(id, true), rest);
    Diverge(chain, config, u, v, id, found, rest);
    StillAsks(chain, config, v, id, rest);
  }

  /** Whether a store fails never changes what the call itself hands back, nor when. */
  lemma FailedStoreIsHarmless(chain: Chain, config: Config, init: seq<Event>, id: nat, rest: seq<Event>)
    requires var s := Run(chain, config, init); id in s.calls && s.calls[id].phase.Storing?
    ensures CallAfter(chain, config, init, Store(id, true), rest, id)
        == CallAfter(chain, config, init, Store(id, false), rest, id)
  {
    var s := Run(chain, config, init);
    AfterOne(chain, config, init, Store(id, false), rest);
    AfterOne(chain, config, init, Store(id, true), rest);
    var t, u := Step(chain, config, s, Store(id, false)), Step(chain, config, s, Store(id, true));
    SameCall(chain, config, t, u, id, rest);
  }
}
