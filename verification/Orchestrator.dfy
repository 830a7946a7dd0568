/** The orchestrator: staggered schedules for the three agents, a kill switch for each, and forced
    cycles with a cool-down, on top of the event loop's table of timers. Times are in milliseconds. */
module Orchestrator {
  import opened Results

  const CYCLE_INTERVAL_MS: nat := 60000
  const COOLDOWN_MS: nat := 15000

  datatype AgentId = Rex | Nova | Sage

  function Offset(a: AgentId): nat { match a case Rex => 0 case Nova => 20000 case Sage => 40000 }

  const AGENTS: seq<AgentId> := [Rex, Nova, Sage]

  /** A name as it arrives from the API; absent when no agent has it. */
  type Name = Option<AgentId>

  datatype Status = ACTIVE | PAUSED

  // ----- The state ----------------------------------------------------------------------------

  /** A live timer of the event loop: a time-out waiting for its due time, or an interval waiting for
      its next one. */
  datatype Timer = Timer(agent: AgentId, due: int, repeats: bool)

  /** One cycle started: for which agent, when, and whether it was forced. */
  datatype Started = Started(agent: AgentId, at: int, forced: bool)

  /** `timers` and `intervals` hold handles; `live` is the event loop's table of what those handles
      stand for, `next` the first handle never used. Kept for the record: `starts`, the cycles started so
      far, and `sessionAt`, when the orchestrator was last started. */
  datatype State = State(
    running: bool,
    timers: seq<nat>,
    intervals: seq<nat>,
    status: map<AgentId, Status>,
    lastStart: map<AgentId, int>,
    live: map<nat, Timer>,
    next: nat,
    starts: seq<Started>,
    sessionAt: int)

  const INITIAL: State :=
    State(false, [], [], map[Rex := ACTIVE, Nova := ACTIVE, Sage := ACTIVE], map[Rex := 0, Nova := 0, Sage := 0],
        map[], 0, [], 0)

  predicate Paused(s: State, a: AgentId) { a in s.status && s.status[a] == PAUSED }

  datatype OrchestratorError = NotFound | IsPaused | OnCooldown(remainingSeconds: int)

  // ----- Steps --------------------------------------------------------------------------------

  datatype Event =
    | StartAll
    | StopAll
    | SetStatus(name: Name, status: Status)
    | Trigger(name: Name)
    | Fire(handle: nat)

  /** Arms one agent's time-out. */
  function ArmOne(s: State, a: AgentId, now: int): State {
    s.(live := s.live[s.next := Timer(a, now + Offset(a), false)], timers := s.timers + [s.next], next := s.next + 1)
  }

  function Arm(s: State, agents: seq<AgentId>, now: int): State
    decreases |agents|
  {
    if agents == [] then s else ArmOne(Arm(s, agents[..|agents| - 1], now), agents[|agents| - 1], now)
  }

  /** One cycle starts, unless the agent is paused. */
  function RunAgentCycle(s: State, a: AgentId, forced: bool, now: int): State {
    if Paused(s, a) then s
    else s.(lastStart := s.lastStart[a := now], starts := s.starts + [Started(a, now, forced)])
  }

  function LastStart(s: State, a: AgentId): int { if a in s.lastStart then s.lastStart[a] else 0 }

  /** Why a forced cycle is refused, if it is. */
  function Refusal(s: State, name: Name, now: int): Option<OrchestratorError> {
    if name.None? then Some(NotFound)
    else if Paused(s, name.value) then Some(IsPaused)
    else
      var elapsed := now - LastStart(s, name.value);
      if elapsed < COOLDOWN_MS then Some(OnCooldown((COOLDOWN_MS - elapsed + 999) / 1000)) else None
  }

  function Step(s: State, e: Event, now: int): State {
    match e
    case StartAll => if s.running then s else Arm(s.(running := true, sessionAt := now), AGENTS, now)
    case StopAll =>
      s.(live := s.live - (set h | h in s.timers) - (set h | h in s.intervals), timers := [], intervals := [],
          running := false)
    case SetStatus(name, status) => if name.None? then s else s.(status := s.status[name.value := status])
    case Trigger(name) => if Refusal(s, name, now).Some? then s else RunAgentCycle(s, name.value, true, now)
    case Fire(h) =>
      if h !in s.live || now < s.live[h].due then s
      else
        var t := s.live[h];
        var ran := RunAgentCycle(s, t.agent, false, now);
        if t.repeats then ran.(live := ran.live[h := t.(due := now + CYCLE_INTERVAL_MS)])
        else
          ran.(live := (ran.live - {h})[ran.next := Timer(t.agent, now + CYCLE_INTERVAL_MS, true)],
               intervals := ran.intervals + [ran.next],
               next := ran.next + 1)
  }

  datatype Timed = Timed(event: Event, now: int)

  function Run(s: State, events: seq<Timed>): State {
    if events == [] then s
    else Step(Run(s, events[..|events| - 1]), events[|events| - 1].event, events[|events| - 1].now)
  }

  predicate ClockOrdered(events: seq<Timed>) {
    forall i, j | 0 <= i <= j < |events| :: events[i].now <= events[j].now
  }

  // ----- The orchestrator --------------------------------------------------------------------------

  /** The orchestrator with the event loop's table beside it. */
  class AgentOrchestrator {
    var running: bool
    var timers: seq<nat>
    var intervals: seq<nat>
    var operationalStatus: map<AgentId, Status>
    var lastCycleStartedAt: map<AgentId, int>
    var live: map<nat, Timer>
    var next: nat
    ghost var starts: seq<Started>
    ghost var sessionAt: int

    ghost function View(): State
      reads this
    {
      State(running, timers, intervals, operationalStatus, lastCycleStartedAt, live, next, starts, sessionAt)
    }

    constructor ()
      ensures View() == INITIAL
    {
      running, timers, intervals := false, [], [];
      operationalStatus := map[Rex := ACTIVE, Nova := ACTIVE, Sage := ACTIVE];
      lastCycleStartedAt := map[Rex := 0, Nova := 0, Sage := 0];
      live, next := map[], 0;
      starts, sessionAt := [], 0;
    }

    method Start(now: int)
      modifies this
      ensures View() == Step(old(View()), StartAll, now)
    {
      if running { return; }
      running := true;
      sessionAt := now;
      ghost var armed := View();
      for i := 0 to |AGENTS|
        invariant View() == Arm(armed, AGENTS[..i], now)
      {
        assert AGENTS[..i + 1][..i] == AGENTS[..i];
        var timer := SetTimer(Timer(AGENTS[i], now + Offset(AGENTS[i]), false));
        timers := timers + [timer];
      }
      assert AGENTS[..|AGENTS|] == AGENTS;
    }

    method Stop(now: int)
      modifies this
      ensures View() == Step(old(View()), StopAll, now)
    {
      for i := 0 to |timers|
        invariant View() == old(View()).(live := live)
        invariant timers == old(timers) && intervals == old(intervals)
        invariant live == old(live) - (set h | h in timers[..i])
      {
        assert timers[..i + 1] == timers[..i] + [timers[i]];
        live := live - {timers[i]};
      }
      assert timers[..|timers|] == timers;
      ghost var untimed := live;
      for i := 0 to |intervals|
        invariant View() == old(View()).(live := live)
        invariant timers == old(timers) && intervals == old(intervals)
        invariant live == untimed - (set h | h in intervals[..i])
      {
        assert intervals[..i + 1] == intervals[..i] + [intervals[i]];
        live := live - {intervals[i]};
      }
      assert intervals[..|intervals|] == intervals;
      timers, intervals, running := [], [], false;
    }

    method SetOperationalStatus(name: Name, status: Status, now: int) returns (r: Result<(), OrchestratorError>)
      modifies this
      ensures View() == Step(old(View()), SetStatus(name, status), now)
      ensures r == if name.None? then Err(NotFound) else Ok(())
    {
      if name.None? { return Err(NotFound); }
      operationalStatus := operationalStatus[name.value := status];
      return Ok(());
    }

    /** A forced cycle is refused for an unknown or paused agent and during the cool-down, and starts
        otherwise. */
    method TriggerCycle(name: Name, now: int) returns (r: Result<(), OrchestratorError>)
      modifies this
      ensures View() == Step(old(View()), Trigger(name), now)
      ensures r == match Refusal(old(View()), name, now) case Some(e) => Err(e) case None => Ok(())
      ensures r.Ok? ==> |starts| == |old(starts)| + 1
    {
      if name.None? { return Err(NotFound); }
      var a := name.value;
      if a in operationalStatus && operationalStatus[a] == PAUSED { return Err(IsPaused); }
      var lastStart := if a in lastCycleStartedAt then lastCycleStartedAt[a] else 0;
      var elapsed := now - lastStart;
      if elapsed < COOLDOWN_MS {
        return Err(OnCooldown((COOLDOWN_MS - elapsed + 999) / 1000));
      }
      StartCycle(a, true, now);
      return Ok(());
    }

    /** `runAgentCycle`, up to the point where the agent's own cycle begins. */
    method StartCycle(a: AgentId, forced: bool, now: int)
      modifies this
      ensures View() == RunAgentCycle(old(View()), a, forced, now)
    {
      if a in operationalStatus && operationalStatus[a] == PAUSED { return; }
      lastCycleStartedAt := lastCycleStartedAt[a := now];
      starts := starts + [Started(a, now, forced)];
    }

    /** The event loop calls back: a time-out runs the agent and arms its interval, an interval runs
        the agent and waits for its next turn. */
    method FireTimer(h: nat, now: int)
      modifies this
      ensures View() == Step(old(View()), Fire(h), now)
    {
      if h !in live || now < live[h].due { return; }
      var t := live[h];
      StartCycle(t.agent, false, now);
      if t.repeats {
        live := live[h := t.(due := now + CYCLE_INTERVAL_MS)];
      } else {
        live := live - {h};
        var interval := SetTimer(Timer(t.agent, now + CYCLE_INTERVAL_MS, true));
        intervals := intervals + [interval];
      }
    }

    method SetTimer(t: Timer) returns (handle: nat)
      modifies this`live, this`next
      ensures handle == old(next) && next == old(next) + 1 && live == old(live)[handle := t]
    {
      handle := next;
      live := live[handle := t];
      next := next + 1;
    }
  }

  // ----- One schedule per agent ------------------------------------------------------------------

  predicate Schedules(s: State, h: nat, a: AgentId) { h in s.live && s.live[h].agent == a }

  ghost predicate HasSchedule(s: State, a: AgentId) { exists h :: Schedules(s, h, a) }

  /** Every live timer is held by the orchestrator; while it runs each agent has exactly one, and
      none otherwise. */
  ghost predicate TimersInv(s: State) {
    && (forall h | h in s.live :: h < s.next && if s.live[h].repeats then h in s.intervals else h in s.timers)
    && (forall h, k, a | Schedules(s, h, a) && Schedules(s, k, a) :: h == k)
    && (s.running ==> forall a :: HasSchedule(s, a))
    && (!s.running ==> s.live == map[])
  }

  lemma ArmInOrder(s: State, now: int)
    ensures Arm(s, AGENTS, now) == ArmOne(ArmOne(ArmOne(s, Rex, now), Nova, now), Sage, now)
  {
    assert AGENTS[..2] == [Rex, Nova] && AGENTS[..2][..1] == [Rex] && AGENTS[..2][..1][..0] == [];
    assert Arm(s, [], now) == s;
    assert Arm(s, [Rex], now) == ArmOne(s, Rex, now);
    assert Arm(s, [Rex, Nova], now) == ArmOne(Arm(s, [Rex], now), Nova, now);
  }

  lemma ArmAll(s: State, now: int)
    ensures var n := s.next;
            Arm(s, AGENTS, now) ==
              s.(live := s.live[n := Timer(Rex, now, false)][n + 1 := Timer(Nova, now + 20000, false)][n
                  + 2 := Timer(Sage, now + 40000, false)],
                 timers := s.timers + [n] + [n + 1] + [n + 2],
                 next := n + 3)
  {
    ArmInOrder(s, now);
  }

  lemma ArmTimersInv(s: State, now: int)
    requires TimersInv(s) && !s.running
    ensures TimersInv(Step(s, StartAll, now))
  {
    var s', n := Step(s, StartAll, now), s.next;
    ArmAll(s.(running := true, sessionAt := now), now);
    assert forall h, a :: Schedules(s', h, a) <==>
        (h == n && a == Rex) || (h == n + 1 && a == Nova) || (h == n + 2 && a == Sage);
    assert Schedules(s', n, Rex) && Schedules(s', n + 1, Nova) && Schedules(s', n + 2, Sage);
    forall a: AgentId ensures HasSchedule(s', a) {
      match a case Rex => case Nova => case Sage =>
    }
  }

  lemma FireTimersInv(s: State, h: nat, now: int)
    requires TimersInv(s) && h in s.live
    ensures TimersInv(Step(s, Fire(h), now))
  {
    var s', t := Step(s, Fire(h), now), s.live[h];
    if now >= t.due {
      var moved := if t.repeats then h else s.next;
      assert forall k, a :: Schedules(s', k, a) <==> (k == moved && a == t.agent) || (k != h && Schedules(s, k, a));
      forall a: AgentId ensures HasSchedule(s', a) {
        assert HasSchedule(s, a);
        var k: nat :| Schedules(s, k, a);
        if a == t.agent { assert Schedules(s', moved, a); } else { assert Schedules(s', k, a); }
      }
      assert Schedules(s, h, t.agent);
    }
  }

  lemma StopClearsAll(s: State, now: int)
    requires TimersInv(s)
    ensures Step(s, StopAll, now).live == map[]
  {
    assert forall h | h in s.live :: h in s.timers || h in s.intervals;
  }

  lemma StepTimersInv(s: State, e: Event, now: int)
    requires TimersInv(s)
    ensures TimersInv(Step(s, e, now))
  {
    var s' := Step(s, e, now);
    if e.StartAll? {
      if !s.running { ArmTimersInv(s, now); }
    } else if e.StopAll? {
      StopClearsAll(s, now);
    } else if e.Fire? {
      if e.handle in s.live { FireTimersInv(s, e.handle, now); }
    } else {
      assert s'.live == s.live && s'.running == s.running;
      assert forall h, a :: Schedules(s', h, a) == Schedules(s, h, a);
      forall a | s.running ensures HasSchedule(s', a) {
        assert HasSchedule(s, a);
        var h: nat :| Schedules(s, h, a);
        assert Schedules(s', h, a);
      }
    }
  }

  /** After every sequence of starts, stops, pauses, forced cycles and timer firings, an agent has one
      live schedule while the orchestrator runs and none while it does not. */
  lemma {:induction false} OneSchedulePerAgent(events: seq<Timed>)
    ensures TimersInv(Run(INITIAL, events))
  {
    if events == [] {
      assert forall h, a :: !Schedules(INITIAL, h, a);
    } else {
      var init, e := events[..|events| - 1], events[|events| - 1];
      OneSchedulePerAgent(init);
      StepTimersInv(Run(INITIAL, init), e.event, e.now);
    }
  }

  // ----- Kill switch and stop --------------------------------------------------------------------

  function StartsOf(starts: seq<Started>, a: AgentId): seq<Started> {
    if starts == [] then []
    else StartsOf(starts[..|starts| - 1], a) + (if starts[|starts| - 1].agent == a then [starts[|starts| - 1]] else [])
  }

  function ScheduledStarts(starts: seq<Started>): seq<Started> {
    if starts == [] then []
    else ScheduledStarts(starts[..|starts| - 1]) + (if starts[|starts| - 1].forced then [] else [starts[|starts| - 1]])
  }

  lemma PausedStep(s: State, e: Event, now: int, a: AgentId)
    requires Paused(s, a) && e != SetStatus(Some(a), ACTIVE)
    ensures Paused(Step(s, e, now), a)
    ensures StartsOf(Step(s, e, now).starts, a) == StartsOf(s.starts, a)
  {
    var s' := Step(s, e, now);
    if e.StartAll? && !s.running { ArmAll(s.(running := true, sessionAt := now), now); }
    assert s'.starts == s.starts || (|s'.starts| == |s.starts| + 1 && s'.starts[..|s.starts|] == s.starts
        && s'.starts[|s.starts|].agent != a);
  }

  /** From the moment an agent is paused until it is resumed, no cycle of it starts, however the
      timers fire and whoever forces one. */
  lemma {:induction false} PausedAgentsNeverStart(s: State, events: seq<Timed>, a: AgentId)
    requires Paused(s, a) && forall e | e in events :: e.event != SetStatus(Some(a), ACTIVE)
    ensures Paused(Run(s, events), a) && StartsOf(Run(s, events).starts, a) == StartsOf(s.starts, a)
  {
    if events != [] {
      var init, e := events[..|events| - 1], events[|events| - 1];
      assert e in events;
      PausedAgentsNeverStart(s, init, a);
      PausedStep(Run(s, init), e.event, e.now, a);
    }
  }

  /** From a stop until the next start, no scheduled cycle starts; forced ones still may. */
  lemma {:induction false} NoScheduledStartAfterStop(s: State, events: seq<Timed>)
    requires !s.running && s.live == map[] && forall e | e in events :: !e.event.StartAll?
    ensures var s' := Run(s, events);
            !s'.running && s'.live == map[] && ScheduledStarts(s'.starts) == ScheduledStarts(s.starts)
  {
    if events != [] {
      var init, e := events[..|events| - 1], events[|events| - 1];
      assert e in events;
      NoScheduledStartAfterStop(s, init);
      var before := Run(s, init);
      var after := Step(before, e.event, e.now);
      assert after.starts == before.starts
        || (|after.starts| == |before.starts| + 1 && after.starts[..|before.starts|] == before.starts
            && after.starts[|before.starts|].forced);
    }
  }

  // ----- The cool-down -----------------------------------------------------------------------------

  /** The time of an agent's last start, 0 before its first. */
  function LastOf(starts: seq<Started>, a: AgentId): int {
    if starts == [] then 0
    else if starts[|starts| - 1].agent == a then starts[|starts| - 1].at
    else LastOf(starts[..|starts| - 1], a)
  }

  ghost predicate StartsOrdered(starts: seq<Started>, now: int) {
    forall i, j | 0 <= i <= j < |starts| :: starts[i].at <= starts[j].at <= now
  }

  /** A forced start is at least the cool-down after every earlier start of its agent. */
  ghost predicate ForcedApart(starts: seq<Started>) {
    forall i, j | 0 <= i < j < |starts| && starts[j].forced && starts[i].agent == starts[j].agent ::
      starts[j].at - starts[i].at >= COOLDOWN_MS
  }

  ghost predicate CooldownInv(s: State, now: int) {
    && StartsOrdered(s.starts, now)
    && ForcedApart(s.starts)
    && (forall a :: LastStart(s, a) == LastOf(s.starts, a))
  }

  lemma {:induction false} LastOfIsLatest(starts: seq<Started>, a: AgentId, i: nat)
    requires i < |starts| && starts[i].agent == a
        && forall j, k | 0 <= j <= k < |starts| :: starts[j].at <= starts[k].at
    ensures starts[i].at <= LastOf(starts, a)
  {
    if i < |starts| - 1 && starts[|starts| - 1].agent != a {
      LastOfIsLatest(starts[..|starts| - 1], a, i);
    }
  }

  /** What a step does to the history: nothing, or one more start of an agent that is not paused,
      now, noted in `lastStart`; a forced one only after the cool-down. */
  ghost predicate Starts(s: State, s': State, now: int) {
    || (s'.starts == s.starts && s'.lastStart == s.lastStart)
    || exists a, forced :: StartsOne(s, s', a, forced, now)
  }

  ghost predicate StartsOne(s: State, s': State, a: AgentId, forced: bool, now: int) {
    && s'.starts == s.starts + [Started(a, now, forced)]
    && s'.lastStart == s.lastStart[a := now]
    && !Paused(s, a)
    && (forced ==> now - LastStart(s, a) >= COOLDOWN_MS)
  }

  lemma StepStarts(s: State, e: Event, now: int)
    ensures Starts(s, Step(s, e, now), now)
  {
    var s' := Step(s, e, now);
    if e.StartAll? {
      if !s.running { ArmAll(s.(running := true, sessionAt := now), now); }
    } else if e.Fire? {
      if e.handle in s.live && now >= s.live[e.handle].due && !Paused(s, s.live[e.handle].agent) {
        assert StartsOne(s, s', s.live[e.handle].agent, false, now);
      }
    } else if e.Trigger? {
      if Refusal(s, e.name, now).None? { assert StartsOne(s, s', e.name.value, true, now); }
    }
  }

  lemma AppendOrdered(starts: seq<Started>, start: Started, before: int)
    requires StartsOrdered(starts, before) && before <= start.at
    ensures StartsOrdered(starts + [start], start.at)
  {
  }

  lemma AppendApart(starts: seq<Started>, start: Started, before: int)
    requires StartsOrdered(starts, before) && ForcedApart(starts)
    requires start.forced ==> start.at - LastOf(starts, start.agent) >= COOLDOWN_MS
    ensures ForcedApart(starts + [start])
  {
    var more, n := starts + [start], |starts|;
    forall i, j | 0 <= i < j < |more| && more[j].forced && more[i].agent == more[j].agent
      ensures more[j].at - more[i].at >= COOLDOWN_MS
    {
      if j == n {
        LastOfIsLatest(starts, start.agent, i);
      } else {
        assert more[i] == starts[i] && more[j] == starts[j];
      }
    }
  }

  lemma StartKeepsCooldown(s: State, s': State, a: AgentId, forced: bool, before: int, now: int)
    requires CooldownInv(s, before) && before <= now && StartsOne(s, s', a, forced, now)
    ensures CooldownInv(s', now)
  {
    assert LastStart(s, a) == LastOf(s.starts, a);
    AppendOrdered(s.starts, Started(a, now, forced), before);
    AppendApart(s.starts, Started(a, now, forced), before);
    assert s'.starts[..|s.starts|] == s.starts;
    forall b ensures LastStart(s', b) == LastOf(s'.starts, b) {
      assert LastStart(s, b) == LastOf(s.starts, b);
    }
  }

  lemma StepCooldownInv(s: State, e: Event, before: int, now: int)
    requires CooldownInv(s, before) && before <= now
    ensures CooldownInv(Step(s, e, now), now)
  {
    var s' := Step(s, e, now);
    StepStarts(s, e, now);
    if s'.starts == s.starts && s'.lastStart == s.lastStart {
      forall a ensures LastStart(s', a) == LastOf(s'.starts, a) {
        assert LastStart(s, a) == LastOf(s.starts, a);
      }
    } else {
      var a, forced :| StartsOne(s, s', a, forced, now);
      StartKeepsCooldown(s, s', a, forced, before, now);
    }
  }

  /** The seconds named in a refusal are the least number after which, nothing else happening, the
      agent could be triggered. */
  lemma RefusalNamesTheWait(s: State, a: AgentId, now: int, seconds: int)
    requires Refusal(s, Some(a), now) == Some(OnCooldown(seconds))
    ensures seconds >= 1 && Refusal(s, Some(a), now + 1000 * seconds) == None
    ensures Refusal(s, Some(a), now + 1000 * (seconds - 1)).Some?
  {
    var left := COOLDOWN_MS - (now - LastStart(s, a));
    assert 1000 * (seconds - 1) < left <= 1000 * seconds;
  }

  function Now(events: seq<Timed>): int { if events == [] then 0 else events[|events| - 1].now }

  /** On a non-decreasing clock, a forced cycle starts at least fifteen seconds after whatever cycle of
      its agent started before it. */
  lemma {:induction false} ForcedStartsAreApart(events: seq<Timed>)
    requires ClockOrdered(events) && forall e | e in events :: e.now >= 0
    ensures CooldownInv(Run(INITIAL, events), Now(events))
  {
    if events != [] {
      var init, e := events[..|events| - 1], events[|events| - 1];
      assert e in events && forall x | x in init :: x in events;
      assert ClockOrdered(init);
      ForcedStartsAreApart(init);
      assert Now(init) <= e.now;
      StepCooldownInv(Run(INITIAL, init), e.event, Now(init), e.now);
    }
  }

  // ----- The stagger -------------------------------------------------------------------------------

  const STAGGER_MS: nat := 20000

  /** Scheduled starts of distinct agents are at least the stagger apart. */
  ghost predicate Spaced(starts: seq<Started>) {
    forall i, j | 0 <= i < j < |starts| && !starts[i].forced && !starts[j].forced
        && starts[i].agent != starts[j].agent ::
      Apart(starts[i], starts[j])
  }

  predicate Apart(x: Started, y: Started) { y.at - x.at >= STAGGER_MS || x.at - y.at >= STAGGER_MS }

  /** A time at which the agent's schedule fires in a session begun at `session`, if timers are ideal. */
  ghost predicate OnGrid(t: int, a: AgentId, session: int) {
    exists k: nat :: t == GridTime(a, session, k)
  }

  function GridTime(a: AgentId, session: int, k: nat): int { session + Offset(a) + CYCLE_INTERVAL_MS * k }

  /** A scheduled start of an earlier session, as far back as a restart must leave it. */
  predicate Earlier(x: Started, session: int) { x.at <= session && (x.agent != Rex ==> x.at <= session - STAGGER_MS) }

  /** What an ideal run keeps: earlier sessions out of reach, this session's starts and timers on the grid. */
  ghost predicate SpacingInv(s: State, now: int) {
    && Spaced(s.starts)
    && (forall i | 0 <= i < |s.starts| ::
          && s.starts[i].at <= now
          && (s.starts[i].forced || Earlier(s.starts[i], s.sessionAt)
              || OnGrid(s.starts[i].at, s.starts[i].agent, s.sessionAt)))
    && (forall h | h in s.live :: OnGrid(s.live[h].due, s.live[h].agent, s.sessionAt))
  }

  /** Timers fire exactly when due. */
  predicate Ideal(s: State, e: Event, now: int) { e.Fire? && e.handle in s.live ==> now <= s.live[e.handle].due }

  /** No other agent than Rex, who starts at once, had a scheduled start less than the stagger ago. */
  ghost predicate RestartClear(s: State, now: int) {
    forall i | 0 <= i < |s.starts| && !s.starts[i].forced
        && s.starts[i].agent != Rex :: s.starts[i].at <= now - STAGGER_MS
  }

  /** An ideal run in which the orchestrator is only restarted when that is clear. */
  ghost predicate StaggeredRun(events: seq<Timed>) {
    events == [] ||
    var init, e := events[..|events| - 1], events[|events| - 1];
    var s := Run(INITIAL, init);
    && StaggeredRun(init)
    && Now(init) <= e.now
    && Ideal(s, e.event, e.now)
    && (e.event.StartAll? && !s.running ==> RestartClear(s, e.now))
  }

  lemma GridApart(a: AgentId, b: AgentId, session: int, j: nat, k: nat)
    requires a != b
    ensures var t, u := GridTime(a, session, j), GridTime(b, session, k);
            t - u >= STAGGER_MS || u - t >= STAGGER_MS
  {
    if j < k { assert CYCLE_INTERVAL_MS * k >= CYCLE_INTERVAL_MS * (j + 1); }
    if k < j { assert CYCLE_INTERVAL_MS * j >= CYCLE_INTERVAL_MS * (k + 1); }
  }

  /** A start on the grid is clear of every scheduled start of another agent before it. */
  lemma NewStartIsApart(x: Started, y: Started, session: int)
    requires !x.forced && !y.forced && x.agent != y.agent
    requires Earlier(x, session) || OnGrid(x.at, x.agent, session)
    requires OnGrid(y.at, y.agent, session)
    ensures Apart(x, y)
  {
    var k: nat :| y.at == GridTime(y.agent, session, k);
    if !Earlier(x, session) {
      var j: nat :| x.at == GridTime(x.agent, session, j);
      GridApart(x.agent, y.agent, session, j, k);
    }
  }

  lemma AppendSpaced(s: State, start: Started, now: int)
    requires SpacingInv(s, now) && (start.forced || OnGrid(start.at, start.agent, s.sessionAt))
    ensures Spaced(s.starts + [start])
  {
    var more, n := s.starts + [start], |s.starts|;
    forall i, j | 0 <= i < j < |more| && !more[i].forced && !more[j].forced && more[i].agent != more[j].agent
      ensures Apart(more[i], more[j])
    {
      if j == n {
        NewStartIsApart(s.starts[i], start, s.sessionAt);
      } else {
        assert more[i] == s.starts[i] && more[j] == s.starts[j];
      }
    }
  }

  lemma NextOnGrid(t: int, a: AgentId, session: int)
    requires OnGrid(t, a, session)
    ensures OnGrid(t + CYCLE_INTERVAL_MS, a, session)
  {
    var k: nat :| t == GridTime(a, session, k);
    assert t + CYCLE_INTERVAL_MS == GridTime(a, session, k + 1);
  }

  lemma AppendStart(s: State, s': State, start: Started, before: int, now: int)
    requires SpacingInv(s, before) && before <= now == start.at
    requires start.forced || OnGrid(now, start.agent, s.sessionAt)
    requires s'.starts == s.starts + [start] && s'.sessionAt == s.sessionAt
    requires forall h | h in s'.live :: OnGrid(s'.live[h].due, s'.live[h].agent, s.sessionAt)
    ensures SpacingInv(s', now)
  {
    AppendSpaced(s, start, before);
    forall i | 0 <= i < |s'.starts| && !s'.starts[i].forced
      ensures Earlier(s'.starts[i], s'.sessionAt) || OnGrid(s'.starts[i].at, s'.starts[i].agent, s'.sessionAt)
    {
      if i < |s.starts| { assert s'.starts[i] == s.starts[i]; }
    }
  }

  lemma FireSpacing(s: State, h: nat, before: int, now: int)
    requires SpacingInv(s, before) && before <= now && h in s.live && now == s.live[h].due
    ensures SpacingInv(Step(s, Fire(h), now), now)
  {
    var s', t := Step(s, Fire(h), now), s.live[h];
    NextOnGrid(now, t.agent, s.sessionAt);
    assert forall k | k in s'.live ::
      || (s'.live[k].agent == t.agent && s'.live[k].due == now + CYCLE_INTERVAL_MS)
      || (k in s.live && s'.live[k] == s.live[k]);
    if !Paused(s, t.agent) { AppendStart(s, s', Started(t.agent, now, false), before, now); }
  }

  lemma StartSpacing(s: State, before: int, now: int)
    requires SpacingInv(s, before) && before <= now && !s.running && s.live == map[] && RestartClear(s, now)
    ensures SpacingInv(Step(s, StartAll, now), now)
  {
    var s', n := Step(s, StartAll, now), s.next;
    ArmAll(s.(running := true, sessionAt := now), now);
    forall a: AgentId ensures OnGrid(now + Offset(a), a, now) {
      assert now + Offset(a) == GridTime(a, now, 0);
    }
    assert forall h | h in s'.live :: s'.live[h].due == now + Offset(s'.live[h].agent);
    assert forall i | 0 <= i < |s.starts| && !s.starts[i].forced :: Earlier(s.starts[i], now);
  }

  lemma StepSpacing(s: State, e: Event, before: int, now: int)
    requires TimersInv(s) && SpacingInv(s, before) && before <= now && Ideal(s, e, now)
    requires e.StartAll? && !s.running ==> RestartClear(s, now)
    ensures SpacingInv(Step(s, e, now), now)
  {
    var s' := Step(s, e, now);
    if e.StartAll? && !s.running {
      StartSpacing(s, before, now);
    } else if e.Fire? && e.handle in s.live && now >= s.live[e.handle].due {
      FireSpacing(s, e.handle, before, now);
    } else if e.Trigger? && Refusal(s, e.name, now).None? {
      AppendStart(s, s', Started(e.name.value, now, true), before, now);
    } else {
      assert s'.starts == s.starts && s'.sessionAt == s.sessionAt;
      assert forall h | h in s'.live :: h in s.live && s'.live[h] == s.live[h];
    }
  }

  /** Under ideal timers, scheduled starts of distinct agents are at least twenty seconds apart over
      the whole run, forced cycles, pauses and clear restarts notwithstanding. */
  lemma {:induction false} ScheduledStartsAreStaggered(events: seq<Timed>)
    requires StaggeredRun(events)
    ensures Spaced(Run(INITIAL, events).starts) && SpacingInv(Run(INITIAL, events), Now(events))
  {
    if events != [] {
      var init, e := events[..|events| - 1], events[|events| - 1];
      ScheduledStartsAreStaggered(init);
      OneSchedulePerAgent(init);
      StepSpacing(Run(INITIAL, init), e.event, Now(init), e.now);
    }
  }

  /** While Rex is active, the clear restart is what it takes: after any other, its first cycle, fired when due, comes
      too soon after another agent's. */
  lemma RestartTooSoon(s: State, now: int)
    requires TimersInv(s) && !s.running && !Paused(s, Rex) && StartsOrdered(s.starts, now)
    requires !RestartClear(s, now)
    ensures var armed := Step(s, StartAll, now);
            && s.next in armed.live && armed.live[s.next] == Timer(Rex, now, false)
            && !Spaced(Step(armed, Fire(s.next), now).starts)
  {
    var armed := Step(s, StartAll, now);
    ArmAll(s.(running := true, sessionAt := now), now);
    var fired := Step(armed, Fire(s.next), now);
    assert fired.starts == s.starts + [Started(Rex, now, false)];
    var i :| 0 <= i < |s.starts| && !s.starts[i].forced && s.starts[i].agent != Rex
        && s.starts[i].at > now - STAGGER_MS;
    assert fired.starts[i] == s.starts[i] && fired.starts[|s.starts|] == Started(Rex, now, false);
    assert !Apart(fired.starts[i], fired.starts[|s.starts|]);
  }

  /** A stop and a start five seconds after Nova's cycle: Rex follows Nova after five seconds. */
  const HASTY_RESTART: seq<Timed> :=
    [Timed(StartAll, 0), Timed(Fire(0), 0), Timed(Fire(1), 20000), Timed(StopAll, 25000), Timed(StartAll, 25000),
        Timed(Fire(5), 25000)]

  function FirstSession(): State {
    Step(Step(Step(Step(INITIAL, StartAll, 0), Fire(0), 0), Fire(1), 20000), StopAll, 25000)
  }

  lemma FirstSessionRuns()
    ensures var s := FirstSession();
            && !s.running && !Paused(s, Rex) && s.next == 5
            && s.starts == [Started(Rex, 0, false), Started(Nova, 20000, false)]
  {
    var s1 := Step(INITIAL, StartAll, 0);
    ArmAll(INITIAL.(running := true, sessionAt := 0), 0);
    assert s1.live == map[0 := Timer(Rex, 0, false), 1 := Timer(Nova, 20000, false), 2 := Timer(Sage, 40000, false)];
    var s2 := Step(s1, Fire(0), 0);
    assert s2.next == 4 && s2.starts == [Started(Rex, 0, false)] && s2.live[1] == Timer(Nova, 20000, false)
        && s2.status == INITIAL.status;
    var s3 := Step(s2, Fire(1), 20000);
    assert s3.next == 5 && s3.starts == [Started(Rex, 0, false), Started(Nova, 20000, false)]
        && s3.status == INITIAL.status;
  }

  lemma HastyRestart(s: State)
    requires TimersInv(s) && !s.running && !Paused(s, Rex) && s.next == 5
    requires s.starts == [Started(Rex, 0, false), Started(Nova, 20000, false)]
    ensures !Spaced(Step(Step(s, StartAll, 25000), Fire(5), 25000).starts)
  {
    assert s.starts[1] == Started(Nova, 20000, false);
    RestartTooSoon(s, 25000);
  }

  lemma FirstSessionIsRun()
    ensures Run(INITIAL, HASTY_RESTART[..4]) == FirstSession()
  {
    assert HASTY_RESTART[..0] == [];
    RunNext(HASTY_RESTART, 0);
    RunNext(HASTY_RESTART, 1);
    RunNext(HASTY_RESTART, 2);
    RunNext(HASTY_RESTART, 3);
  }

  lemma HastyRestartRuns()
    ensures Run(INITIAL, HASTY_RESTART) == Step(Step(Run(INITIAL, HASTY_RESTART[..4]), StartAll, 25000), Fire(5), 25000)
  {
    assert HASTY_RESTART[..6] == HASTY_RESTART;
    RunNext(HASTY_RESTART, 4);
    RunNext(HASTY_RESTART, 5);
  }

  lemma RestartCanBreakTheStagger()
    ensures ClockOrdered(HASTY_RESTART) && !Spaced(Run(INITIAL, HASTY_RESTART).starts)
  {
    HastyRestartRuns();
    FirstSessionIsRun();
    FirstSessionRuns();
    OneSchedulePerAgent(HASTY_RESTART[..4]);
    HastyRestart(Run(INITIAL, HASTY_RESTART[..4]));
  }

  lemma RunNext(events: seq<Timed>, n: nat)
    requires n < |events|
    ensures Run(INITIAL, events[..n + 1]) == Step(Run(INITIAL, events[..n]), events[n].event, events[n].now)
  {
    assert events[..n + 1][..n] == events[..n];
  }
}
