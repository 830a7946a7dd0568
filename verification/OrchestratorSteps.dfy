/** The orchestrator's operations in terms of their state's fields, and the cadence that they add up to: an
    active agent starts a cycle at its offset and then every minute. */
module OrchestratorSteps {
  import opened Results
  import opened Orchestrator

  // ----- One step ------------------------------------------------------------------------------------

  /** The offsets that keep the three agents apart. */
  predicate OffsetIs(a: AgentId, offset: int) {
    (a == Rex ==> offset == 0) && (a == Nova ==> offset == 20000) && (a == Sage ==> offset == 40000)
  }

  /** Starting arms one time-out per agent, each at its own offset, and starts no cycle; a second start does
      nothing. */
  lemma StartArmsEveryAgent(s: State, now: int, a: AgentId, offset: int)
    requires TimersInv(s) && OffsetIs(a, offset)
    ensures var s' := Step(s, StartAll, now);
            && (s.running ==> s' == s)
            && (!s.running ==>
                  && s'.running && s'.starts == s.starts && s'.status == s.status && s'.lastStart == s.lastStart
                  && HasSchedule(s', a)
                  && forall h | Schedules(s', h, a) :: s'.live[h] == Timer(a, now + offset, false))
  {
    if !s.running {
      ArmAll(s.(running := true, sessionAt := now), now);
      ArmTimersInv(s, now);
    }
  }

  /** Stopping clears every schedule and nothing else: paused agents stay paused, and the cool-down is not
      forgotten. */
  lemma StopClearsSchedulesOnly(s: State, now: int)
    requires TimersInv(s)
    ensures var s' := Step(s, StopAll, now);
            && s'.live == map[] && !s'.running
            && s'.starts == s.starts && s'.status == s.status && s'.lastStart == s.lastStart
  {
    StopClearsAll(s, now);
  }

  /** The kill switch sets the status of the named agent, leaving the others, the schedules and the cool-downs
      alone; an unknown name changes nothing. */
  lemma SwitchSetsOneStatus(s: State, name: Name, status: Status, now: int)
    ensures var s' := Step(s, SetStatus(name, status), now);
            && (name.None? ==> s' == s)
            && (name.Some? ==>
                  && name.value in s'.status && s'.status[name.value] == status
                  && s'.status - {name.value} == s.status - {name.value})
            && s'.live == s.live && s'.starts == s.starts && s'.lastStart == s.lastStart && s'.running == s.running
  {
  }

  /** A forced cycle: refused for an unknown name, then for a paused agent, then within fifteen seconds of the
      agent's last start, with the wait rounded up to whole seconds; otherwise it starts at once and is noted,
      and no schedule moves. */
  lemma TriggerMeaning(s: State, a: AgentId, now: int, last: int)
    requires (a in s.lastStart ==> last == s.lastStart[a]) && (a !in s.lastStart ==> last == 0)
    ensures Refusal(s, None, now) == Some(NotFound) && Step(s, Trigger(None), now) == s
    ensures var refusal, s' := Refusal(s, Some(a), now), Step(s, Trigger(Some(a)), now);
            && (refusal.Some? ==> s' == s)
            && (a in s.status && s.status[a] == PAUSED ==> refusal == Some(IsPaused))
            && (!(a in s.status && s.status[a] == PAUSED) && now - last < 15000 ==>
                  && refusal.Some? && refusal.value.OnCooldown?
                  && 1000 * (refusal.value.remainingSeconds - 1) < last + 15000 - now
                  && last + 15000 - now <= 1000 * refusal.value.remainingSeconds)
            && (!(a in s.status && s.status[a] == PAUSED) && now - last >= 15000 ==>
                  && refusal == None && s'.starts == s.starts + [Started(a, now, true)]
                  && s'.lastStart == s.lastStart[a := now] && s'.live == s.live && s'.status == s.status)
  {
  }

  /** A schedule that is due starts one cycle of its agent, or none while it is paused, and in either case is
      due again in exactly one minute; no other agent's schedule moves. One that is not due does nothing. */
  lemma FiringRearms(s: State, h: nat, now: int)
    requires TimersInv(s)
    ensures var s' := Step(s, Fire(h), now);
            && (h !in s.live || now < s.live[h].due ==> s' == s)
            && (h in s.live && s.live[h].due <= now ==>
                  var a := s.live[h].agent;
                  && s'.starts == s.starts + (if a in s.status && s.status[a] == PAUSED then []
                                              else [Started(a, now, false)])
                  && (s'.starts != s.starts ==> s'.lastStart == s.lastStart[a := now])
                  && (s'.starts == s.starts ==> s'.lastStart == s.lastStart)
                  && HasSchedule(s', a) && s'.status == s.status && s'.running == s.running
                  && (forall k | Schedules(s', k, a) :: s'.live[k].due == now + 60000 && s'.live[k].repeats)
                  && (forall k, b | b != a :: Schedules(s', k, b) <==> Schedules(s, k, b))
                  && (forall k, b | b != a && Schedules(s, k, b) :: s'.live[k] == s.live[k]))
  {
    if h in s.live && s.live[h].due <= now { FiringMoves(s, h, now); }
  }

  lemma FiringMoves(s: State, h: nat, now: int)
    requires TimersInv(s) && h in s.live && s.live[h].due <= now
    ensures var s', a := Step(s, Fire(h), now), s.live[h].agent;
            && HasSchedule(s', a)
            && (forall k | Schedules(s', k, a) :: s'.live[k].due == now + 60000 && s'.live[k].repeats)
            && (forall k, b | b != a :: Schedules(s', k, b) <==> Schedules(s, k, b))
            && (forall k, b | b != a && Schedules(s, k, b) :: s'.live[k] == s.live[k])
  {
    var s', a := Step(s, Fire(h), now), s.live[h].agent;
    var moved := if s.live[h].repeats then h else s.next;
    assert Schedules(s, h, a) && Schedules(s', moved, a);
    assert forall k | k in s.live :: k < s.next;
    assert forall k, b :: Schedules(s', k, b) <==> (k == moved && b == a) || (k != h && Schedules(s, k, b));
  }

  /** A new orchestrator: nothing scheduled, every agent active, none ever started. */
  lemma InitiallyActive(a: AgentId)
    ensures !INITIAL.running && INITIAL.live == map[] && INITIAL.starts == []
    ensures a in INITIAL.status && INITIAL.status[a] == ACTIVE && a in INITIAL.lastStart && INITIAL.lastStart[a] == 0
  {
    match a case Rex => case Nova => case Sage =>
  }

  // ----- The cadence -----------------------------------------------------------------------------------

  /** The times at which scheduled cycles of an agent started, in order. */
  function ScheduledTimes(starts: seq<Started>, a: AgentId): seq<int> {
    if starts == [] then []
    else
      var last := starts[|starts| - 1];
      ScheduledTimes(starts[..|starts| - 1], a) + (if last.agent == a && !last.forced then [last.at] else [])
  }

  lemma ScheduledTimesAppend(starts: seq<Started>, start: Started, a: AgentId)
    ensures ScheduledTimes(starts + [start], a)
        == ScheduledTimes(starts, a) + (if start.agent == a && !start.forced then [start.at] else [])
  {
    assert (starts + [start])[..|starts|] == starts;
  }

  /** The first n times of a minute's rhythm. */
  function EveryMinuteFrom(first: int, n: nat): seq<int> { seq(n, i => first + 60000 * i) }

  /** What the events of a session may be: no stop, the agent is not paused, and timers fire when due. */
  ghost predicate Undisturbed(s: State, events: seq<Timed>, a: AgentId) {
    events == [] ||
    var init, e := events[..|events| - 1], events[|events| - 1];
    && Undisturbed(s, init, a)
    && !e.event.StopAll? && e.event != SetStatus(Some(a), PAUSED)
    && Ideal(Run(s, init), e.event, e.now)
  }

  /** `n` cycles have started in a minute's rhythm since the state `s0`, and the next one is scheduled. */
  ghost predicate InRhythm(s0: State, s: State, a: AgentId, first: int, n: nat) {
    && s.running && TimersInv(s) && !Paused(s, a)
    && ScheduledTimes(s.starts, a) == ScheduledTimes(s0.starts, a) + EveryMinuteFrom(first, n)
    && (forall h | Schedules(s, h, a) :: s.live[h].due == first + 60000 * n)
  }

  ghost predicate KeepsRhythm(s0: State, s: State, a: AgentId, first: int) {
    exists n: nat :: InRhythm(s0, s, a, first, n)
  }

  lemma OneMinuteMore(first: int, n: nat)
    ensures EveryMinuteFrom(first, n + 1) == EveryMinuteFrom(first, n) + [first + 60000 * n]
  {
  }

  /** In a session that is not stopped, an agent that is not paused has its scheduled cycles start at its offset
      and every minute from then on, with none left out, however other agents' timers, forced cycles and
      switches fall between them. */
  lemma {:induction false} EveryMinute(s0: State, t: int, events: seq<Timed>, a: AgentId, offset: int)
    requires TimersInv(s0) && !s0.running && !Paused(s0, a) && OffsetIs(a, offset)
    requires Undisturbed(Step(s0, StartAll, t), events, a)
    ensures KeepsRhythm(s0, Run(Step(s0, StartAll, t), events), a, t + offset)
  {
    var armed := Step(s0, StartAll, t);
    if events == [] {
      ArmTimersInv(s0, t);
      StartArmsEveryAgent(s0, t, a, offset);
      assert EveryMinuteFrom(t + offset, 0) == [];
      assert InRhythm(s0, armed, a, t + offset, 0);
    } else {
      var init, e := events[..|events| - 1], events[|events| - 1];
      EveryMinute(s0, t, init, a, offset);
      var s, first := Run(armed, init), t + offset;
      var n: nat :| InRhythm(s0, s, a, first, n);
      var m := RhythmStep(s0, s, e, a, first, n);
      assert InRhythm(s0, Run(armed, events), a, first, m);
    }
  }

  lemma RhythmStep(s0: State, s: State, e: Timed, a: AgentId, first: int, n: nat) returns (m: nat)
    requires InRhythm(s0, s, a, first, n)
    requires !e.event.StopAll? && e.event != SetStatus(Some(a), PAUSED) && Ideal(s, e.event, e.now)
    ensures InRhythm(s0, Step(s, e.event, e.now), a, first, m)
  {
    m := n;
    StepTimersInv(s, e.event, e.now);
    if e.event.Fire? {
      m := FireInRhythm(s0, s, e.event.handle, e.now, a, first, n);
    } else if e.event.Trigger? {
      if Refusal(s, e.event.name, e.now).None? {
        ScheduledTimesAppend(s.starts, Started(e.event.name.value, e.now, true), a);
      }
      SameSchedules(s0, s, Step(s, e.event, e.now), a, first, n);
    } else if e.event.SetStatus? {
      SwitchSetsOneStatus(s, e.event.name, e.event.status, e.now);
      SameSchedules(s0, s, Step(s, e.event, e.now), a, first, n);
    }
  }

  lemma SameSchedules(s0: State, s: State, s': State, a: AgentId, first: int, n: nat)
    requires InRhythm(s0, s, a, first, n) && TimersInv(s') && s'.live == s.live && s'.running && !Paused(s', a)
    requires ScheduledTimes(s'.starts, a) == ScheduledTimes(s.starts, a)
    ensures InRhythm(s0, s', a, first, n)
  {
    assert forall h :: Schedules(s', h, a) == Schedules(s, h, a);
  }

  lemma FireInRhythm(s0: State, s: State, h: nat, now: int, a: AgentId, first: int, n: nat) returns (m: nat)
    requires InRhythm(s0, s, a, first, n) && (h in s.live ==> now <= s.live[h].due)
    requires TimersInv(Step(s, Fire(h), now))
    ensures InRhythm(s0, Step(s, Fire(h), now), a, first, m)
  {
    var s' := Step(s, Fire(h), now);
    m := n;
    FiringRearms(s, h, now);
    if h in s.live && s.live[h].due <= now {
      var b := s.live[h].agent;
      ScheduledTimesAppend(s.starts, Started(b, now, false), a);
      if b == a {
        assert Schedules(s, h, a);
        OneMinuteMore(first, n);
        Extended(ScheduledTimes(s0.starts, a), EveryMinuteFrom(first, n), [now]);
        m := n + 1;
      } else {
        assert s'.starts == s.starts || s'.starts == s.starts + [Started(b, now, false)];
        assert ScheduledTimes(s.starts, a) + [] == ScheduledTimes(s.starts, a);
      }
    }
  }

  lemma Extended(x: seq<int>, y: seq<int>, z: seq<int>)
    ensures x + y + z == x + (y + z)
  {
  }
}
