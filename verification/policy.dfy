/**
 * The decision rule of the daemon's main loop, one tick at a time, as a pure
 * transition over the two pieces of state the loop keeps: the profile it last
 * applied successfully and the time of the last high-load sample.
 * Everything the tick observes (power source, CPU usage, process census, the
 * clock, whether the profile switch succeeded) is an input.
 */
module Policy {
  import opened Wrappers
  import opened Probes
  import opened Config

  /** `current_profile` and `last_high_usage_time` of `main`. */
  datatype State = State(profile: Profile, lastHighUsage: Option<real>)

  /** The state `main` starts in. */
  const Initial: State := State(Balanced, None)

  /** Performance is only ever entered in the branch that stamps the time,
      and the stamp is only cleared together with the return to balanced. */
  predicate Inv(s: State) {
    s.profile == Performance ==> s.lastHighUsage.Some?
  }

  /** What one tick observes. `switchOk` is what `set_power_profile` returns
      if the tick calls it (a tick calls it at most once). */
  datatype Observation = Observation(
    onAc: bool,
    cpuUsage: real,
    processesRunning: bool,
    now: real,
    switchOk: bool)

  /** The state after a tick and the profile switch it attempted, if any. */
  datatype Outcome = Outcome(next: State, request: Option<Profile>)

  /** High load: usage strictly above the threshold while a monitored process runs. */
  predicate HighLoad(cpuUsage: real, processesRunning: bool) {
    cpuUsage > CpuThreshold && processesRunning
  }

  /** The inactivity timeout has run out since the last high-load sample. */
  predicate TimedOut(s: State, now: real) {
    s.lastHighUsage.Some? && now - s.lastHighUsage.value >= InactivityTimeout
  }

  /** One pass of the loop body of `main`. */
  function Step(s: State, o: Observation): (r: Outcome)
    ensures Inv(s) ==> Inv(r.next)
    ensures r.request.Some? ==> r.request.value != s.profile
    ensures r.next.profile != s.profile ==> o.switchOk && r.request == Some(r.next.profile)
    ensures r.next != s ==> o.onAc
  {
    if !o.onAc then
      Outcome(s, None)
    else if HighLoad(o.cpuUsage, o.processesRunning) then
      if s.profile != Performance then
        Outcome(State(if o.switchOk then Performance else s.profile, Some(o.now)), Some(Performance))
      else
        Outcome(State(s.profile, Some(o.now)), None)
    else if TimedOut(s, o.now) && s.profile != Balanced then
      Outcome(if o.switchOk then State(Balanced, None) else s, Some(Balanced))
    else
      Outcome(s, None)
  }

  /** The switch a tick attempted, as a list of zero or one requests. */
  function Requested(request: Option<Profile>): (rs: seq<Profile>)
    ensures |rs| <= 1
    ensures request.None? <==> rs == []
  {
    if request.Some? then [request.value] else []
  }

  /** The state after a run of ticks and every switch attempted along the way. */
  datatype Trace = Trace(final: State, requests: seq<Profile>)

  /** A run of consecutive ticks from state `s`. */
  function Run(s: State, obs: seq<Observation>): (t: Trace)
    ensures |t.requests| <= |obs|
    decreases |obs|
  {
    if obs == [] then Trace(s, [])
    else
      var prev := Run(s, obs[..|obs| - 1]);
      var r := Step(prev.final, obs[|obs| - 1]);
      Trace(r.next, prev.requests + Requested(r.request))
  }

  // ---------------------------------------------------------------------
  // One tick

  /** Off AC power a tick does nothing at all. */
  lemma OffAcDoesNothing(s: State, o: Observation)
    requires !o.onAc
    ensures Step(s, o) == Outcome(s, None)
  {
  }

  /** Usage equal to the threshold, or below it, is never high load. */
  lemma HighLoadIsStrict(cpuUsage: real, processesRunning: bool)
    requires cpuUsage <= CpuThreshold
    ensures !HighLoad(cpuUsage, processesRunning)
  {
  }

  /** A high-load tick on AC stamps the time whatever the profile, asks for
      performance only when not in it, and is in performance afterwards
      unless that switch failed. */
  lemma HighLoadEscalates(s: State, o: Observation)
    requires o.onAc && HighLoad(o.cpuUsage, o.processesRunning)
    ensures Step(s, o).next.lastHighUsage == Some(o.now)
    ensures Step(s, o).request == if s.profile == Performance then None else Some(Performance)
    ensures Step(s, o).next.profile == Performance <==> s.profile == Performance || o.switchOk
  {
  }

  /** A high-load tick while already in performance requests nothing and
      only refreshes the time stamp. */
  lemma NoRepeatRequest(s: State, o: Observation)
    requires s.profile == Performance
    requires o.onAc && HighLoad(o.cpuUsage, o.processesRunning)
    ensures Step(s, o) == Outcome(State(Performance, Some(o.now)), None)
  {
  }

  /** A tick on AC without high load asks for balanced exactly when the time
      stamp is set, the timeout has run out and the profile is not balanced;
      success returns to the initial state, failure changes nothing. */
  lemma DeEscalationRule(s: State, o: Observation)
    requires o.onAc && !HighLoad(o.cpuUsage, o.processesRunning)
    ensures Step(s, o).request.Some? <==>
      s.lastHighUsage.Some? && o.now - s.lastHighUsage.value >= InactivityTimeout && s.profile != Balanced
    ensures Step(s, o).request.Some? ==> Step(s, o).request == Some(Balanced)
    ensures Step(s, o).request.Some? && o.switchOk ==> Step(s, o).next == Initial
    ensures Step(s, o).request.Some? && !o.switchOk ==> Step(s, o).next == s
    ensures Step(s, o).request.None? ==> Step(s, o).next == s
  {
  }

  /** Before the timeout has run out since the last high-load sample (or
      with no sample at all), performance is never left. */
  lemma NoPrematureReturn(s: State, o: Observation)
    requires s.profile == Performance
    requires s.lastHighUsage.Some? ==> o.now - s.lastHighUsage.value < InactivityTimeout
    ensures Step(s, o).next.profile == Performance
    ensures Step(s, o).request == None
  {
  }

  /** Once the timeout has run out after the last high-load sample, the first
      quiet tick on AC returns to balanced when the switch succeeds. */
  lemma TimedReturn(t0: real, o: Observation)
    requires o.onAc && !HighLoad(o.cpuUsage, o.processesRunning)
    requires o.now - t0 >= InactivityTimeout && o.switchOk
    ensures Step(State(Performance, Some(t0)), o) == Outcome(Initial, Some(Balanced))
  {
  }

  /** A failed escalation keeps the profile, and the next high-load tick on AC
      asks for performance again. */
  lemma RetryAfterFailedEscalation(s: State, o: Observation, o': Observation)
    requires s.profile != Performance && !o.switchOk
    requires o.onAc && HighLoad(o.cpuUsage, o.processesRunning)
    requires o'.onAc && HighLoad(o'.cpuUsage, o'.processesRunning)
    ensures Step(s, o).request == Some(Performance)
    ensures Step(s, o).next.profile == s.profile
    ensures Step(Step(s, o).next, o').request == Some(Performance)
  {
  }

  /** A failed return to balanced changes nothing, and any later quiet tick
      on AC asks for balanced again. */
  lemma RetryAfterFailedReturn(s: State, o: Observation, o': Observation)
    requires Step(s, o).request == Some(Balanced) && !o.switchOk
    requires o'.onAc && !HighLoad(o'.cpuUsage, o'.processesRunning) && o'.now >= o.now
    ensures Step(s, o).next == s
    ensures Step(Step(s, o).next, o').request == Some(Balanced)
  {
  }

  // ---------------------------------------------------------------------
  // Runs of ticks

  /** Any number of ticks off AC power change nothing and request nothing. */
  lemma {:induction false} RunOffAc(s: State, obs: seq<Observation>)
    requires forall i :: 0 <= i < |obs| ==> !obs[i].onAc
    ensures Run(s, obs) == Trace(s, [])
    decreases |obs|
  {
    if obs != [] {
      RunOffAc(s, obs[..|obs| - 1]);
    }
  }

  /** Every run keeps the invariant. */
  lemma {:induction false} RunPreservesInv(s: State, obs: seq<Observation>)
    requires Inv(s)
    ensures Inv(Run(s, obs).final)
    decreases |obs|
  {
    if obs != [] {
      RunPreservesInv(s, obs[..|obs| - 1]);
    }
  }

  /** Every state the daemon reaches from its start satisfies the invariant. */
  lemma {:induction false} ReachableInv(obs: seq<Observation>)
    ensures Inv(Run(Initial, obs).final)
  {
    RunPreservesInv(Initial, obs);
  }

  /** While every tick comes less than the timeout after the high-load sample
      at `t0` (and not before it), performance is kept and no switch is asked
      for, whatever load is observed. */
  lemma {:induction false} RunStaysPerformance(t0: real, obs: seq<Observation>)
    requires forall i :: 0 <= i < |obs| ==> t0 <= obs[i].now && obs[i].now - t0 < InactivityTimeout
    ensures Run(State(Performance, Some(t0)), obs).final.profile == Performance
    ensures Run(State(Performance, Some(t0)), obs).final.lastHighUsage.Some?
    ensures Run(State(Performance, Some(t0)), obs).final.lastHighUsage.value >= t0
    ensures Run(State(Performance, Some(t0)), obs).requests == []
    decreases |obs|
  {
    if obs != [] {
      RunStaysPerformance(t0, obs[..|obs| - 1]);
    }
  }

  /** Sustained high load on AC while in performance never calls the switch
      again; the stamp holds the time of the latest tick. */
  lemma {:induction false} RunSustainedHighLoad(s: State, obs: seq<Observation>)
    requires s.profile == Performance && |obs| > 0
    requires forall i :: 0 <= i < |obs| ==> obs[i].onAc && HighLoad(obs[i].cpuUsage, obs[i].processesRunning)
    ensures Run(s, obs) == Trace(State(Performance, Some(obs[|obs| - 1].now)), [])
    decreases |obs|
  {
    if |obs| > 1 {
      RunSustainedHighLoad(s, obs[..|obs| - 1]);
    }
  }

  /** Ticks off AC, and quiet ticks on AC within the timeout of the high-load
      sample at `t0`, leave the state exactly as it is, stamp included. */
  lemma {:induction false} RunQuietKeepsStamp(t0: real, obs: seq<Observation>)
    requires forall i :: 0 <= i < |obs| ==>
      !obs[i].onAc || (!HighLoad(obs[i].cpuUsage, obs[i].processesRunning) && obs[i].now - t0 < InactivityTimeout)
    ensures Run(State(Performance, Some(t0)), obs) == Trace(State(Performance, Some(t0)), [])
    decreases |obs|
  {
    if obs != [] {
      RunQuietKeepsStamp(t0, obs[..|obs| - 1]);
    }
  }

  /** After the last high-load sample at `t0`, any ticks off AC and quiet
      ticks on AC within the timeout, followed by the first quiet tick on AC
      at or after `t0 + InactivityTimeout` whose switch succeeds, end back in
      the start state, having asked for balanced exactly once. */
  lemma {:induction false} RunTimedReturn(t0: real, obs: seq<Observation>, o: Observation)
    requires forall i :: 0 <= i < |obs| ==>
      !obs[i].onAc || (!HighLoad(obs[i].cpuUsage, obs[i].processesRunning) && obs[i].now - t0 < InactivityTimeout)
    requires o.onAc && !HighLoad(o.cpuUsage, o.processesRunning)
    requires o.now - t0 >= InactivityTimeout && o.switchOk
    ensures Run(State(Performance, Some(t0)), obs + [o]) == Trace(Initial, [Balanced])
  {
    var all := obs + [o];
    assert all[..|all| - 1] == obs;
    RunQuietKeepsStamp(t0, obs);
  }
}
