/**
 * The main loop of the daemon as an object: the two locals of `main` that
 * the loop updates become fields, one pass of the loop body becomes `Tick`,
 * and a finite stretch of the endless loop becomes `RunTicks`. Each probe's
 * reading, the clock and the result of the profile command arrive as one
 * `Readings` value per tick.
 */
module Daemon {
  import opened Wrappers
  import opened Text
  import opened Config
  import opened Probes
  import opened Census
  import opened Policy

  /** Everything the outside world answers during one tick. */
  datatype Readings = Readings(
    battery: BatteryReading,
    cpu: CpuSample,
    procs: seq<ProcEntry>,
    now: real,
    switchResult: SwitchResult)

  /** What the decision rule sees of a tick's readings, after each probe's
      own fallback on failure. */
  function Observe(processNames: string, r: Readings): (o: Observation)
    ensures o.onAc == IsAcPower(r.battery)
    ensures o.cpuUsage == CpuUsage(r.cpu)
    ensures o.processesRunning <==> MatchReached(Split(processNames, ';'), r.procs)
    ensures o.switchOk == SetPowerProfile(r.switchResult)
    ensures o.now == r.now
  {
    ScanExact(Split(processNames, ';'), r.procs);
    Observation(IsAcPower(r.battery), CpuUsage(r.cpu), Scan(Split(processNames, ';'), r.procs), r.now,
                SetPowerProfile(r.switchResult))
  }

  /** The observations of a sequence of ticks. */
  function Observations(processNames: string, rs: seq<Readings>): (os: seq<Observation>)
    ensures |os| == |rs|
    ensures forall i :: 0 <= i < |rs| ==> os[i] == Observe(processNames, rs[i])
  {
    seq(|rs|, i requires 0 <= i < |rs| => Observe(processNames, rs[i]))
  }

  /** The state `main` keeps across iterations of its loop. */
  class MainLoop {
    /** The `;`-separated monitored process names the loop passes to the census. */
    const monitoredProcess: string
    var currentProfile: Profile
    var lastHighUsageTime: Option<real>

    function Snapshot(): State
      reads this
    {
      State(currentProfile, lastHighUsageTime)
    }

    ghost predicate Valid()
      reads this
    {
      Inv(Snapshot())
    }

    /** `current_profile = "balanced"`, `last_high_usage_time = None`. */
    constructor ()
      ensures Snapshot() == Initial && Valid()
      ensures monitoredProcess == MonitoredProcess
    {
      monitoredProcess := MonitoredProcess;
      currentProfile := Balanced;
      lastHighUsageTime := None;
    }

    /** One pass of the loop body: the new state and the switch attempted are
        those of the decision rule applied to what this tick observed. */
    method Tick(r: Readings) returns (request: Option<Profile>)
      requires Valid()
      modifies this
      ensures Valid()
      ensures Outcome(Snapshot(), request) == Step(old(Snapshot()), Observe(monitoredProcess, r))
    {
      request := None;
      if !IsAcPower(r.battery) {
        return;
      }
      var cpuUsage := CpuUsage(r.cpu);
      var processesRunning := AreProcessesRunning(monitoredProcess, r.procs);
      if cpuUsage > CpuThreshold && processesRunning {
        if currentProfile != Performance {
          request := Some(Performance);
          if SetPowerProfile(r.switchResult) {
            currentProfile := Performance;
          }
        }
        lastHighUsageTime := Some(r.now);
      } else if lastHighUsageTime.Some? {
        var elapsed := r.now - lastHighUsageTime.value;
        if elapsed >= InactivityTimeout && currentProfile != Balanced {
          request := Some(Balanced);
          if SetPowerProfile(r.switchResult) {
            currentProfile := Balanced;
            lastHighUsageTime := None;
          }
        }
      }
    }

    /** A finite stretch of the endless loop: the final state and the switches
        attempted, in order, are those of the decision rule run over the
        ticks' observations. */
    method RunTicks(ticks: seq<Readings>) returns (requests: seq<Profile>)
      requires Valid()
      modifies this
      ensures Valid()
      ensures Run(old(Snapshot()), Observations(monitoredProcess, ticks)) == Trace(Snapshot(), requests)
    {
      ghost var start := Snapshot();
      ghost var os := Observations(monitoredProcess, ticks);
      requests := [];
      var i := 0;
      while i < |ticks|
        invariant 0 <= i <= |ticks|
        invariant Valid()
        invariant Run(start, os[..i]) == Trace(Snapshot(), requests)
      {
        var request := Tick(ticks[i]);
        requests := requests + Requested(request);
        i := i + 1;
        assert os[..i][..i - 1] == os[..i - 1];
      }
      assert os[..|ticks|] == os;
    }
  }

  // ---------------------------------------------------------------------
  // Worked scenarios

  /** On AC at 95% with `cc1plus` running, the daemon in its initial state
      asks for performance once and, when that succeeds, is in performance. */
  lemma ScenarioCompilerStarts(processNames: string, now: real)
    requires Split(processNames, ';') == CompilerNames
    ensures Step(Initial, Observe(processNames, Readings(NoBattery, Sampled(95.0), [Named("cc1plus")], now, Switched)))
         == Outcome(State(Performance, Some(now)), Some(Performance))
  {
    assert EqualsIgnoreCase("cc1plus", CompilerNames[0]);
  }

  /** The process names are compared ignoring case: `CLANG++` counts. */
  lemma ScenarioUpperCaseName(processNames: string, now: real)
    requires Split(processNames, ';') == CompilerNames
    ensures Observe(processNames, Readings(NoBattery, Sampled(95.0), [Named("CLANG++")], now, Switched)).processesRunning
  {
    assert Lower("CLANG++") == "clang++";
    assert EqualsIgnoreCase("CLANG++", CompilerNames[4]);
  }

  /** Thirty seconds after the last high-load sample, a quiet tick keeps
      performance and calls no switch. */
  lemma ScenarioStillWithinTimeout(now: real)
    ensures Step(State(Performance, Some(now - 30.0)), Observe(MonitoredProcess, Readings(NoBattery, Sampled(10.0), [], now, Switched)))
         == Outcome(State(Performance, Some(now - 30.0)), None)
  {
  }

  /** Sixty-one seconds after it, a quiet tick returns to balanced and
      clears the stamp. */
  lemma ScenarioTimeoutElapsed(now: real)
    ensures Step(State(Performance, Some(now - 61.0)), Observe(MonitoredProcess, Readings(NoBattery, Sampled(10.0), [], now, Switched)))
         == Outcome(Initial, Some(Balanced))
  {
  }

  /** On battery, even full load with a compiler running changes nothing. */
  lemma ScenarioOnBattery(s: State, now: real)
    ensures Step(s, Observe(MonitoredProcess, Readings(Battery(false), Sampled(99.0), [Named("gcc")], now, Switched)))
         == Outcome(s, None)
  {
  }
}
