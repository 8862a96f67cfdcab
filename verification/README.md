# auto-power-profile, modelled in Dafny

`auto-power-profile` is a small daemon that switches the host's power
profile (through `powerprofilesctl`) between `balanced` and `performance`.
While the machine is on AC power it escalates to `performance` at once when
CPU usage is above 80% and a compiler (`cc1plus`, `gcc`, `g++`, `clang`,
`clang++`) is running. It returns to `balanced` only after 60 seconds have
passed since the last such high-load sample. A profile switch that fails
leaves the daemon's notion of the current profile unchanged, so the switch
is retried on a later tick.

The model has these parts:

- `Text` (text.dfy): Python's `str.split(";")`, its inverse `join`, and
  `str.lower()` for ASCII letters.
- `Census` (census.dfy): `are_processes_running`. It has a specification
  function `Scan` and a method with the source's nested loops and early
  return, proved equal to `Scan`. `ScanSound`, `ScanComplete` and
  `ScanExact` show that `Scan` is true exactly when a monitored name is
  matched, ignoring case, by a process name met before any entry whose name
  cannot be read.
- `Probes` (probes.dfy): `is_ac_power`, `get_cpu_usage` and
  `set_power_profile`. Each turns a reading of the outside world (a
  datatype that includes the failure) into the value the source returns.
- `Config` (config.dfy): the constants `CPU_THRESHOLD`, `INACTIVITY_TIMEOUT`
  and `MONITORED_PROCESS`.
- `Policy` (policy.dfy): the decision rule of `main`'s loop body as a pure
  transition `Step` over `(profile, lastHighUsage)`. `Run` folds `Step`
  over a sequence of ticks. Lemmas state the hysteresis, retry, no-op and
  invariant properties for one tick and for runs of ticks.
- `Daemon` (daemon.dfy): the loop itself. Class `MainLoop` holds
  `current_profile` and `last_high_usage_time` as fields. `Tick` updates
  them as the loop body does, and `RunTicks` is a finite stretch of the
  loop. Both are proved to agree with `Step` and `Run`. Worked scenarios
  cover a compiler starting, a quiet tick inside and after the timeout, and
  a tick on battery.

Each tick's inputs are explicit values: the battery reading, the CPU
sample, the process table, the clock reading and the result of the
profile command. `Step` sees only what the probes make of them
(`Daemon.Observe`).

A process whose name psutil cannot read is reported with the name `None`.
Then `.lower()` raises at auto-power-profile.py:44, and the `except` at
lines 47-49 turns the whole census into `False`. Such an entry is therefore
not skipped, and a matching process listed after it is never seen.
`Census.Scan` models it as an `Unreadable` entry that ends the scan with
`false`; `Census.ScanExact` characterises the answer exactly, and
`Census.ScanStopsAtUnreadable` states the stop.

## Model

| member | source | states |
|---|---|---|
| `Text.Split` | auto-power-profile.py:41 | `split(";")` yields at least one piece, no piece contains the separator, and there is one more piece than there are separators |
| `Text.JoinSplit` | auto-power-profile.py:41 | joining the pieces of a split with the separator gives back the original list string |
| `Text.SplitJoin` | auto-power-profile.py:41 | splitting a join of separator-free pieces gives back exactly those pieces |
| `Text.LowerChar` | auto-power-profile.py:44 | lowering never yields an upper-case ASCII letter, leaves every other character alone and maps `A`-`Z` to `a`-`z` |
| `Text.Lower` | auto-power-profile.py:44 | lowering a name lowers each of its characters in place, so letters become lower case and every other character (`+`, digits) is kept |
| `Text.LowerIdempotent` | auto-power-profile.py:44 | lowering an already lowered name changes nothing |
| `Text.EqualsIgnoreCaseSameLength` | auto-power-profile.py:44 | two names equal after `.lower()` have the same length and agree character by character up to case |
| `Census.AreProcessesRunning` | auto-power-profile.py:38-49 | the nested loops with early `return True`, and `False` on an exception, compute exactly `Scan` of the split name list over the process table |
| `Census.ScanSound` | auto-power-profile.py:42-46 | a true census answer means some process name equals some monitored name, ignoring case, and every entry before it was readable |
| `Census.ScanComplete` | auto-power-profile.py:42-46 | a process whose name matches some monitored name ignoring case, with only readable entries before it, makes the census true whatever follows it |
| `Census.ScanExact` | auto-power-profile.py:41-49 | the census is true exactly when a match is met before any unreadable entry |
| `Census.ScanStopsAtUnreadable` | auto-power-profile.py:42-49 | an entry that raises, with no match before it, makes the census false, whatever follows |
| `Census.MonitoredList` | auto-power-profile.py:13 | the configured string splits into exactly `cc1plus`, `gcc`, `g++`, `clang`, `clang++` |
| `Probes.IsAcPower` | auto-power-profile.py:29-36 | no battery means AC, a battery means AC exactly when plugged in, and a failed query means not on AC |
| `Probes.CpuUsage` | auto-power-profile.py:52-58 | the sampled percentage, or 0 when sampling raised |
| `Probes.ProfileNameInjective` | auto-power-profile.py:100-108 | the two profile names differ, so comparing profiles equals comparing the source's strings |
| `Probes.SwitchCommand` | auto-power-profile.py:63-64 | the command run is `powerprofilesctl set <profile name>` |
| `Probes.SwitchCommandInjective` | auto-power-profile.py:63-64 | the two profiles are set by different command lines |
| `Probes.SetPowerProfile` | auto-power-profile.py:60-77 | the switch reports success exactly when the command exits 0; a non-zero exit and a missing command both report failure |
| `Policy.Step` | auto-power-profile.py:88-111 | one tick keeps the invariant, never requests the profile it is already in, changes the profile only to the one it requested and only when the switch succeeded, and changes nothing off AC |
| `Policy.Run` | auto-power-profile.py:87-117 | a run of n ticks requests at most n switches |
| `Policy.OffAcDoesNothing` | auto-power-profile.py:90-92 | a tick off AC leaves profile and timestamp unchanged and requests nothing |
| `Policy.HighLoadIsStrict` | auto-power-profile.py:99 | usage at or below the threshold (80%) is never high load, with or without a compiler running |
| `Policy.HighLoadEscalates` | auto-power-profile.py:99-103 | a high-load tick on AC sets the timestamp to now, requests performance exactly when not in it, and ends in performance exactly when it was already there or the switch succeeded |
| `Policy.NoRepeatRequest` | auto-power-profile.py:100-103 | a high-load tick in performance requests nothing and only refreshes the timestamp |
| `Policy.DeEscalationRule` | auto-power-profile.py:104-111 | a quiet tick on AC requests balanced exactly when the timestamp is set, the timeout has elapsed and the profile is not balanced; success returns to (balanced, unset), failure and no request change nothing |
| `Policy.NoPrematureReturn` | auto-power-profile.py:106-108 | in performance, a tick less than the timeout after the last high-load sample (or with no stamp) stays in performance and requests nothing |
| `Policy.TimedReturn` | auto-power-profile.py:106-111 | the first quiet tick on AC at least the timeout after the last high-load sample returns to (balanced, unset) when the switch succeeds |
| `Policy.RetryAfterFailedEscalation` | auto-power-profile.py:100-102 | a failed switch to performance keeps the profile, and the next high-load tick on AC requests performance again |
| `Policy.RetryAfterFailedReturn` | auto-power-profile.py:108-111 | a failed switch to balanced changes nothing, and any later quiet tick on AC requests balanced again |
| `Policy.RunOffAc` | auto-power-profile.py:90-92 | any number of ticks off AC change nothing and request nothing |
| `Policy.RunPreservesInv` | auto-power-profile.py:101-111 | every run keeps "performance implies the timestamp is set" |
| `Policy.ReachableInv` | auto-power-profile.py:84-85 | every state reached from the start state (balanced, unset) satisfies the invariant |
| `Policy.RunStaysPerformance` | auto-power-profile.py:103-108 | from performance stamped at t0, ticks at times in [t0, t0 + timeout) keep performance, keep a stamp no earlier than t0 and request nothing, whatever the load |
| `Policy.RunQuietKeepsStamp` | auto-power-profile.py:90-108 | from performance stamped at t0, ticks off AC (at any time) and quiet ticks on AC less than the timeout after t0 leave profile and stamp exactly as they are and request nothing |
| `Policy.RunTimedReturn` | auto-power-profile.py:90-111 | after the last high-load sample, ticks off AC (e.g. unplugged past the timeout) and quiet ticks on AC within the timeout, then the first quiet tick on AC at or after the timeout with a successful switch, end in (balanced, unset) having requested balanced exactly once |
| `Policy.RunSustainedHighLoad` | auto-power-profile.py:99-103 | sustained high load on AC in performance requests no switch, and the stamp ends at the latest tick's time |
| `Daemon.Observe` | auto-power-profile.py:90-96 | a tick is on AC exactly as the battery rule says, sees the sampled CPU usage (0 on failure), sees a running compiler exactly when a monitored name is matched before any unreadable process entry, and sees a successful switch exactly when the command exited 0 |
| `Daemon.MainLoop.constructor` | auto-power-profile.py:84-85 | the loop starts in (balanced, unset) with the configured process list |
| `Daemon.MainLoop.Tick` | auto-power-profile.py:88-111 | one pass of the loop body leaves the fields and returns the switch attempted exactly as `Step` gives for the tick's observations, and keeps the invariant |
| `Daemon.MainLoop.RunTicks` | auto-power-profile.py:87-113 | a stretch of the loop ends in the state, with the switch requests in order, that `Run` gives for the ticks' observations |
| `Daemon.ScenarioCompilerStarts` | auto-power-profile.py:99-103 | on AC at 95% with `cc1plus` running, the start state requests performance once and ends in performance |
| `Daemon.ScenarioUpperCaseName` | auto-power-profile.py:44 | a process named `CLANG++` counts as a running compiler |
| `Daemon.ScenarioStillWithinTimeout` | auto-power-profile.py:106-108 | 30 s after the last high-load sample, a quiet tick keeps performance and requests nothing |
| `Daemon.ScenarioTimeoutElapsed` | auto-power-profile.py:106-111 | 61 s after it, a quiet tick requests balanced and returns to (balanced, unset) |
| `Daemon.ScenarioOnBattery` | auto-power-profile.py:90-92 | on battery, 99% usage with `gcc` running changes nothing and requests nothing |

## Left out

- Logging, `systemd.daemon.notify`, `time.sleep(CHECK_INTERVAL)` and the `KeyboardInterrupt` exit are process lifecycle and I/O.
- The `except Exception` around the loop body (lines 115-117) is left out. What it leaves behind depends on where an arbitrary exception fires. Each probe's own `except` is modelled.
- psutil can report `power_plugged` as `None` when it cannot tell. Then `battery is None or battery.power_plugged` is falsy and the tick is skipped; the model reads that case as `Battery(false)`.
- psutil and `subprocess.run` are replaced by the readings they return: `BatteryReading`, `CpuSample`, a list of `ProcEntry`, and `SwitchResult`. The two failure kinds of the switch are kept apart in `SwitchResult` but report the same `false`, as in the source.
- Times and CPU percentages are Dafny `real`s, not floats. Rounding is not modelled.
- `Daemon.MainLoop.Tick` uses one clock reading per tick, as the source does (lines 103 and 107 are in different branches). In the source, the reading at line 103 is taken after the switch call; the model does not separate the two instants.
- `Text.Lower` covers ASCII letters only, not the full Unicode case mapping of Python's `str.lower()`.
- `Daemon.MainLoop.RunTicks` covers a finite prefix of the endless `while True` loop.
- `Daemon.MainLoop` takes the monitored process list as a constant field set by its constructor from `MONITORED_PROCESS`. The source reads the global directly.
