/**
 * The daemon's collaborators whose real-world effect is reduced to a value:
 * the battery sensor, the CPU sampler and the `powerprofilesctl` command.
 * Each becomes a datatype of the readings it can give, including the
 * failure that the source catches and replaces by a safe default.
 */
module Probes {

  /** What `psutil.sensors_battery()` can give: no battery (a desktop), a
      battery with its plugged-in flag, or an exception. */
  datatype BatteryReading = NoBattery | Battery(powerPlugged: bool) | BatteryError

  /** `is_ac_power`: on AC unless a battery reports it is unplugged; a failed
      query counts as running on battery. */
  function IsAcPower(reading: BatteryReading): (onAc: bool)
    ensures reading.BatteryError? ==> !onAc
    ensures reading.NoBattery? ==> onAc
    ensures reading.Battery? ==> onAc == reading.powerPlugged
  {
    match reading
    case NoBattery => true
    case Battery(plugged) => plugged
    case BatteryError => false
  }

  /** What `psutil.cpu_percent(interval=1)` can give: a percentage or an exception. */
  datatype CpuSample = Sampled(percent: real) | CpuError

  /** `get_cpu_usage`: the sampled percentage, or 0 when sampling failed. */
  function CpuUsage(sample: CpuSample): (usage: real)
    ensures sample.CpuError? ==> usage == 0.0
    ensures sample.Sampled? ==> usage == sample.percent
  {
    if sample.Sampled? then sample.percent else 0.0
  }

  /** The profiles the daemon switches between. */
  datatype Profile = Balanced | Performance

  /** The profile name passed to `powerprofilesctl`. */
  function ProfileName(p: Profile): (name: string)
    ensures |name| > 0
  {
    match p
    case Balanced => "balanced"
    case Performance => "performance"
  }

  /** Distinct profiles have distinct names, so the string comparisons of
      the source and the comparisons of `Profile` values agree. */
  lemma ProfileNameInjective(p: Profile, q: Profile)
    ensures ProfileName(p) == ProfileName(q) <==> p == q
  {
    if p != q {
      assert ProfileName(p)[0] != ProfileName(q)[0];
    }
  }

  /** The argument vector `set_power_profile` runs. */
  function SwitchCommand(p: Profile): (argv: seq<string>)
    ensures |argv| == 3 && argv[0] == "powerprofilesctl" && argv[1] == "set"
    ensures argv[2] == ProfileName(p)
  {
    ["powerprofilesctl", "set", ProfileName(p)]
  }

  /** Distinct profiles are set by distinct command lines. */
  lemma SwitchCommandInjective(p: Profile, q: Profile)
    ensures SwitchCommand(p) == SwitchCommand(q) <==> p == q
  {
    ProfileNameInjective(p, q);
    if SwitchCommand(p) == SwitchCommand(q) {
      assert SwitchCommand(p)[2] == SwitchCommand(q)[2];
    }
  }

  /** How running `powerprofilesctl` can end: a zero exit status, a non-zero
      one (with its standard error), or the command not being installed. */
  datatype SwitchResult = Switched | Rejected(stderr: string) | ToolMissing

  /** `set_power_profile`: true exactly when the command ran and exited 0;
      both failure kinds are reported as false. */
  function SetPowerProfile(result: SwitchResult): (ok: bool)
    ensures ok <==> !result.Rejected? && !result.ToolMissing?
  {
    match result
    case Switched => true
    case Rejected(_) => false
    case ToolMissing => false
  }
}
