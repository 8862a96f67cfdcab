/** The daemon's fixed configuration (auto-power-profile.py:11-14). */
module Config {

  /** CPU utilisation, in percent, that must be exceeded to count as high load. */
  const CpuThreshold: real := 80.0

  /** Seconds after the last high-load sample before returning to balanced. */
  const InactivityTimeout: real := 60.0

  /** The monitored compiler process names, `;`-separated. */
  const MonitoredProcess: string := "cc1plus;gcc;g++;clang;clang++"
}
