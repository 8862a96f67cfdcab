/**
 * `are_processes_running`: whether a process whose name matches, ignoring
 * case, one of the `;`-separated monitored names is running. The process
 * table is an input: the entries `psutil.process_iter(["name"])` yields, in
 * order.
 */
module Census {
  import opened Text
  import Config

  /** One entry of the process iteration: a readable name, or a step that
      raises (the iterator failing, or a name psutil could not read, whose
      `.lower()` then fails). */
  datatype ProcEntry = Named(name: string) | Unreadable

  /** The name matches one of the monitored names, ignoring case. */
  predicate MatchesAny(name: string, names: seq<string>) {
    exists j :: 0 <= j < |names| && EqualsIgnoreCase(name, names[j])
  }

  /** What the nested loops return: true at the first entry that matches;
      false when the entries run out, or when an entry raises before any match
      (the `except` clause turns the exception into false). */
  function Scan(names: seq<string>, procs: seq<ProcEntry>): (found: bool)
    decreases |procs|
  {
    if procs == [] then false
    else match procs[0]
      case Unreadable => false
      case Named(n) => MatchesAny(n, names) || Scan(names, procs[1..])
  }

  /** Entry `i` is readable and matches a monitored name, ignoring case, and
      every entry before it is readable, so the loops reach it. */
  ghost predicate MatchReachedAt(names: seq<string>, procs: seq<ProcEntry>, i: int) {
    && 0 <= i < |procs|
    && procs[i].Named?
    && MatchesAny(procs[i].name, names)
    && forall k :: 0 <= k < i ==> procs[k].Named?
  }

  /** Some entry matches before any unreadable entry is met. */
  ghost predicate MatchReached(names: seq<string>, procs: seq<ProcEntry>) {
    exists i :: MatchReachedAt(names, procs, i)
  }

  /** A true answer is always backed by a matching running process that comes
      before every unreadable entry. */
  lemma {:induction false} ScanSound(names: seq<string>, procs: seq<ProcEntry>)
    requires Scan(names, procs)
    ensures MatchReached(names, procs)
    decreases |procs|
  {
    if MatchesAny(procs[0].name, names) {
      assert MatchReachedAt(names, procs, 0);
    } else {
      ScanSound(names, procs[1..]);
      var i :| MatchReachedAt(names, procs[1..], i);
      assert procs[i + 1] == procs[1..][i];
      forall k | 0 <= k < i + 1 ensures procs[k].Named? {
        if k > 0 {
          assert procs[k] == procs[1..][k - 1];
        }
      }
      assert MatchReachedAt(names, procs, i + 1);
    }
  }

  /** A matching process met before any unreadable entry makes the answer
      true, whatever follows it. */
  lemma {:induction false} ScanComplete(names: seq<string>, procs: seq<ProcEntry>, i: int)
    requires MatchReachedAt(names, procs, i)
    ensures Scan(names, procs)
    decreases i
  {
    if i > 0 && !MatchesAny(procs[0].name, names) {
      assert procs[1..][i - 1] == procs[i];
      forall k | 0 <= k < i - 1 ensures procs[1..][k].Named? {
        assert procs[1..][k] == procs[k + 1];
      }
      ScanComplete(names, procs[1..], i - 1);
    }
  }

  /** The census answer is true exactly when a match is met before any
      unreadable entry. */
  lemma ScanExact(names: seq<string>, procs: seq<ProcEntry>)
    ensures Scan(names, procs) <==> MatchReached(names, procs)
  {
    if Scan(names, procs) {
      ScanSound(names, procs);
    }
    if MatchReached(names, procs) {
      var i :| MatchReachedAt(names, procs, i);
      ScanComplete(names, procs, i);
    }
  }

  /** An unreadable entry ends the scan with false unless a match came earlier. */
  lemma {:induction false} ScanStopsAtUnreadable(names: seq<string>, procs: seq<ProcEntry>, k: nat)
    requires k < |procs| && procs[k].Unreadable?
    requires forall i :: 0 <= i < k ==> procs[i].Named? && !MatchesAny(procs[i].name, names)
    ensures !Scan(names, procs)
    decreases k
  {
    if k > 0 {
      ScanStopsAtUnreadable(names, procs[1..], k - 1);
    }
  }

  /** `are_processes_running(process_names)` over the given process table. */
  method AreProcessesRunning(processNames: string, procs: seq<ProcEntry>) returns (running: bool)
    ensures running == Scan(Split(processNames, ';'), procs)
  {
    var processList := Split(processNames, ';');
    var i := 0;
    while i < |procs|
      invariant 0 <= i <= |procs|
      invariant Scan(processList, procs) == Scan(processList, procs[i..])
    {
      assert procs[i..][1..] == procs[i + 1..];
      match procs[i]
      case Unreadable =>
        return false;
      case Named(n) =>
        var j := 0;
        while j < |processList|
          invariant 0 <= j <= |processList|
          invariant forall k :: 0 <= k < j ==> !EqualsIgnoreCase(n, processList[k])
        {
          if Lower(n) == Lower(processList[j]) {
            return true;
          }
          j := j + 1;
        }
      i := i + 1;
    }
    return false;
  }

  /** The compiler names the configured list is made of. */
  const CompilerNames: seq<string> := ["cc1plus", "gcc", "g++", "clang", "clang++"]

  /** The configured list splits into exactly the five compiler names. */
  lemma MonitoredList()
    ensures Split(Config.MonitoredProcess, ';') == CompilerNames
  {
    var names := CompilerNames;
    assert Join(names[4..], ';') == "clang++";
    assert Join(names[3..], ';') == "clang;clang++";
    assert Join(names[2..], ';') == "g++;clang;clang++";
    assert Join(names[1..], ';') == "gcc;g++;clang;clang++";
    assert Join(names, ';') == "cc1plus;gcc;g++;clang;clang++";
    SplitJoin(names, ';');
  }
}
