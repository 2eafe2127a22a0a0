/**
 * The system monitor (backend/app/services/system_monitor.py): the idempotent start/stop of
 * its background task, the cached statistics snapshot, and the process list of
 * `get_processes`, ranked by CPU or memory share and cut to twenty entries.
 */
module SystemMonitor {
  import opened Wrappers
  import opened Sorting

  // ================================================================ the process list

  /**
   * What `proc.info` holds for one process; `psutil` may report no CPU or memory share.
   * A process that vanished or denied access while being read is `None` in the input.
   */
  datatype ProcInfo = ProcInfo(pid: int, name: Option<string>, cpuPercent: Option<real>,
                               memoryPercent: Option<real>)

  /** One entry of the list `get_processes` returns. */
  datatype ProcessEntry = ProcessEntry(pid: int, name: Option<string>, cpuPercent: real, memoryPercent: real)

  /** `processes[:20]`. */
  const TOP_PROCESSES: nat := 20

  /** The entry for one process: a missing share is reported as 0. */
  function EntryOf(p: ProcInfo): (e: ProcessEntry)
    ensures e.pid == p.pid && e.name == p.name
    ensures e.cpuPercent == (if p.cpuPercent.Some? then p.cpuPercent.value else 0.0)
    ensures e.memoryPercent == (if p.memoryPercent.Some? then p.memoryPercent.value else 0.0)
  {
    ProcessEntry(p.pid, p.name, p.cpuPercent.GetOr(0.0), p.memoryPercent.GetOr(0.0))
  }

  /** The entries of the processes that could be read, in the order `process_iter` gave them. */
  function Entries(procs: seq<Option<ProcInfo>>): (r: seq<ProcessEntry>)
    ensures |r| <= |procs|
  {
    if procs == [] then []
    else (if procs[0].Some? then [EntryOf(procs[0].value)] else []) + Entries(procs[1..])
  }

  /** `Entries` keeps exactly the readable processes: every entry comes from one, and each one gives an entry. */
  lemma {:induction false} EntriesOfReadable(procs: seq<Option<ProcInfo>>)
    ensures forall e :: e in Entries(procs) ==> exists i :: 0 <= i < |procs| && procs[i].Some? && e == EntryOf(procs[i].value)
    ensures forall i :: 0 <= i < |procs| && procs[i].Some? ==> EntryOf(procs[i].value) in Entries(procs)
  {
    if procs != [] {
      EntriesOfReadable(procs[1..]);
      var head := if procs[0].Some? then [EntryOf(procs[0].value)] else [];
      assert Entries(procs) == head + Entries(procs[1..]);
      forall i | 1 <= i < |procs| ensures procs[i] == procs[1..][i - 1] {
      }
    }
  }

  /** When no process is skipped, there is one entry per process, in order. */
  lemma {:induction false} EntriesOfAllReadable(procs: seq<Option<ProcInfo>>)
    requires forall i :: 0 <= i < |procs| ==> procs[i].Some?
    ensures |Entries(procs)| == |procs|
    ensures forall i :: 0 <= i < |procs| ==> Entries(procs)[i] == EntryOf(procs[i].value)
  {
    if procs != [] {
      EntriesOfAllReadable(procs[1..]);
      assert Entries(procs) == [EntryOf(procs[0].value)] + Entries(procs[1..]);
    }
  }

  /** The loop over `process_iter` that appends one entry per readable process. */
  method CollectProcesses(procs: seq<Option<ProcInfo>>) returns (processes: seq<ProcessEntry>)
    ensures processes == Entries(procs)
  {
    processes := [];
    var i := 0;
    while i < |procs|
      invariant 0 <= i <= |procs|
      invariant processes + Entries(procs[i..]) == Entries(procs)
    {
      assert procs[i..][1..] == procs[i + 1..];
      if procs[i].Some? {
        processes := processes + [EntryOf(procs[i].value)];
      }
      i := i + 1;
    }
    assert procs[i..] == [];
  }

  function CpuKey(e: ProcessEntry): real { e.cpuPercent }
  function MemoryKey(e: ProcessEntry): real { e.memoryPercent }

  /** The list after the `sort_by` step: by CPU or by memory, most first, and untouched for any other key. */
  function Ranked(processes: seq<ProcessEntry>, sortBy: string): (r: seq<ProcessEntry>)
    ensures multiset(r) == multiset(processes)
    ensures sortBy == "cpu" ==> SortedDesc(r, CpuKey)
    ensures sortBy == "memory" ==> SortedDesc(r, MemoryKey)
    ensures sortBy != "cpu" && sortBy != "memory" ==> r == processes
  {
    if sortBy == "cpu" then SortDesc(processes, CpuKey)
    else if sortBy == "memory" then SortDesc(processes, MemoryKey)
    else processes
  }

  /** The first twenty of a list, or all of a shorter one. */
  function Top(s: seq<ProcessEntry>): (r: seq<ProcessEntry>)
    ensures |r| == if |s| < TOP_PROCESSES then |s| else TOP_PROCESSES
    ensures r == s[..|r|]
  {
    if |s| <= TOP_PROCESSES then s else s[..TOP_PROCESSES]
  }

  /** `get_processes(sort_by)`: collect, rank, cut. */
  method GetProcesses(procs: seq<Option<ProcInfo>>, sortBy: string) returns (top: seq<ProcessEntry>)
    ensures top == Top(Ranked(Entries(procs), sortBy))
  {
    var processes := CollectProcesses(procs);
    if sortBy == "cpu" {
      processes := SortDesc(processes, CpuKey);
    } else if sortBy == "memory" {
      processes := SortDesc(processes, MemoryKey);
    }
    top := Top(processes);
  }

  /**
   * What a ranked, cut list promises: at most twenty entries drawn from the list, and every
   * entry left out has a key no greater than any entry kept.
   */
  lemma TopKeepsLargest(processes: seq<ProcessEntry>, key: ProcessEntry -> real)
    ensures var top := Top(SortDesc(processes, key));
            && |top| <= TOP_PROCESSES
            && multiset(top) <= multiset(processes)
            && SortedDesc(top, key)
            && forall e :: e in multiset(processes) - multiset(top) ==>
                 forall k :: 0 <= k < |top| ==> key(e) <= key(top[k])
  {
    var ranked := SortDesc(processes, key);
    var top := Top(ranked);
    var rest := ranked[|top|..];
    assert ranked == top + rest;
    assert multiset(processes) == multiset(top) + multiset(rest);
    forall e | e in multiset(processes) - multiset(top)
      ensures forall k :: 0 <= k < |top| ==> key(e) <= key(top[k])
    {
      assert e in rest;
      var j :| 0 <= j < |rest| && rest[j] == e;
      assert ranked[|top| + j] == e;
    }
  }

  /** For any other `sort_by` the result is the first twenty readable processes in their original order. */
  lemma TopUnsorted(procs: seq<Option<ProcInfo>>, sortBy: string)
    requires sortBy != "cpu" && sortBy != "memory"
    ensures var top := Top(Ranked(Entries(procs), sortBy));
            && |top| == (if |Entries(procs)| < TOP_PROCESSES then |Entries(procs)| else TOP_PROCESSES)
            && top == Entries(procs)[..|top|]
  {
  }

  // ================================================================ the monitor

  /**
   * The statistics snapshot, key by key, each value as its JSON text; `{}` when `psutil`
   * failed or before the first refresh.
   */
  type StatsDict = map<string, string>

  class SystemMonitor {
    var running: bool
    /** The monitoring task, by an identity the caller supplies. */
    var task: Option<nat>
    var currentStats: StatsDict

    /** A task exists exactly while the monitor runs. */
    predicate Valid()
      reads this
    {
      running <==> task.Some?
    }

    constructor ()
      ensures Valid() && !running && task.None? && currentStats == map[]
    {
      running, task, currentStats := false, None, map[];
    }

    /** `start()`: a second start while running changes nothing. */
    method Start(newTask: nat)
      requires Valid()
      modifies this`running, this`task
      ensures Valid()
      ensures old(running) ==> unchanged(this)
      ensures !old(running) ==> running && task == Some(newTask)
    {
      if running {
        return;
      }
      running := true;
      task := Some(newTask);
    }

    /** `stop()`: the monitoring task is cancelled and dropped; stopping a stopped monitor changes nothing. */
    method Stop()
      requires Valid()
      modifies this`running, this`task
      ensures Valid() && !running && task.None?
      ensures !old(running) ==> unchanged(this)
    {
      if !running {
        return;
      }
      running := false;
      if task.Some? {
        task := None;
      }
    }

    /** One pass of `_monitor_loop`: while running, the snapshot becomes the latest statistics. */
    method Refresh(stats: StatsDict)
      modifies this`currentStats
      ensures currentStats == if running then stats else old(currentStats)
    {
      if running {
        currentStats := stats;
      }
    }

    /** `get_current_stats()`: the cached snapshot, never a fresh reading. */
    function CurrentStats(): StatsDict
      reads this
    {
      currentStats
    }
  }
}
