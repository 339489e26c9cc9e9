/**
 Persistent jobs of one agent (control_station_lite/agent/process_manager.py and
 control_station_lite/agent/state.py), on POSIX.

 The table of records lives in the agent's memory and is lost when the agent goes down; the
 processes and running.json stay.
 */
module ProcessManager {
  import opened Wrappers

  type Uuid = string
  type Pid = int
  type Time = int

  datatype JobStatus = Pending | Running | Completed | Failed | Killed

  /** `Child` is a process this agent started; `Reattached` is known by its pid only. */
  datatype Handle = Child(pid: Pid) | Reattached(pid: Pid)

  datatype ProcessRecord = ProcessRecord(
    scriptName: string,
    process: Handle,
    logPath: string,
    startedAt: Time,
    status: JobStatus,
    endedAt: Option<Time>,
    exitCode: Option<int>)

  /** One job in running.json. */
  datatype JobEntry = JobEntry(scriptName: string, pid: Pid, logPath: string, startedAt: Time)

  /** What the operating system knows of a process. */
  datatype OsProcess = Alive | Exited(code: int)

  type Os = map<Pid, OsProcess>
  type Table = map<Uuid, ProcessRecord>
  type Entries = map<Uuid, JobEntry>

  predicate PidAlive(os: Os, pid: Pid) {
    pid in os && os[pid].Alive?
  }

  /** `poll()`: None while alive; a reattached process that is gone answers -1. */
  function Poll(os: Os, h: Handle): Option<int> {
    if PidAlive(os, h.pid) then None
    else match h
      case Child(pid) => if pid in os then Some(os[pid].code) else Some(-1)
      case Reattached(_) => Some(-1)
  }

  function PollRecord(os: Os, now: Time, r: ProcessRecord): ProcessRecord {
    if r.status != Running || Poll(os, r.process).None? then r
    else
      var ret := Poll(os, r.process).value;
      r.(exitCode := Some(ret), endedAt := Some(now), status := if ret == 0 then Completed else Failed)
  }

  function EntryOf(r: ProcessRecord): JobEntry {
    JobEntry(r.scriptName, r.process.pid, r.logPath, r.startedAt)
  }

  function RunningEntries(table: Table): Entries {
    map u | u in table && table[u].status == Running :: EntryOf(table[u])
  }

  function Restored(entries: Entries, os: Os): Table {
    map u | u in entries && PidAlive(os, entries[u].pid) ::
      ProcessRecord(entries[u].scriptName, Reattached(entries[u].pid), entries[u].logPath,
                    entries[u].startedAt, Running, None, None)
  }

  function PollAll(table: Table, os: Os, now: Time): Table {
    map u | u in table :: PollRecord(os, now, table[u])
  }

  // ---------------------------------------------------------------------------------------
  // The machine: agent memory, running.json, processes
  // ---------------------------------------------------------------------------------------

  /** `up` is None while the agent is down; `json` is None when running.json is missing. */
  datatype Machine = Machine(up: Option<Table>, json: Option<Entries>, os: Os)

  const FRESH := Machine(Some(map[]), None, map[])

  datatype Step =
    | Start(uuid: Uuid, script: string, log: string, pid: Pid, now: Time)
    | GetStatus(uuid: Uuid, now: Time)
    | ListJobs(now: Time)
    | Kill(uuid: Uuid, code: int, now: Time)   // code: how the process ends when it is killed
    | Exit(pid: Pid, code: int)                // a process ends by itself
    | Crash
    | Restore

  function SavedEntries(json: Option<Entries>): Entries {
    if json.Some? then json.value else map[]
  }

  /** The record of a job whose process has been killed. */
  function KilledRecord(os: Os, now: Time, r: ProcessRecord): ProcessRecord {
    r.(status := Killed, endedAt := Some(now), exitCode := Poll(os, r.process))
  }

  function Next(m: Machine, step: Step): Machine {
    match step
    case Exit(pid, code) => m.(os := if PidAlive(m.os, pid) then m.os[pid := Exited(code)] else m.os)
    case Crash => m.(up := None)
    case Restore => if m.up.Some? then m else m.(up := Some(Restored(SavedEntries(m.json), m.os)))
    case Start(uuid, script, log, pid, now) =>
      if m.up.None? then m
      else
        var table := m.up.value[uuid := ProcessRecord(script, Child(pid), log, now, Running, None, None)];
        Machine(Some(table), Some(RunningEntries(table)), m.os[pid := Alive])
    case GetStatus(uuid, now) =>
      if m.up.None? || uuid !in m.up.value then m
      else m.(up := Some(m.up.value[uuid := PollRecord(m.os, now, m.up.value[uuid])]))
    case ListJobs(now) =>
      if m.up.None? then m else m.(up := Some(PollAll(m.up.value, m.os, now)))
    case Kill(uuid, code, now) =>
      if m.up.None? || uuid !in m.up.value then m
      else
        var polled := PollRecord(m.os, now, m.up.value[uuid]);
        if polled.status != Running then m.(up := Some(m.up.value[uuid := polled]))
        else
          var os := m.os[polled.process.pid := Exited(code)];
          var table := m.up.value[uuid := KilledRecord(os, now, polled)];
          Machine(Some(table), Some(RunningEntries(table)), os)
  }

  // ---------------------------------------------------------------------------------------
  // The manager object
  // ---------------------------------------------------------------------------------------

  /** The operating system and the disk. */
  class Platform {
    var os: Os
    var json: Option<Entries>

    constructor ()
      ensures os == map[] && json == None
    {
      os, json := map[], None;
    }
  }

  class Manager {
    const host: Platform
    var jobs: Table

    function State(): Machine
      reads this, host
    {
      Machine(Some(jobs), host.json, host.os)
    }

    /** A fresh agent process; `restore_state` has not run yet. */
    constructor (host: Platform)
      ensures this.host == host && jobs == map[]
    {
      this.host, jobs := host, map[];
    }

    method SaveState()
      modifies host`json
      ensures host.json == Some(RunningEntries(jobs))
    {
      var entries: Entries := map[];
      var left := jobs.Keys;
      while left != {}
        invariant left <= jobs.Keys
        invariant entries == map u | u in jobs && u !in left && jobs[u].status == Running :: EntryOf(jobs[u])
        decreases |left|
      {
        var u :| u in left;
        left := left - {u};
        if jobs[u].status == Running {
          entries := entries[u := EntryOf(jobs[u])];
        }
      }
      assert entries == RunningEntries(jobs);
      host.json := Some(entries);
    }

    /** The gate has been passed; `pid` is what `_popen` returns. */
    method Start(uuid: Uuid, script: string, log: string, pid: Pid, now: Time)
      modifies this, host
      ensures State() == Next(old(State()), Step.Start(uuid, script, log, pid, now))
    {
      host.os := host.os[pid := Alive];
      jobs := jobs[uuid := ProcessRecord(script, Child(pid), log, now, Running, None, None)];
      SaveState();
    }

    method PollOne(uuid: Uuid, now: Time)
      requires uuid in jobs
      modifies this
      ensures jobs == old(jobs)[uuid := PollRecord(host.os, now, old(jobs)[uuid])]
    {
      var record := jobs[uuid];
      if record.status == Running {
        var ret := Poll(host.os, record.process);
        if ret.Some? {
          record := record.(exitCode := ret);
          record := record.(endedAt := Some(now));
          record := record.(status := if ret.value == 0 then Completed else Failed);
        }
      }
      jobs := jobs[uuid := record];
    }

    method GetStatus(uuid: Uuid, now: Time) returns (r: Option<ProcessRecord>)
      modifies this
      ensures State() == Next(old(State()), Step.GetStatus(uuid, now))
      ensures r == Lookup(jobs, uuid)
    {
      if uuid !in jobs {
        return None;
      }
      PollOne(uuid, now);
      return Some(jobs[uuid]);
    }

    /** The loop shared by `list_jobs` and `running_count`. */
    method PollJobs(now: Time)
      modifies this
      ensures State() == Next(old(State()), ListJobs(now))
    {
      var left := jobs.Keys;
      ghost var before := jobs;
      while left != {}
        invariant left <= jobs.Keys == before.Keys
        invariant forall u :: u in before ==>
          jobs[u] == if u in left then before[u] else PollRecord(host.os, now, before[u])
        decreases |left|
      {
        var u :| u in left;
        left := left - {u};
        PollOne(u, now);
      }
      assert jobs == PollAll(before, host.os, now);
    }

    method RunningCount(now: Time) returns (n: nat)
      modifies this
      ensures State() == Next(old(State()), ListJobs(now))
      ensures n == |RunningEntries(jobs)|
    {
      PollJobs(now);
      n := CountRunning();
    }

    /** The sum over the polled records. */
    method CountRunning() returns (n: nat)
      ensures n == |RunningEntries(jobs)|
    {
      var left := jobs.Keys;
      ghost var counted: set<Uuid> := {};
      n := 0;
      while left != {}
        invariant left <= jobs.Keys && counted !! left
        invariant counted == set u | u in jobs && u !in left && jobs[u].status == Running
        invariant n == |counted|
        decreases |left|
      {
        var u :| u in left;
        left := left - {u};
        if jobs[u].status == Running {
          counted := counted + {u};
          n := n + 1;
        }
      }
      assert counted == RunningEntries(jobs).Keys;
    }

    /** `code` is how the process ends once it has been signalled, at the latest by SIGKILL. */
    method Kill(uuid: Uuid, code: int, now: Time) returns (r: Option<ProcessRecord>)
      modifies this, host
      ensures State() == Next(old(State()), Step.Kill(uuid, code, now))
      ensures r == Lookup(jobs, uuid)
    {
      if uuid !in jobs {
        return None;
      }
      PollOne(uuid, now);
      var record := jobs[uuid];
      if record.status != Running {
        return Some(record);
      }
      host.os := host.os[record.process.pid := Exited(code)];
      record := record.(status := Killed);
      record := record.(endedAt := Some(now));
      record := record.(exitCode := Poll(host.os, record.process));
      jobs := jobs[uuid := record];
      assert jobs == old(jobs)[uuid := record];
      SaveState();
      return Some(record);
    }

    method RestoreState()
      requires jobs == map[]
      modifies this
      ensures State() == Next(Machine(None, host.json, host.os), Restore)
    {
      var entries := SavedEntries(host.json);
      var left := entries.Keys;
      while left != {}
        invariant left <= entries.Keys
        invariant jobs == map u | u in entries && u !in left && PidAlive(host.os, entries[u].pid) ::
          ProcessRecord(entries[u].scriptName, Reattached(entries[u].pid), entries[u].logPath,
                        entries[u].startedAt, Running, None, None)
        decreases |left|
      {
        var u :| u in left;
        left := left - {u};
        var entry := entries[u];
        if PidAlive(host.os, entry.pid) {
          jobs := jobs[u := ProcessRecord(entry.scriptName, Reattached(entry.pid), entry.logPath,
                                          entry.startedAt, Running, None, None)];
        }
      }
      assert jobs == Restored(entries, host.os);
    }
  }

  // ---------------------------------------------------------------------------------------
  // Crash recovery
  // ---------------------------------------------------------------------------------------

  function After(steps: seq<Step>): Machine {
    if steps == [] then FRESH else Next(After(steps[..|steps| - 1]), steps[|steps| - 1])
  }

  /** Every job ever started, as it was started. */
  function Started(steps: seq<Step>): Entries {
    if steps == [] then map[]
    else
      var before, step := steps[..|steps| - 1], steps[|steps| - 1];
      if step.Start? && After(before).up.Some?
      then Started(before)[step.uuid := JobEntry(step.script, step.pid, step.log, step.now)]
      else Started(before)
  }

  /** Uuids and pids are never used twice. */
  predicate Fresh(steps: seq<Step>) {
    steps == [] ||
    (Fresh(steps[..|steps| - 1]) &&
     var before, step := steps[..|steps| - 1], steps[|steps| - 1];
     step.Start? ==> step.uuid !in Started(before) && step.pid !in After(before).os)
  }

  /** The job is on record as running, as it was started. */
  predicate Tracked(table: Table, u: Uuid, e: JobEntry) {
    u in table && table[u].status == Running && EntryOf(table[u]) == e
  }

  ghost predicate JobInv(m: Machine, u: Uuid, e: JobEntry) {
    && e.pid in m.os
    && (PidAlive(m.os, e.pid) ==> Lookup(SavedEntries(m.json), u) == Some(e))
    && (m.up.Some? && PidAlive(m.os, e.pid) ==> Tracked(m.up.value, u, e))
    && (m.up.Some? && u in m.up.value ==> EntryOf(m.up.value[u]) == e)
  }

  ghost predicate Recoverable(m: Machine, started: Entries) {
    && (forall u :: u in started ==> JobInv(m, u, started[u]))
    && (forall u, v :: u in started && v in started && started[u].pid == started[v].pid ==> u == v)
    && (m.up.Some? ==> m.up.value.Keys <= started.Keys)
    && (forall u :: u in SavedEntries(m.json) ==> u in started && SavedEntries(m.json)[u] == started[u])
  }

  lemma RunningIsTracked(table: Table, u: Uuid, e: JobEntry)
    ensures Tracked(table, u, e) <==> Lookup(RunningEntries(table), u) == Some(e)
  {
  }

  lemma KillKeepsRecoverable(m: Machine, started: Entries, step: Step)
    requires Recoverable(m, started) && step.Kill?
    ensures Recoverable(Next(m, step), started)
  {
    var m' := Next(m, step);
    forall u | u in started ensures JobInv(m', u, started[u]) {
      assert JobInv(m, u, started[u]);
      if m'.up.Some? { RunningIsTracked(m'.up.value, u, started[u]); }
      if step.uuid in started { assert JobInv(m, step.uuid, started[step.uuid]); }
    }
  }

  lemma StartKeepsRecoverable(m: Machine, started: Entries, step: Step)
    requires Recoverable(m, started) && step.Start? && m.up.Some?
    requires step.uuid !in started && step.pid !in m.os
    ensures Recoverable(Next(m, step), started[step.uuid := JobEntry(step.script, step.pid, step.log, step.now)])
  {
    var m' := Next(m, step);
    var e := JobEntry(step.script, step.pid, step.log, step.now);
    var started' := started[step.uuid := e];
    forall u | u in started' ensures JobInv(m', u, started'[u]) {
      RunningIsTracked(m'.up.value, u, started'[u]);
      if u != step.uuid { assert JobInv(m, u, started[u]); }
    }
    forall u | u in SavedEntries(m'.json) ensures u in started' && SavedEntries(m'.json)[u] == started'[u] {
      if u != step.uuid { assert JobInv(m, u, started[u]); }
    }
  }

  lemma OtherStepsKeepRecoverable(m: Machine, started: Entries, step: Step)
    requires Recoverable(m, started) && !step.Start? && !step.Kill?
    ensures Recoverable(Next(m, step), started)
  {
    var m' := Next(m, step);
    forall u | u in started ensures JobInv(m', u, started[u]) {
      assert JobInv(m, u, started[u]);
    }
  }

  lemma {:induction false} AlwaysRecoverable(steps: seq<Step>)
    requires Fresh(steps)
    ensures Recoverable(After(steps), Started(steps))
  {
    if steps != [] {
      var before, step := steps[..|steps| - 1], steps[|steps| - 1];
      AlwaysRecoverable(before);
      if step.Start? && After(before).up.Some? {
        StartKeepsRecoverable(After(before), Started(before), step);
      } else if step.Kill? {
        KillKeepsRecoverable(After(before), Started(before), step);
      } else if !step.Start? {
        OtherStepsKeepRecoverable(After(before), Started(before), step);
      }
    }
  }

  /**
   At any moment running.json holds every job whose process is alive, as it was started; while the
   agent is up its table tracks all of them too.
   */
  lemma RunningJobsAreOnDisk(steps: seq<Step>, u: Uuid)
    requires Fresh(steps) && u in Started(steps) && PidAlive(After(steps).os, Started(steps)[u].pid)
    ensures Lookup(SavedEntries(After(steps).json), u) == Some(Started(steps)[u])
    ensures After(steps).up.Some? ==> Tracked(After(steps).up.value, u, Started(steps)[u])
  {
    AlwaysRecoverable(steps);
    assert JobInv(After(steps), u, Started(steps)[u]);
  }

  /**
   Crash recovery.  After any run with any number of crashes, an agent that comes up again tracks
   exactly the jobs whose processes are still alive, with script, pid, log and start time as they
   were started, all of them running.
   */
  lemma RecoveryIsExact(steps: seq<Step>)
    requires Fresh(steps)
    ensures
      var started := Started(steps);
      var m := After(steps + [Crash, Restore]);
      && m.up.Some?
      && (forall u :: u in m.up.value <==> u in started && PidAlive(m.os, started[u].pid))
      && (forall u :: u in m.up.value ==> Tracked(m.up.value, u, started[u]) && Consistent(m.up.value[u]))
      && m.os == After(steps).os
  {
    AlwaysRecoverable(steps);
    var all := steps + [Crash, Restore];
    assert all[..|all| - 1] == steps + [Crash] && (steps + [Crash])[..|steps|] == steps;
    var m := After(steps);
    assert After(steps + [Crash]) == m.(up := None);
    forall u | u in Started(steps) ensures JobInv(m, u, Started(steps)[u]) { }
  }

  // ---------------------------------------------------------------------------------------
  // Job lifecycle
  // ---------------------------------------------------------------------------------------

  /** Status, end time and exit code say the same thing. */
  predicate Consistent(r: ProcessRecord) {
    match r.status
    case Pending => false
    case Running => r.endedAt.None? && r.exitCode.None?
    case Completed => r.endedAt.Some? && r.exitCode == Some(0)
    case Failed => r.endedAt.Some? && r.exitCode.Some? && r.exitCode != Some(0)
    case Killed => r.endedAt.Some? && r.exitCode.Some?
  }

  lemma {:induction false} RecordsConsistent(steps: seq<Step>)
    ensures
      var up := After(steps).up;
      up.Some? ==> forall u :: u in up.value ==> Consistent(up.value[u])
  {
    if steps != [] {
      RecordsConsistent(steps[..|steps| - 1]);
    }
  }

  /** A record that is no longer running is final, and a job's identity never changes. */
  predicate Evolves(before: ProcessRecord, after: ProcessRecord) {
    && EntryOf(after) == EntryOf(before)
    && (before.status != Running ==> after == before)
  }

  /** One step of an agent that stays up. */
  lemma StepEvolves(m: Machine, step: Step, u: Uuid)
    requires m.up.Some? && u in m.up.value && !step.Crash?
    requires step.Start? ==> step.uuid != u
    ensures Next(m, step).up.Some? && u in Next(m, step).up.value
    ensures Evolves(m.up.value[u], Next(m, step).up.value[u])
  {
  }

  /** As long as the agent stays up and uuids are fresh, no job is forgotten or reopened. */
  lemma {:induction false} TerminalIsFinal(steps: seq<Step>, i: nat, u: Uuid)
    requires Fresh(steps) && i <= |steps|
    requires forall j :: i <= j < |steps| ==> !steps[j].Crash?
    requires After(steps[..i]).up.Some? && u in After(steps[..i]).up.value
    ensures After(steps).up.Some? && u in After(steps).up.value
    ensures Evolves(After(steps[..i]).up.value[u], After(steps).up.value[u])
  {
    if i == |steps| {
      assert steps[..i] == steps;
    } else {
      var before := steps[..|steps| - 1];
      assert before[..i] == steps[..i];
      TerminalIsFinal(before, i, u);
      AlwaysRecoverable(before);
      StepEvolves(After(before), steps[|steps| - 1], u);
    }
  }

  /** The process of job `u` has ended and the agent does not list the job as running. */
  predicate Over(m: Machine, u: Uuid, pid: Pid) {
    && pid in m.os && !PidAlive(m.os, pid)
    && (m.up.Some? && u in m.up.value ==> m.up.value[u].status != Running)
  }

  lemma StepKeepsOver(m: Machine, step: Step, u: Uuid, e: JobEntry)
    requires Over(m, u, e.pid) && JobInv(m, u, e)
    requires step.Start? ==> step.uuid != u && step.pid !in m.os
    requires u in SavedEntries(m.json) ==> SavedEntries(m.json)[u] == e
    ensures Over(Next(m, step), u, e.pid)
  {
  }

  /** Across crashes too: a job that has left `running` is never listed as running again. */
  lemma {:induction false} NeverReopened(steps: seq<Step>, i: nat, u: Uuid)
    requires Fresh(steps) && i <= |steps|
    requires After(steps[..i]).up.Some? && u in After(steps[..i]).up.value
    requires After(steps[..i]).up.value[u].status != Running
    ensures u in Started(steps) && Over(After(steps), u, Started(steps)[u].pid)
  {
    AlwaysRecoverable(steps);
    if i == |steps| {
      assert steps[..i] == steps;
      assert JobInv(After(steps), u, Started(steps)[u]);
    } else {
      var before := steps[..|steps| - 1];
      assert before[..i] == steps[..i];
      NeverReopened(before, i, u);
      AlwaysRecoverable(before);
      assert JobInv(After(before), u, Started(before)[u]);
      StepKeepsOver(After(before), steps[|steps| - 1], u, Started(before)[u]);
    }
  }

  /** Right after `running_count`, the counted jobs are those whose processes are alive. */
  lemma CountIsAlive(steps: seq<Step>, now: Time)
    requires Fresh(steps) && After(steps).up.Some?
    ensures
      var m := After(steps + [ListJobs(now)]);
      && m.up.Some?
      && RunningEntries(m.up.value)
         == map u | u in Started(steps) && PidAlive(m.os, Started(steps)[u].pid) :: Started(steps)[u]
  {
    var all := steps + [ListJobs(now)];
    assert all[..|steps|] == steps;
    AlwaysRecoverable(steps);
    AlwaysRecoverable(all);
    var m := After(all);
    assert Started(all) == Started(steps);
    forall u | u in Started(steps) ensures
      u in RunningEntries(m.up.value) <==> PidAlive(m.os, Started(steps)[u].pid)
    {
      assert JobInv(m, u, Started(steps)[u]);
      assert JobInv(After(steps), u, Started(steps)[u]);
    }
  }

  // ---------------------------------------------------------------------------------------
  // What starting and killing do
  // ---------------------------------------------------------------------------------------

  lemma OneMore(steps: seq<Step>, step: Step)
    ensures After(steps + [step]) == Next(After(steps), step)
    ensures !step.Start? ==> Started(steps + [step]) == Started(steps)
  {
    assert (steps + [step])[..|steps|] == steps;
  }

  /** All processes but one are as they were. */
  ghost predicate OthersAsTheyWere(os: Os, os': Os, pid: Pid) {
    forall q :: q != pid ==> (q in os <==> q in os') && (q in os ==> os'[q] == os[q])
  }

  /** A job that is started has a live process, is on record as running and is in running.json. */
  lemma StartStarts(steps: seq<Step>, u: Uuid, script: string, log: string, pid: Pid, now: Time)
    requires Fresh(steps + [Start(u, script, log, pid, now)]) && After(steps).up.Some?
    ensures
      var m, m' := After(steps), After(steps + [Start(u, script, log, pid, now)]);
      && PidAlive(m'.os, pid) && OthersAsTheyWere(m.os, m'.os, pid)
      && m'.up.Some? && u in m'.up.value
      && m'.up.value[u] == ProcessRecord(script, Child(pid), log, now, Running, None, None)
      && Lookup(SavedEntries(m'.json), u) == Some(JobEntry(script, pid, log, now))
      && forall v :: v != u ==> (v in m.up.value <==> v in m'.up.value) && (v in m.up.value ==> m'.up.value[v] == m.up.value[v])
  {
    OneMore(steps, Start(u, script, log, pid, now));
  }

  lemma KillInTable(m: Machine, u: Uuid, e: JobEntry, code: int, now: Time)
    requires JobInv(m, u, e) && PidAlive(m.os, e.pid) && m.up.Some?
    ensures
      var m' := Next(m, Kill(u, code, now));
      && m'.os == m.os[e.pid := Exited(code)] && m'.up.Some? && u in m'.up.value && u !in SavedEntries(m'.json)
      && m'.up.value[u] == m.up.value[u].(status := Killed, endedAt := Some(now),
                                          exitCode := Some(if m.up.value[u].process.Child? then code else -1))
      && (forall v :: v != u ==>
            (v in m.up.value <==> v in m'.up.value) && (v in m.up.value ==> m'.up.value[v] == m.up.value[v]))
  {
    var r := m.up.value[u];
    assert EntryOf(r).pid == e.pid && PollRecord(m.os, now, r) == r;
  }

  /**
   A kill kills.  Of a job whose process is alive it ends the process, records the kill with its time
   and the process's code (which only its own child tells the agent; -1 stands for another agent's), and
   takes the job out of running.json; every other process and every other record is as it was.
   */
  lemma KillKills(steps: seq<Step>, u: Uuid, code: int, now: Time)
    requires Fresh(steps) && After(steps).up.Some?
    requires u in Started(steps) && PidAlive(After(steps).os, Started(steps)[u].pid)
    ensures
      var m, m', pid := After(steps), After(steps + [Kill(u, code, now)]), Started(steps)[u].pid;
      && !PidAlive(m'.os, pid) && OthersAsTheyWere(m.os, m'.os, pid)
      && u in m.up.value && m'.up.Some? && u in m'.up.value && u !in SavedEntries(m'.json)
      && m'.up.value[u] == m.up.value[u].(status := Killed, endedAt := Some(now),
                                          exitCode := Some(if m.up.value[u].process.Child? then code else -1))
      && (forall v :: v != u ==>
            (v in m.up.value <==> v in m'.up.value) && (v in m.up.value ==> m'.up.value[v] == m.up.value[v]))
  {
    OneMore(steps, Kill(u, code, now));
    AlwaysRecoverable(steps);
    assert JobInv(After(steps), u, Started(steps)[u]);
    KillInTable(After(steps), u, Started(steps)[u], code, now);
  }

  /** A kill of a job whose process has ended, or of one the agent does not know, kills and saves nothing. */
  lemma KillOfTheDead(steps: seq<Step>, u: Uuid, code: int, now: Time)
    requires Fresh(steps) && (u in Started(steps) ==> !PidAlive(After(steps).os, Started(steps)[u].pid))
    ensures
      var m, m' := After(steps), After(steps + [Kill(u, code, now)]);
      m'.os == m.os && m'.json == m.json && m' == After(steps + [GetStatus(u, now)])
  {
    OneMore(steps, Kill(u, code, now));
    OneMore(steps, GetStatus(u, now));
    AlwaysRecoverable(steps);
    if u in Started(steps) { assert JobInv(After(steps), u, Started(steps)[u]); }
  }

  // ---------------------------------------------------------------------------------------
  // Exit codes
  // ---------------------------------------------------------------------------------------

  /** What asking the operating system about a running record makes of it. */
  predicate Asked(os: Os, now: Time, before: ProcessRecord, after: ProcessRecord) {
    if before.status != Running || PidAlive(os, before.process.pid) then after == before
    else
      var code := if before.process.Child? && before.process.pid in os then os[before.process.pid].code else -1;
      after == before.(status := if code == 0 then Completed else Failed, endedAt := Some(now), exitCode := Some(code))
  }

  /** Asking for one job or for all asks about exactly these, and changes nothing else. */
  lemma AskingTells(m: Machine, u: Uuid, v: Uuid, now: Time)
    requires m.up.Some? && v in m.up.value
    ensures
      var one, all := Next(m, GetStatus(u, now)), Next(m, ListJobs(now));
      && one.os == all.os == m.os && one.json == all.json == m.json
      && one.up.Some? && one.up.value.Keys == m.up.value.Keys && all.up.Some? && all.up.value.Keys == m.up.value.Keys
      && Asked(m.os, now, m.up.value[v], all.up.value[v])
      && (if v == u then Asked(m.os, now, m.up.value[v], one.up.value[v]) else one.up.value[v] == m.up.value[v])
  {
  }

  /** A record that has left `running` tells how its process ended, as far as its agent can know. */
  predicate TellsExit(os: Os, r: ProcessRecord) {
    r.status != Running ==>
      && r.process.pid in os && os[r.process.pid].Exited?
      && r.exitCode == Some(if r.process.Child? then os[r.process.pid].code else -1)
  }

  ghost predicate AllTellExit(m: Machine) {
    m.up.Some? ==> forall u :: u in m.up.value ==> m.up.value[u].process.pid in m.os && TellsExit(m.os, m.up.value[u])
  }

  lemma KillTellsExit(m: Machine, started: Entries, step: Step)
    requires Recoverable(m, started) && AllTellExit(m) && step.Kill?
    ensures AllTellExit(Next(m, step))
  {
    var m' := Next(m, step);
    if m'.up.Some? {
      forall u | u in m'.up.value
        ensures m'.up.value[u].process.pid in m'.os && TellsExit(m'.os, m'.up.value[u])
      {
        if u in started { assert JobInv(m, u, started[u]); }
      }
    }
  }

  lemma StepTellsExit(m: Machine, started: Entries, step: Step)
    requires Recoverable(m, started) && AllTellExit(m) && !step.Kill?
    requires step.Start? ==> step.pid !in m.os
    ensures AllTellExit(Next(m, step))
  {
  }

  lemma {:induction false} AlwaysTellsExit(steps: seq<Step>)
    requires Fresh(steps)
    ensures AllTellExit(After(steps))
  {
    if steps != [] {
      var before := steps[..|steps| - 1];
      AlwaysTellsExit(before);
      AlwaysRecoverable(before);
      if steps[|steps| - 1].Kill? {
        KillTellsExit(After(before), Started(before), steps[|steps| - 1]);
      } else {
        StepTellsExit(After(before), Started(before), steps[|steps| - 1]);
      }
    }
  }

  /** The agent that runs now has started job `u` itself. */
  predicate StartedHere(steps: seq<Step>, u: Uuid) {
    exists i :: 0 <= i < |steps| && steps[i].Start? && steps[i].uuid == u && forall j :: i < j < |steps| ==> !steps[j].Crash?
  }

  lemma StartedHereGrows(steps: seq<Step>, step: Step, u: Uuid)
    ensures StartedHere(steps + [step], u)
            <==> (step.Start? && step.uuid == u) || (StartedHere(steps, u) && !step.Crash?)
  {
    var all := steps + [step];
    assert all[|steps|] == step;
    if StartedHere(steps, u) && !step.Crash? {
      var i :| 0 <= i < |steps| && steps[i].Start? && steps[i].uuid == u && forall j :: i < j < |steps| ==> !steps[j].Crash?;
      assert all[i] == steps[i];
    }
    if StartedHere(all, u) && !(step.Start? && step.uuid == u) {
      var i :| 0 <= i < |all| && all[i].Start? && all[i].uuid == u && forall j :: i < j < |all| ==> !all[j].Crash?;
      assert steps[i] == all[i];
      assert forall j :: i < j < |steps| ==> steps[j] == all[j];
    }
  }

  /** The handle of a record tells whether the agent started the job itself; while it is down, it has started none. */
  ghost predicate HandleTells(m: Machine, u: Uuid, here: bool) {
    if m.up.None? then !here else u in m.up.value ==> (m.up.value[u].process.Child? <==> here)
  }

  lemma StepKeepsHandle(m: Machine, started: Entries, step: Step, u: Uuid, here: bool)
    requires Recoverable(m, started)
    requires if u in started then HandleTells(m, u, here) && (step.Start? ==> step.uuid != u)
             else step.Start? && step.uuid == u && m.up.Some?
    ensures HandleTells(Next(m, step), u, (step.Start? && step.uuid == u) || (here && !step.Crash?))
  {
  }

  lemma {:induction false} HandlesTell(steps: seq<Step>, u: Uuid)
    requires Fresh(steps) && u in Started(steps)
    ensures HandleTells(After(steps), u, StartedHere(steps, u))
  {
    var before, step := steps[..|steps| - 1], steps[|steps| - 1];
    assert steps == before + [step];
    StartedHereGrows(before, step, u);
    AlwaysRecoverable(before);
    if u in Started(before) { HandlesTell(before, u); }
    StepKeepsHandle(After(before), Started(before), step, u, StartedHere(before, u));
  }

  /**
   Exit codes are true.  In every run a record that has left `running` belongs to a process that has
   ended, and carries its code if the agent that runs now started it, and -1 if an earlier one did.
   */
  lemma ExitCodesAreTrue(steps: seq<Step>, u: Uuid)
    requires Fresh(steps) && After(steps).up.Some? && u in After(steps).up.value
    requires After(steps).up.value[u].status != Running
    ensures
      var m, r := After(steps), After(steps).up.value[u];
      && u in Started(steps) && r.process.pid == Started(steps)[u].pid
      && r.process.pid in m.os && m.os[r.process.pid].Exited?
      && r.exitCode == Some(if StartedHere(steps, u) then m.os[r.process.pid].code else -1)
  {
    AlwaysRecoverable(steps);
    AlwaysTellsExit(steps);
    HandlesTell(steps, u);
    assert JobInv(After(steps), u, Started(steps)[u]);
    assert EntryOf(After(steps).up.value[u]).pid == Started(steps)[u].pid;
  }

  /**
   A job that ends by itself while its agent is up is reported with its own exit code, when it is asked
   about for the first time; until then the record says running, and no other process is touched.
   */
  lemma EndedJobIsReported(steps: seq<Step>, u: Uuid, code: int, now: Time)
    requires Fresh(steps) && After(steps).up.Some? && u in After(steps).up.value
    requires PidAlive(After(steps).os, After(steps).up.value[u].process.pid)
    ensures
      var m, pid := After(steps), After(steps).up.value[u].process.pid;
      var ended, asked := Next(m, Exit(pid, code)), Next(Next(m, Exit(pid, code)), GetStatus(u, now));
      && ended == m.(os := ended.os) && OthersAsTheyWere(m.os, ended.os, pid)
      && pid in ended.os && ended.os[pid] == Exited(code)
      && m.up.value[u].status == Running && asked.up.Some? && u in asked.up.value
      && var told := if m.up.value[u].process.Child? then code else -1;
         asked.up.value[u] == m.up.value[u].(status := if told == 0 then Completed else Failed,
                                             endedAt := Some(now), exitCode := Some(told))
  {
    AlwaysTellsExit(steps);
  }
}
