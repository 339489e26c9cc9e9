/**
 One pass of the job reconciler (control_station_lite/server/core/job_reconciler.py) over the rows
 of the control station, with the agent behind it.
 */
module Reconciler {
  import opened Wrappers
  import opened ProcessManager

  type MachineId = int

  datatype JobRow = JobRow(machine: MachineId, status: JobStatus, endedAt: Option<Time>, exitCode: Option<int>)

  type Rows = map<Uuid, JobRow>

  /** How asking for one job's status ends: an answer, an AgentClientError, any other exception. */
  datatype Outcome =
    | Answer(status: JobStatus, endedAt: Option<Time>, exitCode: Option<int>)
    | ClientError
    | OtherError

  /** Machines with a row, machines whose tunnel opens, and the answer for each job. */
  datatype Network = Network(known: set<MachineId>, open: set<MachineId>, outcome: Uuid -> Outcome)

  predicate Active(s: JobStatus) {
    s == Running || s == Pending
  }

  /** What the answer for a job writes to its row. */
  function Written(o: Outcome, row: JobRow): JobRow {
    match o
    case Answer(status, ended, code) =>
      if Active(status) then row else row.(status := status, endedAt := ended, exitCode := code)
    case ClientError => row
    case OtherError => row.(status := Failed)
  }

  predicate Polled(net: Network, row: JobRow) {
    Active(row.status) && row.machine in net.known && row.machine in net.open
  }

  function ReconciledRow(net: Network, u: Uuid, row: JobRow): JobRow {
    if Polled(net, row) then Written(net.outcome(u), row) else row
  }

  /** One pass, row by row. */
  function Reconciled(net: Network, rows: Rows): Rows {
    map u | u in rows :: ReconciledRow(net, u, rows[u])
  }

  class JobTable {
    var rows: Rows

    constructor (rows: Rows)
      ensures this.rows == rows
    {
      this.rows := rows;
    }

    method PollJob(net: Network, u: Uuid)
      requires u in rows
      modifies this
      ensures rows == old(rows)[u := Written(net.outcome(u), old(rows)[u])]
    {
      match net.outcome(u)
      case Answer(status, ended, code) =>
        if !Active(status) {
          rows := rows[u := rows[u].(status := status, endedAt := ended, exitCode := code)];
        }
      case ClientError =>
      case OtherError =>
        rows := rows[u := rows[u].(status := Failed)];
    }

    /** The snapshot's jobs of one machine, in any order. */
    method ReconcileMachine(net: Network, id: MachineId, snapshot: Rows)
      requires snapshot.Keys <= rows.Keys && id in net.known
      requires forall u :: u in snapshot && snapshot[u].machine == id ==> rows[u] == snapshot[u] && Active(rows[u].status)
      modifies this
      ensures rows.Keys == old(rows).Keys
      ensures forall u :: u in rows ==>
        rows[u] == if u in snapshot && snapshot[u].machine == id then ReconciledRow(net, u, snapshot[u]) else old(rows)[u]
    {
      if id !in net.open {
        return;
      }
      var left := set u | u in snapshot && snapshot[u].machine == id;
      while left != {}
        invariant forall u :: u in left ==> u in snapshot && snapshot[u].machine == id
        invariant rows.Keys == old(rows).Keys
        invariant forall u :: u in rows ==>
          rows[u] == if u in snapshot && snapshot[u].machine == id && u !in left
                     then ReconciledRow(net, u, snapshot[u]) else old(rows)[u]
        decreases |left|
      {
        var u :| u in left;
        left := left - {u};
        PollJob(net, u);
      }
    }

    /** The machines come in any order; the pass still equals the row-by-row map. */
    method ReconcileOnce(net: Network)
      modifies this
      ensures rows == Reconciled(net, old(rows))
    {
      var snapshot := map u | u in rows && Active(rows[u].status) :: rows[u];
      var machines := (set u | u in snapshot :: snapshot[u].machine) * net.known;
      var left := machines;
      while left != {}
        invariant left <= machines && rows.Keys == old(rows).Keys
        invariant forall u :: u in rows ==>
          rows[u] == if u in snapshot && snapshot[u].machine in machines - left
                     then ReconciledRow(net, u, snapshot[u]) else old(rows)[u]
        decreases |left|
      {
        var id :| id in left;
        left := left - {id};
        ReconcileMachine(net, id, snapshot);
      }
      forall u | u in rows ensures rows[u] == ReconciledRow(net, u, old(rows)[u]) {
        if u in snapshot { assert snapshot[u].machine in machines <==> snapshot[u].machine in net.known; }
      }
    }
  }

  // ---------------------------------------------------------------------------------------
  // Passes
  // ---------------------------------------------------------------------------------------

  /**
   What one pass does to each row.  It polls the active rows of machines that are known and whose tunnel
   opens, and leaves all others alone; a polled row takes over an answer that ends the job, is only
   marked failed by an error that is no client error, and otherwise stays.
   */
  lemma PassTakesAnswers(net: Network, rows: Rows, u: Uuid)
    ensures Reconciled(net, rows).Keys == rows.Keys
    ensures u in rows ==>
      var row, after := rows[u], Reconciled(net, rows)[u];
      if row.status !in {Running, Pending} || row.machine !in net.known || row.machine !in net.open then after == row
      else match net.outcome(u)
        case Answer(status, ended, code) =>
          after == if status in {Running, Pending} then row else JobRow(row.machine, status, ended, code)
        case ClientError => after == row
        case OtherError => after == JobRow(row.machine, Failed, row.endedAt, row.exitCode)
  {
  }

  /** With the same answers a second pass changes nothing. */
  lemma SecondPassChangesNothing(net: Network, rows: Rows)
    ensures Reconciled(net, Reconciled(net, rows)) == Reconciled(net, rows)
  {
    forall u | u in rows
      ensures ReconciledRow(net, u, ReconciledRow(net, u, rows[u])) == ReconciledRow(net, u, rows[u])
    {
    }
  }

  function AfterPasses(rows: Rows, passes: seq<Network>): Rows {
    if passes == [] then rows
    else Reconciled(passes[|passes| - 1], AfterPasses(rows, passes[..|passes| - 1]))
  }

  /** No pass adds, removes or moves a row, and a row that is no longer active never changes. */
  lemma {:induction false} TerminalRowsNeverChange(rows: Rows, passes: seq<Network>)
    ensures AfterPasses(rows, passes).Keys == rows.Keys
    ensures forall u :: u in rows ==> AfterPasses(rows, passes)[u].machine == rows[u].machine
    ensures forall u :: u in rows && !Active(rows[u].status) ==> AfterPasses(rows, passes)[u] == rows[u]
  {
    if passes != [] {
      TerminalRowsNeverChange(rows, passes[..|passes| - 1]);
    }
  }

  /** Over any number of passes, the rows of a machine that none of them reaches stay as they are. */
  lemma {:induction false} UnreachedRowsStay(rows: Rows, passes: seq<Network>, u: Uuid)
    requires u in rows
    requires forall i :: 0 <= i < |passes| ==> rows[u].machine !in passes[i].known || rows[u].machine !in passes[i].open
    ensures u in AfterPasses(rows, passes) && AfterPasses(rows, passes)[u] == rows[u]
  {
    if passes != [] {
      UnreachedRowsStay(rows, passes[..|passes| - 1], u);
    }
  }

  // ---------------------------------------------------------------------------------------
  // The client's classification of HTTP answers
  // ---------------------------------------------------------------------------------------

  /** `body` is None when the body is no valid job status. */
  datatype Reply = Response(code: int, body: Option<Outcome>) | NoResponse

  predicate Readable(reply: Reply) {
    reply.Response? && 200 <= reply.code < 300 && reply.body.Some? && reply.body.value.Answer?
  }

  /**
   `get_job_status` lets every HTTP and transport error through as it is, so no outcome is ever an
   AgentClientError.
   */
  function Classify(reply: Reply): (o: Outcome)
    ensures !o.ClientError?
    ensures o.OtherError? <==> !Readable(reply)
  {
    if Readable(reply) then reply.body.value else OtherError
  }

  /** Only an answer of the 200s with a job status in it counts as an answer. */
  lemma AnswersAreTwoHundreds(reply: Reply)
    ensures Classify(reply) ==
      if reply.Response? && reply.code / 100 == 2 && reply.body.Some? && reply.body.value.Answer?
      then reply.body.value else OtherError
  {
  }

  /** What the module documents: a job is marked failed when the agent no longer knows it. */
  function Documented(reply: Reply, row: JobRow): JobRow {
    if Readable(reply) then Written(reply.body.value, row)
    else if reply.Response? && reply.code == 404 then row.(status := Failed)
    else row
  }

  /** The code does what is documented exactly when the agent answers properly or with 404. */
  lemma DocumentedExactlyWhenAnswered(reply: Reply, row: JobRow)
    requires Active(row.status)
    ensures Written(Classify(reply), row) == Documented(reply, row)
            <==> Readable(reply) || (reply.Response? && reply.code == 404)
  {
    assert !Readable(reply) ==> Written(Classify(reply), row).status == Failed;
  }

  // ---------------------------------------------------------------------------------------
  // Rows against processes
  // ---------------------------------------------------------------------------------------

  /**
   What the client has of the machine's agent when it asks for job u: nothing if the agent is down, or
   if its answer does not come in time, as while a one-shot script keeps its event loop busy.
   */
  function AgentReply(m: Machine, u: Uuid, now: Time, answered: bool): Reply {
    if m.up.None? || !answered then NoResponse
    else if u !in m.up.value then Response(404, None)
    else
      var r := PollRecord(m.os, now, m.up.value[u]);
      Response(200, Some(Answer(r.status, r.endedAt, r.exitCode)))
  }

  /** The row of job u after a pass in which its machine's tunnel opens. */
  function RowAfterPass(m: Machine, u: Uuid, now: Time, answered: bool, row: JobRow): JobRow {
    Written(Classify(AgentReply(m, u, now, answered)), row)
  }

  /** So the pass does what is documented for a job exactly when the job's agent is up and answers in time. */
  lemma DocumentedExactlyWhenAgentAnswers(m: Machine, u: Uuid, now: Time, answered: bool, row: JobRow)
    requires Active(row.status)
    ensures RowAfterPass(m, u, now, answered, row) == Documented(AgentReply(m, u, now, answered), row)
            <==> answered && m.up.Some?
  {
    DocumentedExactlyWhenAnswered(AgentReply(m, u, now, answered), row);
  }

  /** What one question about job u, started as e, makes of its row. */
  lemma RowOfOneJob(m: Machine, u: Uuid, e: JobEntry, now: Time, answered: bool, row: JobRow)
    requires JobInv(m, u, e) && Active(row.status)
    requires m.up.Some? && u in m.up.value ==> Consistent(m.up.value[u])
    ensures
      var after := RowAfterPass(m, u, now, answered, row);
      && (Active(after.status) <==> answered && m.up.Some? && PidAlive(m.os, e.pid))
      && (Active(after.status) ==> after == row)
      && (answered && m.up.Some? && u in m.up.value && !Active(after.status) ==>
            after.endedAt.Some? && after.exitCode.Some?)
  {
    if m.up.Some? && u in m.up.value {
      var r := m.up.value[u];
      assert EntryOf(r).pid == e.pid;
    }
  }

  /** What the run has kept about job u. */
  lemma JobOfRun(steps: seq<Step>, u: Uuid)
    requires Fresh(steps) && u in Started(steps)
    ensures JobInv(After(steps), u, Started(steps)[u])
    ensures After(steps).up.Some? && u in After(steps).up.value ==> Consistent(After(steps).up.value[u])
  {
    AlwaysRecoverable(steps);
    RecordsConsistent(steps);
  }

  /**
   After a pass the row of a persistent job is still active exactly when its process is alive, the
   agent is up and its answer came; it is then as it was.  Otherwise a live job is marked failed.
   */
  lemma ActiveExactlyWhenAliveAndAnswered(steps: seq<Step>, u: Uuid, now: Time, answered: bool, row: JobRow)
    requires Fresh(steps) && u in Started(steps) && Active(row.status)
    ensures
      var m := After(steps);
      var after := RowAfterPass(m, u, now, answered, row);
      && (Active(after.status) <==> answered && m.up.Some? && PidAlive(m.os, Started(steps)[u].pid))
      && (Active(after.status) ==> after == row)
  {
    JobOfRun(steps, u);
    RowOfOneJob(After(steps), u, Started(steps)[u], now, answered, row);
  }

  /**
   A row that a pass closes says what the agent's record says, with end time and exit code, if the
   agent answered and has one; else it is only marked failed.  That the process is dead follows
   only from an answer.
   */
  lemma ClosedRowTellsRecord(steps: seq<Step>, u: Uuid, now: Time, answered: bool, row: JobRow)
    requires Fresh(steps) && u in Started(steps) && Active(row.status)
    ensures
      var m := After(steps);
      var after := RowAfterPass(m, u, now, answered, row);
      !Active(after.status) ==>
        && (if answered && m.up.Some? && u in m.up.value then
              var r := PollRecord(m.os, now, m.up.value[u]);
              && after == JobRow(row.machine, r.status, r.endedAt, r.exitCode)
              && r.endedAt.Some? && r.exitCode.Some?
            else after == row.(status := Failed))
        && (answered && m.up.Some? ==> !PidAlive(m.os, Started(steps)[u].pid))
  {
    JobOfRun(steps, u);
    RowOfOneJob(After(steps), u, Started(steps)[u], now, answered, row);
  }

  lemma LiveJobIsListed(m: Machine, u: Uuid, e: JobEntry, now: Time)
    requires JobInv(m, u, e) && PidAlive(m.os, e.pid)
    requires m.up.Some? && u in m.up.value ==> Consistent(m.up.value[u])
    ensures
      var m' := Next(m, Restore);
      && m'.up.Some? && Tracked(m'.up.value, u, e)
      && AgentReply(m', u, now, true) == Response(200, Some(Answer(Running, None, None)))
  {
    assert u in SavedEntries(m.json) && SavedEntries(m.json)[u] == e;
  }

  /**
   The loss is for good: a live job polled while its agent is down, or without an answer in time,
   stays failed in every later pass, although the agent lists it as running as soon as it is up.
   */
  lemma LiveJobIsWrittenOff(steps: seq<Step>, u: Uuid, now: Time, answered: bool,
                            rows: Rows, net: Network, later: seq<Network>)
    requires Fresh(steps) && u in Started(steps) && PidAlive(After(steps).os, Started(steps)[u].pid)
    requires After(steps).up.None? || !answered
    requires u in rows && Polled(net, rows[u])
    requires net.outcome(u) == Classify(AgentReply(After(steps), u, now, answered))
    ensures Lookup(AfterPasses(Reconciled(net, rows), later), u) == Some(rows[u].(status := Failed))
    ensures
      var m := After(steps + [Restore]);
      && m.up.Some? && Tracked(m.up.value, u, Started(steps)[u])
      && AgentReply(m, u, now, true) == Response(200, Some(Answer(Running, None, None)))
  {
    TerminalRowsNeverChange(Reconciled(net, rows), later);
    var all := steps + [Restore];
    assert all[..|steps|] == steps;
    assert After(all) == Next(After(steps), Restore);
    JobOfRun(steps, u);
    LiveJobIsListed(After(steps), u, Started(steps)[u], now);
  }

  /** The input: one job, started a moment ago by an agent that is up and busy. */
  lemma BusyAgentLosesJob(u: Uuid, script: string, log: string, pid: Pid, row: JobRow)
    requires row.status == Running
    ensures
      var steps := [Start(u, script, log, pid, 0)];
      var m := After(steps);
      && Fresh(steps) && m.up.Some? && PidAlive(m.os, pid)
      && RowAfterPass(m, u, 1, true, row) == row
      && RowAfterPass(m, u, 1, false, row) == row.(status := Failed)
  {
    var steps := [Start(u, script, log, pid, 0)];
    assert steps[..0] == [];
    assert After([]) == FRESH && Started([]) == map[] && Fresh([]);
  }
}
