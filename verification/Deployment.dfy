/**
 The whole path of a script over whole runs: the station's editors change the canonical scripts,
 users submit jobs through both endpoints, any number of submissions at a time, each a chain of
 requests to the agent whose answers may be lost and a row that is committed later or not at all;
 between any two of these the owner's commands, restarts of the agent and tampering take place.
 */
module Deployment {
  import opened Wrappers
  import opened Approvals
  import opened ExecutionGate
  import opened Sovereignty
  import opened ScriptSync
  import opened JobSubmission
  import opened Sequences
  import Shared = SharedStore
  import Stale = StaleWriters

  /** The agent's own manager; the owner's commands use others. */
  const AGENT: Shared.ManagerId := 0

  /** The agent ran some bytes under a name. */
  datatype Execution = Execution(name: string, bytes: Content)

  /** A row of the jobs table: the script as the submission read it, and what ran. */
  datatype Job = Job(endpoint: Endpoint, script: ScriptRow, run: Execution)

  /** A submission under way; `lookedAt` is the file's signature when the agent's state was read. */
  datatype Ticket = Ticket(endpoint: Endpoint, script: ScriptRow, paramsOk: bool, phase: Phase, lookedAt: Signature)

  /** The agent has answered that it ran the job; the row is not committed yet. */
  datatype Answer = Answer(id: nat, ticket: Ticket, run: Execution)

  /**
   The canonical scripts, every step of the agent's installation, the submissions, the answers
   that wait for their rows, the jobs table.
   */
  datatype World = World(scripts: map<string, ScriptRow>, trace: seq<Shared.Step>, tickets: map<nat, Ticket>,
                         answers: seq<Answer>, jobs: seq<Job>)

  datatype Step =
    | Publish(name: string, content: Content, meta: Option<Content>, persistent: bool)   // create or update
    | Unpublish(name: string)
    | Elsewhere(step: Shared.Step)   // commands, restarts, tampering, edits of the file, other requests
    | Begin(id: nat, endpoint: Endpoint, name: string, paramsOk: bool)
    | Look(id: nat, answered: bool)                      // GET /scripts/{name}/state
    | Push(id: nat, stamp: Signature, answered: bool)    // POST /scripts/{name}/stage
    | Ask(id: nat, answered: bool)                       // POST /jobs
    | Commit(i: nat)   // a submission commits its row, in any order
    | Drop(i: nat)     // or ends without: the commit fails, the station stops
    | Restage(script: ScriptRow, stamp: Signature)       // the web page stages again without asking for the state

  function Installation(p: Policy, w: World): Shared.System {
    Shared.After(p, w.trace)
  }

  /** What the agent works on once it has compared signatures. */
  function Current(s: Shared.System): Host
    requires AGENT in s.caches
  {
    Shared.Seen(Shared.Synced(s, AGENT), AGENT)
  }

  /** A submission waits to make that request, and the agent is there. */
  predicate Waits(p: Policy, w: World, id: nat, step: Step) {
    && id in w.tickets && AGENT in Installation(p, w).caches
    && match w.tickets[id].phase
       case Looking(_) => step.Look?
       case Pushing(_, _) => step.Push?
       case Asking => step.Ask?
       case Over(_) => false
  }

  function ReplyTo(p: Policy, s: Shared.System, t: Ticket): AgentReply
    requires AGENT in s.caches
  {
    AgentSubmit(p, Current(s), Request(t.endpoint, t.script, t.paramsOk))
  }

  /** The agent compares digests if it is asked to, and reaches its gate unless they differ. */
  function AskSteps(t: Ticket, reply: AgentReply): seq<Shared.Step> {
    CompareSteps(t) + GateSteps(t, reply)
  }

  function CompareSteps(t: Ticket): seq<Shared.Step> {
    if t.endpoint.Api? then [Shared.Read(AGENT, t.script.name)] else []
  }

  function GateSteps(t: Ticket, reply: AgentReply): seq<Shared.Step> {
    if reply.Md5Mismatch? then [] else [Shared.Submit(AGENT, t.script.name, t.paramsOk)]
  }

  function RunIn(t: Ticket, reply: AgentReply): seq<Execution> {
    if reply.Started? then [Execution(t.script.name, reply.bytes)] else []
  }

  /** What a step starts on the agent. */
  function StartedBy(p: Policy, w: World, step: Step): seq<Execution> {
    if step.Ask? && Waits(p, w, step.id, step) then
      RunIn(w.tickets[step.id], ReplyTo(p, Installation(p, w), w.tickets[step.id]))
    else []
  }

  /** The answer to a start, once it has arrived. */
  function AnswersOf(p: Policy, w: World, step: Step): seq<Answer> {
    var started := StartedBy(p, w, step);
    if started == [] || !step.answered then []
    else [Answer(step.id, w.tickets[step.id], started[0])]
  }

  function JobOf(a: Answer): Job {
    Job(a.ticket.endpoint, a.ticket.script, a.run)
  }

  function Move(w: World, id: nat, phase: Phase, requests: seq<Shared.Step>): World
    requires id in w.tickets
  {
    w.(trace := w.trace + requests, tickets := w.tickets[id := w.tickets[id].(phase := phase)])
  }

  function Looked(p: Policy, w: World, id: nat, answered: bool): World
    requires id in w.tickets && AGENT in Installation(p, w).caches && w.tickets[id].phase.Looking?
  {
    var t, s := w.tickets[id], Installation(p, w);
    var d := Describe(Current(s).store, t.script.name);
    var phase := if answered then AfterLook(t.script, t.phase.again, d) else Over(ServerError);
    w.(trace := w.trace + [Shared.Read(AGENT, t.script.name)],
       tickets := w.tickets[id := t.(phase := phase, lookedAt := s.stamp)])
  }

  function Pushed(p: Policy, w: World, id: nat, stamp: Signature, answered: bool): World
    requires id in w.tickets && AGENT in Installation(p, w).caches && w.tickets[id].phase.Pushing?
  {
    var t := w.tickets[id];
    var outcome := OutcomeOf(Shared.Seen(Installation(p, w), AGENT), Staging(t.script), p.auto);
    Move(w, id, if answered then AfterStage(t.phase.again, outcome) else Over(ServerError),
         [Shared.Write(AGENT, Staging(t.script), stamp)])
  }

  function Asked(p: Policy, w: World, id: nat, answered: bool): World
    requires id in w.tickets && AGENT in Installation(p, w).caches && w.tickets[id].phase.Asking?
  {
    var t := w.tickets[id];
    var reply := ReplyTo(p, Installation(p, w), t);
    Move(w, id, if answered then AfterReply(t.endpoint, t.script, reply) else Over(ServerError), AskSteps(t, reply))
      .(answers := w.answers + AnswersOf(p, w, Ask(id, answered)))
  }

  function Without(answers: seq<Answer>, i: nat): seq<Answer>
    requires i < |answers|
  {
    answers[..i] + answers[i + 1..]
  }

  /** A submission that ends without its row answers with an error. */
  function Dropped(w: World, i: nat): World
    requires i < |w.answers|
  {
    var a := w.answers[i];
    w.(answers := Without(w.answers, i), tickets := w.tickets[a.id := a.ticket.(phase := Over(ServerError))])
  }

  function Advance(p: Policy, w: World, step: Step): World {
    match step
    case Publish(name, content, meta, persistent) =>
      w.(scripts := w.scripts[name := ScriptRow(name, content, meta, p.md5(content), persistent)])
    case Unpublish(name) => w.(scripts := w.scripts - {name})
    case Elsewhere(other) => if other.Submit? then w else w.(trace := w.trace + [other])
    case Begin(id, endpoint, name, paramsOk) =>
      if id in w.tickets || name !in w.scripts then w
      else w.(tickets := w.tickets[id := Ticket(endpoint, w.scripts[name], paramsOk, Looking(false), NO_FILE)])
    case Look(id, answered) => if Waits(p, w, id, step) then Looked(p, w, id, answered) else w
    case Push(id, stamp, answered) => if Waits(p, w, id, step) then Pushed(p, w, id, stamp, answered) else w
    case Ask(id, answered) => if Waits(p, w, id, step) then Asked(p, w, id, answered) else w
    case Commit(i) =>
      if i < |w.answers| then w.(answers := Without(w.answers, i), jobs := w.jobs + [JobOf(w.answers[i])]) else w
    case Drop(i) => if i < |w.answers| then Dropped(w, i) else w
    case Restage(script, stamp) => w.(trace := w.trace + [Shared.Write(AGENT, Staging(script), stamp)])
  }

  const EMPTY_WORLD := World(map[], [], map[], [], [])

  function After(p: Policy, steps: seq<Step>): World {
    if steps == [] then EMPTY_WORLD
    else Advance(p, After(p, steps[..|steps| - 1]), steps[|steps| - 1])
  }

  // ---------------------------------------------------------------------------------------
  // Rows and executions
  // ---------------------------------------------------------------------------------------

  function ExecutionOf(x: Entry): seq<Execution> {
    if x.event.Execute? && x.reply.Judged? && x.reply.verdict.Ran?
    then [Execution(x.event.name, x.reply.verdict.bytes)] else []
  }

  /** Everything the agent executed, in order, by its log. */
  function Executions(p: Policy, trace: seq<Shared.Step>): seq<Execution> {
    Gather(ExecutionOf, Shared.Log(p, trace))
  }

  function RunOf(job: Job): seq<Execution> {
    [job.run]
  }

  /** What the rows of the jobs table stand for, in order. */
  function Recorded(w: World): seq<Execution> {
    Gather(RunOf, w.jobs)
  }

  function RunAnswered(a: Answer): seq<Execution> {
    [a.run]
  }

  /** What has been answered and has no row yet. */
  function Waiting(w: World): seq<Execution> {
    Gather(RunAnswered, w.answers)
  }

  /** Everything the steps started, in order. */
  function Started(p: Policy, steps: seq<Step>): seq<Execution> {
    if steps == [] then []
    else Started(p, steps[..|steps| - 1]) + StartedBy(p, After(p, steps[..|steps| - 1]), steps[|steps| - 1])
  }

  /** What a step starts and the station never hears of, or hears of and does not record. */
  function LostBy(p: Policy, w: World, step: Step): seq<Execution> {
    match step
    case Ask(_, answered) => if answered then [] else StartedBy(p, w, step)
    case Drop(i) => if i < |w.answers| then [w.answers[i].run] else []
    case _ => []
  }

  /** Everything that was lost. */
  function Lost(p: Policy, steps: seq<Step>): seq<Execution> {
    if steps == [] then []
    else Lost(p, steps[..|steps| - 1]) + LostBy(p, After(p, steps[..|steps| - 1]), steps[|steps| - 1])
  }

  lemma TraceGrows(p: Policy, trace: seq<Shared.Step>, step: Shared.Step)
    ensures Shared.After(p, trace + [step]) == Shared.Advance(p, Shared.After(p, trace), step).0
    ensures Shared.Log(p, trace + [step]) == Shared.Log(p, trace) + Shared.EntriesOf(p, Shared.After(p, trace), step)
    ensures Shared.Valid(p, trace + [step]) <==> Shared.Valid(p, trace) && Shared.Enabled(Shared.After(p, trace), step)
  {
    Stale.OneMore(p, trace, step);
  }

  /** What one step of the installation executes. */
  function RunBy(p: Policy, s: Shared.System, step: Shared.Step): seq<Execution> {
    var entries := Shared.EntriesOf(p, s, step);
    if entries == [] then [] else ExecutionOf(entries[0])
  }

  lemma ExecutionsGrow(p: Policy, trace: seq<Shared.Step>, step: Shared.Step)
    ensures Executions(p, trace + [step]) == Executions(p, trace) + RunBy(p, Shared.After(p, trace), step)
  {
    TraceGrows(p, trace, step);
    var log, entries := Shared.Log(p, trace), Shared.EntriesOf(p, Shared.After(p, trace), step);
    if entries == [] {
      NothingAdded(log);
      NothingAdded(Gather(ExecutionOf, log));
    } else {
      GatherLast(ExecutionOf, log, entries[0]);
      assert entries == [entries[0]];
    }
  }

  /** Only the gate executes anything. */
  lemma OnlyTheGateRuns(p: Policy, s: Shared.System, step: Shared.Step)
    requires !step.Submit?
    ensures RunBy(p, s, step) == []
  {
  }

  lemma QuietStep(p: Policy, trace: seq<Shared.Step>, step: Shared.Step)
    requires !step.Submit?
    ensures Executions(p, trace + [step]) == Executions(p, trace)
  {
    var run := RunBy(p, Shared.After(p, trace), step);
    ExecutionsGrow(p, trace, step);
    OnlyTheGateRuns(p, Shared.After(p, trace), step);
    SameWithoutMore(Executions(p, trace + [step]), Executions(p, trace), run);
  }

  /** The gate executes what the reply says. */
  lemma GateRuns(p: Policy, s: Shared.System, t: Ticket)
    requires AGENT in s.caches && !ReplyTo(p, s, t).Md5Mismatch?
    ensures RunBy(p, s, Shared.Submit(AGENT, t.script.name, t.paramsOk)) == RunIn(t, ReplyTo(p, s, t))
  {
  }

  lemma GateExecutes(p: Policy, trace: seq<Shared.Step>, t: Ticket, reply: AgentReply)
    requires AGENT in Shared.After(p, trace).caches && reply == ReplyTo(p, Shared.After(p, trace), t)
    ensures Executions(p, trace + GateSteps(t, reply)) == Executions(p, trace) + RunIn(t, reply)
  {
    if reply.Md5Mismatch? {
      NothingAdded(trace);
      NothingAdded(Executions(p, trace));
    } else {
      ExecutionsGrow(p, trace, Shared.Submit(AGENT, t.script.name, t.paramsOk));
      GateRuns(p, Shared.After(p, trace), t);
    }
  }

  /** Reading before the gate reads changes nothing for the gate. */
  lemma ReadFirst(p: Policy, s: Shared.System, t: Ticket)
    requires AGENT in s.caches
    ensures
      var s' := Shared.Advance(p, s, Shared.Read(AGENT, t.script.name)).0;
      AGENT in s'.caches && Current(s') == Current(s) && ReplyTo(p, s', t) == ReplyTo(p, s, t)
  {
  }

  lemma CompareIsQuiet(p: Policy, trace: seq<Shared.Step>, t: Ticket)
    requires AGENT in Shared.After(p, trace).caches
    ensures
      var s, s' := Shared.After(p, trace), Shared.After(p, trace + CompareSteps(t));
      && AGENT in s'.caches && ReplyTo(p, s', t) == ReplyTo(p, s, t)
      && Executions(p, trace + CompareSteps(t)) == Executions(p, trace)
  {
    if t.endpoint.Api? {
      var read := Shared.Read(AGENT, t.script.name);
      QuietStep(p, trace, read);
      TraceGrows(p, trace, read);
      ReadFirst(p, Shared.After(p, trace), t);
    } else {
      NothingAdded(trace);
    }
  }

  lemma AskExecutes(p: Policy, trace: seq<Shared.Step>, t: Ticket, reply: AgentReply)
    requires AGENT in Shared.After(p, trace).caches && reply == ReplyTo(p, Shared.After(p, trace), t)
    ensures Executions(p, trace + AskSteps(t, reply)) == Executions(p, trace) + RunIn(t, reply)
  {
    CompareIsQuiet(p, trace, t);
    GateExecutes(p, trace + CompareSteps(t), t, reply);
    Associate(trace, CompareSteps(t), GateSteps(t, reply));
  }

  /** What a step asks of the installation. */
  function RequestsOf(p: Policy, w: World, step: Step): seq<Shared.Step> {
    match step
    case Elsewhere(other) => if other.Submit? then [] else [other]
    case Look(id, _) => if Waits(p, w, id, step) then [Shared.Read(AGENT, w.tickets[id].script.name)] else []
    case Push(id, stamp, _) =>
      if Waits(p, w, id, step) then [Shared.Write(AGENT, Staging(w.tickets[id].script), stamp)] else []
    case Ask(id, _) =>
      if Waits(p, w, id, step) then AskSteps(w.tickets[id], ReplyTo(p, Installation(p, w), w.tickets[id])) else []
    case Restage(script, stamp) => [Shared.Write(AGENT, Staging(script), stamp)]
    case _ => []
  }

  lemma TraceOfStep(p: Policy, w: World, step: Step)
    ensures Advance(p, w, step).trace == w.trace + RequestsOf(p, w, step)
  {
    NothingAdded(w.trace);
  }

  lemma StepExecutes(p: Policy, w: World, step: Step)
    ensures Executions(p, Advance(p, w, step).trace) == Executions(p, w.trace) + StartedBy(p, w, step)
  {
    TraceOfStep(p, w, step);
    var requests := RequestsOf(p, w, step);
    if step.Ask? && Waits(p, w, step.id, step) {
      AskExecutes(p, w.trace, w.tickets[step.id], ReplyTo(p, Installation(p, w), w.tickets[step.id]));
    } else {
      QuietRequests(p, w.trace, requests);
      NothingAdded(Executions(p, w.trace));
    }
  }

  lemma QuietRequests(p: Policy, trace: seq<Shared.Step>, requests: seq<Shared.Step>)
    requires |requests| <= 1 && forall i :: 0 <= i < |requests| ==> !requests[i].Submit?
    ensures Executions(p, trace + requests) == Executions(p, trace)
  {
    if requests == [] {
      NothingAdded(trace);
    } else {
      assert requests == [requests[0]];
      QuietStep(p, trace, requests[0]);
    }
  }

  /** The log holds what the steps started, and nothing else. */
  lemma {:induction false} LogHoldsStarts(p: Policy, steps: seq<Step>)
    ensures Executions(p, After(p, steps).trace) == Started(p, steps)
  {
    if steps != [] {
      var before, step := steps[..|steps| - 1], steps[|steps| - 1];
      LogHoldsStarts(p, before);
      StepExecutes(p, After(p, before), step);
    }
  }

  /** The parts of what was started before and after a step; nothing appears or disappears. */
  predicate Balanced(recorded': seq<Execution>, waiting': seq<Execution>, lost: seq<Execution>,
                     recorded: seq<Execution>, waiting: seq<Execution>, started: seq<Execution>)
  {
    multiset(recorded') + multiset(waiting') + multiset(lost)
    == multiset(recorded) + multiset(waiting) + multiset(started)
  }

  lemma AskConserves(p: Policy, w: World, step: Step)
    requires step.Ask? && Waits(p, w, step.id, step)
    ensures
      var w' := Advance(p, w, step);
      && Recorded(w') == Recorded(w)
      && Waiting(w') == Waiting(w) + (if step.answered then StartedBy(p, w, step) else [])
      && |StartedBy(p, w, step)| <= 1
  {
    var more := AnswersOf(p, w, step);
    NothingAdded(w.answers);
    NothingAdded(Waiting(w));
    if more != [] {
      GatherLast(RunAnswered, w.answers, more[0]);
      assert more == [more[0]];
      assert StartedBy(p, w, step) == [more[0].run];
    }
  }

  lemma AskBalances(recorded: seq<Execution>, waiting: seq<Execution>, started: seq<Execution>, answered: bool)
    ensures Balanced(recorded, waiting + (if answered then started else []), if answered then [] else started,
                     recorded, waiting, started)
  {
    NothingAdded(waiting);
    assert multiset(waiting + started) == multiset(waiting) + multiset(started);
  }

  /** The answers around one of them. */
  lemma WaitingAt(answers: seq<Answer>, i: nat)
    requires i < |answers|
    ensures
      var left, right := Gather(RunAnswered, answers[..i]), Gather(RunAnswered, answers[i + 1..]);
      && Gather(RunAnswered, answers) == left + [answers[i].run] + right
      && Gather(RunAnswered, Without(answers, i)) == left + right
  {
    SplitAt(answers, i);
    GatherMiddle(RunAnswered, answers[..i], answers[i], answers[i + 1..]);
  }

  lemma CommitConserves(p: Policy, w: World, i: nat)
    requires i < |w.answers|
    ensures Recorded(Advance(p, w, Commit(i))) == Recorded(w) + [w.answers[i].run]
  {
    GatherLast(RunOf, w.jobs, JobOf(w.answers[i]));
  }

  lemma CommitBalances(recorded: seq<Execution>, left: seq<Execution>, x: Execution, right: seq<Execution>)
    ensures Balanced(recorded + [x], left + right, [], recorded, left + [x] + right, [])
  {
    TakeOut(left, x, right);
    assert multiset(recorded + [x]) == multiset(recorded) + multiset{x};
  }

  lemma DropBalances(recorded: seq<Execution>, left: seq<Execution>, x: Execution, right: seq<Execution>)
    ensures Balanced(recorded, left + right, [x], recorded, left + [x] + right, [])
  {
    TakeOut(left, x, right);
  }

  lemma OthersConserve(p: Policy, w: World, step: Step)
    requires step.Ask? ==> !Waits(p, w, step.id, step)
    requires step.Commit? || step.Drop? ==> step.i >= |w.answers|
    ensures Advance(p, w, step).answers == w.answers && Advance(p, w, step).jobs == w.jobs
    ensures LostBy(p, w, step) == [] && StartedBy(p, w, step) == []
  {
  }

  predicate Conserves(p: Policy, w: World, w': World, step: Step) {
    Balanced(Recorded(w'), Waiting(w'), LostBy(p, w, step), Recorded(w), Waiting(w), StartedBy(p, w, step))
  }

  lemma AskStepConserves(p: Policy, w: World, w': World, step: Step)
    requires step.Ask? && Waits(p, w, step.id, step) && w' == Advance(p, w, step)
    ensures Conserves(p, w, w', step)
  {
    AskConserves(p, w, step);
    AskBalances(Recorded(w), Waiting(w), StartedBy(p, w, step), step.answered);
  }

  lemma CommitStepConserves(p: Policy, w: World, w': World, i: nat)
    requires i < |w.answers| && w' == Advance(p, w, Commit(i))
    ensures Conserves(p, w, w', Commit(i))
  {
    WaitingAt(w.answers, i);
    assert Waiting(w') == Gather(RunAnswered, Without(w.answers, i));
    assert LostBy(p, w, Commit(i)) == [] && StartedBy(p, w, Commit(i)) == [];
    CommitConserves(p, w, i);
    CommitBalances(Recorded(w), Gather(RunAnswered, w.answers[..i]), w.answers[i].run,
                   Gather(RunAnswered, w.answers[i + 1..]));
  }

  lemma DropIs(p: Policy, w: World, i: nat)
    requires i < |w.answers|
    ensures
      var w' := Advance(p, w, Drop(i));
      && w'.jobs == w.jobs && w'.answers == Without(w.answers, i)
      && w'.tickets == w.tickets[w.answers[i].id := w.answers[i].ticket.(phase := Over(ServerError))]
      && LostBy(p, w, Drop(i)) == [w.answers[i].run] && StartedBy(p, w, Drop(i)) == []
  {
  }

  lemma DropStepConserves(p: Policy, w: World, w': World, i: nat)
    requires i < |w.answers| && w' == Advance(p, w, Drop(i))
    ensures Conserves(p, w, w', Drop(i))
  {
    DropIs(p, w, i);
    var left, right := Gather(RunAnswered, w.answers[..i]), Gather(RunAnswered, w.answers[i + 1..]);
    WaitingAt(w.answers, i);
    DropBalances(Recorded(w), left, w.answers[i].run, right);
    assert Waiting(w') == left + right && Waiting(w) == left + [w.answers[i].run] + right;
  }

  /** Each execution a step starts is recorded, waits for its row or is lost, and stays one of these. */
  lemma StepConserves(p: Policy, w: World, w': World, step: Step)
    requires w' == Advance(p, w, step)
    ensures Conserves(p, w, w', step)
  {
    if step.Ask? && Waits(p, w, step.id, step) {
      AskStepConserves(p, w, w', step);
    } else if step.Commit? && step.i < |w.answers| {
      CommitStepConserves(p, w, w', step.i);
    } else if step.Drop? && step.i < |w.answers| {
      DropStepConserves(p, w, w', step.i);
    } else {
      OthersConserve(p, w, step);
    }
  }

  lemma BalanceGrows(started: seq<Execution>, recorded: seq<Execution>, waiting: seq<Execution>, lost: seq<Execution>,
                     more: seq<Execution>, recorded': seq<Execution>, waiting': seq<Execution>, gone: seq<Execution>)
    requires multiset(started) == multiset(recorded) + multiset(waiting) + multiset(lost)
    requires Balanced(recorded', waiting', gone, recorded, waiting, more)
    ensures multiset(started + more) == multiset(recorded') + multiset(waiting') + multiset(lost + gone)
  {
    var before, after := multiset(recorded) + multiset(waiting), multiset(recorded') + multiset(waiting');
    assert multiset(started + more) == multiset(started) + multiset(more);
    assert multiset(lost + gone) == multiset(lost) + multiset(gone);
    assert multiset(started) + multiset(more) == (before + multiset(more)) + multiset(lost);
    assert (after + multiset(gone)) + multiset(lost) == after + multiset(lost + gone);
  }

  lemma {:induction false} StartsConserved(p: Policy, steps: seq<Step>)
    ensures
      var w := After(p, steps);
      multiset(Started(p, steps)) == multiset(Recorded(w)) + multiset(Waiting(w)) + multiset(Lost(p, steps))
  {
    if steps != [] {
      var before, step := steps[..|steps| - 1], steps[|steps| - 1];
      StartsConserved(p, before);
      var w, w' := After(p, before), After(p, steps);
      StepConserves(p, w, w', step);
      BalanceGrows(Started(p, before), Recorded(w), Waiting(w), Lost(p, before), StartedBy(p, w, step),
                   Recorded(w'), Waiting(w'), LostBy(p, w, step));
    }
  }

  /**
   Conservation.  In every run, whatever is lost and however submissions, commands and tampering
   interleave: each execution of the agent is on exactly one row, or waits for its row, or is lost,
   and every row stands for one.
   */
  lemma EveryExecutionIsAccountedFor(p: Policy, steps: seq<Step>)
    ensures
      var w := After(p, steps);
      multiset(Executions(p, w.trace)) == multiset(Recorded(w)) + multiset(Waiting(w)) + multiset(Lost(p, steps))
  {
    LogHoldsStarts(p, steps);
    StartsConserved(p, steps);
  }

  /** So the jobs table lists all executions exactly when none waits and none was lost. */
  lemma JobsTableIsCompleteExactlyWhenNothingIsLost(p: Policy, steps: seq<Step>)
    ensures
      var w := After(p, steps);
      multiset(Recorded(w)) == multiset(Executions(p, w.trace)) <==> w.answers == [] && Lost(p, steps) == []
  {
    var w := After(p, steps);
    EveryExecutionIsAccountedFor(p, steps);
    if w.answers != [] {
      WaitingAt(w.answers, 0);
      assert w.answers[0].run in Waiting(w);
    }
    assert |multiset(Executions(p, w.trace))|
           == |multiset(Recorded(w))| + |multiset(Waiting(w))| + |multiset(Lost(p, steps))|;
  }

  /** Each commit takes the answer that came first. */
  predicate OldestFirst(steps: seq<Step>) {
    forall i :: 0 <= i < |steps| && steps[i].Commit? ==> steps[i].i == 0
  }

  predicate Ordered(w: World, started: seq<Execution>) {
    Subsequence(Recorded(w) + Waiting(w), started)
  }

  lemma CommitKeepsOrder(p: Policy, w: World, w': World, started: seq<Execution>)
    requires Ordered(w, started) && |w.answers| > 0 && w' == Advance(p, w, Commit(0))
    ensures Ordered(w', started)
  {
    WaitingAt(w.answers, 0);
    CommitConserves(p, w, 0);
    assert Gather(RunAnswered, w.answers[..0]) == [];
    OldestCommitted(Recorded(w), w.answers[0].run, Gather(RunAnswered, w.answers[1..]));
  }

  lemma DropStepKeepsOrder(p: Policy, w: World, w': World, i: nat, started: seq<Execution>)
    requires Ordered(w, started) && i < |w.answers| && w' == Advance(p, w, Drop(i))
    ensures Ordered(w', started)
  {
    WaitingAt(w.answers, i);
    DropKeepsOrder(Recorded(w), Gather(RunAnswered, w.answers[..i]), w.answers[i].run,
                   Gather(RunAnswered, w.answers[i + 1..]), started);
  }

  lemma StepKeepsOrder(p: Policy, w: World, w': World, step: Step, started: seq<Execution>)
    requires Ordered(w, started) && (step.Commit? ==> step.i == 0) && w' == Advance(p, w, step)
    ensures Ordered(w', started + StartedBy(p, w, step))
  {
    NothingAdded(started);
    if step.Ask? && Waits(p, w, step.id, step) {
      AskConserves(p, w, step);
      AskKeepsOrder(Recorded(w), Waiting(w), started, StartedBy(p, w, step), step.answered);
    } else if step.Commit? && |w.answers| > 0 {
      CommitKeepsOrder(p, w, w', started);
    } else if step.Drop? && step.i < |w.answers| {
      DropStepKeepsOrder(p, w, w', step.i, started);
    } else {
      OthersConserve(p, w, step);
    }
  }

  lemma AskKeepsOrder(recorded: seq<Execution>, waiting: seq<Execution>, started: seq<Execution>, more: seq<Execution>,
                      answered: bool)
    requires Subsequence(recorded + waiting, started) && |more| <= 1
    ensures Subsequence(recorded + (waiting + (if answered then more else [])), started + more)
  {
    NothingAdded(waiting);
    if more == [] {
      NothingAdded(started);
    } else {
      assert more == [more[0]];
      SubsequenceGrows(recorded + waiting, started, more[0]);
      Associate(recorded, waiting, more);
    }
  }

  lemma OldestCommitted(recorded: seq<Execution>, x: Execution, right: seq<Execution>)
    ensures (recorded + [x]) + ([] + right) == recorded + ([] + [x] + right)
  {
  }

  lemma DropKeepsOrder(recorded: seq<Execution>, left: seq<Execution>, x: Execution, right: seq<Execution>,
                       started: seq<Execution>)
    requires Subsequence(recorded + (left + [x] + right), started)
    ensures Subsequence(recorded + (left + right), started)
  {
    assert recorded + (left + [x] + right) == (recorded + left) + [x] + right;
    SubsequenceDrops(recorded + left, x, right, started);
    Associate(recorded, left, right);
  }

  lemma {:induction false} RowsAgainstStarts(p: Policy, steps: seq<Step>)
    requires OldestFirst(steps)
    ensures Ordered(After(p, steps), Started(p, steps))
  {
    if steps != [] {
      var before, step := steps[..|steps| - 1], steps[|steps| - 1];
      RowsAgainstStarts(p, before);
      StepKeepsOrder(p, After(p, before), After(p, steps), step, Started(p, before));
    }
  }

  /** When rows are committed in the order of the answers, they are in the order of the executions. */
  lemma RowsAreInOrder(p: Policy, steps: seq<Step>)
    requires OldestFirst(steps)
    ensures
      var w := After(p, steps);
      Subsequence(Recorded(w) + Waiting(w), Executions(p, w.trace))
  {
    LogHoldsStarts(p, steps);
    RowsAgainstStarts(p, steps);
  }

  lemma OneMore(p: Policy, steps: seq<Step>, step: Step)
    ensures After(p, steps + [step]) == Advance(p, After(p, steps), step)
    ensures Lost(p, steps + [step]) == Lost(p, steps) + LostBy(p, After(p, steps), step)
  {
    assert (steps + [step])[..|steps|] == steps;
  }

  lemma LongerStill(a: seq<Execution>, b: seq<Execution>, more: seq<Execution>)
    requires a <= b
    ensures a <= b + more
  {
  }

  /** What is lost is lost for good: nothing that follows takes it from the list. */
  lemma {:induction false} LostForGood(p: Policy, steps: seq<Step>, later: seq<Step>)
    ensures Lost(p, steps) <= Lost(p, steps + later)
  {
    if later == [] {
      NothingAdded(steps);
    } else {
      var init, last := later[..|later| - 1], later[|later| - 1];
      LostForGood(p, steps, init);
      OneMore(p, steps + init, last);
      SplitLast(steps, later);
      LongerStill(Lost(p, steps), Lost(p, steps + init), LostBy(p, After(p, steps + init), last));
    }
  }

  /** The input at which a row is missing forever: a job that starts and whose answer does not arrive. */
  lemma LostAnswerIsMissing(p: Policy, steps: seq<Step>, id: nat, later: seq<Step>)
    requires StartedBy(p, After(p, steps), Ask(id, false)) != []
    ensures
      var all := steps + [Ask(id, false)] + later;
      var w := After(p, all);
      && StartedBy(p, After(p, steps), Ask(id, false))[0] in Lost(p, all)
      && |Recorded(w)| < |Executions(p, w.trace)|
  {
    var asked := steps + [Ask(id, false)];
    var all := asked + later;
    OneMore(p, steps, Ask(id, false));
    LostForGood(p, asked, later);
    var x := StartedBy(p, After(p, steps), Ask(id, false))[0];
    assert x in Lost(p, asked);
    InLonger(x, Lost(p, asked), Lost(p, all));
    EveryExecutionIsAccountedFor(p, all);
    var w := After(p, all);
    assert |multiset(Executions(p, w.trace))|
           == |multiset(Recorded(w))| + |multiset(Waiting(w))| + |multiset(Lost(p, all))|;
  }

  lemma InLonger(x: Execution, a: seq<Execution>, b: seq<Execution>)
    requires x in a && a <= b
    ensures x in b
  {
    var i :| 0 <= i < |a| && a[i] == x;
    assert b[i] == x;
  }

  // ---------------------------------------------------------------------------------------
  // Where a submission goes next
  // ---------------------------------------------------------------------------------------

  /**
   After reading the agent's state: an absent or outdated script is staged, an approved current one asked
   for at once, and any other state reported; a second reading is only reported.
   */
  lemma AfterLooking(p: Policy, w: World, id: nat, answered: bool)
    requires Waits(p, w, id, Look(id, answered))
    ensures
      var t, phase := w.tickets[id], Looked(p, w, id, answered).tickets[id].phase;
      var d := Describe(Current(Installation(p, w)).store, t.script.name);
      if !answered then phase == Over(ServerError)
      else if d.state == Absent || (d.state == Approved && d.approvedMd5 != Some(t.script.md5)) then
        phase == Pushing(t.phase.again, d)
      else if d.state == Approved && !t.phase.again then phase == Asking
      else phase == Over(ApprovalConflict(FromAgent(d.state)))
  {
  }

  /**
   After staging: a script that meanwhile was rejected ends the submission as a server error; otherwise
   the state it now has is reported, and asked for if it is approved.
   */
  lemma AfterPushing(p: Policy, w: World, id: nat, stamp: Signature, answered: bool)
    requires Waits(p, w, id, Push(id, stamp, answered))
    ensures
      var t, w' := w.tickets[id], Pushed(p, w, id, stamp, answered);
      var before, phase := Describe(Shared.Seen(Installation(p, w), AGENT).store, t.script.name).state, w'.tickets[id].phase;
      && AGENT in Installation(p, w').caches
      && var after := Describe(Shared.Seen(Installation(p, w'), AGENT).store, t.script.name).state;
         if !answered || before == Rejected then phase == Over(ServerError)
         else if after == Approved && !t.phase.again then phase == Asking
         else phase == Over(ApprovalConflict(FromAgent(after)))
  {
    var t, s := w.tickets[id], Installation(p, w);
    TraceGrows(p, w.trace, Shared.Write(AGENT, Staging(t.script), stamp));
    StagingAnswersState(Shared.Seen(s, AGENT), Staging(t.script), p.auto);
  }

  lemma StagingAnswersState(h: Host, op: Operation, auto: set<string>)
    requires op.Stage?
    ensures OutcomeOf(h, op, auto).Refused? <==> Describe(h.store, op.name).state == Rejected
    ensures OutcomeOf(h, op, auto).Done? ==>
      OutcomeOf(h, op, auto).state == Describe(if Transit(View(h, op.name), op, auto).saved then Apply(h, op, auto).store
                                               else h.store, op.name).state
  {
    if OutcomeOf(h, op, auto).Done? {
      AnswerIsNewState(h, op, auto);
    }
  }

  // ---------------------------------------------------------------------------------------
  // One submission, uninterrupted
  // ---------------------------------------------------------------------------------------

  /** The two requests of a synchronisation; the second is not made where none is due. */
  function Exchange(p: Policy, w: World, id: nat, stamp: Signature): World {
    Advance(p, Advance(p, w, Look(id, true)), Push(id, stamp, true))
  }

  predicate OthersKept(w: World, w': World, id: nat) {
    forall i :: i in w.tickets && i != id ==> i in w'.tickets && w'.tickets[i] == w.tickets[i]
  }

  lemma LookedIs(p: Policy, w: World, id: nat)
    requires Waits(p, w, id, Look(id, true))
    ensures
      var w', s, t := Advance(p, w, Look(id, true)), Installation(p, w), w.tickets[id];
      var s' := Installation(p, w');
      && AGENT in s'.caches && Shared.Seen(s', AGENT) == Current(s) && Current(s') == Current(s)
      && id in w'.tickets && w'.answers == w.answers && w'.jobs == w.jobs
      && w'.tickets[id] == t.(phase := AfterLook(t.script, t.phase.again, Describe(Current(s).store, t.script.name)),
                              lookedAt := s.stamp)
      && OthersKept(w, w', id)
  {
    TraceGrows(p, w.trace, Shared.Read(AGENT, w.tickets[id].script.name));
  }

  lemma PushedIs(p: Policy, w: World, id: nat, stamp: Signature)
    requires Waits(p, w, id, Push(id, stamp, true))
    requires MustStage(Describe(Shared.Seen(Installation(p, w), AGENT).store, w.tickets[id].script.name), w.tickets[id].script)
    ensures
      var w', s, t := Advance(p, w, Push(id, stamp, true)), Installation(p, w), w.tickets[id];
      var s', h := Installation(p, w'), Shared.Seen(s, AGENT);
      && AGENT in s'.caches && Current(s') == Apply(h, Staging(t.script), p.auto)
      && id in w'.tickets && w'.answers == w.answers && w'.jobs == w.jobs
      && w'.tickets[id] == t.(phase := AfterStage(t.phase.again, OutcomeOf(h, Staging(t.script), p.auto)))
      && OthersKept(w, w', id)
  {
    var t := w.tickets[id];
    StagingIsDue(Shared.Seen(Installation(p, w), AGENT), t.script, p.auto);
    TraceGrows(p, w.trace, Shared.Write(AGENT, Staging(t.script), stamp));
  }

  /** Cut into two requests with nothing in between, a synchronisation is what it was. */
  lemma ExchangeIsSync(p: Policy, w: World, id: nat, stamp: Signature)
    requires Waits(p, w, id, Look(id, true))
    ensures
      var w', t := Exchange(p, w, id, stamp), w.tickets[id];
      var r := Sync(Current(Installation(p, w)), UNDISTURBED, t.script, p.auto);
      && r.resolved.Some? && id in w'.tickets && w'.answers == w.answers && w'.jobs == w.jobs
      && w'.tickets[id] == t.(phase := AfterSync(t.phase.again, r.resolved.value), lookedAt := Installation(p, w).stamp)
      && AGENT in Installation(p, w').caches && Current(Installation(p, w')) == r.host
      && OthersKept(w, w', id)
  {
    var t, h := w.tickets[id], Current(Installation(p, w));
    var w1 := Advance(p, w, Look(id, true));
    LookedIs(p, w, id);
    if MustStage(Describe(h.store, t.script.name), t.script) {
      StagingIsDue(h, t.script, p.auto);
      UndisturbedSync(h, t.script, p.auto);
      PushedIs(p, w1, id, stamp);
    } else {
      assert Advance(p, w1, Push(id, stamp, true)) == w1;
    }
  }

  lemma GateKeepsView(p: Policy, trace: seq<Shared.Step>, t: Ticket, reply: AgentReply)
    requires AGENT in Shared.After(p, trace).caches
    ensures
      var s, s' := Shared.After(p, trace), Shared.After(p, trace + GateSteps(t, reply));
      AGENT in s'.caches && Current(s') == Current(s)
  {
    if reply.Md5Mismatch? { NothingAdded(trace); }
    else { TraceGrows(p, trace, Shared.Submit(AGENT, t.script.name, t.paramsOk)); }
  }

  lemma ComparedView(p: Policy, trace: seq<Shared.Step>, t: Ticket)
    requires AGENT in Shared.After(p, trace).caches
    ensures
      var s, s' := Shared.After(p, trace), Shared.After(p, trace + CompareSteps(t));
      AGENT in s'.caches && Current(s') == Current(s)
  {
    if t.endpoint.Api? { TraceGrows(p, trace, Shared.Read(AGENT, t.script.name)); }
    else { NothingAdded(trace); }
  }

  lemma AskKeepsView(p: Policy, trace: seq<Shared.Step>, t: Ticket, reply: AgentReply)
    requires AGENT in Shared.After(p, trace).caches
    ensures
      var s, s' := Shared.After(p, trace), Shared.After(p, trace + AskSteps(t, reply));
      AGENT in s'.caches && Current(s') == Current(s)
  {
    ComparedView(p, trace, t);
    GateKeepsView(p, trace + CompareSteps(t), t, reply);
    Associate(trace, CompareSteps(t), GateSteps(t, reply));
  }

  lemma AskedIs(p: Policy, w: World, id: nat, answered: bool)
    requires Waits(p, w, id, Ask(id, answered))
    ensures
      var w', s, t := Advance(p, w, Ask(id, answered)), Installation(p, w), w.tickets[id];
      && AGENT in Installation(p, w').caches && Current(Installation(p, w')) == Current(s)
      && id in w'.tickets
      && w'.tickets[id]
         == t.(phase := if answered then AfterReply(t.endpoint, t.script, ReplyTo(p, s, t)) else Over(ServerError))
  {
    var t := w.tickets[id];
    var reply := ReplyTo(p, Installation(p, w), t);
    AskKeepsView(p, w.trace, t, reply);
    assert Advance(p, w, Ask(id, answered)).trace == w.trace + AskSteps(t, reply);
  }

  lemma NotWaiting(p: Policy, w: World, id: nat, stamp: Signature)
    requires id in w.tickets && w.tickets[id].phase.Over?
    ensures Exchange(p, w, id, stamp) == w && forall answered :: Advance(p, w, Ask(id, answered)) == w
  {
  }

  /** A submission whose requests nothing interrupts ends as the handler does, on the same agent. */
  lemma UninterruptedIsSubmit(p: Policy, w: World, id: nat, answered: bool, stamp: Signature, restamp: Signature)
    requires Waits(p, w, id, Look(id, true)) && w.tickets[id].phase == Looking(false)
    ensures
      var t := w.tickets[id];
      var s := Submit(p, Current(Installation(p, w)), t.endpoint, t.script, t.paramsOk,
                      Course(UNDISTURBED, [], answered, UNDISTURBED));
      var w' := Exchange(p, Advance(p, Exchange(p, w, id, stamp), Ask(id, answered)), id, restamp);
      && id in w'.tickets && w'.tickets[id].phase == Over(s.response)
      && AGENT in Installation(p, w').caches && Current(Installation(p, w')) == s.host
  {
    var w1 := Exchange(p, w, id, stamp);
    ExchangeIsSync(p, w, id, stamp);
    if w1.tickets[id].phase.Over? {
      NotWaiting(p, w1, id, restamp);
    } else {
      var w2 := Advance(p, w1, Ask(id, answered));
      AskedIs(p, w1, id, answered);
      if w2.tickets[id].phase.Over? {
        NotWaiting(p, w2, id, restamp);
      } else {
        ExchangeIsSync(p, w2, id, restamp);
      }
    }
  }

  /** The same from the user's click: the submission is about the script as it is published now. */
  lemma ClickIsSubmit(p: Policy, w: World, id: nat, endpoint: Endpoint, name: string, paramsOk: bool,
                      answered: bool, stamp: Signature, restamp: Signature)
    requires id !in w.tickets && name in w.scripts && AGENT in Installation(p, w).caches
    ensures
      var begun := Advance(p, w, Begin(id, endpoint, name, paramsOk));
      var s := Submit(p, Current(Installation(p, w)), endpoint, w.scripts[name], paramsOk,
                      Course(UNDISTURBED, [], answered, UNDISTURBED));
      var w' := Exchange(p, Advance(p, Exchange(p, begun, id, stamp), Ask(id, answered)), id, restamp);
      && id in w'.tickets && w'.tickets[id].phase == Over(s.response) && OthersKept(w, begun, id)
      && AGENT in Installation(p, w').caches && Current(Installation(p, w')) == s.host
  {
    UninterruptedIsSubmit(p, Advance(p, w, Begin(id, endpoint, name, paramsOk)), id, answered, stamp, restamp);
  }

  /** What an editor publishes is what the next submission is about; what is unpublished cannot be submitted. */
  lemma EditsReachTheNext(p: Policy, w: World, id: nat, endpoint: Endpoint, name: string, other: string, paramsOk: bool,
                          content: Content, meta: Option<Content>, persistent: bool)
    requires id !in w.tickets
    ensures
      var published, gone := Advance(p, w, Publish(name, content, meta, persistent)), Advance(p, w, Unpublish(name));
      var begun := Advance(p, published, Begin(id, endpoint, name, paramsOk));
      && id in begun.tickets
      && begun.tickets[id].script == ScriptRow(name, content, meta, p.md5(content), persistent)
      && Advance(p, gone, Begin(id, endpoint, name, paramsOk)) == gone
      && (other != name ==> Lookup(published.scripts, other) == Lookup(gone.scripts, other) == Lookup(w.scripts, other))
  {
  }

  // ---------------------------------------------------------------------------------------
  // What a submitter is told
  // ---------------------------------------------------------------------------------------

  /** Whoever is told of a row has one, or the row is being committed. */
  ghost predicate Promised(w: World) {
    forall id :: id in w.tickets && w.tickets[id].phase.Over? && w.tickets[id].phase.response.JobRow? ==>
      RowFor(w, id, w.tickets[id])
  }

  predicate RowFor(w: World, id: nat, t: Ticket) {
    || (exists i :: 0 <= i < |w.answers| && w.answers[i].id == id && w.answers[i].ticket.script == t.script
                    && w.answers[i].ticket.endpoint == t.endpoint)
    || (exists j :: 0 <= j < |w.jobs| && w.jobs[j].script == t.script && w.jobs[j].endpoint == t.endpoint)
  }

  lemma CommitPromised(p: Policy, w: World, i: nat)
    requires Promised(w) && i < |w.answers|
    ensures Promised(Advance(p, w, Commit(i)))
  {
    var w' := Advance(p, w, Commit(i));
    forall id | id in w'.tickets && w'.tickets[id].phase.Over? && w'.tickets[id].phase.response.JobRow?
      ensures RowFor(w', id, w'.tickets[id])
    {
      StillThere(w, w', i, id, w.tickets[id]);
    }
  }

  lemma DropPromised(p: Policy, w: World, i: nat)
    requires Promised(w) && i < |w.answers|
    ensures Promised(Advance(p, w, Drop(i)))
  {
    var w' := Advance(p, w, Drop(i));
    forall id | id in w'.tickets && w'.tickets[id].phase.Over? && w'.tickets[id].phase.response.JobRow?
      ensures RowFor(w', id, w'.tickets[id])
    {
      StillThere(w, w', i, id, w.tickets[id]);
    }
  }

  /** Taking answer i out leaves the rows and the other answers. */
  lemma StillThere(w: World, w': World, i: nat, id: nat, t: Ticket)
    requires i < |w.answers| && w'.answers == Without(w.answers, i) && w.jobs <= w'.jobs && RowFor(w, id, t)
    requires w.answers[i].id != id || w'.jobs == w.jobs + [JobOf(w.answers[i])]
    ensures RowFor(w', id, t)
  {
    if j :| 0 <= j < |w.jobs| && w.jobs[j].script == t.script && w.jobs[j].endpoint == t.endpoint {
      assert w'.jobs[j] == w.jobs[j];
    } else {
      var k :| 0 <= k < |w.answers| && w.answers[k].id == id && w.answers[k].ticket.script == t.script
               && w.answers[k].ticket.endpoint == t.endpoint;
      if k < i {
        assert w'.answers[k] == w.answers[k];
      } else if k > i {
        assert w'.answers[k - 1] == w.answers[k];
      } else {
        assert w'.jobs[|w.jobs|] == JobOf(w.answers[i]);
      }
    }
  }

  lemma AskPromised(p: Policy, w: World, id: nat, answered: bool)
    requires Promised(w) && Waits(p, w, id, Ask(id, answered))
    ensures Promised(Asked(p, w, id, answered))
  {
    var w', more := Asked(p, w, id, answered), AnswersOf(p, w, Ask(id, answered));
    assert w'.answers == w.answers + more;
    forall k | k in w'.tickets && w'.tickets[k].phase.Over? && w'.tickets[k].phase.response.JobRow?
      ensures RowFor(w', k, w'.tickets[k])
    {
      if k == id {
        assert w'.answers[|w.answers|] == Answer(id, w.tickets[id], more[0].run);
      } else {
        MoreAnswers(w, w', k, w.tickets[k]);
      }
    }
  }

  lemma MoreAnswers(w: World, w': World, id: nat, t: Ticket)
    requires RowFor(w, id, t) && w.answers <= w'.answers && w.jobs == w'.jobs
    ensures RowFor(w', id, t)
  {
    if i :| 0 <= i < |w.answers| && w.answers[i].id == id && w.answers[i].ticket.script == t.script
            && w.answers[i].ticket.endpoint == t.endpoint
    {
      assert w'.answers[i] == w.answers[i];
    }
  }

  /** In every run, whoever is told that a job has a row has one, unless the row is still being committed. */
  lemma {:induction false} ToldMeansRecorded(p: Policy, steps: seq<Step>)
    ensures Promised(After(p, steps))
  {
    if steps != [] {
      var w, step := After(p, steps[..|steps| - 1]), steps[|steps| - 1];
      ToldMeansRecorded(p, steps[..|steps| - 1]);
      if step.Commit? && step.i < |w.answers| {
        CommitPromised(p, w, step.i);
      } else if step.Drop? && step.i < |w.answers| {
        DropPromised(p, w, step.i);
      } else if step.Ask? && Waits(p, w, step.id, step) {
        AskPromised(p, w, step.id, step.answered);
      } else {
        OtherPromised(p, w, step);
      }
    }
  }

  lemma OtherPromised(p: Policy, w: World, step: Step)
    requires Promised(w) && (step.Ask? ==> !Waits(p, w, step.id, step))
    requires step.Commit? || step.Drop? ==> step.i >= |w.answers|
    ensures Promised(Advance(p, w, step))
  {
    var w' := Advance(p, w, step);
    forall id | id in w'.tickets && w'.tickets[id].phase.Over? && w'.tickets[id].phase.response.JobRow?
      ensures RowFor(w', id, w'.tickets[id])
    {
      MoreAnswers(w, w', id, w.tickets[id]);
    }
  }

  // ---------------------------------------------------------------------------------------
  // What the rows stand for: canonical content
  // ---------------------------------------------------------------------------------------

  predicate Honest(p: Policy, script: ScriptRow) {
    script.md5 == p.md5(script.content)
  }

  ghost predicate Canonical(p: Policy, w: World) {
    && (forall n :: n in w.scripts ==> w.scripts[n].name == n && Honest(p, w.scripts[n]))
    && (forall id :: id in w.tickets ==> Honest(p, w.tickets[id].script))
    && (forall i :: 0 <= i < |w.answers| ==> CanonicalJob(p, JobOf(w.answers[i])))
    && (forall j :: 0 <= j < |w.jobs| ==> CanonicalJob(p, w.jobs[j]))
  }

  predicate CanonicalJob(p: Policy, job: Job) {
    && job.run.name == job.script.name && Honest(p, job.script)
    && (job.endpoint.Api? ==> p.md5(job.run.bytes) == p.md5(job.script.content))
  }

  lemma NewAnswerCanonical(p: Policy, w: World, step: Step)
    requires Canonical(p, w) && AnswersOf(p, w, step) != []
    ensures CanonicalJob(p, JobOf(AnswersOf(p, w, step)[0]))
  {
    var t, h := w.tickets[step.id], Current(Installation(p, w));
    if t.endpoint.Api? {
      AgentStartsWhatWasAskedFor(p, h, Request(t.endpoint, t.script, t.paramsOk));
    }
  }

  lemma StepCanonical(p: Policy, w: World, step: Step)
    requires Canonical(p, w)
    ensures Canonical(p, Advance(p, w, step))
  {
    if AnswersOf(p, w, step) != [] { NewAnswerCanonical(p, w, step); }
  }

  lemma {:induction false} AlwaysCanonical(p: Policy, steps: seq<Step>)
    ensures Canonical(p, After(p, steps))
  {
    if steps != [] {
      AlwaysCanonical(p, steps[..|steps| - 1]);
      StepCanonical(p, After(p, steps[..|steps| - 1]), steps[|steps| - 1]);
    }
  }

  /**
   In every run, lost answers, stale managers, hand edits and all: a row of the JSON endpoint stands
   for bytes with the digest of the content that its submission read.
   */
  lemma ApiRowsAreCanonical(p: Policy, steps: seq<Step>, j: nat)
    requires j < |After(p, steps).jobs| && After(p, steps).jobs[j].endpoint.Api?
    ensures
      var job := After(p, steps).jobs[j];
      job.run.name == job.script.name && p.md5(job.run.bytes) == p.md5(job.script.content)
  {
    AlwaysCanonical(p, steps);
  }

  predicate NoHandEdits(steps: seq<Step>) {
    forall i :: 0 <= i < |steps| ==> !(steps[i].Elsewhere? && steps[i].step.ForeignEdit?)
  }

  lemma {:induction false} RequestsWellFormed(p: Policy, trace: seq<Shared.Step>, requests: seq<Shared.Step>)
    requires Stale.AllWellFormed(Shared.After(p, trace))
    requires forall i :: 0 <= i < |requests| ==> !requests[i].ForeignEdit?
    ensures Stale.AllWellFormed(Shared.After(p, trace + requests))
  {
    if requests == [] {
      NothingAdded(trace);
    } else {
      var init, last := requests[..|requests| - 1], requests[|requests| - 1];
      RequestsWellFormed(p, trace, init);
      RequestWellFormed(p, trace + init, last);
      SplitLast(trace, requests);
    }
  }

  lemma RequestWellFormed(p: Policy, trace: seq<Shared.Step>, request: Shared.Step)
    requires Stale.AllWellFormed(Shared.After(p, trace)) && !request.ForeignEdit?
    ensures Stale.AllWellFormed(Shared.After(p, trace + [request]))
  {
    TraceGrows(p, trace, request);
    Stale.StepWellFormed(p, Shared.After(p, trace), request);
  }

  lemma {:induction false} AlwaysWellFormed(p: Policy, steps: seq<Step>)
    requires NoHandEdits(steps)
    ensures Stale.AllWellFormed(Installation(p, After(p, steps)))
  {
    if steps != [] {
      var before, step := steps[..|steps| - 1], steps[|steps| - 1];
      AlwaysWellFormed(p, before);
      TraceOfStep(p, After(p, before), step);
      RequestsWellFormed(p, After(p, before).trace, RequestsOf(p, After(p, before), step));
    }
  }

  /**
   The web page asks for no digest: what it starts is canonical exactly when the digest the agent
   holds as approved, at that moment, is the one of the script the submission read.
   */
  lemma WebStartIsCanonicalExactlyWhen(p: Policy, steps: seq<Step>, id: nat, answered: bool)
    requires NoHandEdits(steps) && StartedBy(p, After(p, steps), Ask(id, answered)) != []
    requires After(p, steps).tickets[id].endpoint.Web?
    ensures
      var w := After(p, steps);
      var script := w.tickets[id].script;
      var d := Describe(Current(Installation(p, w)).store, script.name);
      && d.state == Approved
      && (p.md5(StartedBy(p, w, Ask(id, answered))[0].bytes) == p.md5(script.content)
          <==> d.approvedMd5 == Some(script.md5))
  {
    var w := After(p, steps);
    var t, h := w.tickets[id], Current(Installation(p, w));
    AlwaysCanonical(p, steps);
    AlwaysWellFormed(p, steps);
    AgentStartsWhatIsApproved(p, h, Request(t.endpoint, t.script, t.paramsOk));
    assert Stale.WellFormed(h.store);
  }

  /** A text that has to be staged and that policy accepts is what runs next. */
  lemma NewTextRuns(p: Policy, h: Host, script: ScriptRow, expected: Option<Digest>)
    requires script.name in p.auto && p.extensions == LINUX_EXTENSIONS && Honest(p, script)
    requires script.name + ".sh" !in h.files.scripts && script.name + ".bash" !in h.files.scripts
    requires MustStage(Describe(h.store, script.name), script) && expected in {None, Some(script.md5)}
    ensures AgentSubmit(p, Apply(h, Staging(script), p.auto), JobRequest(script.name, true, expected))
            == AgentReply.Started(script.name, script.content)
  {
    var n, op := script.name, Staging(script);
    PutView(h, n, Transit(View(h, n), op, p.auto).slot);
    var scripts := Apply(h, op, p.auto).files.scripts;
    assert Lookup(scripts, n) == Some(script.content);
    var sh, bash := n + ".sh", n + ".bash";
    assert |n| < |sh| < |bash| < |n + META|;
    assert Lookup(scripts, sh) == None;
    assert Lookup(scripts, bash) == None;
    assert n + LINUX_EXTENSIONS[0] == sh && n + LINUX_EXTENSIONS[1] == bash && n + LINUX_EXTENSIONS[2] == n;
    assert FirstCandidate(n, LINUX_EXTENSIONS, scripts, Candidate(n, LINUX_EXTENSIONS, scripts));
  }

  function AsPublished(p: Policy, n: string, text: Content): ScriptRow {
    ScriptRow(n, text, None, p.md5(text), false)
  }

  /** The script is published anew, and another submission synchronises it. */
  function Overtaken(p: Policy, w: World, n: string, text: Content, other: nat, stamp: Signature): World {
    var w1 := Advance(p, Advance(p, w, Publish(n, text, None, false)), Begin(other, Api, n, true));
    Exchange(p, w1, other, stamp)
  }

  lemma OvertakenIs(p: Policy, w: World, id: nat, row: ScriptRow, other: nat, stamp: Signature)
    requires id in w.tickets && AGENT in Installation(p, w).caches && other !in w.tickets
    requires row == AsPublished(p, row.name, row.content)
    ensures
      var w' := Overtaken(p, w, row.name, row.content, other, stamp);
      && id in w'.tickets && w'.tickets[id] == w.tickets[id] && w'.answers == w.answers && w'.jobs == w.jobs
      && AGENT in Installation(p, w').caches
      && Current(Installation(p, w')) == Sync(Current(Installation(p, w)), UNDISTURBED, row, p.auto).host
  {
    var published := Advance(p, w, Publish(row.name, row.content, None, false));
    ExchangeIsSync(p, Advance(p, published, Begin(other, Api, row.name, true)), other, stamp);
  }

  lemma CommittedAtOnce(p: Policy, w: World, id: nat, a: Answer)
    requires Waits(p, w, id, Ask(id, true)) && AnswersOf(p, w, Ask(id, true)) == [a]
    ensures Advance(p, Advance(p, w, Ask(id, true)), Commit(|w.answers|)).jobs == w.jobs + [JobOf(a)]
  {
    assert Advance(p, w, Ask(id, true)).answers == w.answers + [a];
  }

  /**
   So a row of the web page may stand for another text than the one its submission read: between its
   synchronisation and its request the script is published anew and submitted again.
   */
  lemma WebRowOfAnotherText(p: Policy, w: World, id: nat, other: nat, text: Content, stamp: Signature)
    requires Waits(p, w, id, Ask(id, true)) && other !in w.tickets
    requires w.tickets[id].endpoint.Web? && w.tickets[id].paramsOk
    requires
      var script, h := w.tickets[id].script, Current(Installation(p, w));
      && script.name in p.auto && p.extensions == LINUX_EXTENSIONS && p.md5(text) != script.md5
      && Describe(h.store, script.name).state == Approved
      && Describe(h.store, script.name).approvedMd5 == Some(script.md5)
      && script.name + ".sh" !in h.files.scripts && script.name + ".bash" !in h.files.scripts
    ensures
      var script := w.tickets[id].script;
      var asked := Advance(p, Overtaken(p, w, script.name, text, other, stamp), Ask(id, true));
      Advance(p, asked, Commit(|w.answers|)).jobs == w.jobs + [Job(Web, script, Execution(script.name, text))]
  {
    var script, h := w.tickets[id].script, Current(Installation(p, w));
    var w2, row := Overtaken(p, w, script.name, text, other, stamp), AsPublished(p, script.name, text);
    OvertakenIs(p, w, id, row, other, stamp);
    UndisturbedSync(h, row, p.auto);
    NewTextRuns(p, h, row, None);
    CommittedAtOnce(p, w2, id, Answer(id, w.tickets[id], Execution(script.name, text)));
  }

  // ---------------------------------------------------------------------------------------
  // Two runs from nothing
  // ---------------------------------------------------------------------------------------

  /** An agent starts, and a script is published and submitted. */
  function Arrival(p: Policy, n: string, text: Content, endpoint: Endpoint): seq<Step> {
    [Elsewhere(Shared.Open(AGENT))] + [Publish(n, text, None, false)] + [Begin(0, endpoint, n, true)]
  }

  /** It is synchronised. */
  function Arrived(p: Policy, n: string, text: Content, endpoint: Endpoint): seq<Step> {
    Arrival(p, n, text, endpoint) + [Look(0, true)] + [Push(0, (1, 1), true)]
  }

  lemma OpenedAgent(p: Policy)
    ensures
      var s := Shared.After(p, [Shared.Open(AGENT)]);
      AGENT in s.caches && Current(s) == EMPTY_HOST
  {
    NothingAdded([Shared.Open(AGENT)]);
    TraceGrows(p, [], Shared.Open(AGENT));
  }

  /** Nothing but a running agent and one submission that begins. */
  predicate JustBegun(p: Policy, w: World, script: ScriptRow, endpoint: Endpoint) {
    && w.tickets == map[0 := Ticket(endpoint, script, true, Looking(false), NO_FILE)]
    && w.answers == [] && w.jobs == []
    && AGENT in Installation(p, w).caches && Current(Installation(p, w)) == EMPTY_HOST
  }

  lemma Begins(p: Policy, w: World, n: string, text: Content, endpoint: Endpoint)
    requires w == EMPTY_WORLD.(trace := [Shared.Open(AGENT)])
    ensures JustBegun(p, Advance(p, Advance(p, w, Publish(n, text, None, false)), Begin(0, endpoint, n, true)),
                      AsPublished(p, n, text), endpoint)
  {
    OpenedAgent(p);
  }

  lemma AtTheArrival(p: Policy, n: string, text: Content, endpoint: Endpoint)
    ensures
      var steps := Arrival(p, n, text, endpoint);
      JustBegun(p, After(p, steps), AsPublished(p, n, text), endpoint) && Lost(p, steps) == []
  {
    var open, publish := Elsewhere(Shared.Open(AGENT)), Publish(n, text, None, false);
    NothingAdded([open]);
    NothingAdded([Shared.Open(AGENT)]);
    OneMore(p, [], open);
    OneMore(p, [open], publish);
    OneMore(p, [open] + [publish], Begin(0, endpoint, n, true));
    Begins(p, After(p, [open]), n, text, endpoint);
  }

  /** The submission is about to ask for a job. */
  predicate ReadyToAsk(p: Policy, w: World, script: ScriptRow, endpoint: Endpoint) {
    && w.tickets.Keys == {0} && w.answers == [] && w.jobs == []
    && Waits(p, w, 0, Ask(0, true)) && w.tickets[0].endpoint == endpoint
    && w.tickets[0].script == script && w.tickets[0].paramsOk
    && Current(Installation(p, w)) == Apply(EMPTY_HOST, Staging(script), p.auto)
  }

  lemma FirstExchange(p: Policy, w: World, script: ScriptRow, endpoint: Endpoint)
    requires script.name in p.auto && JustBegun(p, w, script, endpoint)
    ensures ReadyToAsk(p, Exchange(p, w, 0, (1, 1)), script, endpoint)
  {
    ExchangeIsSync(p, w, 0, (1, 1));
    UndisturbedSync(EMPTY_HOST, script, p.auto);
    OnlyTicket(p, w, 0, (1, 1));
  }

  lemma AtTheFirstRequest(p: Policy, n: string, text: Content, endpoint: Endpoint)
    requires n in p.auto
    ensures
      var steps := Arrived(p, n, text, endpoint);
      ReadyToAsk(p, After(p, steps), AsPublished(p, n, text), endpoint) && Lost(p, steps) == []
  {
    var start := Arrival(p, n, text, endpoint);
    AtTheArrival(p, n, text, endpoint);
    OneMore(p, start, Look(0, true));
    OneMore(p, start + [Look(0, true)], Push(0, (1, 1), true));
    FirstExchange(p, After(p, start), AsPublished(p, n, text), endpoint);
  }

  lemma OnlyTicket(p: Policy, w: World, id: nat, stamp: Signature)
    requires id in w.tickets
    ensures Exchange(p, w, id, stamp).tickets.Keys == w.tickets.Keys
  {
  }

  lemma StartOfFirst(p: Policy, n: string, text: Content, endpoint: Endpoint, answered: bool)
    requires n in p.auto && p.extensions == LINUX_EXTENSIONS
    ensures
      var w := After(p, Arrived(p, n, text, endpoint));
      StartedBy(p, w, Ask(0, answered)) == [Execution(n, text)] && Executions(p, w.trace) == []
  {
    AtTheFirstRequest(p, n, text, endpoint);
    FirstTextStarts(p, After(p, Arrived(p, n, text, endpoint)), AsPublished(p, n, text), endpoint, answered);
    NothingExecuted(p, Arrived(p, n, text, endpoint));
  }

  lemma FirstTextStarts(p: Policy, w: World, script: ScriptRow, endpoint: Endpoint, answered: bool)
    requires ReadyToAsk(p, w, script, endpoint)
    requires script.name in p.auto && p.extensions == LINUX_EXTENSIONS && Honest(p, script)
    ensures StartedBy(p, w, Ask(0, answered)) == [Execution(script.name, script.content)]
  {
    NewTextRuns(p, EMPTY_HOST, script, Request(endpoint, script, true).expectedMd5);
  }

  lemma NothingExecuted(p: Policy, steps: seq<Step>)
    requires Lost(p, steps) == [] && After(p, steps).jobs == [] && After(p, steps).answers == []
    ensures Executions(p, After(p, steps).trace) == []
  {
    EveryExecutionIsAccountedFor(p, steps);
    assert multiset(Executions(p, After(p, steps).trace)) == multiset{};
  }

  /** The script runs, the answer is lost, and no row ever says so. */
  lemma AnAnswerIsLost(p: Policy, n: string, text: Content, endpoint: Endpoint, later: seq<Step>)
    requires n in p.auto && p.extensions == LINUX_EXTENSIONS
    ensures
      var steps := Arrived(p, n, text, endpoint) + [Ask(0, false)];
      && After(p, steps).jobs == [] && After(p, steps).answers == []
      && Executions(p, After(p, steps).trace) == [Execution(n, text)]
      && Execution(n, text) in Lost(p, steps + later)
      && |Recorded(After(p, steps + later))| < |Executions(p, After(p, steps + later).trace)|
  {
    var start := Arrived(p, n, text, endpoint);
    StartOfFirst(p, n, text, endpoint, false);
    AtTheFirstRequest(p, n, text, endpoint);
    OneMore(p, start, Ask(0, false));
    LostAnswerIsMissing(p, start, 0, later);
    StepExecutes(p, After(p, start), Ask(0, false));
  }

  /** After a first text was synchronised for the web page, a newer one is published and submitted. */
  function Overtaking(p: Policy, n: string, text: Content, newer: Content): seq<Step> {
    Arrived(p, n, text, Web)
      + [Publish(n, newer, None, false)] + [Begin(1, Api, n, true)] + [Look(1, true)] + [Push(1, (2, 1), true)]
  }

  lemma AfterOvertaking(p: Policy, n: string, text: Content, newer: Content)
    ensures After(p, Overtaking(p, n, text, newer))
            == Overtaken(p, After(p, Arrived(p, n, text, Web)), n, newer, 1, (2, 1))
  {
    var start := Arrived(p, n, text, Web);
    var publish, begin := Publish(n, newer, None, false), Begin(1, Api, n, true);
    OneMore(p, start, publish);
    OneMore(p, start + [publish], begin);
    OneMore(p, start + [publish] + [begin], Look(1, true));
    OneMore(p, start + [publish] + [begin] + [Look(1, true)], Push(1, (2, 1), true));
  }

  lemma RunsByName(p: Policy, n: string, text: Content)
    ensures
      var h := Apply(EMPTY_HOST, Staging(AsPublished(p, n, text)), p.auto);
      && n + ".sh" !in h.files.scripts && n + ".bash" !in h.files.scripts
      && (n in p.auto ==> Describe(h.store, n) == Descriptor(n, Approved, Some(p.md5(text)), None))
  {
    var sh, bash := n + ".sh", n + ".bash";
    assert |n| < |sh| < |bash| < |n + META|;
    assert Lookup(Apply(EMPTY_HOST, Staging(AsPublished(p, n, text)), p.auto).files.scripts, sh) == None;
    assert Lookup(Apply(EMPTY_HOST, Staging(AsPublished(p, n, text)), p.auto).files.scripts, bash) == None;
  }

  /** The web page's row names the text it read; the agent ran the newer one. */
  lemma AnotherTextIsRecorded(p: Policy, n: string, text: Content, newer: Content)
    requires n in p.auto && p.extensions == LINUX_EXTENSIONS && p.md5(text) != p.md5(newer)
    ensures
      var steps := Overtaking(p, n, text, newer) + [Ask(0, true)] + [Commit(0)];
      After(p, steps).jobs == [Job(Web, AsPublished(p, n, text), Execution(n, newer))]
  {
    var w, steps := After(p, Arrived(p, n, text, Web)), Overtaking(p, n, text, newer);
    AtTheFirstRequest(p, n, text, Web);
    RunsByName(p, n, text);
    WebRowOfAnotherText(p, w, 0, 1, newer, (2, 1));
    AfterOvertaking(p, n, text, newer);
    OneMore(p, steps, Ask(0, true));
    OneMore(p, steps + [Ask(0, true)], Commit(0));
    NothingAdded([Job(Web, AsPublished(p, n, text), Execution(n, newer))]);
  }

  // ---------------------------------------------------------------------------------------
  // What the rows stand for: the owner's word
  // ---------------------------------------------------------------------------------------

  /**
   Nobody saved between a submission's reading and its staging, nor between a command's start and
   its write; the web page stages again only while the agent's copy carries the file's signature; and
   nobody edits or deletes approvals.json by hand.
   */
  predicate Undisturbed(p: Policy, w: World, step: Step) {
    var s := Installation(p, w);
    match step
    case Elsewhere(other) => Stale.Orderly(s, other) && !other.Delete?
    case Push(id, stamp, _) => Waits(p, w, id, step) ==> stamp !in s.used && s.stamp == w.tickets[id].lookedAt
    case Restage(script, stamp) => Stale.Orderly(s, Shared.Write(AGENT, Staging(script), stamp))
    case _ => true
  }

  predicate UndisturbedRun(p: Policy, steps: seq<Step>) {
    steps == [] || (UndisturbedRun(p, steps[..|steps| - 1])
                    && Undisturbed(p, After(p, steps[..|steps| - 1]), steps[|steps| - 1]))
  }

  /** Unless somebody saved since that signature was read, the agent's copy is the file. */
  predicate Unsurpassed(s: Shared.System, looked: Signature) {
    looked in s.used && (looked == s.stamp ==> AGENT in s.caches && s.caches[AGENT].sig == s.stamp)
  }

  ghost predicate Backed(p: Policy, trace: seq<Shared.Step>) {
    var s := Shared.After(p, trace);
    Shared.Coherent(s) && Stale.AllWellFormed(s) && Stale.FileBacked(p, s, Shared.Log(p, trace))
  }

  predicate Tidy(s: Shared.System, step: Shared.Step) {
    Stale.Orderly(s, step) && !step.Delete?
  }

  lemma StepUnsurpassed(p: Policy, s: Shared.System, step: Shared.Step, looked: Signature)
    requires Shared.Coherent(s) && Tidy(s, step) && Unsurpassed(s, looked)
    ensures Unsurpassed(Shared.Advance(p, s, step).0, looked)
  {
  }

  lemma RequestBacked(p: Policy, trace: seq<Shared.Step>, step: Shared.Step)
    requires Backed(p, trace) && Tidy(Shared.After(p, trace), step)
    ensures Backed(p, trace + [step])
    ensures forall looked :: Unsurpassed(Shared.After(p, trace), looked) ==> Unsurpassed(Shared.After(p, trace + [step]), looked)
  {
    var s := Shared.After(p, trace);
    TraceGrows(p, trace, step);
    Shared.StepIsCoherent(p, s, step);
    Stale.StepWellFormed(p, s, step);
    Stale.StepBacked(p, s, step, Shared.Log(p, trace));
    forall looked | Unsurpassed(s, looked) ensures Unsurpassed(Shared.Advance(p, s, step).0, looked) {
      StepUnsurpassed(p, s, step, looked);
    }
  }

  ghost predicate InOrder(p: Policy, w: World) {
    && Backed(p, w.trace)
    && (forall id :: id in w.tickets && w.tickets[id].phase.Pushing? ==>
          Unsurpassed(Installation(p, w), w.tickets[id].lookedAt))
  }

  lemma LookInOrder(p: Policy, w: World, id: nat, answered: bool)
    requires InOrder(p, w) && Waits(p, w, id, Look(id, answered))
    ensures InOrder(p, Looked(p, w, id, answered))
  {
    var s := Installation(p, w);
    var read := Shared.Read(AGENT, w.tickets[id].script.name);
    RequestBacked(p, w.trace, read);
    TraceGrows(p, w.trace, read);
    assert Unsurpassed(Shared.Advance(p, s, read).0, s.stamp);
  }

  lemma PushInOrder(p: Policy, w: World, id: nat, stamp: Signature, answered: bool)
    requires InOrder(p, w) && Waits(p, w, id, Push(id, stamp, answered))
    requires Undisturbed(p, w, Push(id, stamp, answered))
    ensures InOrder(p, Pushed(p, w, id, stamp, answered))
  {
    assert Unsurpassed(Installation(p, w), w.tickets[id].lookedAt);
    RequestBacked(p, w.trace, Shared.Write(AGENT, Staging(w.tickets[id].script), stamp));
  }

  predicate OnlyReads(requests: seq<Shared.Step>) {
    forall i :: 0 <= i < |requests| ==> (requests[i].Read? || requests[i].Submit?) && requests[i].id == AGENT
  }

  lemma ReadKeepsAgent(p: Policy, trace: seq<Shared.Step>, step: Shared.Step)
    requires AGENT in Shared.After(p, trace).caches && (step.Read? || step.Submit?) && step.id == AGENT
    ensures AGENT in Shared.After(p, trace + [step]).caches && Tidy(Shared.After(p, trace), step)
  {
    TraceGrows(p, trace, step);
  }

  lemma {:induction false} ReadsInOrder(p: Policy, trace: seq<Shared.Step>, requests: seq<Shared.Step>)
    requires Backed(p, trace) && AGENT in Shared.After(p, trace).caches && OnlyReads(requests)
    ensures Backed(p, trace + requests) && AGENT in Shared.After(p, trace + requests).caches
    ensures forall looked :: Unsurpassed(Shared.After(p, trace), looked) ==> Unsurpassed(Shared.After(p, trace + requests), looked)
  {
    if requests == [] {
      NothingAdded(trace);
    } else {
      var init, last := requests[..|requests| - 1], requests[|requests| - 1];
      ReadsInOrder(p, trace, init);
      ReadKeepsAgent(p, trace + init, last);
      RequestBacked(p, trace + init, last);
      SplitLast(trace, requests);
    }
  }

  lemma AskInOrder(p: Policy, w: World, id: nat, answered: bool)
    requires InOrder(p, w) && Waits(p, w, id, Ask(id, answered))
    ensures InOrder(p, Asked(p, w, id, answered))
  {
    var t := w.tickets[id];
    ReadsInOrder(p, w.trace, AskSteps(t, ReplyTo(p, Installation(p, w), t)));
  }

  lemma StepInOrder(p: Policy, w: World, step: Step)
    requires InOrder(p, w) && Undisturbed(p, w, step)
    ensures InOrder(p, Advance(p, w, step))
  {
    match step
    case Publish(_, _, _, _) =>
    case Unpublish(_) =>
    case Begin(_, _, _, _) =>
    case Elsewhere(other) => if !other.Submit? { RequestBacked(p, w.trace, other); }
    case Look(id, answered) => if Waits(p, w, id, step) { LookInOrder(p, w, id, answered); }
    case Push(id, stamp, answered) => if Waits(p, w, id, step) { PushInOrder(p, w, id, stamp, answered); }
    case Ask(id, answered) => if Waits(p, w, id, step) { AskInOrder(p, w, id, answered); }
    case Restage(script, stamp) => RequestBacked(p, w.trace, Shared.Write(AGENT, Staging(script), stamp));
    case Commit(_) =>
    case Drop(_) =>
  }

  lemma {:induction false} AlwaysInOrder(p: Policy, steps: seq<Step>)
    requires UndisturbedRun(p, steps)
    ensures InOrder(p, After(p, steps))
  {
    if steps == [] {
      assert forall n :: Lookup(Load(Shared.INITIAL.json), n) == None;
    } else {
      AlwaysInOrder(p, steps[..|steps| - 1]);
      StepInOrder(p, After(p, steps[..|steps| - 1]), steps[|steps| - 1]);
    }
  }

  /** Whatever a step of an orderly world starts is in force. */
  lemma StartIsInForce(p: Policy, w: World, step: Step)
    requires InOrder(p, w) && StartedBy(p, w, step) != []
    ensures
      var x := StartedBy(p, w, step)[0];
      InForce(Shared.Log(p, w.trace), x.name, p.md5(x.bytes), p.auto)
  {
    var t := w.tickets[step.id];
    Stale.ExecutionBacked(p, Installation(p, w), Shared.Submit(AGENT, t.script.name, t.paramsOk), Shared.Log(p, w.trace));
  }

  /**
   A disturbed staging, too, is harmless over everything orderly that can follow exactly when the copy
   the agent read says nothing that the history does not back.
   */
  lemma StagingIsHarmlessExactlyWhenBacked(p: Policy, w: World, id: nat, stamp: Signature, answered: bool)
    requires Waits(p, w, id, Push(id, stamp, answered)) && p.extensions != []
    requires
      var s := Installation(p, w);
      && Shared.Coherent(s) && Stale.AllWellFormed(s) && stamp !in s.used
      && MustStage(Describe(Shared.Seen(s, AGENT).store, w.tickets[id].script.name), w.tickets[id].script)
    ensures
      var w', s := Pushed(p, w, id, stamp, answered), Installation(p, w);
      Stale.Sovereign(p, Installation(p, w'), Shared.Log(p, w'.trace))
      <==> Stale.CopyBacked(p, s.caches[AGENT].store, Shared.Log(p, w.trace), Staging(w.tickets[id].script))
  {
    var script, s := w.tickets[id].script, Installation(p, w);
    var write := Shared.Write(AGENT, Staging(script), stamp);
    StagingIsDue(Shared.Seen(s, AGENT), script, p.auto);
    Stale.WriteIsHarmlessExactlyWhenBacked(p, s, write, Shared.Log(p, w.trace));
    TraceGrows(p, w.trace, write);
  }

  lemma RestagingWrites(p: Policy, w: World, script: ScriptRow, stamp: Signature)
    ensures Advance(p, w, Restage(script, stamp)).trace == w.trace + [Shared.Write(AGENT, Staging(script), stamp)]
  {
  }

  /** The same for a staging without any reading before it. */
  lemma RestagingIsHarmlessExactlyWhenBacked(p: Policy, w: World, script: ScriptRow, stamp: Signature)
    requires p.extensions != []
    requires
      var s := Installation(p, w);
      && Shared.Coherent(s) && Stale.AllWellFormed(s) && AGENT in s.caches && stamp !in s.used
      && Transit(View(Shared.Seen(s, AGENT), script.name), Staging(script), p.auto).saved
    ensures
      var w', s := Advance(p, w, Restage(script, stamp)), Installation(p, w);
      Stale.Sovereign(p, Installation(p, w'), Shared.Log(p, w'.trace))
      <==> Stale.CopyBacked(p, s.caches[AGENT].store, Shared.Log(p, w.trace), Staging(script))
  {
    var write := Shared.Write(AGENT, Staging(script), stamp);
    Stale.WriteIsHarmlessExactlyWhenBacked(p, Installation(p, w), write, Shared.Log(p, w.trace));
    TraceGrows(p, w.trace, write);
    RestagingWrites(p, w, script, stamp);
  }

  /** Step i started the run, and its digest was in force at that moment. */
  ghost predicate StartedInForce(p: Policy, steps: seq<Step>, i: nat, run: Execution)
    requires i < |steps|
  {
    var w := After(p, steps[..i]);
    StartedBy(p, w, steps[i]) == [run] && InForce(Shared.Log(p, w.trace), run.name, p.md5(run.bytes), p.auto)
  }

  lemma StartedBefore(p: Policy, before: seq<Step>, steps: seq<Step>, i: nat, run: Execution)
    requires i < |before| && before <= steps
    ensures StartedInForce(p, before, i, run) <==> StartedInForce(p, steps, i, run)
  {
    assert before[..i] == steps[..i];
  }

  /**
   In every undisturbed run each row, of either endpoint, and each answer that waits for its row stands
   for an execution whose digest was in force for the script when it started.
   */
  lemma {:induction false} EveryRowWasInForce(p: Policy, steps: seq<Step>, run: Execution) returns (i: nat)
    requires UndisturbedRun(p, steps) && Held(After(p, steps), run)
    ensures i < |steps| && StartedInForce(p, steps, i, run)
  {
    var before, step := steps[..|steps| - 1], steps[|steps| - 1];
    var w := After(p, before);
    HeldOrStarted(p, w, After(p, steps), step, run);
    if Held(w, run) {
      i := EveryRowWasInForce(p, before, run);
      StartedBefore(p, before, steps, i, run);
    } else {
      i := |before|;
      AlwaysInOrder(p, before);
      StartIsInForce(p, w, step);
    }
  }

  /** A row stands for the run, or it waits for one. */
  predicate Held(w: World, run: Execution) {
    run in Recorded(w) || run in Waiting(w)
  }

  lemma HeldOrStarted(p: Policy, w: World, w': World, step: Step, run: Execution)
    requires w' == Advance(p, w, step) && Held(w', run)
    ensures Held(w, run) || StartedBy(p, w, step) == [run]
  {
    StepConserves(p, w, w', step);
    FromTheParts(Recorded(w'), Waiting(w'), LostBy(p, w, step),
                 Recorded(w), Waiting(w), StartedBy(p, w, step), run);
  }

  lemma FromTheParts(recorded': seq<Execution>, waiting': seq<Execution>, lost: seq<Execution>,
                     recorded: seq<Execution>, waiting: seq<Execution>, started: seq<Execution>, run: Execution)
    requires Balanced(recorded', waiting', lost, recorded, waiting, started)
    requires run in recorded' || run in waiting'
    ensures run in recorded || run in waiting || run in started
  {
    assert run in multiset(recorded') + multiset(waiting') + multiset(lost);
    assert run in multiset(recorded) + multiset(waiting) + multiset(started);
  }

  /** The run of every row is recorded. */
  lemma RowIsRecorded(w: World, j: nat)
    requires j < |w.jobs|
    ensures w.jobs[j].run in Recorded(w)
  {
    SplitAt(w.jobs, j);
    GatherMiddle(RunOf, w.jobs[..j], w.jobs[j], w.jobs[j + 1..]);
  }
}
