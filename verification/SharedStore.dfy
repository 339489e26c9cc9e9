/**
 Several managers over one approvals.json: the agent's own and a fresh one for every CLI command.
 Each keeps a copy of the records and the signature of the file it copied; only reads compare
 signatures.
 */
module SharedStore {
  import opened Wrappers
  import opened Approvals
  import opened ExecutionGate
  import opened Sequences
  import opened Sovereignty

  type ManagerId = nat

  datatype Cache = Cache(store: Store, sig: Signature)

  /** `used` collects every signature the file has carried. */
  datatype System = System(
    files: Files,
    json: Option<Store>,
    stamp: Signature,
    caches: map<ManagerId, Cache>,
    used: set<Signature>)

  const INITIAL := System(EMPTY_HOST.files, None, NO_FILE, map[], {NO_FILE})

  datatype Step =
    | Open(id: ManagerId)
    | Read(id: ManagerId, name: string)
    | Write(id: ManagerId, op: Operation, stamp: Signature)
    | Submit(id: ManagerId, name: string, paramsOk: bool)
    | Scribble(files: Files)
    | ForeignEdit(json: Option<Store>, stamp: Signature)   // None: unreadable contents
    | Delete

  datatype Answer = Nothing | Described(descriptor: Descriptor) | Replied(reply: Reply)

  function Synced(s: System, id: ManagerId): System
    requires id in s.caches
  {
    if s.caches[id].sig != s.stamp
    then s.(caches := s.caches[id := Cache(Load(s.json), s.stamp)])
    else s
  }

  /** What manager `id` takes the installation to be. */
  function Seen(s: System, id: ManagerId): Host
    requires id in s.caches
  {
    Host(s.caches[id].store, s.files)
  }

  /** What the file says. */
  function Shared(s: System): Host {
    Host(Load(s.json), s.files)
  }

  function Advance(p: Policy, s: System, step: Step): (System, Answer) {
    match step
    case Open(id) =>
      (s.(caches := s.caches[id := Cache(Load(s.json), s.stamp)]), Nothing)
    case Read(id, name) =>
      if id !in s.caches then (s, Nothing)
      else
        var s' := Synced(s, id);
        (s', Described(Describe(s'.caches[id].store, name)))
    case Write(id, op, stamp) =>
      if id !in s.caches then (s, Nothing)
      else
        var before := Seen(s, id);
        var after := Apply(before, op, p.auto);
        var answer := Replied(Answered(OutcomeOf(before, op, p.auto)));
        if Transit(View(before, op.name), op, p.auto).saved then
          (System(after.files, Some(after.store), stamp,
                  s.caches[id := Cache(after.store, stamp)], s.used + {stamp}), answer)
        else
          (s, answer)
    case Submit(id, name, paramsOk) =>
      if id !in s.caches then (s, Nothing)
      else
        var s' := Synced(s, id);
        (s', Replied(Judged(
          Gate(Describe(s'.caches[id].store, name), s.files.scripts, p.extensions, p.md5, paramsOk))))
    case Scribble(files) => (s.(files := files), Replied(Silent))
    case ForeignEdit(json, stamp) => (s.(json := json, stamp := stamp, used := s.used + {stamp}), Nothing)
    case Delete => (s.(json := None, stamp := NO_FILE), Nothing)
  }

  /** A manager is used only once it exists, and a rewritten file never gets an old signature back. */
  predicate Enabled(s: System, step: Step) {
    && (step.Read? || step.Write? || step.Submit? ==> step.id in s.caches)
    && (step.Write? || step.ForeignEdit? ==> step.stamp !in s.used)
  }

  function After(p: Policy, steps: seq<Step>): System {
    if steps == [] then INITIAL
    else Advance(p, After(p, steps[..|steps| - 1]), steps[|steps| - 1]).0
  }

  predicate Valid(p: Policy, steps: seq<Step>) {
    steps == [] || (Valid(p, steps[..|steps| - 1]) && Enabled(After(p, steps[..|steps| - 1]), steps[|steps| - 1]))
  }

  lemma {:induction false} ValidPrefix(p: Policy, steps: seq<Step>, i: nat)
    requires Valid(p, steps) && i <= |steps|
    ensures Valid(p, steps[..i])
    ensures i < |steps| ==> Enabled(After(p, steps[..i]), steps[i])
  {
    if i == |steps| {
      assert steps[..i] == steps;
    } else if i < |steps| - 1 {
      ValidPrefix(p, steps[..|steps| - 1], i);
      assert steps[..|steps| - 1][..i] == steps[..i];
    }
  }

  // ---------------------------------------------------------------------------------------
  // Reads are never stale
  // ---------------------------------------------------------------------------------------

  /** A copy whose signature is the file's is the file. */
  ghost predicate Coherent(s: System) {
    && NO_FILE in s.used && s.stamp in s.used
    && (s.stamp == NO_FILE ==> s.json == None)
    && forall id :: id in s.caches ==>
         && s.caches[id].sig in s.used
         && (s.caches[id].sig == s.stamp ==> s.caches[id].store == Load(s.json))
         && (s.caches[id].sig == NO_FILE ==> s.caches[id].store == map[])
  }

  lemma {:induction false} AlwaysCoherent(p: Policy, steps: seq<Step>)
    requires Valid(p, steps)
    ensures Coherent(After(p, steps))
  {
    if steps != [] {
      AlwaysCoherent(p, steps[..|steps| - 1]);
      StepIsCoherent(p, After(p, steps[..|steps| - 1]), steps[|steps| - 1]);
    }
  }

  lemma StepIsCoherent(p: Policy, s: System, step: Step)
    requires Coherent(s) && Enabled(s, step)
    ensures Coherent(Advance(p, s, step).0)
  {
  }

  /** A read sees what was edited or deleted by hand just before. */
  lemma EditsAreSeen(p: Policy, s: System, id: ManagerId, name: string, json: Option<Store>, stamp: Signature)
    requires Coherent(s) && id in s.caches && stamp !in s.used
    ensures
      var edited, deleted := Advance(p, s, ForeignEdit(json, stamp)).0, Advance(p, s, Delete).0;
      && Advance(p, edited, Read(id, name)).1
         == Described(if json.Some? then Describe(json.value, name) else Descriptor(name, Absent, None, None))
      && Advance(p, deleted, Read(id, name)).1 == Described(Descriptor(name, Absent, None, None))
      && edited.files == deleted.files == s.files
  {
  }

  /** Whatever the interleaving, a read through any manager answers from the file as it is. */
  lemma ReadsAnswerFromFile(p: Policy, steps: seq<Step>, i: nat)
    requires Valid(p, steps) && i < |steps|
    ensures
      var s := After(p, steps[..i]);
      match steps[i]
      case Read(id, name) =>
        Advance(p, s, steps[i]).1 == Described(Describe(Load(s.json), name))
      case Submit(id, name, paramsOk) =>
        Advance(p, s, steps[i]).1 == Replied(Judged(
          Gate(Describe(Load(s.json), name), s.files.scripts, p.extensions, p.md5, paramsOk)))
      case _ => true
  {
    ValidPrefix(p, steps, i);
    AlwaysCoherent(p, steps[..i]);
  }

  // ---------------------------------------------------------------------------------------
  // Writers that are up to date act as one manager
  // ---------------------------------------------------------------------------------------

  /** Every writer was opened, or has read, since the file last changed; nobody edits the file by hand. */
  predicate WritersUpToDate(p: Policy, steps: seq<Step>) {
    forall i :: 0 <= i < |steps| ==>
      && !steps[i].ForeignEdit? && !steps[i].Delete?
      && (steps[i].Write? ==>
            var s := After(p, steps[..i]);
            steps[i].id in s.caches && s.caches[steps[i].id].sig == s.stamp)
  }

  function AsEvents(step: Step): seq<Event> {
    match step
    case Write(_, op, _) => [Operate(op)]
    case Submit(_, name, paramsOk) => [Execute(name, paramsOk)]
    case Scribble(files) => [Tamper(files)]
    case _ => []
  }

  function Project(steps: seq<Step>): seq<Event> {
    if steps == [] then [] else Project(steps[..|steps| - 1]) + AsEvents(steps[|steps| - 1])
  }

  /** What a step adds to the log of requests and replies. */
  function EntriesOf(p: Policy, s: System, step: Step): seq<Entry> {
    var events, answer := AsEvents(step), Advance(p, s, step).1;
    if events == [] || !answer.Replied? then [] else [Entry(events[0], answer.reply)]
  }

  /** The replies of the system, in the shape of a single manager's log. */
  function Log(p: Policy, steps: seq<Step>): seq<Entry> {
    if steps == [] then []
    else
      var m := |steps| - 1;
      Log(p, steps[..m]) + EntriesOf(p, After(p, steps[..m]), steps[m])
  }

  /** One step of the system, seen through the shared file, is one step of a single manager or none. */
  lemma UpToDateStep(p: Policy, s: System, step: Step)
    requires Coherent(s) && Enabled(s, step) && !step.ForeignEdit? && !step.Delete?
    requires step.Write? ==> s.caches[step.id].sig == s.stamp
    ensures
      var (s', answer) := Advance(p, s, step);
      if AsEvents(step) == [] then Shared(s') == Shared(s) && !answer.Replied?
      else answer.Replied? && (Shared(s'), answer.reply) == React(p, Shared(s), AsEvents(step)[0])
  {
    if step.Write? {
      assert Seen(s, step.id) == Shared(s);
      if !Transit(View(Shared(s), step.op.name), step.op, p.auto).saved {
        RefusalChangesNothing(Shared(s), step.op, p.auto);
      }
    }
  }

  /** The next step, seen through the shared file. */
  lemma RefinementGrows(p: Policy, s: System, step: Step, events: seq<Event>, log: seq<Entry>)
    requires Coherent(s) && Enabled(s, step) && !step.ForeignEdit? && !step.Delete?
    requires step.Write? ==> s.caches[step.id].sig == s.stamp
    requires Replay(p, events) == Run(Shared(s), log)
    ensures Replay(p, events + AsEvents(step)) == Run(Shared(Advance(p, s, step).0), log + EntriesOf(p, s, step))
  {
    UpToDateStep(p, s, step);
    if AsEvents(step) == [] {
      NothingAdded(events);
      NothingAdded(log);
    } else {
      ReplayGrows(p, events, AsEvents(step)[0]);
      assert AsEvents(step) == [AsEvents(step)[0]];
    }
  }

  /** The shared file, the directories and all replies are those of one manager doing everything. */
  lemma {:induction false} ManyRefineOne(p: Policy, steps: seq<Step>)
    requires Valid(p, steps) && WritersUpToDate(p, steps)
    ensures Replay(p, Project(steps)) == Run(Shared(After(p, steps)), Log(p, steps))
  {
    if steps != [] {
      var m := |steps| - 1;
      var before, step := After(p, steps[..m]), steps[m];
      UpToDatePrefix(p, steps, m);
      ManyRefineOne(p, steps[..m]);
      AlwaysCoherent(p, steps[..m]);
      RefinementGrows(p, before, step, Project(steps[..m]), Log(p, steps[..m]));
    }
  }

  lemma UpToDatePrefix(p: Policy, steps: seq<Step>, i: nat)
    requires Valid(p, steps) && WritersUpToDate(p, steps) && i <= |steps|
    ensures Valid(p, steps[..i]) && WritersUpToDate(p, steps[..i])
  {
    ValidPrefix(p, steps, i);
    forall j | 0 <= j < i ensures steps[..i][j] == steps[j] && steps[..i][..j] == steps[..j] { }
  }

  /** Owner sovereignty therefore holds across the agent and all CLI commands together. */
  lemma OnlyWhatIsInForceRunsAnywhere(p: Policy, steps: seq<Step>, i: nat)
    requires Valid(p, steps) && WritersUpToDate(p, steps)
    requires i < |steps| && steps[i].Submit?
    requires var answer := Advance(p, After(p, steps[..i]), steps[i]).1;
             answer.Replied? && answer.reply.Judged? && answer.reply.verdict.Ran?
    ensures
      var verdict := Advance(p, After(p, steps[..i]), steps[i]).1.reply.verdict;
      InForce(Log(p, steps[..i]), steps[i].name, p.md5(verdict.bytes), p.auto)
  {
    UpToDatePrefix(p, steps, i);
    var before := Project(steps[..i]);
    var events := before + [Execute(steps[i].name, steps[i].paramsOk)];
    var k := |before|;
    assert events[..k] == before;
    ManyRefineOne(p, steps[..i]);
    LastEntry(p, events);
    ReadsAnswerFromFile(p, steps, i);
    assert Replay(p, events).log[k].reply == Advance(p, After(p, steps[..i]), steps[i]).1.reply;
    OnlyWhatIsInForceRuns(p, events, k);
    LogPrefix(p, events, k);
  }
}
