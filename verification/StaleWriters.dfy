/**
 Managers that write without having read: only reads compare signatures, so `stage`, `approve`,
 `reject` and `clear` save whatever copy of the records the manager has.  When such a write is
 harmless is settled here exactly, over everything that can happen afterwards.
 */
module StaleWriters {
  import opened Wrappers
  import opened Approvals
  import opened ExecutionGate
  import opened Sequences
  import opened Sovereignty
  import opened SharedStore

  // ---------------------------------------------------------------------------------------
  // Records that the history backs
  // ---------------------------------------------------------------------------------------

  /** Some text has this digest. */
  ghost predicate Attainable(p: Policy, d: Digest) {
    exists text :: p.md5(text) == d
  }

  /** The digest that the gate compares files with, if the record lets anything run. */
  function Standing(record: Option<Record>): Option<Digest> {
    if record.Some? && record.value.state == Approved then record.value.approvedMd5 else None
  }

  /** The digest that `approve` would put in force. */
  function Offered(record: Option<Record>): Option<Digest> {
    if record.Some? && record.value.state in {Pending, UpdatePending} then record.value.pendingMd5 else None
  }

  /** Approved records carry a digest, offers too. */
  predicate WellFormed(store: Store) {
    forall n :: n in store ==>
      && (store[n].state == Approved ==> store[n].approvedMd5.Some?)
      && (store[n].state in {Pending, UpdatePending} ==> store[n].pendingMd5.Some?)
  }

  /**
   What the record says about a name is what happened: an approved version that some text has is
   in force, an offered one is the latest offer.
   */
  ghost predicate Backed(p: Policy, record: Option<Record>, force: Option<Digest>, offer: Option<Digest>) {
    && (Standing(record).Some? && Attainable(p, Standing(record).value) ==> force == Standing(record))
    && (Offered(record).Some? && Attainable(p, Offered(record).value) ==> offer == Offered(record))
  }

  ghost predicate BackedBy(p: Policy, store: Store, log: seq<Entry>, n: string) {
    Backed(p, Lookup(store, n), Force(log, n, p.auto), Offer(log, n))
  }

  ghost predicate FileBacked(p: Policy, s: System, log: seq<Entry>) {
    forall n :: BackedBy(p, Load(s.json), log, n)
  }

  /** Every copy of the records, the file's included. */
  predicate AllWellFormed(s: System) {
    WellFormed(Load(s.json)) && forall id :: id in s.caches ==> WellFormed(s.caches[id].store)
  }

  lemma TransitWellFormed(seen: Host, op: Operation, auto: set<string>)
    requires WellFormed(seen.store)
    ensures WellFormed(Apply(seen, op, auto).store)
  {
    var t := Transit(View(seen, op.name), op, auto);
    assert Lookup(seen.store, op.name) == View(seen, op.name).record;
    forall n | n in Apply(seen, op, auto).store && n != op.name
      ensures n in seen.store && Apply(seen, op, auto).store[n] == seen.store[n]
    {
      assert Lookup(Apply(seen, op, auto).store, n) == Lookup(seen.store, n);
    }
    assert Lookup(Apply(seen, op, auto).store, op.name) == t.slot.record;
  }

  lemma StepWellFormed(p: Policy, s: System, step: Step)
    requires AllWellFormed(s) && !step.ForeignEdit?
    ensures AllWellFormed(Advance(p, s, step).0)
  {
    if step.Write? && step.id in s.caches {
      TransitWellFormed(Seen(s, step.id), step.op, p.auto);
    }
  }

  predicate NoHandEdits(steps: seq<Step>) {
    forall i :: 0 <= i < |steps| ==> !steps[i].ForeignEdit?
  }

  lemma {:induction false} AlwaysWellFormed(p: Policy, steps: seq<Step>)
    requires NoHandEdits(steps)
    ensures AllWellFormed(After(p, steps))
  {
    if steps != [] {
      AlwaysWellFormed(p, steps[..|steps| - 1]);
      StepWellFormed(p, After(p, steps[..|steps| - 1]), steps[|steps| - 1]);
    }
  }

  // ---------------------------------------------------------------------------------------
  // Orderly continuations
  // ---------------------------------------------------------------------------------------

  /** A step that can happen, by a writer whose copy is as new as the file, and no hand edit. */
  predicate Orderly(s: System, step: Step) {
    && Enabled(s, step) && !step.ForeignEdit?
    && (step.Write? ==> s.caches[step.id].sig == s.stamp)
  }

  predicate OrderlyFrom(p: Policy, s: System, steps: seq<Step>)
    decreases |steps|
  {
    steps == [] || (Orderly(s, steps[0]) && OrderlyFrom(p, Advance(p, s, steps[0]).0, steps[1..]))
  }

  /** If the step executed something, its digest was in force. */
  ghost predicate RunsInForce(p: Policy, s: System, log: seq<Entry>, step: Step) {
    var answer := Advance(p, s, step).1;
    step.Submit? && answer.Replied? && answer.reply.Judged? && answer.reply.verdict.Ran? ==>
      InForce(log, step.name, p.md5(answer.reply.verdict.bytes), p.auto)
  }

  ghost predicate SovereignFrom(p: Policy, s: System, log: seq<Entry>, steps: seq<Step>)
    decreases |steps|
  {
    steps == []
    || (RunsInForce(p, s, log, steps[0])
        && SovereignFrom(p, Advance(p, s, steps[0]).0, log + EntriesOf(p, s, steps[0]), steps[1..]))
  }

  /** Whatever orderly steps follow, only what is in force runs. */
  ghost predicate Sovereign(p: Policy, s: System, log: seq<Entry>) {
    forall steps :: OrderlyFrom(p, s, steps) ==> SovereignFrom(p, s, log, steps)
  }

  // ---------------------------------------------------------------------------------------
  // A backed file stays backed
  // ---------------------------------------------------------------------------------------

  lemma TransitBacked(p: Policy, s: Slot, op: Operation, force: Option<Digest>, offer: Option<Digest>)
    requires Backed(p, s.record, force, offer)
    ensures
      var t := Transit(s, op, p.auto);
      if t.outcome.Done? then
        Backed(p, t.slot.record, ForceAfter(op, force, offer, op.name in p.auto), if op.Stage? then Some(op.md5) else offer)
      else t.slot.record == s.record
  {
  }

  /** An operation on a backed name leaves it backed. */
  lemma OperationBacked(p: Policy, h: Host, op: Operation, log: seq<Entry>)
    requires BackedBy(p, h.store, log, op.name)
    ensures BackedBy(p, Apply(h, op, p.auto).store, log + [Entry(Operate(op), Answered(OutcomeOf(h, op, p.auto)))], op.name)
  {
    var s := View(h, op.name);
    TransitBacked(p, s, op, Force(log, op.name, p.auto), Offer(log, op.name));
    ForceOfEntry(log, op, OutcomeOf(h, op, p.auto), p.auto);
    assert Lookup(Apply(h, op, p.auto).store, op.name) == Transit(s, op, p.auto).slot.record;
  }

  lemma OtherNameBacked(p: Policy, store: Store, store': Store, log: seq<Entry>, x: Entry, n: string)
    requires x.event.Operate? ==> x.event.op.name != n
    requires Lookup(store, n) == Lookup(store', n)
    ensures BackedBy(p, store', log + [x], n) <==> BackedBy(p, store, log, n)
  {
    OtherEntry(log, x, n, p.auto);
  }

  lemma WriteBacked(p: Policy, s: System, step: Step, log: seq<Entry>)
    requires Coherent(s) && Orderly(s, step) && step.Write? && FileBacked(p, s, log)
    ensures FileBacked(p, Advance(p, s, step).0, log + EntriesOf(p, s, step))
  {
    var h, n := Shared(s), step.op.name;
    var x := Entry(Operate(step.op), Answered(OutcomeOf(h, step.op, p.auto)));
    assert Seen(s, step.id) == h && EntriesOf(p, s, step) == [x];
    if !Transit(View(h, n), step.op, p.auto).saved { RefusalChangesNothing(h, step.op, p.auto); }
    var after := Apply(h, step.op, p.auto).store;
    assert Load(Advance(p, s, step).0.json) == after;
    assert BackedBy(p, h.store, log, n);
    OperationBacked(p, h, step.op, log);
    forall m | m != n ensures BackedBy(p, after, log + [x], m) {
      assert BackedBy(p, h.store, log, m);
      OtherNameBacked(p, h.store, after, log, x, m);
    }
  }

  lemma StepBacked(p: Policy, s: System, step: Step, log: seq<Entry>)
    requires Coherent(s) && Orderly(s, step) && FileBacked(p, s, log)
    ensures FileBacked(p, Advance(p, s, step).0, log + EntriesOf(p, s, step))
  {
    var s', entries := Advance(p, s, step).0, EntriesOf(p, s, step);
    if step.Write? {
      WriteBacked(p, s, step, log);
    } else if entries == [] {
      assert log + entries == log;
      forall n ensures BackedBy(p, Load(s'.json), log, n) { assert BackedBy(p, Load(s.json), log, n); }
    } else {
      forall n ensures BackedBy(p, Load(s'.json), log + entries, n) {
        assert BackedBy(p, Load(s.json), log, n);
        OtherNameBacked(p, Load(s.json), Load(s'.json), log, entries[0], n);
      }
    }
  }

  lemma ExecutionBacked(p: Policy, s: System, step: Step, log: seq<Entry>)
    requires Coherent(s) && AllWellFormed(s) && FileBacked(p, s, log)
    ensures RunsInForce(p, s, log, step)
  {
    var answer := Advance(p, s, step).1;
    if step.Submit? && answer.Replied? && answer.reply.Judged? && answer.reply.verdict.Ran? {
      var d := p.md5(answer.reply.verdict.bytes);
      assert BackedBy(p, Load(s.json), log, step.name);
      assert Attainable(p, d);
      ForceIsInForce(log, step.name, d, p.auto);
    }
  }

  lemma {:induction false} BackedIsSovereign(p: Policy, s: System, log: seq<Entry>, steps: seq<Step>)
    requires Coherent(s) && AllWellFormed(s) && FileBacked(p, s, log) && OrderlyFrom(p, s, steps)
    ensures SovereignFrom(p, s, log, steps)
    decreases |steps|
  {
    if steps != [] {
      ExecutionBacked(p, s, steps[0], log);
      StepIsCoherent(p, s, steps[0]);
      StepWellFormed(p, s, steps[0]);
      StepBacked(p, s, steps[0], log);
      BackedIsSovereign(p, Advance(p, s, steps[0]).0, log + EntriesOf(p, s, steps[0]), steps[1..]);
    }
  }

  // ---------------------------------------------------------------------------------------
  // An unbacked record can be run
  // ---------------------------------------------------------------------------------------

  lemma Append(p: Policy, s: System, log: seq<Entry>, step: Step, rest: seq<Step>)
    ensures
      var s', log' := Advance(p, s, step).0, log + EntriesOf(p, s, step);
      && (OrderlyFrom(p, s, [step] + rest) <==> Orderly(s, step) && OrderlyFrom(p, s', rest))
      && (SovereignFrom(p, s, log, [step] + rest) <==> RunsInForce(p, s, log, step) && SovereignFrom(p, s', log', rest))
  {
    assert ([step] + rest)[1..] == rest;
  }

  /** The directory in which `text` stands where a script of that name is looked for first. */
  function Planted(p: Policy, n: string, text: Content): Files
    requires p.extensions != []
  {
    Files(map[n + p.extensions[0] := text], map[n := text])
  }

  /** Somebody plants the text, and a manager is opened. */
  function Prepared(p: Policy, s: System, n: string, text: Content): System
    requires p.extensions != []
  {
    Advance(p, Advance(p, s, Scribble(Planted(p, n, text))).0, Open(0)).0
  }

  function PreparedLog(p: Policy, s: System, log: seq<Entry>, n: string, text: Content): seq<Entry>
    requires p.extensions != []
  {
    log + EntriesOf(p, s, Scribble(Planted(p, n, text)))
  }

  lemma PreparationKeepsLog(p: Policy, s: System, log: seq<Entry>, n: string, text: Content)
    requires p.extensions != []
    ensures
      var log1 := PreparedLog(p, s, log, n, text);
      Force(log1, n, p.auto) == Force(log, n, p.auto) && Offer(log1, n) == Offer(log, n)
  {
    OtherEntry(log, EntriesOf(p, s, Scribble(Planted(p, n, text)))[0], n, p.auto);
  }

  /** What breaks the promise after the preparation breaks it before. */
  lemma PreparedFirst(p: Policy, s: System, log: seq<Entry>, n: string, text: Content, rest: seq<Step>)
    requires p.extensions != []
    requires OrderlyFrom(p, Prepared(p, s, n, text), rest)
    requires !SovereignFrom(p, Prepared(p, s, n, text), PreparedLog(p, s, log, n, text), rest)
    ensures
      var steps := [Scribble(Planted(p, n, text))] + ([Open(0)] + rest);
      OrderlyFrom(p, s, steps) && !SovereignFrom(p, s, log, steps)
  {
    var plant, open := Scribble(Planted(p, n, text)), Open(0);
    var s1, log1 := Advance(p, s, plant).0, PreparedLog(p, s, log, n, text);
    assert log1 + EntriesOf(p, s1, open) == log1;
    Append(p, s1, log1, open, rest);
    Append(p, s, log, plant, [open] + rest);
  }

  /** An approved digest of some text is run by anyone who plants the text. */
  lemma StandingRuns(p: Policy, s: System, log: seq<Entry>, n: string, text: Content) returns (steps: seq<Step>)
    requires p.extensions != [] && Standing(Lookup(Load(s.json), n)) == Some(p.md5(text))
    requires Force(log, n, p.auto) != Some(p.md5(text))
    ensures OrderlyFrom(p, s, steps) && !SovereignFrom(p, s, log, steps)
  {
    var submit, s2, log1 := Submit(0, n, true), Prepared(p, s, n, text), PreparedLog(p, s, log, n, text);
    PreparationKeepsLog(p, s, log, n, text);
    ForceIsInForce(log1, n, p.md5(text), p.auto);
    PlantedRuns(p, s2, n, text);
    Append(p, s2, log1, submit, []);
    PreparedFirst(p, s, log, n, text, [submit] + []);
    steps := [Scribble(Planted(p, n, text))] + ([Open(0)] + ([submit] + []));
  }

  lemma PlantedRuns(p: Policy, s: System, n: string, text: Content)
    requires p.extensions != [] && 0 in s.caches && s.caches[0] == Cache(Load(s.json), s.stamp)
    requires s.files == Planted(p, n, text) && Standing(Lookup(Load(s.json), n)) == Some(p.md5(text))
    ensures Advance(p, s, Submit(0, n, true)).1 == Replied(Judged(Ran(n + p.extensions[0], text)))
  {
    assert Candidate(n, p.extensions, s.files.scripts) == Some(n + p.extensions[0]);
  }

  lemma UnusedSignature(used: set<Signature>) returns (sig: Signature)
    ensures sig !in used
  {
    var bound := AboveAll(used);
    sig := (bound, 0);
  }

  lemma {:induction false} AboveAll(used: set<Signature>) returns (bound: int)
    ensures forall sig :: sig in used ==> sig.0 < bound
  {
    if used == {} {
      bound := 0;
    } else {
      var sig :| sig in used;
      var rest := AboveAll(used - {sig});
      bound := if rest > sig.0 then rest else sig.0 + 1;
    }
  }

  /** An offered digest of some text is first approved by an unsuspecting owner. */
  lemma OfferedRuns(p: Policy, s: System, log: seq<Entry>, n: string, text: Content) returns (steps: seq<Step>)
    requires p.extensions != [] && Offered(Lookup(Load(s.json), n)) == Some(p.md5(text))
    requires Offer(log, n) != Some(p.md5(text))
    ensures OrderlyFrom(p, s, steps) && !SovereignFrom(p, s, log, steps)
  {
    var stamp := UnusedSignature(s.used);
    var approve, s2, log1 := Write(0, Approve(n), stamp), Prepared(p, s, n, text), PreparedLog(p, s, log, n, text);
    PreparationKeepsLog(p, s, log, n, text);
    ApprovedByOwner(p, s2, log1, n, stamp);
    var rest := StandingRuns(p, Advance(p, s2, approve).0, log1 + EntriesOf(p, s2, approve), n, text);
    Append(p, s2, log1, approve, rest);
    PreparedFirst(p, s, log, n, text, [approve] + rest);
    steps := [Scribble(Planted(p, n, text))] + ([Open(0)] + ([approve] + rest));
  }

  lemma ApprovedByOwner(p: Policy, s: System, log: seq<Entry>, n: string, stamp: Signature)
    requires 0 in s.caches && s.caches[0] == Cache(Load(s.json), s.stamp) && n in s.files.pending
    requires Offered(Lookup(Load(s.json), n)).Some?
    ensures
      var step := Write(0, Approve(n), stamp);
      && Standing(Lookup(Load(Advance(p, s, step).0.json), n)) == Offered(Lookup(Load(s.json), n))
      && Force(log + EntriesOf(p, s, step), n, p.auto) == Offer(log, n)
  {
    var h, op := Seen(s, 0), Approve(n);
    ForceOfEntry(log, op, OutcomeOf(h, op, p.auto), p.auto);
    assert View(h, n).record == Lookup(Load(s.json), n);
  }

  /**
   Only what is in force will ever run, whatever orderly steps follow, exactly when the file says
   nothing that the history does not back.
   */
  lemma SovereignExactlyWhenBacked(p: Policy, s: System, log: seq<Entry>)
    requires Coherent(s) && AllWellFormed(s) && p.extensions != []
    ensures Sovereign(p, s, log) <==> FileBacked(p, s, log)
  {
    if FileBacked(p, s, log) {
      forall steps | OrderlyFrom(p, s, steps) ensures SovereignFrom(p, s, log, steps) {
        BackedIsSovereign(p, s, log, steps);
      }
    } else {
      var n :| !BackedBy(p, Load(s.json), log, n);
      var record := Lookup(Load(s.json), n);
      var steps;
      if Standing(record).Some? && Attainable(p, Standing(record).value) && Force(log, n, p.auto) != Standing(record) {
        var text :| p.md5(text) == Standing(record).value;
        steps := StandingRuns(p, s, log, n, text);
      } else {
        var text :| p.md5(text) == Offered(record).value;
        steps := OfferedRuns(p, s, log, n, text);
      }
      assert !Sovereign(p, s, log);
    }
  }

  // ---------------------------------------------------------------------------------------
  // When a write is harmless
  // ---------------------------------------------------------------------------------------

  /**
   The history backs every record of the copy that the operation puts into the file as it is, and
   the offer that it promotes.
   */
  ghost predicate CopyBacked(p: Policy, copy: Store, log: seq<Entry>, op: Operation) {
    && (forall n :: n != op.name ==> BackedBy(p, copy, log, n))
    && (op.Approve? ==> BackedBy(p, copy, log, op.name))
  }

  lemma SavedTransitBacked(p: Policy, s: Slot, op: Operation, force: Option<Digest>, offer: Option<Digest>)
    requires Transit(s, op, p.auto).saved
    ensures
      var t := Transit(s, op, p.auto);
      && t.outcome.Done?
      && (Backed(p, t.slot.record, ForceAfter(op, force, offer, op.name in p.auto), if op.Stage? then Some(op.md5) else offer)
          <==> (op.Approve? ==> Backed(p, s.record, force, offer)))
  {
  }

  lemma SavedOperationBacked(p: Policy, h: Host, op: Operation, log: seq<Entry>)
    requires Transit(View(h, op.name), op, p.auto).saved
    ensures
      BackedBy(p, Apply(h, op, p.auto).store, log + [Entry(Operate(op), Answered(OutcomeOf(h, op, p.auto)))], op.name)
      <==> (op.Approve? ==> BackedBy(p, h.store, log, op.name))
  {
    var s, n := View(h, op.name), op.name;
    SavedTransitBacked(p, s, op, Force(log, n, p.auto), Offer(log, n));
    ForceOfEntry(log, op, OutcomeOf(h, op, p.auto), p.auto);
    assert Lookup(Apply(h, op, p.auto).store, n) == Transit(s, op, p.auto).slot.record;
  }

  lemma SavedWriteBacked(p: Policy, s: System, step: Step, log: seq<Entry>)
    requires step.Write? && step.id in s.caches
    requires Transit(View(Seen(s, step.id), step.op.name), step.op, p.auto).saved
    ensures FileBacked(p, Advance(p, s, step).0, log + EntriesOf(p, s, step))
            <==> CopyBacked(p, s.caches[step.id].store, log, step.op)
  {
    var h, n, s' := Seen(s, step.id), step.op.name, Advance(p, s, step).0;
    var x := Entry(Operate(step.op), Answered(OutcomeOf(h, step.op, p.auto)));
    assert EntriesOf(p, s, step) == [x] && Load(s'.json) == Apply(h, step.op, p.auto).store;
    SavedOperationBacked(p, h, step.op, log);
    forall m | m != n ensures BackedBy(p, Load(s'.json), log + [x], m) <==> BackedBy(p, h.store, log, m) {
      OtherNameBacked(p, h.store, Load(s'.json), log, x, m);
    }
  }

  /**
   A saving write, however old the writer's copy, is harmless over everything that can follow exactly
   when the copy it saves says nothing that the history does not back.
   */
  lemma WriteIsHarmlessExactlyWhenBacked(p: Policy, s: System, step: Step, log: seq<Entry>)
    requires Coherent(s) && AllWellFormed(s) && p.extensions != []
    requires Enabled(s, step) && step.Write?
    requires Transit(View(Seen(s, step.id), step.op.name), step.op, p.auto).saved
    ensures Sovereign(p, Advance(p, s, step).0, log + EntriesOf(p, s, step))
            <==> CopyBacked(p, s.caches[step.id].store, log, step.op)
  {
    StepIsCoherent(p, s, step);
    StepWellFormed(p, s, step);
    SavedWriteBacked(p, s, step, log);
    SovereignExactlyWhenBacked(p, Advance(p, s, step).0, log + EntriesOf(p, s, step));
  }

  /** A copy as new as a backed file is backed. */
  lemma UpToDateCopyIsBacked(p: Policy, s: System, id: ManagerId, log: seq<Entry>, op: Operation)
    requires Coherent(s) && FileBacked(p, s, log) && id in s.caches && s.caches[id].sig == s.stamp
    ensures CopyBacked(p, s.caches[id].store, log, op)
  {
    forall n ensures BackedBy(p, s.caches[id].store, log, n) {
      assert BackedBy(p, Load(s.json), log, n);
    }
  }

  /** With only orderly steps from an empty installation on, only what is in force ever runs. */
  lemma OrderlyRunsAreSovereign(p: Policy, steps: seq<Step>)
    requires OrderlyFrom(p, INITIAL, steps)
    ensures SovereignFrom(p, INITIAL, [], steps)
  {
    assert forall n :: Lookup(Load(INITIAL.json), n) == None;
    BackedIsSovereign(p, INITIAL, [], steps);
  }

  // ---------------------------------------------------------------------------------------
  // A run in which a cleared script executes
  // ---------------------------------------------------------------------------------------

  /**
   Policy approves `x`.  For a synchronisation of `y` the agent then looks; when the web page stages
   `y` again it does not.
   */
  function UntilTheReading(p: Policy, x: string, y: string, looks: bool): seq<Step> {
    [Open(0)] + [Write(0, Stage(x, "c", p.md5("c"), None), (1, 1))] + (if looks then [Read(0, y)] else [])
  }

  /** Before the agent stages `y`, the owner clears `x` on the command line. */
  function UntilTheClear(p: Policy, x: string, y: string, looks: bool): seq<Step> {
    UntilTheReading(p, x, y, looks) + [Open(1)] + [Write(1, Clear(x), (2, 1))]
  }

  /** The staging saves the copy that the agent read before. */
  function UntilTheRevival(p: Policy, x: string, y: string, looks: bool): seq<Step> {
    UntilTheClear(p, x, y, looks) + [Write(0, Stage(y, "e", p.md5("e"), None), (3, 1))]
  }

  /** Then somebody puts the file of `x` back. */
  function ClearedInTheGap(p: Policy, x: string, y: string, looks: bool): seq<Step>
    requires p.extensions != []
  {
    UntilTheRevival(p, x, y, looks) + [Scribble(Planted(p, x, "c"))]
  }

  /** What `x` has on record after the policy approved it. */
  function ByPolicy(p: Policy): Record {
    Record(Approved, Some(p.md5("c")), Some(Auto), None)
  }

  lemma OneMore(p: Policy, steps: seq<Step>, step: Step)
    ensures After(p, steps + [step]) == Advance(p, After(p, steps), step).0
    ensures Log(p, steps + [step]) == Log(p, steps) + EntriesOf(p, After(p, steps), step)
    ensures Valid(p, steps + [step]) <==> Valid(p, steps) && Enabled(After(p, steps), step)
  {
    assert (steps + [step])[..|steps|] == steps;
  }

  lemma StagedByPolicy(p: Policy, s: System, x: string)
    requires 0 in s.caches && s.caches[0].store == map[] && x in p.auto
    ensures
      var step := Write(0, Stage(x, "c", p.md5("c"), None), (1, 1));
      var s' := Advance(p, s, step).0;
      && s' == s'.(stamp := (1, 1), json := Some(map[x := ByPolicy(p)]), used := s.used + {(1, 1)},
                   caches := s.caches[0 := Cache(map[x := ByPolicy(p)], (1, 1))])
      && EntriesOf(p, s, step) == [Entry(Operate(step.op), Answered(Done(Approved)))]
  {
    assert Apply(Seen(s, 0), Stage(x, "c", p.md5("c"), None), p.auto).store == map[x := ByPolicy(p)];
  }

  lemma ClearedByOther(p: Policy, s: System, x: string)
    requires 1 in s.caches && s.caches[1].store == map[x := ByPolicy(p)]
    ensures
      var step := Write(1, Clear(x), (2, 1));
      var s' := Advance(p, s, step).0;
      && s' == s'.(stamp := (2, 1), json := Some(map[]), used := s.used + {(2, 1)},
                   caches := s.caches[1 := Cache(map[], (2, 1))])
      && EntriesOf(p, s, step) == [Entry(Operate(Clear(x)), Answered(Done(Absent)))]
  {
    assert Apply(Seen(s, 1), Clear(x), p.auto).store == map[];
  }

  lemma AtTheReading(p: Policy, x: string, y: string, looks: bool)
    requires p.auto == {x}
    ensures
      var steps := UntilTheReading(p, x, y, looks);
      var s := After(p, steps);
      && Valid(p, steps) && s.used == {NO_FILE, (1, 1)} && s.stamp == (1, 1) && s.json == Some(map[x := ByPolicy(p)])
      && s.caches == map[0 := Cache(map[x := ByPolicy(p)], (1, 1))]
  {
    var stage := Write(0, Stage(x, "c", p.md5("c"), None), (1, 1));
    OneMore(p, [], Open(0));
    OneMore(p, [Open(0)], stage);
    OneMore(p, [Open(0)] + [stage], Read(0, y));
    NothingAdded([Open(0)] + [stage]);
    assert [] + [Open(0)] == [Open(0)];
    StagedByPolicy(p, After(p, [Open(0)]), x);
  }

  lemma AtTheClear(p: Policy, x: string, y: string, looks: bool)
    requires p.auto == {x}
    ensures
      var steps := UntilTheClear(p, x, y, looks);
      var s := After(p, steps);
      && Valid(p, steps) && s.used == {NO_FILE, (1, 1), (2, 1)} && s.stamp == (2, 1) && s.json == Some(map[])
      && 0 in s.caches && s.caches[0] == Cache(map[x := ByPolicy(p)], (1, 1))
      && Force(Log(p, steps), x, p.auto) == None
  {
    var reading := UntilTheReading(p, x, y, looks);
    AtTheReading(p, x, y, looks);
    OneMore(p, reading, Open(1));
    OneMore(p, reading + [Open(1)], Write(1, Clear(x), (2, 1)));
    ClearedByOther(p, After(p, reading + [Open(1)]), x);
    ForceOfEntry(Log(p, reading + [Open(1)]), Clear(x), Done(Absent), p.auto);
  }

  lemma RevivedByStaging(p: Policy, s: System, x: string, y: string)
    requires x != y && 0 in s.caches && s.caches[0].store == map[x := ByPolicy(p)]
    ensures
      var step := Write(0, Stage(y, "e", p.md5("e"), None), (3, 1));
      var s' := Advance(p, s, step).0;
      && Lookup(Load(s'.json), x) == Some(ByPolicy(p)) && s'.stamp == (3, 1)
      && 0 in s'.caches && s'.caches[0] == Cache(Load(s'.json), (3, 1))
      && (exists reply :: EntriesOf(p, s, step) == [Entry(Operate(step.op), reply)])
  {
    var reply := Advance(p, s, Write(0, Stage(y, "e", p.md5("e"), None), (3, 1))).1.reply;
    assert EntriesOf(p, s, Write(0, Stage(y, "e", p.md5("e"), None), (3, 1)))
           == [Entry(Operate(Stage(y, "e", p.md5("e"), None)), reply)];
  }

  lemma AfterStagingAgain(p: Policy, steps: seq<Step>, x: string, y: string)
    requires x != y && Valid(p, steps) && (3, 1) !in After(p, steps).used
    requires 0 in After(p, steps).caches && After(p, steps).caches[0].store == map[x := ByPolicy(p)]
    ensures
      var all := steps + [Write(0, Stage(y, "e", p.md5("e"), None), (3, 1))];
      var s := After(p, all);
      && Valid(p, all) && Lookup(Load(s.json), x) == Some(ByPolicy(p))
      && 0 in s.caches && s.caches[0] == Cache(Load(s.json), s.stamp)
      && Force(Log(p, all), x, p.auto) == Force(Log(p, steps), x, p.auto)
  {
    var stage := Write(0, Stage(y, "e", p.md5("e"), None), (3, 1));
    RevivedByStaging(p, After(p, steps), x, y);
    OneMore(p, steps, stage);
    var reply :| EntriesOf(p, After(p, steps), stage) == [Entry(Operate(stage.op), reply)];
    OtherEntry(Log(p, steps), Entry(Operate(stage.op), reply), x, p.auto);
  }

  lemma AtTheRevival(p: Policy, x: string, y: string, looks: bool)
    requires p.auto == {x} && x != y
    ensures
      var steps := UntilTheRevival(p, x, y, looks);
      var s := After(p, steps);
      && Valid(p, steps) && Lookup(Load(s.json), x) == Some(ByPolicy(p))
      && 0 in s.caches && s.caches[0] == Cache(Load(s.json), s.stamp)
      && Force(Log(p, steps), x, p.auto) == None
  {
    AtTheClear(p, x, y, looks);
    AfterStagingAgain(p, UntilTheClear(p, x, y, looks), x, y);
  }

  lemma AtTheEnd(p: Policy, x: string, y: string, looks: bool)
    requires p.auto == {x} && x != y && p.extensions != []
    ensures
      var steps := ClearedInTheGap(p, x, y, looks);
      var s := After(p, steps);
      && Valid(p, steps) && Lookup(Load(s.json), x) == Some(ByPolicy(p)) && s.files == Planted(p, x, "c")
      && 0 in s.caches && s.caches[0] == Cache(Load(s.json), s.stamp)
      && Force(Log(p, steps), x, p.auto) == None
  {
    var revival, plant := UntilTheRevival(p, x, y, looks), Scribble(Planted(p, x, "c"));
    AtTheRevival(p, x, y, looks);
    OneMore(p, revival, plant);
    OtherEntry(Log(p, revival), EntriesOf(p, After(p, revival), plant)[0], x, p.auto);
  }

  /**
   The agent's copy was the file until the owner's `clear`, whether or not it looked once more.  After
   the `clear` the script is on no record, nothing has promoted it since, and yet it runs.
   */
  lemma ClearedScriptRuns(p: Policy, x: string, y: string, looks: bool)
    requires p.auto == {x} && x != y && p.extensions != []
    ensures
      var steps := ClearedInTheGap(p, x, y, looks);
      && Valid(p, steps)
      && Describe(Load(After(p, UntilTheClear(p, x, y, looks)).json), x).state == Absent
      && Describe(Load(After(p, UntilTheRevival(p, x, y, looks)).json), x) == Descriptor(x, Approved, Some(p.md5("c")), None)
      && Advance(p, After(p, steps), Submit(0, x, true)).1 == Replied(Judged(Ran(x + p.extensions[0], "c")))
      && !InForce(Log(p, steps), x, p.md5("c"), p.auto)
  {
    var steps := ClearedInTheGap(p, x, y, looks);
    AtTheClear(p, x, y, looks);
    AtTheRevival(p, x, y, looks);
    AtTheEnd(p, x, y, looks);
    ForceIsInForce(Log(p, steps), x, p.md5("c"), p.auto);
    PlantedRuns(p, After(p, steps), x, "c");
  }
}
