/**
 approvals.json against the script directories: when callers hand in honest digests and nobody
 else writes the directories, records and files agree in every reachable state.
 */
module RecordsAndFiles {
  import opened Wrappers
  import opened Approvals
  import opened ExecutionGate
  import opened Sovereignty

  /** The files of one name are exactly what its record promises. */
  ghost predicate FilesAgree(s: Slot, md5: Content -> Digest) {
    match s.State()
    case Absent => s == EMPTY_SLOT
    case Rejected => s == EMPTY_SLOT.(record := s.record)
    case Approved =>
      s.live.Some? && s.record.value.approvedMd5 == Some(md5(s.live.value))
      && s.staged.None? && s.stagedMeta.None?
    case UpdatePending =>
      && s.live.Some? && s.record.value.approvedMd5 == Some(md5(s.live.value))
      && s.staged.Some? && s.record.value.pendingMd5 == Some(md5(s.staged.value))
    case Pending =>
      s.staged.Some? && s.record.value.pendingMd5 == Some(md5(s.staged.value))
  }

  predicate HonestOperation(op: Operation, md5: Content -> Digest) {
    op.Stage? ==> op.md5 == md5(op.content)
  }

  predicate Honest(events: seq<Event>, md5: Content -> Digest) {
    forall i :: 0 <= i < |events| ==> events[i].Operate? ==> HonestOperation(events[i].op, md5)
  }

  predicate Untampered(events: seq<Event>) {
    forall i :: 0 <= i < |events| ==> !events[i].Tamper?
  }

  /** No operation of the run is on a name that shares a path with `n`. */
  predicate Unaliased(events: seq<Event>, n: string) {
    forall i :: 0 <= i < |events| ==> events[i].Operate? ==> !Alias(events[i].op.name, n)
  }

  lemma TransitKeepsAgreement(s: Slot, op: Operation, auto: set<string>, md5: Content -> Digest)
    requires FilesAgree(s, md5) && HonestOperation(op, md5)
    ensures FilesAgree(Transit(s, op, auto).slot, md5)
  {
  }

  lemma {:induction false} RecordsAndFilesAgree(p: Policy, events: seq<Event>, n: string)
    requires Honest(events, p.md5) && Untampered(events) && Unaliased(events, n)
    ensures FilesAgree(View(Replay(p, events).host, n), p.md5)
  {
    if events != [] {
      var m := |events| - 1;
      RecordsAndFilesAgree(p, events[..m], n);
      var h, e := Replay(p, events[..m]).host, events[m];
      if e.Operate? {
        var t := Transit(View(h, e.op.name), e.op, p.auto);
        if e.op.name == n {
          TransitKeepsAgreement(View(h, n), e.op, p.auto, p.md5);
          PutView(h, n, t.slot);
        } else {
          PutFrame(h, e.op.name, t.slot, n);
        }
      }
    }
  }

  /**
   In such a run an approved script is never refused for integrity, except when a file with one
   of the earlier extensions shadows its own.
   */
  lemma ApprovedScriptRunsUnlessShadowed(p: Policy, events: seq<Event>, n: string)
    requires Honest(events, p.md5) && Untampered(events) && Unaliased(events, n)
    requires "" in p.extensions
    requires Describe(Replay(p, events).host.store, n).state == Approved
    ensures
      var h := Replay(p, events).host;
      var file := Candidate(n, p.extensions, h.files.scripts);
      && file.Some? && n in h.files.scripts
      && (Gate(Describe(h.store, n), h.files.scripts, p.extensions, p.md5, true)
            == Ran(file.value, h.files.scripts[file.value])
          <==> p.md5(h.files.scripts[file.value]) == p.md5(h.files.scripts[n]))
      && (file.value == n ==>
            Gate(Describe(h.store, n), h.files.scripts, p.extensions, p.md5, true) == Ran(n, h.files.scripts[n]))
  {
    RecordsAndFilesAgree(p, events, n);
    var h := Replay(p, events).host;
    var i :| 0 <= i < |p.extensions| && p.extensions[i] == "";
    assert n + p.extensions[i] == n;
    assert Candidate(n, p.extensions, h.files.scripts).Some?;
  }

  /**
   Without digest collisions, and even when the directories are tampered with, every execution
   runs the very text that was staged under that name.
   */
  lemma ExecutedBytesWereStaged(p: Policy, events: seq<Event>, i: nat) returns (k: nat)
    requires Honest(events, p.md5)
    requires forall a, b :: p.md5(a) == p.md5(b) ==> a == b
    requires i < |events| && events[i].Execute?
    requires var reply := Replay(p, events).log[i].reply; reply.Judged? && reply.verdict.Ran?
    ensures k < i && events[k].Operate? && events[k].op.Stage?
    ensures events[k].op.name == events[i].name
    ensures events[k].op.content == Replay(p, events).log[i].reply.verdict.bytes
  {
    OnlyWhatIsInForceRuns(p, events, i);
    var log := Replay(p, events).log[..i];
    var n, bytes := events[i].name, Replay(p, events).log[i].reply.verdict.bytes;
    var d := p.md5(bytes);
    var j :| 0 <= j < |log| && Promotes(log, j, n, d, p.auto) && forall l :: j < l < |log| ==> !Ends(log[l], n, d);
    if Stages(log[j], n, d) {
      k := j;
    } else {
      k :| 0 <= k < j && Stages(log[k], n, d) && forall l :: k < l < j ==> !StagesSome(log[l], n);
    }
    LogPrefix(p, events, k);
  }

  /**
   What the owner approves is what was offered last: the script and, if the offer came with any, its
   metadata; otherwise earlier metadata stays.
   */
  lemma ApprovalPublishesOffer(s: Slot, content: Content, md5: Digest, meta: Option<Content>)
    requires StageSlot(s, content, md5, meta, false).saved
    ensures
      var offered := StageSlot(s, content, md5, meta, false).slot;
      var approved := ApproveSlot(offered);
      && approved.outcome == Done(Approved)
      && approved.slot.live == Some(content)
      && approved.slot.record.value.approvedMd5 == Some(md5)
      && approved.slot.liveMeta ==
           (if meta.Some? then meta else if s.stagedMeta.Some? then s.stagedMeta else s.liveMeta)
      && (approved.slot.live, approved.slot.liveMeta)
         == (StageSlot(s, content, md5, meta, true).slot.live, StageSlot(s, content, md5, meta, true).slot.liveMeta)
  {
  }

  /** Staging `x` with metadata `m` puts `m` where the staged copy of a script named `x.meta.yaml` lives. */
  lemma MetadataOverwritesNamesake(h: Host, x: string, content: Content, md5: Digest, m: Content)
    requires View(h, x).State() == Absent
    ensures
      var after := View(Apply(h, Stage(x, content, md5, Some(m)), {}), x + META);
      after.staged == Some(m) && after.record == View(h, x + META).record
  {
    MetaPathDiffers(x);
    MetaPathDiffers(x + META);
    assert StageSlot(View(h, x), content, md5, Some(m), false).slot.stagedMeta == Some(m);
  }

  predicate Only(events: seq<Event>, x: string, y: string) {
    forall i :: 0 <= i < |events| ==> events[i].Operate? ==> events[i].op.name in {x, y}
  }

  /** Staging `x.meta.yaml` puts a file where `x`, of which there is no record, has its metadata. */
  lemma NamesakeLeavesMetadata(p: Policy, x: string, text: Content)
    ensures
      var events := [Operate(Stage(x + META, text, p.md5(text), None))];
      && Honest(events, p.md5) && Untampered(events)
      && !FilesAgree(View(Replay(p, events).host, x), p.md5)
  {
    var y, op := x + META, Stage(x + META, text, p.md5(text), None);
    var events := [Operate(op)];
    assert events[..0] == [];
    var slot := Transit(View(EMPTY_HOST, y), op, p.auto).slot;
    PutView(EMPTY_HOST, y, slot);
    MetaPathDiffers(x);
    assert Replay(p, events).host == Apply(EMPTY_HOST, op, p.auto);
  }

  /**
   Records and files agree for two names in every honest, untampered run over them exactly when
   neither is the metadata path of the other, whatever the digest.
   */
  lemma AgreementExactlyWhenUnaliased(p: Policy, x: string, y: string)
    ensures
      (forall events :: Honest(events, p.md5) && Untampered(events) && Only(events, x, y) ==>
         FilesAgree(View(Replay(p, events).host, x), p.md5) && FilesAgree(View(Replay(p, events).host, y), p.md5))
      <==> !Alias(x, y)
  {
    MetaPathDiffers(x);
    MetaPathDiffers(y);
    if !Alias(x, y) {
      forall events | Honest(events, p.md5) && Untampered(events) && Only(events, x, y)
        ensures FilesAgree(View(Replay(p, events).host, x), p.md5) && FilesAgree(View(Replay(p, events).host, y), p.md5)
      {
        RecordsAndFilesAgree(p, events, x);
        RecordsAndFilesAgree(p, events, y);
      }
    } else if y == x + META {
      NamesakeLeavesMetadata(p, x, "a");
      assert Only([Operate(Stage(y, "a", p.md5("a"), None))], x, y);
    } else {
      NamesakeLeavesMetadata(p, y, "a");
      assert Only([Operate(Stage(x, "a", p.md5("a"), None))], x, y);
    }
  }

  /** The namesake itself loses agreement when `x` is staged with metadata of another digest. */
  lemma AliasBreaksAgreement(p: Policy, x: string, a: Content, b: Content, m: Content)
    requires p.md5(a) != p.md5(m)
    ensures
      var events := [Operate(Stage(x + META, a, p.md5(a), None)), Operate(Stage(x, b, p.md5(b), Some(m)))];
      && Honest(events, p.md5) && Untampered(events)
      && !FilesAgree(View(Replay(p, events).host, x + META), p.md5)
  {
    var y := x + META;
    var op1, op2 := Stage(y, a, p.md5(a), None), Stage(x, b, p.md5(b), Some(m));
    var events := [Operate(op1), Operate(op2)];
    assert events[..1] == [Operate(op1)] && events[..1][..0] == [];
    var h1 := Apply(EMPTY_HOST, op1, p.auto);
    assert Replay(p, events[..1]).host == h1;
    assert events[|events| - 1] == Operate(op2) && events[..|events| - 1] == events[..1];
    assert Replay(p, events).host == Apply(h1, op2, p.auto);
    NamesakeAfterStaging(p, h1, x, b, m);
    PutView(EMPTY_HOST, y, Transit(View(EMPTY_HOST, y), op1, p.auto).slot);
    MetaPathDiffers(x);
  }

  /** The namesake keeps its record while its file becomes the metadata of `x`. */
  lemma NamesakeAfterStaging(p: Policy, h: Host, x: string, b: Content, m: Content)
    requires View(h, x).State() == Absent
    ensures
      var after := View(Apply(h, Stage(x, b, p.md5(b), Some(m)), p.auto), x + META);
      && after.record == View(h, x + META).record
      && (if x in p.auto then after.live == Some(m) && after.staged == None else after.staged == Some(m))
  {
    MetaPathDiffers(x);
    MetaPathDiffers(x + META);
    assert View(h, x).record.Some? ==> View(h, x).State() == View(h, x).record.value.state;
  }

  // ---------------------------------------------------------------------------------------
  // The file in scripts/
  // ---------------------------------------------------------------------------------------

  /** Entry: the agent puts a text of `n` into scripts/, or at least one is there already. */
  predicate Publishes(x: Entry, n: string, auto: set<string>) {
    Approves(x, n) || (n in auto && StagesSome(x, n))
  }

  /** A text of `n` was published, and nothing has been withdrawn since. */
  predicate Published(log: seq<Entry>, n: string, auto: set<string>) {
    exists i :: 0 <= i < |log| && Publishes(log[i], n, auto) && forall j :: i < j < |log| ==> !Withdraws(log[j], n)
  }

  lemma PublishedGrows(log: seq<Entry>, x: Entry, n: string, auto: set<string>)
    ensures Published(log + [x], n, auto)
            <==> Publishes(x, n, auto) || (Published(log, n, auto) && !Withdraws(x, n))
  {
    var all := log + [x];
    assert all[|log|] == x;
    if Published(log, n, auto) && !Withdraws(x, n) {
      var i :| 0 <= i < |log| && Publishes(log[i], n, auto) && forall j :: i < j < |log| ==> !Withdraws(log[j], n);
      assert Publishes(all[i], n, auto);
    }
    if Published(all, n, auto) && !Publishes(x, n, auto) {
      var i :| 0 <= i < |all| && Publishes(all[i], n, auto) && forall j :: i < j < |all| ==> !Withdraws(all[j], n);
      assert Publishes(log[i], n, auto);
      assert forall j :: i < j < |log| ==> log[j] == all[j];
    }
  }

  /** The slot has a file in scripts/ exactly if a text is published, and always when it was approved. */
  predicate LiveFollows(s: Slot, published: bool) {
    && (s.live.Some? <==> published)
    && (s.State() in {Approved, UpdatePending} ==> s.live.Some?)
  }

  lemma TransitFollowsLive(s: Slot, op: Operation, auto: set<string>, published: bool)
    requires LiveFollows(s, published)
    requires op.name in auto ==> s.State() !in {Pending, UpdatePending}
    ensures
      var t := Transit(s, op, auto);
      var x := Entry(Operate(op), Answered(t.outcome));
      LiveFollows(t.slot, Publishes(x, op.name, auto) || (published && !Withdraws(x, op.name)))
  {
  }

  /** One event of another name, or none of anybody. */
  lemma OtherEventKeepsLive(p: Policy, h: Host, e: Event, n: string)
    requires !e.Tamper? && (e.Operate? ==> e.op.name != n && !Alias(e.op.name, n))
    ensures View(React(p, h, e).0, n) == View(h, n)
    ensures var x := Entry(e, React(p, h, e).1); !Publishes(x, n, p.auto) && !Withdraws(x, n)
  {
    if e.Operate? { PutFrame(h, e.op.name, Transit(View(h, e.op.name), e.op, p.auto).slot, n); }
  }

  lemma {:induction false} LiveFollowsLog(p: Policy, events: seq<Event>, n: string)
    requires Untampered(events) && Unaliased(events, n)
    ensures LiveFollows(View(Replay(p, events).host, n), Published(Replay(p, events).log, n, p.auto))
  {
    if events != [] {
      var before, e := events[..|events| - 1], events[|events| - 1];
      var h, log := Replay(p, before).host, Replay(p, before).log;
      LiveFollowsLog(p, before, n);
      LastEntry(p, events);
      PublishedGrows(log, Entry(e, React(p, h, e).1), n, p.auto);
      if e.Operate? && e.op.name == n {
        RecordsFollowLog(p, before, n);
        TransitFollowsLive(View(h, n), e.op, p.auto, Published(log, n, p.auto));
        PutView(h, n, Transit(View(h, n), e.op, p.auto).slot);
      } else {
        OtherEventKeepsLive(p, h, e, n);
      }
    }
  }

  /**
   `pending` does not mean that scripts/ holds no file of that name.  In every run in which nobody
   tampers, whatever the record says and whatever digests the callers hand in, there is one exactly
   when a text has been approved, by the owner or by policy, after the last reject or clear.
   */
  lemma FileExactlyWhenPublished(p: Policy, events: seq<Event>, n: string)
    requires Untampered(events) && Unaliased(events, n)
    ensures View(Replay(p, events).host, n).live.Some? <==> Published(Replay(p, events).log, n, p.auto)
  {
    LiveFollowsLog(p, events, n);
  }

  /** An approved script whose update is on offer. */
  function UpdateOffered(p: Policy, n: string, first: Content, update: Content): seq<Event> {
    [Operate(Stage(n, first, p.md5(first), None))] + [Operate(Approve(n))] + [Operate(Stage(n, update, p.md5(update), None))]
  }

  lemma OneMoreOperation(p: Policy, events: seq<Event>, op: Operation)
    ensures
      var h := Replay(p, events).host;
      View(Replay(p, events + [Operate(op)]).host, op.name) == Transit(View(h, op.name), op, p.auto).slot
  {
    var h := Replay(p, events).host;
    ReplayGrows(p, events, Operate(op));
    PutView(h, op.name, Transit(View(h, op.name), op, p.auto).slot);
  }

  lemma UpdateIsOffered(p: Policy, n: string, first: Content, update: Content)
    requires n !in p.auto && p.md5(first) != p.md5(update)
    ensures View(Replay(p, UpdateOffered(p, n, first, update)).host, n) == Slot(
      Some(Record(UpdatePending, Some(p.md5(first)), Some(Cli), Some(p.md5(update)))), Some(first), None, Some(update), None)
  {
    var stage, approve := Stage(n, first, p.md5(first), None), Approve(n);
    assert View(EMPTY_HOST, n) == EMPTY_SLOT;
    assert [Operate(stage)] == [] + [Operate(stage)];
    OneMoreOperation(p, [], stage);
    OneMoreOperation(p, [Operate(stage)], approve);
    OneMoreOperation(p, [Operate(stage)] + [Operate(approve)], Stage(n, update, p.md5(update), None));
  }

  /** An update offered, and another one after it. */
  function UpdateSuperseded(p: Policy, n: string, first: Content, update: Content, newest: Content): seq<Event> {
    UpdateOffered(p, n, first, update) + [Operate(Stage(n, newest, p.md5(newest), None))]
  }

  lemma SupersedingIsHonest(p: Policy, n: string, first: Content, update: Content, newest: Content)
    ensures
      var events := UpdateSuperseded(p, n, first, update, newest);
      Honest(events, p.md5) && Untampered(events) && Unaliased(events, n)
  {
    assert |n + META| != |n|;
  }

  /** The run: an update that is itself superseded makes the record plain `pending` over the first text. */
  lemma SupersededUpdateLeavesOldFile(p: Policy, n: string, first: Content, update: Content, newest: Content)
    requires n !in p.auto && p.md5(first) != p.md5(update) && p.md5(update) != p.md5(newest)
    ensures
      var events := UpdateSuperseded(p, n, first, update, newest);
      && Honest(events, p.md5) && Untampered(events) && Unaliased(events, n)
      && View(Replay(p, events).host, n)
         == Slot(Some(Record(Pending, None, None, Some(p.md5(newest)))), Some(first), None, Some(newest), None)
  {
    UpdateIsOffered(p, n, first, update);
    OneMoreOperation(p, UpdateOffered(p, n, first, update), Stage(n, newest, p.md5(newest), None));
    SupersedingIsHonest(p, n, first, update, newest);
  }
}
