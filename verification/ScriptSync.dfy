/**
 The control station's side of a deployment (control_station_lite/server/core/script_sync.py):
 read the agent's state, stage if the agent lacks the canonical version, remember the result.
 */
module ScriptSync {
  import opened Wrappers
  import opened Approvals
  import opened Sovereignty
  import opened RecordsAndFiles

  datatype ScriptRow = ScriptRow(
    name: string, content: Content, meta: Option<Content>, md5: Digest, persistent: bool)

  /** A state as the control station stores it: the agent's vocabulary plus `approved_stale`. */
  datatype Resolved = FromAgent(state: ApprovalState) | ApprovedStale

  /** A row of `script_target_state`. */
  datatype TargetState = TargetState(state: Resolved, approvedMd5: Option<Digest>, pendingMd5: Option<Digest>)

  /** The agent afterwards, the answer (None: the agent refused the staging), the row, the number of stagings. */
  datatype SyncResult = SyncResult(host: Host, resolved: Option<Resolved>, row: Option<TargetState>, stagings: nat)

  function Staging(script: ScriptRow): Operation {
    Stage(script.name, script.content, script.md5, script.meta)
  }

  function Assess(d: Descriptor, script: ScriptRow): Resolved {
    if d.state == Approved && d.approvedMd5 != Some(script.md5) then ApprovedStale else FromAgent(d.state)
  }

  predicate MustStage(d: Descriptor, script: ScriptRow) {
    d.state == Absent || Assess(d, script) == ApprovedStale
  }

  /**
   How the two requests of a synchronisation go: whether each one's answer arrives, and what the
   owner does on the command line between the first and the second.
   */
  datatype Gap = Gap(looked: bool, ops: seq<Operation>, staged: bool)

  const UNDISTURBED := Gap(true, [], true)

  /** A manager that read `copy` and nothing since performs an operation on the installation as it is. */
  function ApplyUnread(copy: Store, h: Host, op: Operation, auto: set<string>): Host {
    var seen := Host(copy, h.files);
    if Transit(View(seen, op.name), op, auto).saved then Apply(seen, op, auto) else h
  }

  function Sync(h: Host, gap: Gap, script: ScriptRow, auto: set<string>): SyncResult {
    var d := Describe(h.store, script.name);
    if !gap.looked then SyncResult(h, None, None, 0)
    else if MustStage(d, script) then
      var g := ApplyAll(h, gap.ops, auto);
      var after := ApplyUnread(h.store, g, Staging(script), auto);
      match OutcomeOf(Host(h.store, g.files), Staging(script), auto)
      case Refused(_) => SyncResult(after, None, None, 1)
      case Done(state) =>
        if gap.staged
        then SyncResult(after, Some(FromAgent(state)),
                        Some(TargetState(FromAgent(state), d.approvedMd5, d.pendingMd5)), 1)
        else SyncResult(after, None, None, 1)
    else
      var resolved := Assess(d, script);
      SyncResult(h, Some(resolved), Some(TargetState(resolved, d.approvedMd5, d.pendingMd5)), 0)
  }

  type StateKey = (int, string)

  /** The cache table of the control station. */
  class StateCache {
    var rows: map<StateKey, TargetState>

    constructor ()
      ensures rows == map[]
    {
      rows := map[];
    }

    method Upsert(machine: int, script: string, resolved: Resolved, d: Descriptor)
      modifies this
      ensures rows == old(rows)[(machine, script) := TargetState(resolved, d.approvedMd5, d.pendingMd5)]
    {
      if (machine, script) !in rows {
        rows := rows[(machine, script) := TargetState(resolved, d.approvedMd5, d.pendingMd5)];
      } else {
        var row := rows[(machine, script)];
        row := row.(state := resolved);
        row := row.(approvedMd5 := d.approvedMd5);
        row := row.(pendingMd5 := d.pendingMd5);
        rows := rows[(machine, script) := row];
      }
    }

    /**
     One synchronisation with an agent; `stamps` and `stamp` are the signatures approvals.json gets
     from the owner's commands and from the staging.
     */
    method SyncScript(machine: int, script: ScriptRow, agent: ApprovalsManager, gap: Gap,
                      stamps: seq<Signature>, stamp: Signature) returns (answer: Option<Resolved>)
      requires agent.sig == agent.disk.stamp ==> agent.store == Load(agent.disk.json)
      requires |stamps| == |gap.ops| && agent.disk.stamp !in stamps
      modifies this, agent, agent.disk
      ensures var r := Sync(old(agent.Current()), gap, script, agent.autoApprove);
        && agent.Sees() == r.host
        && answer == r.resolved
        && rows == (if r.row.Some? then old(rows)[(machine, script.name) := r.row.value] else old(rows))
      ensures agent.sig == agent.disk.stamp && agent.store == Load(agent.disk.json)
      ensures agent.disk.stamp in {old(agent.disk.stamp), stamp}
    {
      var descriptor := agent.GetState(script.name);
      if !gap.looked {
        return None;
      }
      var resolved: Resolved;
      if descriptor.state == Approved {
        if descriptor.approvedMd5 != Some(script.md5) {
          resolved := ApprovedStale;
        } else {
          resolved := FromAgent(Approved);
        }
      } else {
        resolved := FromAgent(descriptor.state);
      }
      if descriptor.state == Absent || resolved == ApprovedStale {
        var response := StageAfterCommands(script, agent, gap.ops, stamps, stamp);
        if response.Refused? || !gap.staged {
          return None;
        }
        resolved := FromAgent(response.state);
      }
      Upsert(machine, script.name, resolved, descriptor);
      return Some(resolved);
    }
  }

  /** The owner's commands, and the agent's `stage` on the copy it read before them. */
  method StageAfterCommands(script: ScriptRow, agent: ApprovalsManager, ops: seq<Operation>,
                            stamps: seq<Signature>, stamp: Signature) returns (outcome: Outcome)
    requires agent.sig == agent.disk.stamp && agent.store == Load(agent.disk.json)
    requires MustStage(Describe(agent.store, script.name), script)
    requires |stamps| == |ops| && agent.disk.stamp !in stamps
    modifies agent, agent.disk
    ensures
      var g := ApplyAll(old(agent.Sees()), ops, agent.autoApprove);
      && agent.Sees() == ApplyUnread(old(agent.store), g, Staging(script), agent.autoApprove)
      && outcome == OutcomeOf(Host(old(agent.store), g.files), Staging(script), agent.autoApprove)
    ensures agent.disk.stamp == stamp && agent.sig == stamp && agent.store == Load(agent.disk.json)
  {
    RunCommands(agent.disk, agent.autoApprove, ops, stamps, agent.disk.stamp);
    StagingIsDue(agent.Sees(), script, agent.autoApprove);
    outcome := agent.Stage(script.name, script.content, script.md5, script.meta, stamp);
  }

  /** Where a staging is due it is accepted and saved. */
  lemma StagingIsDue(seen: Host, script: ScriptRow, auto: set<string>)
    requires MustStage(Describe(seen.store, script.name), script)
    ensures
      var t := Transit(View(seen, script.name), Staging(script), auto);
      t.saved && t.outcome.Done? && (t.outcome.state == Approved <==> script.name in auto)
  {
  }

  // ---------------------------------------------------------------------------------------
  // The contract
  // ---------------------------------------------------------------------------------------

  /** In every reachable store a record has a real state, and an approved record offers nothing. */
  ghost predicate Settled(h: Host, name: string) {
    var record := Lookup(h.store, name);
    record.Some? ==>
      && record.value.state != Absent
      && (record.value.state == Approved ==> record.value.approvedMd5.Some? && record.value.pendingMd5.None?)
  }

  lemma ReachableIsSettled(p: Policy, events: seq<Event>, name: string)
    ensures Settled(Replay(p, events).host, name)
  {
    RecordsFollowLog(p, events, name);
  }

  /**
   Whatever the owner does between the two requests, synchronising never runs into the agent's
   refusal and never reports `approved_stale`; it has an answer exactly when both requests were
   answered.  It reports `approved` exactly when the agent now holds the canonical digest as
   approved, and the state it reports and caches is the agent's.  It stages exactly when the agent
   had no version or an outdated approved one; the cached digests are those it had before, so exactly
   then they lag behind.
   */
  lemma SyncContract(h: Host, gap: Gap, script: ScriptRow, auto: set<string>)
    requires Settled(h, script.name)
    ensures
      var r := Sync(h, gap, script, auto);
      var before, after := Describe(h.store, script.name), Describe(r.host.store, script.name);
      && r.stagings <= 1
      && (r.stagings == 1
          <==> gap.looked
               && (before.state == Absent || (before.state == Approved && before.approvedMd5 != Some(script.md5))))
      && (r.resolved.Some? <==> gap.looked && (r.stagings == 1 ==> gap.staged))
      && (r.row.Some? <==> r.resolved.Some?)
      && (r.resolved.Some? ==>
            && r.row.value.state == r.resolved.value == FromAgent(after.state)
            && r.row.value.approvedMd5 == before.approvedMd5 && r.row.value.pendingMd5 == before.pendingMd5
            && (r.resolved.value == FromAgent(Approved)
                <==> after.state == Approved && after.approvedMd5 == Some(script.md5))
            && ((r.row.value.approvedMd5, r.row.value.pendingMd5) == (after.approvedMd5, after.pendingMd5)
                <==> r.stagings == 0))
  {
    if gap.looked && MustStage(Describe(h.store, script.name), script) {
      var seen := Host(h.store, ApplyAll(h, gap.ops, auto).files);
      StagingIsDue(seen, script, auto);
      PutView(seen, script.name, Transit(View(seen, script.name), Staging(script), auto).slot);
    }
  }

  /**
   A staging forgets what the owner did since the agent's state was read: the records afterwards
   are those of an undisturbed synchronisation, and every other name's record is what it was at the
   reading.
   */
  lemma StagingForgetsCommands(h: Host, gap: Gap, script: ScriptRow, auto: set<string>)
    requires gap.looked && MustStage(Describe(h.store, script.name), script)
    ensures
      var r := Sync(h, gap, script, auto);
      && r.host.store == Sync(h, UNDISTURBED, script, auto).host.store
      && (forall m :: m != script.name ==> Lookup(r.host.store, m) == Lookup(h.store, m))
  {
    var seen := Host(h.store, ApplyAll(h, gap.ops, auto).files);
    StagingIsDue(seen, script, auto);
    StagingIsDue(h, script, auto);
    assert Transit(View(seen, script.name), Staging(script), auto).slot.record
           == Transit(View(h, script.name), Staging(script), auto).slot.record;
  }

  /**
   What a staging brings to the agent: the canonical text, digest and metadata, live where policy accepts
   them and else on offer, beside whatever files the owner's commands have left.
   */
  lemma StagingDelivers(h: Host, gap: Gap, script: ScriptRow, auto: set<string>)
    requires gap.looked && MustStage(Describe(h.store, script.name), script)
    ensures
      var s, left := View(Sync(h, gap, script, auto).host, script.name), View(ApplyAll(h, gap.ops, auto), script.name);
      var meta := if script.meta.Some? then script.meta else left.stagedMeta;
      if script.name in auto then
        s == Slot(Some(Record(Approved, Some(script.md5), Some(Auto), None)), Some(script.content),
                  if meta.Some? then meta else left.liveMeta, None, None)
      else
        && s.staged == Some(script.content) && s.stagedMeta == meta && s.live == left.live && s.liveMeta == left.liveMeta
        && s.record.Some? && s.record.value.pendingMd5 == Some(script.md5)
  {
    var seen := Host(h.store, ApplyAll(h, gap.ops, auto).files);
    StagingIsDue(seen, script, auto);
    PutView(seen, script.name, Transit(View(seen, script.name), Staging(script), auto).slot);
  }

  /**
   A second synchronisation with nobody in between changes nothing on the agent, and the cached row
   catches up with it.
   */
  lemma SecondSyncSettlesCache(h: Host, gap: Gap, script: ScriptRow, auto: set<string>)
    requires Settled(h, script.name) && Sync(h, gap, script, auto).resolved.Some?
    ensures
      var once := Sync(h, gap, script, auto);
      var twice := Sync(once.host, UNDISTURBED, script, auto);
      var d := Describe(once.host.store, script.name);
      && twice.host == once.host && twice.stagings == 0 && twice.resolved == once.resolved
      && twice.row == Some(TargetState(FromAgent(d.state), d.approvedMd5, d.pendingMd5))
  {
    SyncContract(h, gap, script, auto);
    if MustStage(Describe(h.store, script.name), script) {
      var seen := Host(h.store, ApplyAll(h, gap.ops, auto).files);
      StagingIsDue(seen, script, auto);
      PutView(seen, script.name, Transit(View(seen, script.name), Staging(script), auto).slot);
    }
  }

  // ---------------------------------------------------------------------------------------
  // Convergence
  // ---------------------------------------------------------------------------------------

  /** The station synchronises, then the owner approves whatever is on offer. */
  function Round(h: Host, script: ScriptRow, auto: set<string>): Host {
    Apply(Sync(h, UNDISTURBED, script, auto).host, Approve(script.name), auto)
  }

  function Rounds(h: Host, script: ScriptRow, auto: set<string>, n: nat): Host
    decreases n
  {
    if n == 0 then h else Rounds(Round(h, script, auto), script, auto, n - 1)
  }

  predicate UpToDate(h: Host, script: ScriptRow) {
    var d := Describe(h.store, script.name);
    d.state == Approved && d.approvedMd5 == Some(script.md5)
  }

  /** Offers come with a file and a digest, as in every untampered reachable state. */
  predicate OffersComplete(s: Slot) {
    && (s.record.Some? ==> s.State() != Absent)
    && (s.State() in {Pending, UpdatePending} ==> s.staged.Some? && s.record.value.pendingMd5.Some?)
  }

  lemma TransitKeepsOffers(s: Slot, op: Operation, auto: set<string>)
    requires OffersComplete(s)
    ensures OffersComplete(Transit(s, op, auto).slot)
  {
  }

  lemma {:induction false} ReachableOffersComplete(p: Policy, events: seq<Event>, n: string)
    requires Untampered(events) && Unaliased(events, n)
    ensures OffersComplete(View(Replay(p, events).host, n))
  {
    if events != [] {
      var m := |events| - 1;
      ReachableOffersComplete(p, events[..m], n);
      var h, e := Replay(p, events[..m]).host, events[m];
      if e.Operate? {
        var t := Transit(View(h, e.op.name), e.op, p.auto);
        if e.op.name == n {
          TransitKeepsOffers(View(h, n), e.op, p.auto);
          PutView(h, n, t.slot);
        } else {
          PutFrame(h, e.op.name, t.slot, n);
        }
      }
    }
  }

  /** How many rounds are missing; an outdated offer that is already queued costs one more. */
  function Distance(s: Slot, md5: Digest): nat {
    if s.State() == Approved && s.record.value.approvedMd5 == Some(md5) then 0
    else if s.State() in {Pending, UpdatePending} && s.record.value.pendingMd5 != Some(md5) then 2
    else 1
  }

  function SyncSlot(s: Slot, script: ScriptRow, auto: bool): Slot {
    if s.State() == Absent || (s.State() == Approved && s.record.value.approvedMd5 != Some(script.md5))
    then StageSlot(s, script.content, script.md5, script.meta, auto).slot
    else s
  }

  lemma SlotRoundApproaches(s: Slot, script: ScriptRow, auto: bool)
    requires OffersComplete(s) && s.State() != Rejected
    ensures
      var s' := ApproveSlot(SyncSlot(s, script, auto)).slot;
      && OffersComplete(s') && s'.State() != Rejected
      && (if Distance(s, script.md5) == 0 then s' == s
          else Distance(s', script.md5) == Distance(s, script.md5) - 1)
  {
  }

  lemma UndisturbedSync(h: Host, script: ScriptRow, auto: set<string>)
    ensures
      Sync(h, UNDISTURBED, script, auto).host
      == if MustStage(Describe(h.store, script.name), script) then Apply(h, Staging(script), auto) else h
  {
    if MustStage(Describe(h.store, script.name), script) { StagingIsDue(h, script, auto); }
  }

  lemma RoundOnSlots(h: Host, script: ScriptRow, auto: set<string>)
    ensures View(Round(h, script, auto), script.name)
            == ApproveSlot(SyncSlot(View(h, script.name), script, script.name in auto)).slot
  {
    var n := script.name;
    var synced := Sync(h, UNDISTURBED, script, auto).host;
    UndisturbedSync(h, script, auto);
    PutView(h, n, Transit(View(h, n), Staging(script), auto).slot);
    assert View(synced, n) == SyncSlot(View(h, n), script, n in auto);
    PutView(synced, n, Transit(View(synced, n), Approve(n), auto).slot);
  }

  lemma UpToDateRound(h: Host, script: ScriptRow, auto: set<string>)
    requires UpToDate(h, script)
    ensures Round(h, script, auto) == h
  {
    RefusalChangesNothing(h, Approve(script.name), auto);
  }

  /** Every round is one step closer, until nothing changes any more. */
  lemma RoundApproaches(h: Host, script: ScriptRow, auto: set<string>)
    requires OffersComplete(View(h, script.name)) && View(h, script.name).State() != Rejected
    ensures
      var h' := Round(h, script, auto);
      var s, s' := View(h, script.name), View(h', script.name);
      && OffersComplete(s') && s'.State() != Rejected
      && (if Distance(s, script.md5) == 0 then h' == h
          else Distance(s', script.md5) == Distance(s, script.md5) - 1)
      && (UpToDate(h', script) <==> Distance(s', script.md5) == 0)
  {
    RoundOnSlots(h, script, auto);
    SlotRoundApproaches(View(h, script.name), script, script.name in auto);
    if UpToDate(h, script) { UpToDateRound(h, script, auto); }
  }

  lemma RejectedStays(h: Host, script: ScriptRow, auto: set<string>)
    requires Describe(h.store, script.name).state == Rejected
    ensures Round(h, script, auto) == h
  {
    RefusalChangesNothing(h, Approve(script.name), auto);
  }

  lemma {:induction false} FixedPoint(h: Host, script: ScriptRow, auto: set<string>, n: nat)
    requires Round(h, script, auto) == h
    ensures Rounds(h, script, auto, n) == h
  {
    if n > 0 { FixedPoint(h, script, auto, n - 1); }
  }

  /**
   Convergence.  With the canonical script fixed, two rounds of synchronising and approving reach
   the approved canonical version from every state, unless the owner has rejected the script, in
   which case no number of rounds does; from then on nothing changes.
   */
  lemma {:induction false} Converges(h: Host, script: ScriptRow, auto: set<string>, n: nat)
    requires OffersComplete(View(h, script.name))
    requires n >= 2
    ensures UpToDate(Rounds(h, script, auto, n), script) <==> Describe(h.store, script.name).state != Rejected
    ensures Rounds(h, script, auto, n) == Rounds(h, script, auto, 2)
  {
    if Describe(h.store, script.name).state == Rejected {
      RejectedStays(h, script, auto);
      FixedPoint(h, script, auto, n);
      FixedPoint(h, script, auto, 2);
    } else {
      var h1 := Round(h, script, auto);
      var h2 := Round(h1, script, auto);
      RoundApproaches(h, script, auto);
      RoundApproaches(h1, script, auto);
      RoundApproaches(h2, script, auto);
      FixedPoint(h2, script, auto, n - 2);
      assert Rounds(h1, script, auto, n - 1) == Rounds(h2, script, auto, n - 2);
      assert Rounds(h1, script, auto, 1) == Rounds(h2, script, auto, 0);
    }
  }

  /** Two rounds are needed exactly when an outdated version is queued for review. */
  lemma OneRoundSuffices(h: Host, script: ScriptRow, auto: set<string>)
    requires OffersComplete(View(h, script.name)) && Describe(h.store, script.name).state != Rejected
    ensures
      var d := Describe(h.store, script.name);
      UpToDate(Round(h, script, auto), script)
      <==> !(d.state in {Pending, UpdatePending} && d.pendingMd5 != Some(script.md5))
  {
    RoundApproaches(h, script, auto);
  }
}
