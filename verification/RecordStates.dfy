/**
 What a record says, read off the log of requests and answers alone: which of the five states a name
 is in, with which digests, and how every operation is answered (control_station_lite/agent/approvals.py).
 */
module RecordStates {
  import opened Wrappers
  import opened Approvals
  import opened ExecutionGate
  import opened Sovereignty

  // ---------------------------------------------------------------------------------------
  // On logs
  // ---------------------------------------------------------------------------------------

  predicate Rejects(x: Entry, n: string) {
    x.event == Operate(Operation.Reject(n)) && x.reply.Answered? && x.reply.outcome.Done?
  }

  predicate Clears(x: Entry, n: string) {
    x.event == Operate(Operation.Clear(n)) && x.reply.Answered? && x.reply.outcome.Done?
  }

  /** A version of `n` was accepted, and the name has not been cleared since. */
  predicate Known(log: seq<Entry>, n: string) {
    exists i :: 0 <= i < |log| && StagesSome(log[i], n) && forall j :: i < j < |log| ==> !Clears(log[j], n)
  }

  /** The owner rejected `n`, and has not cleared it since. */
  predicate RejectStands(log: seq<Entry>, n: string) {
    exists i :: 0 <= i < |log| && Rejects(log[i], n) && forall j :: i < j < |log| ==> !Clears(log[j], n)
  }

  /** The version accepted last is `d`, and nothing has been withdrawn since. */
  predicate OfferStands(log: seq<Entry>, n: string, d: Digest) {
    exists k :: 0 <= k < |log| && Stages(log[k], n, d)
                && forall j :: k < j < |log| ==> !StagesSome(log[j], n) && !Withdraws(log[j], n)
  }

  /** Version `d` waits for the owner. */
  ghost predicate Outstanding(log: seq<Entry>, n: string, d: Digest, auto: set<string>) {
    n !in auto && OfferStands(log, n, d) && !InForce(log, n, d, auto)
  }

  /** Version `d` was accepted over version `former` in force, and has not been ended since. */
  ghost predicate OfferedOver(log: seq<Entry>, n: string, d: Digest, former: Digest, auto: set<string>) {
    exists k :: 0 <= k < |log| && Stages(log[k], n, d) && former != d && InForce(log[..k], n, former, auto)
                && forall j :: k < j < |log| ==> !Ends(log[j], n, d)
  }

  /** Version `d` waits for the owner as an update of version `former`. */
  ghost predicate UpdateOf(log: seq<Entry>, n: string, d: Digest, former: Digest, auto: set<string>) {
    n !in auto && OfferedOver(log, n, d, former, auto) && !InForce(log, n, d, auto)
  }

  lemma KnownGrows(log: seq<Entry>, x: Entry, n: string)
    ensures Known(log + [x], n) <==> StagesSome(x, n) || (Known(log, n) && !Clears(x, n))
  {
    var all := log + [x];
    assert all[|log|] == x;
    if Known(log, n) && !Clears(x, n) {
      var i :| 0 <= i < |log| && StagesSome(log[i], n) && forall j :: i < j < |log| ==> !Clears(log[j], n);
      assert StagesSome(all[i], n);
    }
    if Known(all, n) && !StagesSome(x, n) {
      var i :| 0 <= i < |all| && StagesSome(all[i], n) && forall j :: i < j < |all| ==> !Clears(all[j], n);
      assert StagesSome(log[i], n);
      assert forall j :: i < j < |log| ==> log[j] == all[j];
    }
  }

  lemma RejectStandsGrows(log: seq<Entry>, x: Entry, n: string)
    ensures RejectStands(log + [x], n) <==> Rejects(x, n) || (RejectStands(log, n) && !Clears(x, n))
  {
    var all := log + [x];
    assert all[|log|] == x;
    if RejectStands(log, n) && !Clears(x, n) {
      var i :| 0 <= i < |log| && Rejects(log[i], n) && forall j :: i < j < |log| ==> !Clears(log[j], n);
      assert Rejects(all[i], n);
    }
    if RejectStands(all, n) && !Rejects(x, n) {
      var i :| 0 <= i < |all| && Rejects(all[i], n) && forall j :: i < j < |all| ==> !Clears(all[j], n);
      assert Rejects(log[i], n);
      assert forall j :: i < j < |log| ==> log[j] == all[j];
    }
  }

  lemma OfferStandsGrows(log: seq<Entry>, x: Entry, n: string, d: Digest)
    ensures OfferStands(log + [x], n, d)
            <==> Stages(x, n, d) || (OfferStands(log, n, d) && !StagesSome(x, n) && !Withdraws(x, n))
  {
    var all := log + [x];
    assert all[|log|] == x;
    if OfferStands(log, n, d) && !StagesSome(x, n) && !Withdraws(x, n) {
      var k :| 0 <= k < |log| && Stages(log[k], n, d)
               && forall j :: k < j < |log| ==> !StagesSome(log[j], n) && !Withdraws(log[j], n);
      assert Stages(all[k], n, d);
    }
    if OfferStands(all, n, d) && !Stages(x, n, d) {
      var k :| 0 <= k < |all| && Stages(all[k], n, d)
               && forall j :: k < j < |all| ==> !StagesSome(all[j], n) && !Withdraws(all[j], n);
      assert Stages(log[k], n, d);
      assert forall j :: k < j < |log| ==> log[j] == all[j];
    }
  }

  lemma OfferedOverGrows(log: seq<Entry>, x: Entry, n: string, d: Digest, former: Digest, auto: set<string>)
    ensures OfferedOver(log + [x], n, d, former, auto)
            <==> (Stages(x, n, d) && former != d && InForce(log, n, former, auto))
                 || (OfferedOver(log, n, d, former, auto) && !Ends(x, n, d))
  {
    var all := log + [x];
    assert all[|log|] == x && all[..|log|] == log;
    if OfferedOver(log, n, d, former, auto) && !Ends(x, n, d) {
      var k :| 0 <= k < |log| && Stages(log[k], n, d) && former != d && InForce(log[..k], n, former, auto)
               && forall j :: k < j < |log| ==> !Ends(log[j], n, d);
      assert Stages(all[k], n, d) && all[..k] == log[..k];
    }
    if OfferedOver(all, n, d, former, auto) && !(Stages(x, n, d) && former != d && InForce(log, n, former, auto)) {
      var k :| 0 <= k < |all| && Stages(all[k], n, d) && former != d && InForce(all[..k], n, former, auto)
               && forall j :: k < j < |all| ==> !Ends(all[j], n, d);
      assert k < |log| && all[..k] == log[..k] && log[k] == all[k];
      assert forall j :: k < j < |log| ==> log[j] == all[j];
    }
  }

  // ---------------------------------------------------------------------------------------
  // The same, computed from the end of the log
  // ---------------------------------------------------------------------------------------

  /** The version accepted last, unless something was withdrawn since. */
  function Offering(log: seq<Entry>, n: string): Option<Digest> {
    if log == [] then None
    else
      var x, before := log[|log| - 1], log[..|log| - 1];
      if StagesSome(x, n) then Some(x.event.op.md5) else if Withdraws(x, n) then None else Offering(before, n)
  }

  /** The version that the one on offer would replace. */
  function Replaced(log: seq<Entry>, n: string, auto: set<string>): Option<Digest> {
    if log == [] then None
    else
      var x, before := log[|log| - 1], log[..|log| - 1];
      if StagesSome(x, n) then
        ReplacedBy(x.event.op.md5, Force(before, n, auto), Offering(before, n), Replaced(before, n, auto), n in auto)
      else if Approves(x, n) || Withdraws(x, n) then None
      else Replaced(before, n, auto)
  }

  function ReplacedBy(d: Digest, force: Option<Digest>, offering: Option<Digest>, replaced: Option<Digest>,
                      auto: bool): Option<Digest>
  {
    if auto then None
    else if force.Some? && force != Some(d) then force
    else if offering == Some(d) then replaced
    else None
  }

  lemma {:induction false} OfferingStands(log: seq<Entry>, n: string, d: Digest)
    ensures Offering(log, n) == Some(d) <==> OfferStands(log, n, d)
  {
    if log != [] {
      var x, before := log[|log| - 1], log[..|log| - 1];
      OfferingStands(before, n, d);
      OfferStandsGrows(before, x, n, d);
      assert log == before + [x];
    }
  }

  // ---------------------------------------------------------------------------------------
  // One operation
  // ---------------------------------------------------------------------------------------

  /** What has happened to one name. */
  datatype Past = Past(known: bool, rejected: bool, force: Option<Digest>, offering: Option<Digest>,
                       replaced: Option<Digest>)
  {
    /** A version waits for the owner. */
    predicate Waits(auto: bool) {
      !auto && offering.Some? && force != offering
    }

    function State(auto: bool): ApprovalState {
      if !known then Absent
      else if rejected then Rejected
      else if force.Some? then Approved
      else if replaced.Some? then UpdatePending
      else Pending
    }
  }

  ghost function PastOf(log: seq<Entry>, n: string, auto: set<string>): Past {
    Past(Known(log, n), RejectStands(log, n), Force(log, n, auto), Offering(log, n), Replaced(log, n, auto))
  }

  /** The parts of the past that exclude or imply each other. */
  predicate Sound(p: Past, auto: bool) {
    && (p.rejected ==> p.known && p.force.None? && p.offering.None?)
    && (p.force.Some? ==> p.known && p.offering == p.force && p.replaced.None?)
    && (p.replaced.Some? ==> p.Waits(auto))
    && (p.known && !p.rejected ==> p.force.Some? || p.Waits(auto))
    && (!p.known ==> p.force.None? && p.offering.None?)
  }

  /** The record is the one that the past calls for. */
  predicate Tells(record: Option<Record>, p: Past, auto: bool) {
    && Sound(p, auto)
    && record == match p.State(auto)
         case Absent => None
         case Rejected => Some(Record(Rejected, None, None, None))
         case Approved => Some(Record(Approved, p.force, Some(if auto then Via.Auto else Via.Cli), None))
         case Pending => Some(Record(Pending, None, None, p.offering))
         case UpdatePending => Some(Record(UpdatePending, p.replaced, Some(Cli), p.offering))
  }

  /** What an accepted operation adds to the past. */
  function PastAfter(op: Operation, p: Past, offer: Option<Digest>, auto: bool): Past {
    match op
    case Stage(_, _, md5, _) =>
      Past(true, p.rejected, ForceAfter(op, p.force, offer, auto), Some(md5),
           ReplacedBy(md5, p.force, p.offering, p.replaced, auto))
    case Approve(_) => p.(force := offer, replaced := None)
    case Reject(_) => Past(p.known, true, None, None, None)
    case Clear(_) => Past(false, false, None, None, None)
  }

  /** How an operation is answered, by what has happened and by whether the offered file is there. */
  function AnswerTo(op: Operation, p: Past, staged: bool, auto: bool): Option<ApprovalError> {
    match op
    case Stage(_, _, _, _) => if p.rejected then Some(IsRejected) else None
    case Approve(_) =>
      if !p.known then Some(NotFound) else if !p.Waits(auto) then Some(WrongState)
      else if !staged then Some(PendingFileMissing) else None
    case Reject(_) => if !p.known then Some(NotFound) else if !p.Waits(auto) then Some(WrongState) else None
    case Clear(_) => if !p.known then Some(NotFound) else None
  }

  function ErrorOf(outcome: Outcome): Option<ApprovalError> {
    if outcome.Refused? then Some(outcome.error) else None
  }

  /** `offer` is the version accepted last, withdrawn or not. */
  lemma TransitTells(s: Slot, op: Operation, auto: set<string>, p: Past, offer: Option<Digest>)
    requires Tells(s.record, p, op.name in auto) && (p.offering.Some? ==> offer == p.offering)
    ensures
      var t := Transit(s, op, auto);
      && ErrorOf(t.outcome) == AnswerTo(op, p, s.staged.Some?, op.name in auto)
      && (t.outcome.Done? ==> Tells(t.slot.record, PastAfter(op, p, offer, op.name in auto), op.name in auto))
      && (t.outcome.Refused? ==> t.slot.record == s.record)
  {
  }

  // ---------------------------------------------------------------------------------------
  // Runs
  // ---------------------------------------------------------------------------------------

  lemma PastGrows(log: seq<Entry>, op: Operation, outcome: Outcome, auto: set<string>)
    ensures
      var n := op.name;
      var p := PastOf(log, n, auto);
      PastOf(log + [Entry(Operate(op), Answered(outcome))], n, auto)
      == if outcome.Refused? then p
         else PastAfter(op, p, Offer(log, n), n in auto)
  {
    var x, n := Entry(Operate(op), Answered(outcome)), op.name;
    var all := log + [x];
    assert all[..|log|] == log && all[|log|] == x;
    ForceOfEntry(log, op, outcome, auto);
    KnownGrows(log, x, n);
    RejectStandsGrows(log, x, n);
  }

  lemma OtherPast(log: seq<Entry>, x: Entry, n: string, auto: set<string>)
    requires x.event.Operate? ==> x.event.op.name != n
    ensures PastOf(log + [x], n, auto) == PastOf(log, n, auto)
  {
    assert (log + [x])[..|log|] == log;
    OtherEntry(log, x, n, auto);
    KnownGrows(log, x, n);
    RejectStandsGrows(log, x, n);
  }

  lemma OfferingIsOffer(log: seq<Entry>, n: string)
    ensures Offering(log, n).Some? ==> Offer(log, n) == Offering(log, n)
  {
    if log != [] { OfferingIsOffer(log[..|log| - 1], n); }
  }

  ghost predicate RecordTells(p: Policy, r: Run, n: string) {
    Tells(Lookup(r.host.store, n), PastOf(r.log, n, p.auto), n in p.auto)
  }

  lemma OwnEvent(p: Policy, r: Run, op: Operation)
    requires RecordTells(p, r, op.name)
    ensures
      var (h, reply) := React(p, r.host, Operate(op));
      RecordTells(p, Run(h, r.log + [Entry(Operate(op), reply)]), op.name)
  {
    var n, s := op.name, View(r.host, op.name);
    OfferingIsOffer(r.log, n);
    TransitTells(s, op, p.auto, PastOf(r.log, n, p.auto), Offer(r.log, n));
    PastGrows(r.log, op, OutcomeOf(r.host, op, p.auto), p.auto);
    PutView(r.host, n, Transit(s, op, p.auto).slot);
  }

  lemma {:induction false} AlwaysTells(p: Policy, events: seq<Event>, n: string)
    ensures RecordTells(p, Replay(p, events), n)
  {
    if events != [] {
      var e, before := events[|events| - 1], Replay(p, events[..|events| - 1]);
      AlwaysTells(p, events[..|events| - 1], n);
      if e.Operate? && e.op.name == n {
        OwnEvent(p, before, e.op);
      } else {
        OtherPast(before.log, Entry(e, React(p, before.host, e).1), n, p.auto);
      }
    }
  }

  lemma OfferedOverWasOffered(log: seq<Entry>, n: string, d: Digest, former: Digest, auto: set<string>)
    requires OfferedOver(log, n, d, former, auto)
    ensures Offer(log, n) == Some(d)
    decreases |log|
  {
    var before, x := log[..|log| - 1], log[|log| - 1];
    assert log == before + [x];
    OfferedOverGrows(before, x, n, d, former, auto);
    if !Stages(x, n, d) { OfferedOverWasOffered(before, n, d, former, auto); }
  }

  lemma {:induction false} ReplacedIsFormer(log: seq<Entry>, n: string, d: Digest, former: Digest, auto: set<string>)
    requires n !in auto
    ensures Offering(log, n) == Some(d) && Force(log, n, auto) != Some(d) && Replaced(log, n, auto) == Some(former)
            <==> UpdateOf(log, n, d, former, auto)
  {
    if log != [] {
      var x, before := log[|log| - 1], log[..|log| - 1];
      assert log == before + [x];
      ReplacedIsFormer(before, n, d, former, auto);
      OfferedOverGrows(before, x, n, d, former, auto);
      ForceIsInForce(log, n, d, auto);
      ForceIsInForce(before, n, d, auto);
      ForceIsInForce(before, n, former, auto);
      var force := Force(before, n, auto);
      if OfferedOver(before, n, d, former, auto) { OfferedOverWasOffered(before, n, d, former, auto); }
      if force.Some? {
        ForceIsInForce(before, n, force.value, auto);
        InForceWasOffered(before, n, force.value, auto);
      }
    }
  }

  // ---------------------------------------------------------------------------------------
  // Main results
  // ---------------------------------------------------------------------------------------

  lemma WaitsIsOutstanding(p: Policy, log: seq<Entry>, n: string, d: Digest)
    ensures Outstanding(log, n, d, p.auto)
            <==> PastOf(log, n, p.auto).Waits(n in p.auto) && Offering(log, n) == Some(d)
  {
    OfferingStands(log, n, d);
    ForceIsInForce(log, n, d, p.auto);
  }

  lemma UpdatesAreReplacements(p: Policy, events: seq<Event>, n: string, former: Digest)
    ensures
      var log := Replay(p, events).log;
      Replaced(log, n, p.auto) == Some(former) <==> exists v :: UpdateOf(log, n, v, former, p.auto)
  {
    var log := Replay(p, events).log;
    AlwaysTells(p, events, n);
    if n !in p.auto {
      if Replaced(log, n, p.auto) == Some(former) {
        ReplacedIsFormer(log, n, Offering(log, n).value, former, p.auto);
      }
      if v :| UpdateOf(log, n, v, former, p.auto) {
        ReplacedIsFormer(log, n, v, former, p.auto);
      }
    }
  }

  /**
   The digests on record.  In every run the pending digest is the version that waits for the owner,
   and the approved digest the version in force or, under an update, the one it would replace.
   */
  lemma DigestsFollowLog(p: Policy, events: seq<Event>, n: string, v: Digest)
    ensures
      var log, d := Replay(p, events).log, Describe(Replay(p, events).host.store, n);
      && (d.pendingMd5 == Some(v) <==> Outstanding(log, n, v, p.auto))
      && (d.approvedMd5 == Some(v) <==> InForce(log, n, v, p.auto) || exists u :: UpdateOf(log, n, u, v, p.auto))
  {
    var log := Replay(p, events).log;
    AlwaysTells(p, events, n);
    WaitsIsOutstanding(p, log, n, v);
    ForceIsInForce(log, n, v, p.auto);
    UpdatesAreReplacements(p, events, n, v);
  }

  lemma StateOfPast(record: Option<Record>, p: Past, auto: bool)
    requires Tells(record, p, auto)
    ensures
      var state := if record.Some? then record.value.state else Absent;
      && (state == Absent <==> !p.known) && (state == Rejected <==> p.rejected) && (state == Approved <==> p.force.Some?)
      && (state in {Pending, UpdatePending} <==> p.Waits(auto)) && (state == UpdatePending <==> p.replaced.Some?)
  {
  }

  lemma SomeInForce(log: seq<Entry>, n: string, auto: set<string>)
    ensures Force(log, n, auto).Some? <==> exists v :: InForce(log, n, v, auto)
  {
    if Force(log, n, auto).Some? { ForceIsInForce(log, n, Force(log, n, auto).value, auto); }
    if v :| InForce(log, n, v, auto) { ForceIsInForce(log, n, v, auto); }
  }

  lemma SomeOutstanding(p: Policy, log: seq<Entry>, n: string)
    ensures PastOf(log, n, p.auto).Waits(n in p.auto) <==> exists v :: Outstanding(log, n, v, p.auto)
  {
    if Offering(log, n).Some? { WaitsIsOutstanding(p, log, n, Offering(log, n).value); }
    if v :| Outstanding(log, n, v, p.auto) { WaitsIsOutstanding(p, log, n, v); }
  }

  lemma SomeUpdate(p: Policy, events: seq<Event>, n: string)
    ensures
      var log := Replay(p, events).log;
      Replaced(log, n, p.auto).Some? <==> exists v, former :: UpdateOf(log, n, v, former, p.auto)
  {
    var log := Replay(p, events).log;
    if Replaced(log, n, p.auto).Some? {
      UpdatesAreReplacements(p, events, n, Replaced(log, n, p.auto).value);
    }
    if v, former :| UpdateOf(log, n, v, former, p.auto) {
      UpdatesAreReplacements(p, events, n, former);
    }
  }

  /**
   The state on record.  In every run a name is absent, rejected, approved, pending or pending as an
   update exactly when the requests and answers so far say so.
   */
  lemma StateFollowsLog(p: Policy, events: seq<Event>, n: string)
    ensures
      var log, d := Replay(p, events).log, Describe(Replay(p, events).host.store, n);
      && d.name == n
      && (d.state == Absent <==> !Known(log, n))
      && (d.state == Rejected <==> RejectStands(log, n))
      && (d.state == Approved <==> exists v :: InForce(log, n, v, p.auto))
      && (d.state in {Pending, UpdatePending} <==> exists v :: Outstanding(log, n, v, p.auto))
      && (d.state == UpdatePending <==> exists v, former :: UpdateOf(log, n, v, former, p.auto))
  {
    var log := Replay(p, events).log;
    AlwaysTells(p, events, n);
    StateOfPast(Lookup(Replay(p, events).host.store, n), PastOf(log, n, p.auto), n in p.auto);
    SomeInForce(log, n, p.auto);
    SomeOutstanding(p, log, n);
    SomeUpdate(p, events, n);
  }

  /**
   The answers.  After every run, staging is refused exactly for a rejected name; the owner's decisions
   are refused for want of a record, of a waiting version, and, for an approval only, of its file.
   */
  lemma AnswersFollowLog(p: Policy, events: seq<Event>, op: Operation)
    ensures
      var log, h := Replay(p, events).log, Replay(p, events).host;
      var waits := exists v :: Outstanding(log, op.name, v, p.auto);
      var error := ErrorOf(OutcomeOf(h, op, p.auto));
      match op
      case Stage(_, _, _, _) => error == if RejectStands(log, op.name) then Some(IsRejected) else None
      case Approve(_) =>
        error == if !Known(log, op.name) then Some(NotFound)
                 else if !waits then Some(WrongState)
                 else if op.name !in h.files.pending then Some(PendingFileMissing)
                 else None
      case Reject(_) =>
        error == if !Known(log, op.name) then Some(NotFound) else if !waits then Some(WrongState) else None
      case Clear(_) => error == if !Known(log, op.name) then Some(NotFound) else None
  {
    var log, n := Replay(p, events).log, op.name;
    AlwaysTells(p, events, n);
    OfferingIsOffer(log, n);
    TransitTells(View(Replay(p, events).host, n), op, p.auto, PastOf(log, n, p.auto), Offer(log, n));
    SomeOutstanding(p, log, n);
  }
}
