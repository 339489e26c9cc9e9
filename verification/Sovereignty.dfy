/**
 The owner's word over whole runs of one agent: what an execution runs is what was promoted last
 and has not been withdrawn since.  The promise is stated on the log of requests and answers
 alone; it mentions neither records nor files.
 */
module Sovereignty {
  import opened Wrappers
  import opened Approvals
  import opened ExecutionGate
  import opened Sequences

  datatype Policy = Policy(auto: set<string>, extensions: seq<string>, md5: Content -> Digest)

  datatype Event =
    | Operate(op: Operation)
    | Execute(name: string, paramsOk: bool)
    | Tamper(files: Files)   // anybody rewrites scripts/ and scripts.pending/ at will

  datatype Reply = Answered(outcome: Outcome) | Judged(verdict: Verdict) | Silent

  datatype Entry = Entry(event: Event, reply: Reply)

  datatype Run = Run(host: Host, log: seq<Entry>)

  function React(p: Policy, h: Host, e: Event): (Host, Reply) {
    match e
    case Operate(op) => (Apply(h, op, p.auto), Answered(OutcomeOf(h, op, p.auto)))
    case Execute(name, paramsOk) =>
      (h, Judged(Gate(Describe(h.store, name), h.files.scripts, p.extensions, p.md5, paramsOk)))
    case Tamper(files) => (h.(files := files), Silent)
  }

  /** A run from an installation with no records and no files. */
  function Replay(p: Policy, events: seq<Event>): (r: Run)
    ensures |r.log| == |events|
  {
    if events == [] then Run(EMPTY_HOST, [])
    else
      var before := Replay(p, events[..|events| - 1]);
      var e := events[|events| - 1];
      var (h, reply) := React(p, before.host, e);
      Run(h, before.log + [Entry(e, reply)])
  }

  // ---------------------------------------------------------------------------------------
  // The promise, on logs
  // ---------------------------------------------------------------------------------------

  /** Entry: the agent accepted version `d` of `n` (possibly as already known). */
  predicate Stages(x: Entry, n: string, d: Digest) {
    x.event.Operate? && x.event.op.Stage? && x.event.op.name == n && x.event.op.md5 == d
    && x.reply.Answered? && x.reply.outcome.Done?
  }

  predicate StagesSome(x: Entry, n: string) {
    x.event.Operate? && x.event.op.Stage? && Stages(x, n, x.event.op.md5)
  }

  predicate Approves(x: Entry, n: string) {
    x.event == Operate(Operation.Approve(n)) && x.reply.Answered? && x.reply.outcome.Done?
  }

  predicate Withdraws(x: Entry, n: string) {
    x.event in {Operate(Operation.Reject(n)), Operate(Operation.Clear(n))}
    && x.reply.Answered? && x.reply.outcome.Done?
  }

  /** The latest version of `n` accepted before entry `i` is `d`. */
  ghost predicate OfferedBefore(log: seq<Entry>, i: nat, n: string, d: Digest)
    requires i <= |log|
  {
    exists k :: 0 <= k < i && Stages(log[k], n, d) && forall j :: k < j < i ==> !StagesSome(log[j], n)
  }

  /** Entry `i` promotes version `d`: the owner approves the offer, or policy accepts it unseen. */
  ghost predicate Promotes(log: seq<Entry>, i: nat, n: string, d: Digest, auto: set<string>)
    requires i < |log|
  {
    || (n in auto && Stages(log[i], n, d))
    || (Approves(log[i], n) && OfferedBefore(log, i, n, d))
  }

  /** Entry: version `d` of `n` loses its standing. */
  predicate Ends(x: Entry, n: string, d: Digest) {
    Withdraws(x, n) || (StagesSome(x, n) && x.event.op.md5 != d)
  }

  /** Some entry promoted `d`, and nothing has ended it since. */
  ghost predicate InForce(log: seq<Entry>, n: string, d: Digest, auto: set<string>) {
    exists i :: 0 <= i < |log| && Promotes(log, i, n, d, auto)
                && forall j :: i < j < |log| ==> !Ends(log[j], n, d)
  }

  // ---------------------------------------------------------------------------------------
  // The same, computed from the end of the log
  // ---------------------------------------------------------------------------------------

  function Offer(log: seq<Entry>, n: string): Option<Digest> {
    if log == [] then None
    else
      var x := log[|log| - 1];
      if StagesSome(x, n) then Some(x.event.op.md5) else Offer(log[..|log| - 1], n)
  }

  function Force(log: seq<Entry>, n: string, auto: set<string>): Option<Digest> {
    if log == [] then None
    else
      var x, before := log[|log| - 1], log[..|log| - 1];
      if StagesSome(x, n) then
        if n in auto || Force(before, n, auto) == Some(x.event.op.md5) then Some(x.event.op.md5) else None
      else if Approves(x, n) then Offer(before, n)
      else if Withdraws(x, n) then None
      else Force(before, n, auto)
  }

  lemma {:induction false} OfferIsOffered(log: seq<Entry>, n: string, d: Digest)
    ensures Offer(log, n) == Some(d) <==> OfferedBefore(log, |log|, n, d)
  {
    if log != [] {
      var before := log[..|log| - 1];
      OfferIsOffered(before, n, d);
      var x := log[|log| - 1];
      if StagesSome(x, n) {
        assert Stages(x, n, d) ==> OfferedBefore(log, |log|, n, d);
      } else {
        if OfferedBefore(before, |before|, n, d) {
          var k :| 0 <= k < |before| && Stages(before[k], n, d) && forall j :: k < j < |before| ==> !StagesSome(before[j], n);
          assert Stages(log[k], n, d);
        }
        if OfferedBefore(log, |log|, n, d) {
          var k :| 0 <= k < |log| && Stages(log[k], n, d) && forall j :: k < j < |log| ==> !StagesSome(log[j], n);
          assert Stages(before[k], n, d);
        }
      }
    }
  }

  lemma OfferedBeforePrefix(log: seq<Entry>, i: nat, n: string, d: Digest)
    requires i <= |log|
    ensures OfferedBefore(log, i, n, d) <==> OfferedBefore(log[..i], i, n, d)
  {
    if OfferedBefore(log, i, n, d) {
      var k :| 0 <= k < i && Stages(log[k], n, d) && forall j :: k < j < i ==> !StagesSome(log[j], n);
      assert Stages(log[..i][k], n, d);
    }
    if OfferedBefore(log[..i], i, n, d) {
      var k :| 0 <= k < i && Stages(log[..i][k], n, d) && forall j :: k < j < i ==> !StagesSome(log[..i][j], n);
      assert Stages(log[k], n, d);
      assert forall j :: k < j < i ==> log[..i][j] == log[j];
    }
  }

  lemma PromotesPrefix(log: seq<Entry>, i: nat, m: nat, n: string, d: Digest, auto: set<string>)
    requires i < m <= |log|
    ensures Promotes(log, i, n, d, auto) <==> Promotes(log[..m], i, n, d, auto)
  {
    OfferedBeforePrefix(log, i, n, d);
    OfferedBeforePrefix(log[..m], i, n, d);
    assert log[..m][..i] == log[..i];
  }

  lemma InForcePrefix(log: seq<Entry>, n: string, d: Digest, auto: set<string>)
    requires log != []
    requires !Ends(log[|log| - 1], n, d)
    ensures InForce(log[..|log| - 1], n, d, auto) ==> InForce(log, n, d, auto)
    ensures InForce(log, n, d, auto) && !Promotes(log, |log| - 1, n, d, auto)
            ==> InForce(log[..|log| - 1], n, d, auto)
  {
    var m := |log| - 1;
    var before := log[..m];
    if InForce(before, n, d, auto) {
      var i :| 0 <= i < m && Promotes(before, i, n, d, auto) && forall j :: i < j < m ==> !Ends(before[j], n, d);
      PromotesPrefix(log, i, m, n, d, auto);
      assert forall j :: i < j < m ==> log[j] == before[j];
    }
    if InForce(log, n, d, auto) && !Promotes(log, m, n, d, auto) {
      var i :| 0 <= i < |log| && Promotes(log, i, n, d, auto) && forall j :: i < j < |log| ==> !Ends(log[j], n, d);
      PromotesPrefix(log, i, m, n, d, auto);
      assert forall j :: i < j < m ==> log[j] == before[j];
    }
  }

  /** What is in force was the latest offer. */
  lemma {:induction false} InForceWasOffered(log: seq<Entry>, n: string, d: Digest, auto: set<string>)
    requires InForce(log, n, d, auto)
    ensures Offer(log, n) == Some(d)
  {
    var m := |log| - 1;
    if Promotes(log, m, n, d, auto) {
      OfferedBeforePrefix(log, m, n, d);
      OfferIsOffered(log[..m], n, d);
    } else {
      assert !Ends(log[m], n, d);
      InForcePrefix(log, n, d, auto);
      InForceWasOffered(log[..m], n, d, auto);
    }
  }

  lemma {:induction false} ForceIsInForce(log: seq<Entry>, n: string, d: Digest, auto: set<string>)
    ensures Force(log, n, auto) == Some(d) <==> InForce(log, n, d, auto)
  {
    if log != [] {
      var m := |log| - 1;
      var x, before := log[m], log[..m];
      ForceIsInForce(before, n, d, auto);
      OfferedBeforePrefix(log, m, n, d);
      OfferIsOffered(before, n, d);
      if Ends(x, n, d) {
        assert !Promotes(log, m, n, d, auto);
      } else {
        InForcePrefix(log, n, d, auto);
        if InForce(before, n, d, auto) { InForceWasOffered(before, n, d, auto); }
        if Promotes(log, m, n, d, auto) {
          assert InForce(log, n, d, auto);
        }
      }
    }
  }

  // ---------------------------------------------------------------------------------------
  // Records follow the log
  // ---------------------------------------------------------------------------------------

  /** The record of a name against the version in force and the latest offer. */
  predicate RecordFollows(record: Option<Record>, force: Option<Digest>, offer: Option<Digest>, auto: bool) {
    var state := if record.None? then Absent else record.value.state;
    && (record.Some? ==> state != Absent)
    && (if state == Approved
        then record.value.approvedMd5.Some? && force == record.value.approvedMd5 && record.value.pendingMd5.None?
             && record.value.approvedVia == Some(if auto then Via.Auto else Via.Cli)
        else force == None)
    && (state in {Pending, UpdatePending} ==>
          !auto && record.value.pendingMd5.Some? && offer == record.value.pendingMd5)
  }

  predicate RecordFollowsLog(p: Policy, r: Run, n: string) {
    RecordFollows(Lookup(r.host.store, n), Force(r.log, n, p.auto), Offer(r.log, n), n in p.auto)
  }

  /** What a successful operation does to the version in force. */
  function ForceAfter(op: Operation, force: Option<Digest>, offer: Option<Digest>, auto: bool): Option<Digest> {
    match op
    case Stage(_, _, md5, _) => if auto || force == Some(md5) then Some(md5) else None
    case Approve(_) => offer
    case _ => None
  }

  lemma TransitFollows(s: Slot, op: Operation, auto: set<string>, force: Option<Digest>, offer: Option<Digest>)
    requires RecordFollows(s.record, force, offer, op.name in auto)
    ensures
      var t := Transit(s, op, auto);
      if t.outcome.Done? then
        RecordFollows(t.slot.record, ForceAfter(op, force, offer, op.name in auto),
                      if op.Stage? then Some(op.md5) else offer, op.name in auto)
      else t.slot.record == s.record
  {
  }

  lemma ForceOfEntry(log: seq<Entry>, op: Operation, outcome: Outcome, auto: set<string>)
    ensures
      var all := log + [Entry(Operate(op), Answered(outcome))];
      && Offer(all, op.name) == (if op.Stage? && outcome.Done? then Some(op.md5) else Offer(log, op.name))
      && Force(all, op.name, auto)
         == if outcome.Done? then ForceAfter(op, Force(log, op.name, auto), Offer(log, op.name), op.name in auto)
            else Force(log, op.name, auto)
  {
    var all := log + [Entry(Operate(op), Answered(outcome))];
    assert all[..|log|] == log && all[|log|] == Entry(Operate(op), Answered(outcome));
  }

  lemma OtherEntry(log: seq<Entry>, x: Entry, n: string, auto: set<string>)
    requires x.event.Operate? ==> x.event.op.name != n
    ensures Offer(log + [x], n) == Offer(log, n) && Force(log + [x], n, auto) == Force(log, n, auto)
  {
    assert (log + [x])[..|log|] == log;
  }

  lemma {:induction false} RecordsFollowLog(p: Policy, events: seq<Event>, n: string)
    ensures RecordFollowsLog(p, Replay(p, events), n)
  {
    if events != [] {
      var e := events[|events| - 1];
      var before, after := Replay(p, events[..|events| - 1]), Replay(p, events);
      RecordsFollowLog(p, events[..|events| - 1], n);
      if e.Operate? && e.op.name == n {
        var s := View(before.host, n);
        TransitFollows(s, e.op, p.auto, Force(before.log, n, p.auto), Offer(before.log, n));
        ForceOfEntry(before.log, e.op, OutcomeOf(before.host, e.op, p.auto), p.auto);
        PutView(before.host, n, Transit(s, e.op, p.auto).slot);
      } else {
        OtherEntry(before.log, Entry(e, React(p, before.host, e).1), n, p.auto);
      }
    }
  }

  lemma LastEntry(p: Policy, events: seq<Event>)
    requires events != []
    ensures
      var before, e := events[..|events| - 1], events[|events| - 1];
      Replay(p, events).log == Replay(p, before).log + [Entry(e, React(p, Replay(p, before).host, e).1)]
  {
  }

  /** One more event. */
  lemma ReplayGrows(p: Policy, events: seq<Event>, e: Event)
    ensures
      var before := Replay(p, events);
      var (h, reply) := React(p, before.host, e);
      Replay(p, events + [e]) == Run(h, before.log + [Entry(e, reply)])
  {
    assert (events + [e])[..|events|] == events;
  }

  lemma {:induction false} PrefixReplayed(p: Policy, events: seq<Event>, i: nat)
    requires i <= |events|
    ensures Replay(p, events).log[..i] == Replay(p, events[..i]).log
  {
    if i == |events| {
      assert events[..i] == events;
    } else {
      var before := events[..|events| - 1];
      LastEntry(p, events);
      PrefixOfAppend(Replay(p, before).log, Replay(p, events).log[|events| - 1], i);
      PrefixReplayed(p, before, i);
      assert before[..i] == events[..i];
    }
  }

  /** What happened up to some moment does not depend on what happened later. */
  lemma LogPrefix(p: Policy, events: seq<Event>, i: nat)
    requires i <= |events|
    ensures Replay(p, events).log[..i] == Replay(p, events[..i]).log
    ensures i < |events| ==>
      Replay(p, events).log[i] == Entry(events[i], React(p, Replay(p, events[..i]).host, events[i]).1)
  {
    PrefixReplayed(p, events, i);
    if i < |events| {
      PrefixReplayed(p, events, i + 1);
      LastEntry(p, events[..i + 1]);
      assert events[..i + 1][..i] == events[..i];
      assert Replay(p, events).log[..i + 1][i] == Replay(p, events).log[i];
    }
  }

  // ---------------------------------------------------------------------------------------
  // Main results
  // ---------------------------------------------------------------------------------------

  /**
   Owner sovereignty.  In every run, whatever is staged, approved, rejected, cleared or tampered
   with, an execution only ever runs bytes whose digest is the version in force for that name at
   that moment, and the bytes are those of a candidate file for that name.
   */
  lemma OnlyWhatIsInForceRuns(p: Policy, events: seq<Event>, i: nat)
    requires i < |events| && events[i].Execute?
    requires var reply := Replay(p, events).log[i].reply; reply.Judged? && reply.verdict.Ran?
    ensures
      var verdict := Replay(p, events).log[i].reply.verdict;
      && InForce(Replay(p, events).log[..i], events[i].name, p.md5(verdict.bytes), p.auto)
      && (exists k :: 0 <= k < |p.extensions| && verdict.path == events[i].name + p.extensions[k])
  {
    var n := events[i].name;
    LogPrefix(p, events, i);
    RecordsFollowLog(p, events[..i], n);
    var verdict := Replay(p, events).log[i].reply.verdict;
    ForceIsInForce(Replay(p, events[..i]).log, n, p.md5(verdict.bytes), p.auto);
  }

  /**
   The other direction: a version in force is never refused for want of approval, and runs
   whenever the parameters are valid and the first candidate file still has its digest.
   */
  lemma WhatIsInForceRuns(p: Policy, events: seq<Event>, i: nat, d: Digest)
    requires i < |events| && events[i].Execute?
    requires InForce(Replay(p, events).log[..i], events[i].name, d, p.auto)
    ensures
      var scripts := Replay(p, events[..i]).host.files.scripts;
      var file := Candidate(events[i].name, p.extensions, scripts);
      Replay(p, events).log[i].reply == Judged(
        if !events[i].paramsOk then BadParams
        else if file.None? then NoScriptFile
        else if p.md5(scripts[file.value]) != d then IntegrityViolation
        else Ran(file.value, scripts[file.value]))
  {
    var n := events[i].name;
    LogPrefix(p, events, i);
    RecordsFollowLog(p, events[..i], n);
    ForceIsInForce(Replay(p, events[..i]).log, n, d, p.auto);
  }

  /** Where no version is in force, an execution is refused for the state the name is in, before anything else. */
  lemma WithoutForceNothingRuns(p: Policy, events: seq<Event>, i: nat)
    requires i < |events| && events[i].Execute?
    requires forall d :: !InForce(Replay(p, events).log[..i], events[i].name, d, p.auto)
    ensures Replay(p, events).log[i].reply
            == Judged(NotApproved(Describe(Replay(p, events[..i]).host.store, events[i].name).state))
  {
    var n := events[i].name;
    LogPrefix(p, events, i);
    RecordsFollowLog(p, events[..i], n);
    var force := Force(Replay(p, events[..i]).log, n, p.auto);
    if force.Some? { ForceIsInForce(Replay(p, events[..i]).log, n, force.value, p.auto); }
  }

  /** At any moment at most one version of a name is in force. */
  lemma OneVersionInForce(log: seq<Entry>, n: string, d: Digest, d': Digest, auto: set<string>)
    requires InForce(log, n, d, auto) && InForce(log, n, d', auto)
    ensures d == d'
  {
    ForceIsInForce(log, n, d, auto);
    ForceIsInForce(log, n, d', auto);
  }

  /** The branch of the integrity check that skips the comparison is never taken. */
  lemma ApprovedMeansDigestRecorded(p: Policy, events: seq<Event>, n: string)
    requires Describe(Replay(p, events).host.store, n).state == Approved
    ensures Describe(Replay(p, events).host.store, n).approvedMd5.Some?
  {
    RecordsFollowLog(p, events, n);
  }

  /** Tampering with files neither grants nor takes away any standing. */
  lemma TamperingIsNoPromotion(p: Policy, events: seq<Event>, files: Files, n: string, d: Digest)
    ensures InForce(Replay(p, events + [Tamper(files)]).log, n, d, p.auto)
       <==> InForce(Replay(p, events).log, n, d, p.auto)
  {
    var all := events + [Tamper(files)];
    assert all[..|all| - 1] == events;
    var log := Replay(p, all).log;
    assert log[..|log| - 1] == Replay(p, events).log;
    ForceIsInForce(log, n, d, p.auto);
    ForceIsInForce(Replay(p, events).log, n, d, p.auto);
  }
}
