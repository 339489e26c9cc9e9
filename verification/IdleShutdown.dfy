/**
 Idle shutdown of the agent (control_station_lite/agent/lifecycle.py) behind the middleware of
 control_station_lite/agent/main.py.

 Time is read from a monotonic clock, as a real number of seconds.
 */
module IdleShutdown {
  import opened Wrappers

  type Uuid = string

  datatype Event =
    | Request(at: real, header: string)   // header: the Authorization header, "" when absent
    | JobStarted(at: real, job: Uuid)
    | JobEnded(at: real, job: Uuid)

  const BEARER := "Bearer "

  /** The token an Authorization header carries. */
  function Provided(header: string): string {
    if BEARER <= header then header[|BEARER|..] else ""
  }

  /** A request gets past authentication; an agent without a token accepts all of them. */
  predicate Accepted(token: Option<string>, e: Event) {
    e.Request? && (token.None? || token.value == "" || Provided(e.header) == token.value)
  }

  /** What the shutdown condition looks at: the last activity and the live jobs. */
  datatype Clock = Clock(last: real, running: set<Uuid>)

  function Handle(token: Option<string>, c: Clock, e: Event): Clock {
    match e
    case Request(at, _) => if Accepted(token, e) then c.(last := at) else c
    case JobStarted(_, job) => c.(running := c.running + {job})
    case JobEnded(_, job) => c.(running := c.running - {job})
  }

  function Replay(token: Option<string>, c: Clock, events: seq<Event>): Clock {
    if events == [] then c
    else Handle(token, Replay(token, c, events[..|events| - 1]), events[|events| - 1])
  }

  predicate Due(c: Clock, timeout: real, now: real) {
    c.running == {} && now - c.last > timeout
  }

  /** One sleep of the loop: what happened during it, and when it was over. */
  datatype Sleep = Sleep(events: seq<Event>, woke: real)

  /** Everything that happened before wake-up k. */
  function History(sleeps: seq<Sleep>, k: nat): seq<Event>
    requires k <= |sleeps|
  {
    if k == 0 then [] else History(sleeps, k - 1) + sleeps[k - 1].events
  }

  /** The loop starts to sleep at `start`; its sleeps last as long as they happen to last. */
  datatype Run = Run(token: Option<string>, timeout: real, start: real, restored: set<Uuid>, sleeps: seq<Sleep>)
  {
    /** The time of wake-up k; the first one is number 1. */
    function Tick(k: nat): real
      requires k <= |sleeps|
    {
      if k == 0 then start else sleeps[k - 1].woke
    }

    function Before(k: nat): seq<Event>
      requires k <= |sleeps|
    {
      History(sleeps, k)
    }

    function At(k: nat): Clock
      requires k <= |sleeps|
    {
      Replay(token, Clock(start, restored), Before(k))
    }

    /** SIGTERM is raised at wake-up k. */
    predicate RaisedAt(k: nat)
      requires k <= |sleeps|
    {
      && 0 < k && Due(At(k), timeout, Tick(k))
      && forall j :: 0 < j < k ==> !Due(At(j), timeout, Tick(j))
    }

    /** Time does not run backwards: what happens during a sleep happens within it, in order. */
    ghost predicate WellTimed() {
      && (forall k :: 0 <= k < |sleeps| ==> Tick(k) <= Tick(k + 1))
      && (forall k, i :: 0 <= k < |sleeps| && 0 <= i < |sleeps[k].events| ==>
            Tick(k) <= sleeps[k].events[i].at <= Tick(k + 1))
      && (forall k, i, j :: 0 <= k < |sleeps| && 0 <= i < j < |sleeps[k].events| ==>
            sleeps[k].events[i].at <= sleeps[k].events[j].at)
    }
  }

  // ---------------------------------------------------------------------------------------
  // The tracker object
  // ---------------------------------------------------------------------------------------

  class IdleTracker {
    const timeout: real
    var lastActivity: real

    constructor (timeout: real, now: real)
      ensures this.timeout == timeout && lastActivity == now
    {
      this.timeout, lastActivity := timeout, now;
    }

    method RecordActivity(now: real)
      modifies this
      ensures lastActivity == now
    {
      lastActivity := now;
    }

    method ShutdownDue(running: nat, now: real) returns (due: bool)
      ensures due <==> running == 0 && now - lastActivity > timeout
    {
      return running == 0 && now - lastActivity > timeout;
    }

    /** Authentication runs outermost: a refused request never reaches the idle clock. */
    method Dispatch(token: Option<string>, request: Event) returns (passed: bool)
      requires request.Request?
      modifies this
      ensures passed <==> Accepted(token, request)
      ensures lastActivity == if passed then request.at else old(lastActivity)
    {
      if token.Some? && token.value != "" {
        var provided := "";
        if BEARER <= request.header {
          provided := request.header[|BEARER|..];
        }
        if provided != token.value {
          return false;
        }
      }
      RecordActivity(request.at);
      return true;
    }

    /** What reaches the agent while the loop sleeps. */
    method Rest(token: Option<string>, running: set<Uuid>, events: seq<Event>)
      returns (running': set<Uuid>)
      modifies this
      ensures Clock(lastActivity, running') == Replay(token, Clock(old(lastActivity), running), events)
    {
      running' := running;
      for i := 0 to |events|
        invariant Clock(lastActivity, running') == Replay(token, Clock(old(lastActivity), running), events[..i])
      {
        assert events[..i + 1][..i] == events[..i];
        match events[i]
        case Request(_, _) => var _ := Dispatch(token, events[i]);
        case JobStarted(_, job) => running' := running' + {job};
        case JobEnded(_, job) => running' := running' - {job};
      }
      assert events[..|events|] == events;
    }

    /**
     The background loop over a run; it sleeps, counts the running jobs and stops at the first
     wake-up that is due.
     */
    method RunLoop(run: Run) returns (raised: Option<nat>)
      requires timeout == run.timeout && lastActivity == run.start
      modifies this
      ensures raised.Some? ==> raised.value <= |run.sleeps| && run.RaisedAt(raised.value)
      ensures raised.None? ==> forall k :: 0 < k <= |run.sleeps| ==> !run.RaisedAt(k)
    {
      var running, now := run.restored, run.start;
      var k := 0;
      while k < |run.sleeps|
        invariant k <= |run.sleeps| && now == run.Tick(k)
        invariant Clock(lastActivity, running) == run.At(k)
        invariant forall j :: 0 < j <= k ==> !Due(run.At(j), timeout, run.Tick(j))
      {
        ReplayJoins(run.token, Clock(run.start, run.restored), run.Before(k), run.sleeps[k].events);
        running := Rest(run.token, running, run.sleeps[k].events);
        k, now := k + 1, run.sleeps[k].woke;
        var due := ShutdownDue(|running|, now);
        if due {
          return Some(k);
        }
      }
      return None;
    }
  }

  lemma {:induction false} ReplayJoins(token: Option<string>, c: Clock, a: seq<Event>, b: seq<Event>)
    ensures Replay(token, c, a + b) == Replay(token, Replay(token, c, a), b)
  {
    if b == [] {
      assert a + b == a;
    } else {
      assert (a + b)[..|a + b| - 1] == a + b[..|b| - 1];
      ReplayJoins(token, c, a, b[..|b| - 1]);
    }
  }

  /**
   Who gets past authentication: with a token, exactly the requests that carry it as a bearer token;
   without one, all requests; and nothing but requests.
   */
  lemma AcceptedExactly(token: Option<string>, e: Event)
    ensures Accepted(token, e) <==>
            e.Request? && (token in {None, Some("")} || e.header == "Bearer " + token.value)
  {
    if e.Request? && BEARER <= e.header {
      assert e.header == BEARER + e.header[|BEARER|..];
    }
  }

  // ---------------------------------------------------------------------------------------
  // What the clock says about a history
  // ---------------------------------------------------------------------------------------

  predicate Ordered(start: real, events: seq<Event>) {
    && (forall i :: 0 <= i < |events| ==> start <= events[i].at)
    && (forall i, j :: 0 <= i < j < |events| ==> events[i].at <= events[j].at)
  }

  /** Nobody was heard at `cutoff` or later. */
  predicate SilentSince(token: Option<string>, start: real, events: seq<Event>, cutoff: real) {
    start < cutoff && forall i :: 0 <= i < |events| && Accepted(token, events[i]) ==> events[i].at < cutoff
  }

  /** Job `u` ended at some point from `from` on. */
  predicate EndedFrom(events: seq<Event>, from: nat, u: Uuid) {
    exists j :: from <= j < |events| && events[j].JobEnded? && events[j].job == u
  }

  /** Every job of the history, restored or started, has ended after it was last started. */
  predicate AllJobsOver(restored: set<Uuid>, events: seq<Event>) {
    && (forall u :: u in restored ==> EndedFrom(events, 0, u))
    && (forall i :: 0 <= i < |events| && events[i].JobStarted? ==> EndedFrom(events, i, events[i].job))
  }

  lemma SilenceJoins(token: Option<string>, start: real, before: seq<Event>, e: Event, cutoff: real)
    ensures SilentSince(token, start, before + [e], cutoff) <==>
            SilentSince(token, start, before, cutoff) && (Accepted(token, e) ==> e.at < cutoff)
  {
    var events := before + [e];
    assert events[|before|] == e;
    assert forall i :: 0 <= i < |before| ==> events[i] == before[i];
  }

  lemma {:induction false} LastActivityIsLatest(token: Option<string>, c: Clock, events: seq<Event>, cutoff: real)
    requires Ordered(c.last, events)
    ensures Replay(token, c, events).last < cutoff <==> SilentSince(token, c.last, events, cutoff)
    ensures c.last <= Replay(token, c, events).last
    ensures events != [] ==> Replay(token, c, events).last <= events[|events| - 1].at
  {
    if events != [] {
      var before, e := events[..|events| - 1], events[|events| - 1];
      LastActivityIsLatest(token, c, before, cutoff);
      SilenceJoins(token, c.last, before, e, cutoff);
      assert events == before + [e];
      assert before != [] ==> before[|before| - 1].at <= e.at;
    }
  }

  /** Job `u` was started and has not ended since. */
  predicate Unfinished(events: seq<Event>, u: Uuid) {
    exists i :: 0 <= i < |events| && events[i].JobStarted? && events[i].job == u && !EndedFrom(events, i, u)
  }

  predicate EndOf(e: Event, u: Uuid) {
    e.JobEnded? && e.job == u
  }

  lemma EndedJoins(before: seq<Event>, e: Event, from: nat, u: Uuid)
    requires from <= |before|
    ensures EndedFrom(before + [e], from, u) <==> EndedFrom(before, from, u) || EndOf(e, u)
  {
    var all := before + [e];
    assert all[|before|] == e;
    if EndedFrom(before, from, u) {
      var j :| from <= j < |before| && before[j].JobEnded? && before[j].job == u;
      assert all[j] == before[j];
    }
    if EndedFrom(all, from, u) && !EndOf(e, u) {
      var j :| from <= j < |all| && all[j].JobEnded? && all[j].job == u;
      assert before[j] == all[j];
    }
  }

  lemma UnfinishedJoins(before: seq<Event>, e: Event, u: Uuid)
    ensures Unfinished(before + [e], u)
            <==> (e.JobStarted? && e.job == u) || (Unfinished(before, u) && !EndOf(e, u))
  {
    var all, n := before + [e], |before|;
    forall i: nat | i <= n ensures EndedFrom(all, i, u) <==> EndedFrom(before, i, u) || EndOf(e, u) {
      EndedJoins(before, e, i, u);
    }
    assert all[n] == e && !EndedFrom(before, n, u);
    if Unfinished(before, u) && !EndOf(e, u) {
      var i :| 0 <= i < n && before[i].JobStarted? && before[i].job == u && !EndedFrom(before, i, u);
      assert all[i] == before[i];
    }
    if Unfinished(all, u) && !(e.JobStarted? && e.job == u) {
      var i :| 0 <= i < |all| && all[i].JobStarted? && all[i].job == u && !EndedFrom(all, i, u);
      assert before[i] == all[i];
    }
  }

  lemma {:induction false} RunningIsUnfinished(token: Option<string>, c: Clock, events: seq<Event>, u: Uuid)
    ensures u in Replay(token, c, events).running <==>
            (u in c.running && !EndedFrom(events, 0, u)) || Unfinished(events, u)
  {
    if events != [] {
      var before, e := events[..|events| - 1], events[|events| - 1];
      assert events == before + [e];
      RunningIsUnfinished(token, c, before, u);
      EndedJoins(before, e, 0, u);
      UnfinishedJoins(before, e, u);
    }
  }

  lemma {:induction false} HistoryInOrder(run: Run, k: nat)
    requires run.WellTimed() && k <= |run.sleeps|
    ensures Ordered(run.start, run.Before(k))
    ensures forall i :: 0 <= i < |run.Before(k)| ==> run.Before(k)[i].at <= run.Tick(k)
    ensures run.start <= run.Tick(k)
  {
    if k > 0 {
      HistoryInOrder(run, k - 1);
      var before, sleep := run.Before(k - 1), run.sleeps[k - 1].events;
      forall i | 0 <= i < |run.Before(k)|
        ensures run.Before(k)[i].at <= run.Tick(k) && run.start <= run.Before(k)[i].at
        ensures i >= |before| ==> run.Before(k)[i] == sleep[i - |before|] && run.Tick(k - 1) <= run.Before(k)[i].at
      {
        if i < |before| { assert run.Before(k)[i] == before[i]; }
        else { assert run.Before(k)[i] == sleep[i - |before|]; }
      }
    }
  }

  /** The shutdown condition, said in terms of what happened. */
  lemma DueExactlyWhenIdle(run: Run, k: nat)
    requires run.WellTimed() && k <= |run.sleeps|
    ensures Due(run.At(k), run.timeout, run.Tick(k)) <==>
            && AllJobsOver(run.restored, run.Before(k))
            && SilentSince(run.token, run.start, run.Before(k), run.Tick(k) - run.timeout)
  {
    HistoryInOrder(run, k);
    var c, events := Clock(run.start, run.restored), run.Before(k);
    LastActivityIsLatest(run.token, c, events, run.Tick(k) - run.timeout);
    forall u: Uuid {
      RunningIsUnfinished(run.token, c, events, u);
    }
    if AllJobsOver(run.restored, events) {
      forall u ensures u !in run.At(k).running { }
    } else {
      var u := UnfinishedJob(run.restored, events);
      assert u in run.At(k).running;
    }
  }

  lemma UnfinishedJob(restored: set<Uuid>, events: seq<Event>) returns (u: Uuid)
    requires !AllJobsOver(restored, events)
    ensures (u in restored && !EndedFrom(events, 0, u)) || Unfinished(events, u)
  {
    if v :| v in restored && !EndedFrom(events, 0, v) {
      u := v;
    } else {
      var i :| 0 <= i < |events| && events[i].JobStarted? && !EndedFrom(events, i, events[i].job);
      u := events[i].job;
    }
  }

  /** Every job is over at wake-up k, and nobody has been heard for longer than the timeout. */
  ghost predicate IdleAt(run: Run, k: nat)
    requires k <= |run.sleeps|
  {
    && AllJobsOver(run.restored, run.Before(k))
    && SilentSince(run.token, run.start, run.Before(k), run.Tick(k) - run.timeout)
  }

  /** SIGTERM is raised at the first idle wake-up, hence once at most. */
  lemma RaisedAtFirstIdle(run: Run, k: nat)
    requires run.WellTimed() && k <= |run.sleeps|
    ensures run.RaisedAt(k) <==> 0 < k && IdleAt(run, k) && forall j :: 0 < j < k ==> !IdleAt(run, j)
    ensures run.RaisedAt(k) ==> forall j :: 0 < j <= |run.sleeps| && j != k ==> !run.RaisedAt(j)
  {
    forall j | 0 <= j <= |run.sleeps| ensures IdleAt(run, j) <==> Due(run.At(j), run.timeout, run.Tick(j)) {
      DueExactlyWhenIdle(run, j);
    }
  }

  // ---------------------------------------------------------------------------------------
  // Safety and bound
  // ---------------------------------------------------------------------------------------

  /** SIGTERM comes only when no job is left and nobody was heard for longer than the timeout. */
  lemma ShutdownIsSafe(run: Run, k: nat)
    requires run.WellTimed() && k <= |run.sleeps| && run.RaisedAt(k)
    ensures AllJobsOver(run.restored, run.Before(k))
    ensures run.Tick(k) - run.start > run.timeout
    ensures forall i :: 0 <= i < |run.Before(k)| && Accepted(run.token, run.Before(k)[i]) ==>
              run.Tick(k) - run.Before(k)[i].at > run.timeout
  {
    DueExactlyWhenIdle(run, k);
  }

  /** No sleep lasts longer than `longest`. */
  predicate Brisk(run: Run, longest: real) {
    forall k :: 0 <= k < |run.sleeps| ==> run.Tick(k + 1) <= run.Tick(k) + longest
  }

  /** The first wake-up after `bound` comes within one sleep. */
  lemma {:induction false} FirstTickAfter(run: Run, longest: real, bound: real, n: nat) returns (k: nat)
    requires Brisk(run, longest) && n <= |run.sleeps| && run.start <= bound < run.Tick(n)
    ensures 0 < k <= n && bound < run.Tick(k) <= bound + longest
  {
    if bound < run.Tick(n - 1) {
      k := FirstTickAfter(run, longest, bound, n - 1);
    } else {
      k := n;
    }
  }

  lemma {:induction false} LateHistory(run: Run, k: nat, n: nat)
    requires run.WellTimed() && k <= n <= |run.sleeps|
    ensures run.Before(k) <= run.Before(n)
    ensures forall i :: |run.Before(k)| <= i < |run.Before(n)| ==> run.Tick(k) <= run.Before(n)[i].at
    ensures run.Tick(k) <= run.Tick(n)
  {
    if k < n {
      LateHistory(run, k, n - 1);
      var before, sleep := run.Before(n - 1), run.sleeps[n - 1].events;
      forall i | |run.Before(k)| <= i < |run.Before(n)| ensures run.Tick(k) <= run.Before(n)[i].at {
        if i < |before| { assert run.Before(n)[i] == before[i]; }
        else { assert run.Before(n)[i] == sleep[i - |before|]; }
      }
    }
  }

  /** Jobs that are over in the end and ended by `bound` are over at every tick after `bound`. */
  lemma OverByBound(restored: set<Uuid>, early: seq<Event>, all: seq<Event>, bound: real)
    requires early <= all && AllJobsOver(restored, all)
    requires forall i :: 0 <= i < |all| && all[i].JobEnded? ==> all[i].at <= bound
    requires forall i :: |early| <= i < |all| ==> bound < all[i].at
    ensures AllJobsOver(restored, early)
  {
    forall u, from: nat | EndedFrom(all, from, u) ensures EndedFrom(early, from, u) {
      var j :| from <= j < |all| && all[j].JobEnded? && all[j].job == u;
      assert early[j] == all[j];
    }
    assert forall i :: 0 <= i < |early| ==> early[i] == all[i];
  }

  /**
   Liveness with a bound: when no sleep lasts longer than `longest`, all jobs have ended by `quiet`
   and nobody was heard after `quiet - timeout`, SIGTERM is raised no later than `quiet + longest`.
   With exact sleeps `longest` is the check interval.
   */
  lemma ShutdownIsPrompt(run: Run, quiet: real, longest: real) returns (k: nat)
    requires run.WellTimed() && Brisk(run, longest) && run.timeout >= 0.0
    requires run.start + run.timeout <= quiet < run.Tick(|run.sleeps|)
    requires
      var events := run.Before(|run.sleeps|);
      && AllJobsOver(run.restored, events)
      && (forall i :: 0 <= i < |events| && events[i].JobEnded? ==> events[i].at <= quiet)
      && (forall i :: 0 <= i < |events| && Accepted(run.token, events[i]) ==> events[i].at + run.timeout <= quiet)
    ensures k <= |run.sleeps| && run.RaisedAt(k) && run.Tick(k) <= quiet + longest
  {
    var n := |run.sleeps|;
    var late := FirstTickAfter(run, longest, quiet, n);
    LateHistory(run, late, n);
    OverByBound(run.restored, run.Before(late), run.Before(n), quiet);
    assert forall i :: 0 <= i < |run.Before(late)| ==> run.Before(late)[i] == run.Before(n)[i];
    DueExactlyWhenIdle(run, late);
    k := FirstDue(run, late);
    LateHistory(run, k, late);
  }

  lemma {:induction false} FirstDue(run: Run, k: nat) returns (first: nat)
    requires 0 < k <= |run.sleeps| && Due(run.At(k), run.timeout, run.Tick(k))
    ensures first <= k && run.RaisedAt(first)
  {
    if j: nat :| 0 < j < k && Due(run.At(j), run.timeout, run.Tick(j)) {
      first := FirstDue(run, j);
    } else {
      first := k;
    }
  }
}
