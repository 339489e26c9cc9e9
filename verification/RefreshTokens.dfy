/**
 Refresh-token rotation (control_station_lite/server/api/auth.py).

 A row is found by the hash of its token's jti.  `hash` is any function; what a run needs of it is
 that the hashes of issued tokens are new (`Fresh`).  A refresh first checks its token and later, other
 requests in between, rotates it without checking again.
 */
module RefreshTokens {
  import opened Sequences

  type Jti = string
  type Hash = string
  type UserId = int
  type Time = int

  /** Fourteen days, in seconds. */
  const LIFETIME: Time := 14 * 24 * 60 * 60

  datatype TokenRow = TokenRow(user: UserId, expiresAt: Time, revoked: bool)

  type Rows = map<Hash, TokenRow>

  /** The cookie after decoding; `Malformed` is any JWT error, an outdated signature included. */
  datatype Cookie = NoCookie | Malformed | Signed(user: UserId, jti: Jti)

  datatype Answer = Granted | InvalidCredentials | Invalid | Revoked | Expired

  /** A refresh that has passed its checks and has not rotated its token yet. */
  datatype Checked = Checked(user: UserId, hash: Hash)

  datatype Server = Server(rows: Rows, pending: map<nat, Checked>)

  /** `enabled`: the users that exist and are not disabled; `jti`: of the token to be issued. */
  datatype Step =
    | Login(passwordOk: bool, user: UserId, enabled: set<UserId>, jti: Jti, now: Time)
    | Check(id: nat, cookie: Cookie, enabled: set<UserId>, now: Time)
    | Rotate(id: nat, jti: Jti, now: Time)
    | Logout(cookie: Cookie)

  function Validate(rows: Rows, h: Hash, now: Time): Answer {
    if h !in rows || rows[h].revoked then Revoked
    else if rows[h].expiresAt < now then Expired
    else Granted
  }

  function LoginAnswer(passwordOk: bool, user: UserId, enabled: set<UserId>): Answer {
    if user in enabled && passwordOk then Granted else InvalidCredentials
  }

  /** Somebody gives the password of user `u`, who exists and is not disabled. */
  predicate LogsIn(step: Step, u: UserId) {
    step.Login? && step.passwordOk && step.user == u && u in step.enabled
  }

  function RefreshAnswer(hash: Jti -> Hash, rows: Rows, cookie: Cookie, enabled: set<UserId>, now: Time): Answer {
    if !cookie.Signed? then Invalid
    else if Validate(rows, hash(cookie.jti), now) != Granted then Validate(rows, hash(cookie.jti), now)
    else if cookie.user in enabled then Granted
    else Invalid
  }

  function Revoke(rows: Rows, h: Hash): Rows {
    if h in rows then rows[h := rows[h].(revoked := true)] else rows
  }

  function Issue(rows: Rows, h: Hash, user: UserId, now: Time): Rows {
    rows[h := TokenRow(user, now + LIFETIME, false)]
  }

  function Rotated(rows: Rows, c: Checked, h: Hash, now: Time): Rows {
    Issue(Revoke(rows, c.hash), h, c.user, now)
  }

  function Next(hash: Jti -> Hash, s: Server, step: Step): Server {
    match step
    case Login(passwordOk, user, enabled, jti, now) =>
      if LoginAnswer(passwordOk, user, enabled) != Granted then s
      else s.(rows := Issue(s.rows, hash(jti), user, now))
    case Check(id, cookie, enabled, now) =>
      if id in s.pending || RefreshAnswer(hash, s.rows, cookie, enabled, now) != Granted then s
      else s.(pending := s.pending[id := Checked(cookie.user, hash(cookie.jti))])
    case Rotate(id, jti, now) =>
      if id !in s.pending then s
      else Server(Rotated(s.rows, s.pending[id], hash(jti), now), s.pending - {id})
    case Logout(cookie) => if cookie.Signed? then s.(rows := Revoke(s.rows, hash(cookie.jti))) else s
  }

  /** The endpoints over the table of rows. */
  class TokenStore {
    var rows: Rows

    constructor ()
      ensures rows == map[]
    {
      rows := map[];
    }

    method StoreRefreshToken(h: Hash, user: UserId, now: Time)
      modifies this
      ensures rows == Issue(old(rows), h, user, now)
    {
      rows := rows[h := TokenRow(user, now + LIFETIME, false)];
    }

    method RevokeJti(h: Hash)
      modifies this
      ensures rows == Revoke(old(rows), h)
    {
      if h in rows {
        rows := rows[h := rows[h].(revoked := true)];
      }
    }

    method ValidateRefreshJti(h: Hash, now: Time) returns (a: Answer)
      ensures a == Validate(rows, h, now)
    {
      if h !in rows || rows[h].revoked {
        return Revoked;
      }
      if rows[h].expiresAt < now {
        return Expired;
      }
      return Granted;
    }

    method Login(hash: Jti -> Hash, step: Step) returns (a: Answer)
      requires step.Login?
      modifies this
      ensures a == if step.passwordOk && step.user in step.enabled then Granted else InvalidCredentials
      ensures forall pending :: Server(rows, pending) == Next(hash, Server(old(rows), pending), step)
    {
      if step.user !in step.enabled || !step.passwordOk {
        return InvalidCredentials;
      }
      StoreRefreshToken(hash(step.jti), step.user, step.now);
      return Granted;
    }

    /** `refresh` up to the point where it starts to write. */
    method CheckRefresh(hash: Jti -> Hash, cookie: Cookie, enabled: set<UserId>, now: Time) returns (a: Answer)
      ensures a == RefreshAnswer(hash, rows, cookie, enabled, now)
    {
      if !cookie.Signed? {
        return Invalid;
      }
      a := ValidateRefreshJti(hash(cookie.jti), now);
      if a != Granted {
        return;
      }
      if cookie.user !in enabled {
        return Invalid;
      }
    }

    /** The rest of `refresh`. */
    method RotateToken(c: Checked, h: Hash, now: Time)
      modifies this
      ensures rows == Rotated(old(rows), c, h, now)
    {
      RevokeJti(c.hash);
      StoreRefreshToken(h, c.user, now);
    }

    /** A refresh that no other request interrupts. */
    method Refresh(hash: Jti -> Hash, cookie: Cookie, enabled: set<UserId>, jti: Jti, now: Time) returns (a: Answer)
      modifies this
      ensures a == RefreshAnswer(hash, old(rows), cookie, enabled, now)
      ensures forall pending: map<nat, Checked>, id: nat :: id !in pending ==>
        Server(rows, pending)
        == Next(hash, Next(hash, Server(old(rows), pending), Check(id, cookie, enabled, now)), Rotate(id, jti, now))
    {
      a := CheckRefresh(hash, cookie, enabled, now);
      if a == Granted {
        RotateToken(Checked(cookie.user, hash(cookie.jti)), hash(jti), now);
      }
      forall pending: map<nat, Checked>, id: nat | id !in pending
        ensures pending[id := Checked(0, "")] - {id} == pending
        ensures a == Granted ==> pending[id := Checked(cookie.user, hash(cookie.jti))] - {id} == pending
      {
      }
    }

    method Logout(hash: Jti -> Hash, step: Step)
      requires step.Logout?
      modifies this
      ensures forall pending :: Server(rows, pending) == Next(hash, Server(old(rows), pending), step)
    {
      if step.cookie.Signed? {
        RevokeJti(hash(step.cookie.jti));
      }
    }
  }

  // ---------------------------------------------------------------------------------------
  // Runs
  // ---------------------------------------------------------------------------------------

  function After(hash: Jti -> Hash, steps: seq<Step>): Server {
    if steps == [] then Server(map[], map[])
    else Next(hash, After(hash, steps[..|steps| - 1]), steps[|steps| - 1])
  }

  /** What a step does to tokens, by hash. */
  datatype Event = Issued(hash: Hash, at: Time) | Spent(hash: Hash)

  function EventsOf(hash: Jti -> Hash, s: Server, step: Step): seq<Event> {
    match step
    case Login(passwordOk, user, enabled, jti, now) =>
      if LoginAnswer(passwordOk, user, enabled) == Granted then [Issued(hash(jti), now)] else []
    case Check(_, _, _, _) => []
    case Rotate(id, jti, now) => if id in s.pending then [Spent(s.pending[id].hash), Issued(hash(jti), now)] else []
    case Logout(cookie) => if cookie.Signed? then [Spent(hash(cookie.jti))] else []
  }

  function Log(hash: Jti -> Hash, steps: seq<Step>): seq<Event> {
    if steps == [] then []
    else
      var before, step := steps[..|steps| - 1], steps[|steps| - 1];
      Log(hash, before) + EventsOf(hash, After(hash, before), step)
  }

  predicate Mentioned(log: seq<Event>, h: Hash) {
    exists i :: 0 <= i < |log| && log[i].hash == h
  }

  /** The hash of every issued token is new. */
  predicate Fresh(log: seq<Event>) {
    forall i :: 0 <= i < |log| && log[i].Issued? ==> !Mentioned(log[..i], log[i].hash)
  }

  /** Issued at that time and not spent since. */
  predicate Unspent(log: seq<Event>, h: Hash, at: Time) {
    exists i :: 0 <= i < |log| && log[i] == Issued(h, at)
             && forall j :: i < j < |log| ==> log[j] != Spent(h)
  }

  lemma UnspentStep(log: seq<Event>, e: Event, h: Hash, at: Time)
    ensures Unspent(log + [e], h, at) <==>
            e == Issued(h, at) || (Unspent(log, h, at) && e != Spent(h))
  {
    var all := log + [e];
    if Unspent(all, h, at) && e != Issued(h, at) {
      var i :| 0 <= i < |all| && all[i] == Issued(h, at) && forall j :: i < j < |all| ==> all[j] != Spent(h);
      assert log[i] == Issued(h, at) && all[|log|] == e;
      assert forall j :: i < j < |log| ==> all[j] == log[j];
    }
    if e == Issued(h, at) {
      assert all[|log|] == e;
    } else if Unspent(log, h, at) && e != Spent(h) {
      var i :| 0 <= i < |log| && log[i] == Issued(h, at) && forall j :: i < j < |log| ==> log[j] != Spent(h);
      assert all[i] == Issued(h, at);
    }
  }

  /** The table says exactly which tokens are issued and unspent, and until when they hold. */
  ghost predicate Agree(rows: Rows, log: seq<Event>) {
    && (forall h, at :: Unspent(log, h, at) <==> h in rows && !rows[h].revoked && rows[h].expiresAt == at + LIFETIME)
    && (forall h :: h in rows ==> Mentioned(log, h))
  }

  lemma MentionedStep(log: seq<Event>, e: Event, h: Hash)
    ensures Mentioned(log + [e], h) <==> Mentioned(log, h) || e.hash == h
  {
    var all := log + [e];
    assert all[|log|] == e;
    assert forall i :: 0 <= i < |log| ==> all[i] == log[i];
  }

  lemma RevokeAgrees(rows: Rows, log: seq<Event>, h: Hash)
    requires Agree(rows, log)
    ensures Agree(Revoke(rows, h), log + [Spent(h)])
  {
    var log' := log + [Spent(h)];
    forall g: Hash, at: Time ensures Unspent(log', g, at) <==> Unspent(log, g, at) && g != h {
      UnspentStep(log, Spent(h), g, at);
    }
    forall g | g in rows ensures Mentioned(log', g) {
      MentionedStep(log, Spent(h), g);
    }
  }

  lemma IssueAgrees(rows: Rows, log: seq<Event>, h: Hash, user: UserId, now: Time)
    requires Agree(rows, log) && !Mentioned(log, h)
    ensures Agree(Issue(rows, h, user, now), log + [Issued(h, now)])
  {
    var log' := log + [Issued(h, now)];
    forall g: Hash, at: Time ensures Unspent(log', g, at) <==> Unspent(log, g, at) || (g == h && at == now) {
      UnspentStep(log, Issued(h, now), g, at);
    }
    forall g | g in rows || g == h ensures Mentioned(log', g) {
      MentionedStep(log, Issued(h, now), g);
    }
    assert forall at :: Unspent(log, h, at) ==> Mentioned(log, h);
  }

  lemma FreshPrefix(a: seq<Event>, b: seq<Event>)
    requires Fresh(a + b)
    ensures Fresh(a)
    ensures forall i :: 0 <= i < |b| && b[i].Issued? ==> !Mentioned(a + b[..i], b[i].hash)
  {
    forall i | 0 <= i < |a| && a[i].Issued? ensures !Mentioned(a[..i], a[i].hash) {
      assert (a + b)[i] == a[i] && (a + b)[..i] == a[..i];
    }
    forall i | 0 <= i < |b| && b[i].Issued? ensures !Mentioned(a + b[..i], b[i].hash) {
      assert (a + b)[|a| + i] == b[i] && (a + b)[..|a| + i] == a + b[..i];
    }
  }

  lemma RotationAgrees(rows: Rows, log: seq<Event>, c: Checked, h: Hash, now: Time)
    requires Agree(rows, log) && Fresh(log + [Spent(c.hash), Issued(h, now)])
    ensures Agree(Rotated(rows, c, h, now), log + [Spent(c.hash), Issued(h, now)])
  {
    var events := [Spent(c.hash), Issued(h, now)];
    FreshPrefix(log, events);
    RevokeAgrees(rows, log, c.hash);
    assert log + events[..1] == log + [Spent(c.hash)];
    assert log + events == log + [Spent(c.hash)] + [Issued(h, now)];
    IssueAgrees(Revoke(rows, c.hash), log + [Spent(c.hash)], h, c.user, now);
  }

  lemma StepAgrees(hash: Jti -> Hash, s: Server, log: seq<Event>, step: Step)
    requires Agree(s.rows, log) && Fresh(log + EventsOf(hash, s, step))
    ensures Agree(Next(hash, s, step).rows, log + EventsOf(hash, s, step))
  {
    var events := EventsOf(hash, s, step);
    if events == [] {
      NothingAdded(log);
    } else {
      match step
      case Login(_, user, _, jti, now) =>
        FreshPrefix(log, events);
        assert log + events[..0] == log;
        IssueAgrees(s.rows, log, hash(jti), user, now);
      case Rotate(id, jti, now) => RotationAgrees(s.rows, log, s.pending[id], hash(jti), now);
      case Logout(cookie) => RevokeAgrees(s.rows, log, hash(cookie.jti));
    }
  }

  lemma FreshBefore(hash: Jti -> Hash, steps: seq<Step>)
    requires steps != [] && Fresh(Log(hash, steps))
    ensures Fresh(Log(hash, steps[..|steps| - 1]))
  {
    var before, step := steps[..|steps| - 1], steps[|steps| - 1];
    FreshPrefix(Log(hash, before), EventsOf(hash, After(hash, before), step));
  }

  lemma {:induction false} TableFollowsLog(hash: Jti -> Hash, steps: seq<Step>)
    requires Fresh(Log(hash, steps))
    ensures Agree(After(hash, steps).rows, Log(hash, steps))
  {
    if steps != [] {
      var before, step := steps[..|steps| - 1], steps[|steps| - 1];
      FreshBefore(hash, steps);
      TableFollowsLog(hash, before);
      StepAgrees(hash, After(hash, before), Log(hash, before), step);
    }
  }

  /** The token may still be used: issued at most fourteen days ago and not spent since. */
  ghost predicate Usable(log: seq<Event>, h: Hash, now: Time) {
    exists at :: Unspent(log, h, at) && now <= at + LIFETIME
  }

  /** The token was issued and not spent since. */
  ghost predicate Outstanding(log: seq<Event>, h: Hash) {
    exists at :: Unspent(log, h, at)
  }

  lemma ValidMeansUsable(rows: Rows, log: seq<Event>, h: Hash, now: Time)
    requires Agree(rows, log)
    ensures Validate(rows, h, now)
            == if !Outstanding(log, h) then Revoked else if !Usable(log, h, now) then Expired else Granted
  {
    if h in rows {
      assert Unspent(log, h, rows[h].expiresAt - LIFETIME) <==> !rows[h].revoked;
    }
  }

  /**
   What the checks of a refresh answer, by what has happened: a token that was rotated or logged out, or
   never issued, is refused as revoked, one issued more than fourteen days ago as expired, and a good
   one of a user who is not enabled as invalid.  All others pass.
   */
  lemma GrantedExactly(hash: Jti -> Hash, steps: seq<Step>, cookie: Cookie, enabled: set<UserId>, now: Time)
    requires Fresh(Log(hash, steps))
    ensures
      var log, a := Log(hash, steps), RefreshAnswer(hash, After(hash, steps).rows, cookie, enabled, now);
      if !cookie.Signed? then a == Invalid
      else if !Outstanding(log, hash(cookie.jti)) then a == Revoked
      else if !Usable(log, hash(cookie.jti), now) then a == Expired
      else if cookie.user !in enabled then a == Invalid
      else a == Granted
  {
    TableFollowsLog(hash, steps);
    if cookie.Signed? {
      ValidMeansUsable(After(hash, steps).rows, Log(hash, steps), hash(cookie.jti), now);
    }
  }

  /** A token that was just issued belongs to the user who asked for it and is good for fourteen days. */
  lemma NewTokenIsGood(hash: Jti -> Hash, rows: Rows, c: Checked, jti: Jti, now: Time,
                       cookie: Cookie, enabled: set<UserId>, later: Time)
    requires cookie.Signed? && cookie.jti == jti
    ensures
      var rows' := Rotated(rows, c, hash(jti), now);
      && rows'[hash(jti)].user == c.user && rows' == Issue(Revoke(rows, c.hash), hash(jti), c.user, now)
      && (RefreshAnswer(hash, rows', cookie, enabled, later) == Granted
          <==> cookie.user in enabled && later <= now + LIFETIME)
  {
  }

  lemma {:induction false} LogGrows(hash: Jti -> Hash, steps: seq<Step>, i: nat)
    requires i <= |steps|
    ensures Log(hash, steps[..i]) <= Log(hash, steps)
  {
    if i == |steps| {
      assert steps[..i] == steps;
    } else {
      var before := steps[..|steps| - 1];
      assert before[..i] == steps[..i];
      LogGrows(hash, before, i);
    }
  }

  lemma IssuedIsNew(log: seq<Event>, i: nat, j: nat)
    requires Fresh(log) && i < j < |log| && log[j].Issued?
    ensures log[i].hash != log[j].hash
  {
    assert log[..j][i] == log[i];
  }

  /** In a fresh log nothing is issued after it was spent. */
  lemma SpentIsNotUnspent(log: seq<Event>, i: nat, h: Hash, at: Time)
    requires Fresh(log) && i < |log| && log[i] == Spent(h)
    ensures !Unspent(log, h, at)
  {
    forall j: nat | i < j < |log| && log[j].Issued? ensures log[j].hash != h {
      IssuedIsNew(log, i, j);
    }
  }

  /** The step spends the token: a rotation of it, or a logout with it. */
  predicate Spends(hash: Jti -> Hash, s: Server, step: Step, h: Hash) {
    || (step.Rotate? && step.id in s.pending && s.pending[step.id].hash == h)
    || (step.Logout? && step.cookie.Signed? && hash(step.cookie.jti) == h)
  }

  /** A spending step leaves its mark in the log. */
  lemma SpentIsLogged(hash: Jti -> Hash, steps: seq<Step>, i: nat, h: Hash) returns (k: nat)
    requires i < |steps| && Spends(hash, After(hash, steps[..i]), steps[i], h)
    ensures k < |Log(hash, steps)| && Log(hash, steps)[k] == Spent(h)
  {
    LogGrows(hash, steps, i + 1);
    assert steps[..i + 1][..i] == steps[..i];
    k := |Log(hash, steps[..i])|;
    assert Log(hash, steps[..i + 1])[k] == EventsOf(hash, After(hash, steps[..i]), steps[i])[0];
  }

  lemma SpentIsRevoked(rows: Rows, log: seq<Event>, k: nat, h: Hash, now: Time)
    requires Agree(rows, log) && Fresh(log) && k < |log| && log[k] == Spent(h)
    ensures Validate(rows, h, now) == Revoked
  {
    if h in rows {
      SpentIsNotUnspent(log, k, h, rows[h].expiresAt - LIFETIME);
    }
  }

  /** After a rotation or a logout no refresh with the token passes its checks any more. */
  lemma SpentTokenIsRefused(hash: Jti -> Hash, steps: seq<Step>, i: nat, h: Hash,
                            cookie: Cookie, enabled: set<UserId>, now: Time)
    requires Fresh(Log(hash, steps)) && i < |steps| && Spends(hash, After(hash, steps[..i]), steps[i], h)
    requires cookie.Signed? && hash(cookie.jti) == h
    ensures RefreshAnswer(hash, After(hash, steps).rows, cookie, enabled, now) == Revoked
  {
    var k := SpentIsLogged(hash, steps, i, h);
    TableFollowsLog(hash, steps);
    SpentIsRevoked(After(hash, steps).rows, Log(hash, steps), k, h, now);
  }

  // ---------------------------------------------------------------------------------------
  // Rows
  // ---------------------------------------------------------------------------------------

  /** The row is there later, for the same user and time, and revoked if it was. */
  predicate Kept(rows: Rows, later: Rows, h: Hash) {
    && h in rows && h in later
    && later[h].user == rows[h].user && later[h].expiresAt == rows[h].expiresAt
    && (rows[h].revoked ==> later[h].revoked)
  }

  /** An issued hash is on no row yet. */
  lemma NewHashIsNew(rows: Rows, log: seq<Event>, events: seq<Event>, k: nat)
    requires Agree(rows, log) && Fresh(log + events) && k < |events| && events[k].Issued?
    ensures events[k].hash !in rows
    ensures forall i :: 0 <= i < k ==> events[i].hash != events[k].hash
  {
    FreshPrefix(log, events);
    forall h | Mentioned(log, h) ensures Mentioned(log + events[..k], h) {
      var i :| 0 <= i < |log| && log[i].hash == h;
      assert (log + events[..k])[i].hash == h;
    }
    forall i | 0 <= i < k ensures Mentioned(log + events[..k], events[i].hash) {
      assert (log + events[..k])[|log| + i].hash == events[i].hash;
    }
  }

  /** What a run needs of a step: the token it issues, if any, is on no row and is not the one it spends. */
  lemma StepIssuesNew(hash: Jti -> Hash, s: Server, log: seq<Event>, step: Step)
    requires Agree(s.rows, log) && Fresh(log + EventsOf(hash, s, step))
    ensures step.Login? && EventsOf(hash, s, step) != [] ==> hash(step.jti) !in s.rows
    ensures step.Rotate? && step.id in s.pending ==> hash(step.jti) !in s.rows && hash(step.jti) != s.pending[step.id].hash
  {
    var events := EventsOf(hash, s, step);
    if step.Login? && events != [] {
      NewHashIsNew(s.rows, log, events, 0);
    } else if step.Rotate? && step.id in s.pending {
      NewHashIsNew(s.rows, log, events, 1);
      assert events[0].hash != events[1].hash;
    }
  }

  lemma StepKeepsRow(hash: Jti -> Hash, s: Server, log: seq<Event>, step: Step, h: Hash)
    requires Agree(s.rows, log) && Fresh(log + EventsOf(hash, s, step)) && h in s.rows
    ensures Kept(s.rows, Next(hash, s, step).rows, h)
  {
    StepIssuesNew(hash, s, log, step);
  }

  /** Rows are never removed, never change their user or expiry, and `revoked` is never reset. */
  lemma {:induction false} RevokedForever(hash: Jti -> Hash, steps: seq<Step>, i: nat, h: Hash)
    requires Fresh(Log(hash, steps)) && i <= |steps| && h in After(hash, steps[..i]).rows
    ensures Kept(After(hash, steps[..i]).rows, After(hash, steps).rows, h)
  {
    if i == |steps| {
      assert steps[..i] == steps;
    } else {
      var before, step := steps[..|steps| - 1], steps[|steps| - 1];
      assert before[..i] == steps[..i];
      FreshBefore(hash, steps);
      RevokedForever(hash, before, i, h);
      TableFollowsLog(hash, before);
      StepKeepsRow(hash, After(hash, before), Log(hash, before), step, h);
    }
  }

  // ---------------------------------------------------------------------------------------
  // Passwords
  // ---------------------------------------------------------------------------------------

  /** A login with the password adds a token of that user, good for fourteen days; no other login does. */
  lemma LoginNeedsPassword(hash: Jti -> Hash, s: Server, step: Step)
    requires step.Login?
    ensures Next(hash, s, step) ==
      if step.passwordOk && step.user in step.enabled
      then s.(rows := s.rows[hash(step.jti) := TokenRow(step.user, step.now + 14 * 86400, false)]) else s
  {
  }

  /** Whoever presents a token presents it for the user it was issued to: cookies are signed. */
  predicate CookiesHonest(hash: Jti -> Hash, steps: seq<Step>) {
    steps == [] ||
    (CookiesHonest(hash, steps[..|steps| - 1])
     && OwnCookie(hash, After(hash, steps[..|steps| - 1]).rows, steps[|steps| - 1]))
  }

  predicate OwnCookie(hash: Jti -> Hash, rows: Rows, step: Step) {
    step.Check? && step.cookie.Signed? && hash(step.cookie.jti) in rows ==>
      rows[hash(step.cookie.jti)].user == step.cookie.user
  }

  /** User `u` has a token, or is about to get one in exchange. */
  predicate Holds(s: Server, u: UserId) {
    || (exists h :: h in s.rows && s.rows[h].user == u)
    || (exists id :: id in s.pending && s.pending[id].user == u)
  }

  lemma HeldBefore(hash: Jti -> Hash, s: Server, step: Step, u: UserId)
    requires OwnCookie(hash, s.rows, step) && Holds(Next(hash, s, step), u)
    ensures Holds(s, u) || LogsIn(step, u)
  {
    var s' := Next(hash, s, step);
    if h :| h in s'.rows && s'.rows[h].user == u {
      if h in s.rows && s.rows[h].user == u { assert Holds(s, u); }
    }
    if step.Check? && s' != s {
      assert hash(step.cookie.jti) in s.rows && s.rows[hash(step.cookie.jti)].user == step.cookie.user;
    }
  }

  /** No token without a password: every row of a user goes back to a login of that user. */
  lemma {:induction false} EveryRowBeganWithPassword(hash: Jti -> Hash, steps: seq<Step>, u: UserId) returns (i: nat)
    requires CookiesHonest(hash, steps) && Holds(After(hash, steps), u)
    ensures i < |steps| && LogsIn(steps[i], u)
  {
    var before, step := steps[..|steps| - 1], steps[|steps| - 1];
    HeldBefore(hash, After(hash, before), step, u);
    if LogsIn(step, u) { i := |before|; } else { i := EveryRowBeganWithPassword(hash, before, u); }
  }

  /** The row of user `u`, good for fourteen days from `now` on, revoked or not. */
  predicate RowOf(rows: Rows, h: Hash, u: UserId, now: Time) {
    h in rows && rows[h].user == u && rows[h].expiresAt == now + 14 * 86400
  }

  lemma LoginAddsRow(hash: Jti -> Hash, s: Server, step: Step, u: UserId)
    requires LogsIn(step, u)
    ensures RowOf(Next(hash, s, step).rows, hash(step.jti), u, step.now)
  {
  }

  lemma RowKept(rows: Rows, later: Rows, h: Hash, u: UserId, now: Time)
    requires RowOf(rows, h, u, now) && Kept(rows, later, h)
    ensures RowOf(later, h, u, now)
  {
  }

  lemma StepKeepsRowOf(hash: Jti -> Hash, s: Server, log: seq<Event>, step: Step, h: Hash, u: UserId, now: Time)
    requires Agree(s.rows, log) && Fresh(log + EventsOf(hash, s, step)) && RowOf(s.rows, h, u, now)
    ensures RowOf(Next(hash, s, step).rows, h, u, now)
  {
    StepKeepsRow(hash, s, log, step, h);
    RowKept(s.rows, Next(hash, s, step).rows, h, u, now);
  }

  /** A login with the password leaves a row of that user for good. */
  lemma {:induction false} LoginLeavesRow(hash: Jti -> Hash, steps: seq<Step>, i: nat, u: UserId)
    requires Fresh(Log(hash, steps)) && i < |steps| && LogsIn(steps[i], u)
    ensures RowOf(After(hash, steps).rows, hash(steps[i].jti), u, steps[i].now)
  {
    var before, step := steps[..|steps| - 1], steps[|steps| - 1];
    if i == |before| {
      LoginAddsRow(hash, After(hash, before), step, u);
    } else {
      FreshBefore(hash, steps);
      TableFollowsLog(hash, before);
      LoginLeavesRow(hash, before, i, u);
      StepKeepsRowOf(hash, After(hash, before), Log(hash, before), step, hash(steps[i].jti), u, steps[i].now);
    }
  }

  ghost predicate HasToken(rows: Rows, u: UserId) {
    exists h :: h in rows && rows[h].user == u
  }

  ghost predicate LoggedIn(steps: seq<Step>, u: UserId) {
    exists i :: 0 <= i < |steps| && LogsIn(steps[i], u)
  }

  lemma HolderLoggedIn(hash: Jti -> Hash, steps: seq<Step>, u: UserId)
    requires CookiesHonest(hash, steps) && Holds(After(hash, steps), u)
    ensures LoggedIn(steps, u)
  {
    var i := EveryRowBeganWithPassword(hash, steps, u);
  }

  lemma RowIsToken(rows: Rows, h: Hash, u: UserId, now: Time)
    requires RowOf(rows, h, u, now)
    ensures HasToken(rows, u)
  {
  }

  /** In every run, exactly those users ever have a token who have logged in with their password. */
  lemma TokensExactlyForPasswords(hash: Jti -> Hash, steps: seq<Step>, u: UserId)
    requires Fresh(Log(hash, steps)) && CookiesHonest(hash, steps)
    ensures HasToken(After(hash, steps).rows, u) <==> LoggedIn(steps, u)
  {
    if HasToken(After(hash, steps).rows, u) {
      HolderLoggedIn(hash, steps, u);
    }
    if i :| 0 <= i < |steps| && LogsIn(steps[i], u) {
      LoginLeavesRow(hash, steps, i, u);
      RowIsToken(After(hash, steps).rows, hash(steps[i].jti), u, steps[i].now);
    }
  }

  /** Whatever cookies are presented: while nobody has logged in with a password there is no token at all. */
  lemma {:induction false} NothingWithoutPassword(hash: Jti -> Hash, steps: seq<Step>)
    requires forall i :: 0 <= i < |steps| && steps[i].Login? ==> !LogsIn(steps[i], steps[i].user)
    ensures After(hash, steps) == Server(map[], map[])
  {
    if steps != [] {
      NothingWithoutPassword(hash, steps[..|steps| - 1]);
    }
  }

  // ---------------------------------------------------------------------------------------
  // Conservation
  // ---------------------------------------------------------------------------------------

  function Live(rows: Rows): set<Hash> {
    set h | h in rows && !rows[h].revoked
  }

  /** The step rotates a token that is no longer live. */
  predicate Stale(s: Server, step: Step) {
    step.Rotate? && step.id in s.pending && s.pending[step.id].hash !in Live(s.rows)
  }

  /** Granted logins, less logouts that presented a live token. */
  function Sessions(hash: Jti -> Hash, steps: seq<Step>): int {
    if steps == [] then 0
    else
      var before, step := steps[..|steps| - 1], steps[|steps| - 1];
      Sessions(hash, before) +
      match step
      case Login(passwordOk, user, enabled, _, _) => if LoginAnswer(passwordOk, user, enabled) == Granted then 1 else 0
      case Logout(cookie) => if cookie.Signed? && hash(cookie.jti) in Live(After(hash, before).rows) then -1 else 0
      case _ => 0
  }

  /** How many rotations came too late. */
  function StaleRotations(hash: Jti -> Hash, steps: seq<Step>): nat {
    if steps == [] then 0
    else
      var before, step := steps[..|steps| - 1], steps[|steps| - 1];
      StaleRotations(hash, before) + if Stale(After(hash, before), step) then 1 else 0
  }

  lemma LiveAfterIssue(rows: Rows, h: Hash, user: UserId, now: Time)
    requires h !in rows
    ensures |Live(Issue(rows, h, user, now))| == |Live(rows)| + 1
  {
    assert Live(Issue(rows, h, user, now)) == Live(rows) + {h};
  }

  lemma LiveAfterRevoke(rows: Rows, h: Hash)
    ensures |Live(Revoke(rows, h))| == |Live(rows)| - (if h in Live(rows) then 1 else 0)
  {
    assert Live(Revoke(rows, h)) == Live(rows) - {h};
  }

  lemma LiveAfterRotation(rows: Rows, c: Checked, h: Hash, now: Time)
    requires h !in rows && h != c.hash
    ensures |Live(Rotated(rows, c, h, now))| == |Live(rows)| + (if c.hash in Live(rows) then 0 else 1)
  {
    LiveAfterRevoke(rows, c.hash);
    LiveAfterIssue(Revoke(rows, c.hash), h, c.user, now);
  }

  /**
   One live token for every login not logged out, and one more for every rotation of a token that was
   spent after it had been checked.
   */
  lemma {:induction false} EveryStaleRotationAddsOne(hash: Jti -> Hash, steps: seq<Step>)
    requires Fresh(Log(hash, steps))
    ensures |Live(After(hash, steps).rows)| == Sessions(hash, steps) + StaleRotations(hash, steps)
  {
    if steps != [] {
      var before, step := steps[..|steps| - 1], steps[|steps| - 1];
      var s := After(hash, before);
      FreshBefore(hash, steps);
      EveryStaleRotationAddsOne(hash, before);
      TableFollowsLog(hash, before);
      StepIssuesNew(hash, s, Log(hash, before), step);
      match step
      case Login(passwordOk, user, enabled, jti, now) =>
        if LoginAnswer(passwordOk, user, enabled) == Granted { LiveAfterIssue(s.rows, hash(jti), user, now); }
      case Check(_, _, _, _) =>
      case Rotate(id, jti, now) =>
        if id in s.pending { LiveAfterRotation(s.rows, s.pending[id], hash(jti), now); }
      case Logout(cookie) =>
        if cookie.Signed? { LiveAfterRevoke(s.rows, hash(cookie.jti)); }
    }
  }

  // ---------------------------------------------------------------------------------------
  // At most once
  // ---------------------------------------------------------------------------------------

  /** Some step of the run has spent the token. */
  ghost predicate SomeSpent(hash: Jti -> Hash, steps: seq<Step>, h: Hash) {
    exists i: nat :: i < |steps| && Spends(hash, After(hash, steps[..i]), steps[i], h)
  }

  /** The step rotates a token that has been spent before. */
  ghost predicate RotatesAgain(hash: Jti -> Hash, before: seq<Step>, step: Step) {
    step.Rotate? && exists h :: Spends(hash, After(hash, before), step, h) && SomeSpent(hash, before, h)
  }

  /** No token is rotated after it was spent, whether by another rotation or by a logout. */
  ghost predicate AcceptedOnce(hash: Jti -> Hash, steps: seq<Step>) {
    forall j :: 0 <= j < |steps| ==> !RotatesAgain(hash, steps[..j], steps[j])
  }

  /** Checked tokens are on a row. */
  predicate PendingOnRows(s: Server) {
    forall id :: id in s.pending ==> s.pending[id].hash in s.rows
  }

  lemma StepKeepsPendingOnRows(hash: Jti -> Hash, s: Server, step: Step)
    requires PendingOnRows(s)
    ensures PendingOnRows(Next(hash, s, step))
  {
    assert forall h :: h in s.rows ==> h in Next(hash, s, step).rows;
  }

  lemma {:induction false} PendingIsIssued(hash: Jti -> Hash, steps: seq<Step>)
    ensures PendingOnRows(After(hash, steps))
  {
    if steps != [] {
      PendingIsIssued(hash, steps[..|steps| - 1]);
      StepKeepsPendingOnRows(hash, After(hash, steps[..|steps| - 1]), steps[|steps| - 1]);
    }
  }

  /** A row is revoked by a step that spends its token. */
  lemma DeadBefore(hash: Jti -> Hash, s: Server, step: Step, h: Hash)
    requires h in Next(hash, s, step).rows && h !in Live(Next(hash, s, step).rows)
    ensures Spends(hash, s, step, h) || (h in s.rows && h !in Live(s.rows))
  {
  }

  lemma {:induction false} SpenderOf(hash: Jti -> Hash, steps: seq<Step>, h: Hash) returns (i: nat)
    requires h in After(hash, steps).rows && h !in Live(After(hash, steps).rows)
    ensures i < |steps| && Spends(hash, After(hash, steps[..i]), steps[i], h)
  {
    var before, step := steps[..|steps| - 1], steps[|steps| - 1];
    DeadBefore(hash, After(hash, before), step, h);
    if Spends(hash, After(hash, before), step, h) {
      i := |steps| - 1;
    } else {
      i := SpenderOf(hash, before, h);
      assert before[..i] == steps[..i] && before[i] == steps[i];
    }
  }

  lemma SpentIsDead(hash: Jti -> Hash, steps: seq<Step>, i: nat, h: Hash)
    requires Fresh(Log(hash, steps)) && i < |steps| && Spends(hash, After(hash, steps[..i]), steps[i], h)
    ensures h !in Live(After(hash, steps).rows)
  {
    var k := SpentIsLogged(hash, steps, i, h);
    TableFollowsLog(hash, steps);
    SpentIsRevoked(After(hash, steps).rows, Log(hash, steps), k, h, 0);
  }

  /** A stale rotation is one of a token that an earlier step has spent. */
  lemma StaleMeansSpent(hash: Jti -> Hash, steps: seq<Step>, step: Step, h: Hash)
    requires Fresh(Log(hash, steps)) && step.Rotate? && Spends(hash, After(hash, steps), step, h)
    ensures Stale(After(hash, steps), step) <==> SomeSpent(hash, steps, h)
  {
    PendingIsIssued(hash, steps);
    if SomeSpent(hash, steps, h) {
      var i: nat :| i < |steps| && Spends(hash, After(hash, steps[..i]), steps[i], h);
      SpentIsDead(hash, steps, i, h);
    }
    if h !in Live(After(hash, steps).rows) {
      var i := SpenderOf(hash, steps, h);
    }
  }

  lemma AcceptedOnceGrows(hash: Jti -> Hash, steps: seq<Step>, step: Step)
    ensures AcceptedOnce(hash, steps + [step]) <==> AcceptedOnce(hash, steps) && !RotatesAgain(hash, steps, step)
  {
    var all := steps + [step];
    assert all[..|steps|] == steps && all[|steps|] == step;
    assert forall j :: 0 <= j < |steps| ==> all[..j] == steps[..j] && all[j] == steps[j];
  }

  lemma RotatesAgainMeansStale(hash: Jti -> Hash, steps: seq<Step>, step: Step)
    requires Fresh(Log(hash, steps))
    ensures RotatesAgain(hash, steps, step) <==> Stale(After(hash, steps), step)
  {
    var s := After(hash, steps);
    if step.Rotate? && step.id in s.pending {
      assert Spends(hash, s, step, s.pending[step.id].hash);
      StaleMeansSpent(hash, steps, step, s.pending[step.id].hash);
    }
  }

  /**
   Every token is rotated at most once, and none after a logout, exactly when no rotation comes too
   late; and exactly then tokens are conserved.
   */
  lemma {:induction false} AcceptedOnceExactlyWhenNoneStale(hash: Jti -> Hash, steps: seq<Step>)
    requires Fresh(Log(hash, steps))
    ensures AcceptedOnce(hash, steps) <==> StaleRotations(hash, steps) == 0
    ensures AcceptedOnce(hash, steps) <==> |Live(After(hash, steps).rows)| == Sessions(hash, steps)
  {
    EveryStaleRotationAddsOne(hash, steps);
    if steps != [] {
      var before, step := steps[..|steps| - 1], steps[|steps| - 1];
      assert steps == before + [step];
      FreshBefore(hash, steps);
      AcceptedOnceExactlyWhenNoneStale(hash, before);
      AcceptedOnceGrows(hash, before, step);
      RotatesAgainMeansStale(hash, before, step);
    }
  }

  // ---------------------------------------------------------------------------------------
  // Overlapping requests
  // ---------------------------------------------------------------------------------------

  predicate Awaits(s: Server, h: Hash) {
    exists id :: id in s.pending && s.pending[id].hash == h
  }

  /** The step neither checks nor logs out a token that is checked and not rotated yet. */
  predicate Apart(hash: Jti -> Hash, s: Server, step: Step) {
    match step
    case Check(id, cookie, enabled, now) =>
      Next(hash, s, step) != s ==> !Awaits(s, hash(cookie.jti))
    case Logout(cookie) => cookie.Signed? ==> !Awaits(s, hash(cookie.jti))
    case _ => true
  }

  predicate AllApart(hash: Jti -> Hash, steps: seq<Step>) {
    steps == [] || (AllApart(hash, steps[..|steps| - 1])
                    && Apart(hash, After(hash, steps[..|steps| - 1]), steps[|steps| - 1]))
  }

  /** Checked tokens are live and all different. */
  ghost predicate Orderly(s: Server) {
    && (forall id :: id in s.pending ==> s.pending[id].hash in Live(s.rows))
    && (forall id, id' :: id in s.pending && id' in s.pending && s.pending[id].hash == s.pending[id'].hash ==> id == id')
  }

  lemma ApartIsOrderly(hash: Jti -> Hash, s: Server, log: seq<Event>, step: Step)
    requires Agree(s.rows, log) && Fresh(log + EventsOf(hash, s, step))
    requires Orderly(s) && Apart(hash, s, step)
    ensures Orderly(Next(hash, s, step)) && !Stale(s, step)
  {
    StepIssuesNew(hash, s, log, step);
  }

  lemma {:induction false} ApartIsNeverStale(hash: Jti -> Hash, steps: seq<Step>)
    requires Fresh(Log(hash, steps)) && AllApart(hash, steps)
    ensures Orderly(After(hash, steps)) && StaleRotations(hash, steps) == 0
  {
    if steps != [] {
      var before, step := steps[..|steps| - 1], steps[|steps| - 1];
      FreshBefore(hash, steps);
      ApartIsNeverStale(hash, before);
      TableFollowsLog(hash, before);
      ApartIsOrderly(hash, After(hash, before), Log(hash, before), step);
    }
  }

  /** A disorder stays until a rotation comes too late. */
  lemma DisorderStays(hash: Jti -> Hash, s: Server, log: seq<Event>, step: Step)
    requires Agree(s.rows, log) && Fresh(log + EventsOf(hash, s, step)) && !Orderly(s)
    requires PendingOnRows(s)
    ensures Stale(s, step) || !Orderly(Next(hash, s, step))
  {
    StepIssuesNew(hash, s, log, step);
    var s' := Next(hash, s, step);
    if id :| id in s.pending && s.pending[id].hash !in Live(s.rows) {
      assert id in s'.pending ==> s'.pending[id].hash !in Live(s'.rows);
    } else {
      var id, id' :| id in s.pending && id' in s.pending && s.pending[id].hash == s.pending[id'].hash && id != id';
      if step.Rotate? && step.id == id {
        assert id' in s'.pending && s'.pending[id'].hash !in Live(s'.rows);
      } else if step.Rotate? && step.id == id' {
        assert id in s'.pending && s'.pending[id].hash !in Live(s'.rows);
      } else {
        assert id in s'.pending && id' in s'.pending;
      }
    }
  }

  lemma NotApartIsDisorder(hash: Jti -> Hash, s: Server, step: Step)
    requires Orderly(s) && !Apart(hash, s, step)
    ensures !Orderly(Next(hash, s, step))
  {
    var s' := Next(hash, s, step);
    var h := hash(step.cookie.jti);
    var id :| id in s.pending && s.pending[id].hash == h;
    if step.Check? {
      assert s'.pending[id].hash == s'.pending[step.id].hash;
    } else {
      assert s'.pending[id].hash !in Live(s'.rows);
    }
  }

  lemma {:induction false} OverlapTells(hash: Jti -> Hash, steps: seq<Step>)
    requires Fresh(Log(hash, steps)) && !AllApart(hash, steps)
    ensures StaleRotations(hash, steps) > 0 || !Orderly(After(hash, steps))
  {
    var before, step := steps[..|steps| - 1], steps[|steps| - 1];
    var s := After(hash, before);
    FreshBefore(hash, steps);
    TableFollowsLog(hash, before);
    PendingIsIssued(hash, before);
    if !AllApart(hash, before) {
      OverlapTells(hash, before);
    }
    if Orderly(s) {
      if AllApart(hash, before) { NotApartIsDisorder(hash, s, step); }
    } else {
      DisorderStays(hash, s, Log(hash, before), step);
    }
  }

  /**
   When every checked refresh is carried through, each token is accepted at most once and never after
   a logout, and tokens are conserved, exactly when no token is checked again or logged out between a
   check and its rotation.
   */
  lemma AcceptedOnceExactlyWhenApart(hash: Jti -> Hash, steps: seq<Step>)
    requires Fresh(Log(hash, steps)) && After(hash, steps).pending == map[]
    ensures AcceptedOnce(hash, steps) <==> AllApart(hash, steps)
    ensures |Live(After(hash, steps).rows)| == Sessions(hash, steps) <==> AllApart(hash, steps)
  {
    AcceptedOnceExactlyWhenNoneStale(hash, steps);
    if AllApart(hash, steps) {
      ApartIsNeverStale(hash, steps);
    } else {
      OverlapTells(hash, steps);
    }
  }

  /** Even where some requests are given up, keeping them apart is enough. */
  lemma RotationConservesTokens(hash: Jti -> Hash, steps: seq<Step>)
    requires Fresh(Log(hash, steps)) && AllApart(hash, steps)
    ensures AcceptedOnce(hash, steps) && |Live(After(hash, steps).rows)| == Sessions(hash, steps)
  {
    AcceptedOnceExactlyWhenNoneStale(hash, steps);
    ApartIsNeverStale(hash, steps);
  }

  /** Two requests with one cookie: both are granted, and one login ends with two live tokens. */
  lemma OneCookieTwice(hash: Jti -> Hash, user: UserId, a: Jti, b: Jti, c: Jti)
    requires hash(a) != hash(b) && hash(b) != hash(c) && hash(a) != hash(c)
    ensures
      var cookie, enabled := Signed(user, a), {user};
      var login := [Login(true, user, enabled, a, 0)];
      var checks := login + [Check(0, cookie, enabled, 1)] + [Check(1, cookie, enabled, 1)];
      var steps := checks + [Rotate(0, b, 2)] + [Rotate(1, c, 2)];
      && RefreshAnswer(hash, After(hash, login).rows, cookie, enabled, 1) == Granted
      && RefreshAnswer(hash, After(hash, login + [Check(0, cookie, enabled, 1)]).rows, cookie, enabled, 1) == Granted
      && Live(After(hash, steps).rows) == {hash(b), hash(c)} && After(hash, steps).pending == map[]
  {
    var cookie, enabled := Signed(user, a), {user};
    var login := [Login(true, user, enabled, a, 0)];
    var first := login + [Check(0, cookie, enabled, 1)];
    var checks := first + [Check(1, cookie, enabled, 1)];
    assert [] + login == login;
    OneMore(hash, [], login[0]);
    OneMore(hash, login, Check(0, cookie, enabled, 1));
    OneMore(hash, first, Check(1, cookie, enabled, 1));
    OneMore(hash, checks, Rotate(0, b, 2));
    OneMore(hash, checks + [Rotate(0, b, 2)], Rotate(1, c, 2));
  }

  lemma OneMore(hash: Jti -> Hash, steps: seq<Step>, step: Step)
    ensures After(hash, steps + [step]) == Next(hash, After(hash, steps), step)
  {
    assert (steps + [step])[..|steps|] == steps;
  }
}
