/**
 * Login sessions: the records `POST /api/login` creates, the check `authenticateSession`
 * makes on the `Session-Id` header, the deactivation `POST /api/logout` performs, and the
 * removal of expired records by MongoDB's TTL index on `expiresAt`. Times are milliseconds
 * since the epoch, as `Date.now()` returns them.
 */
module Sessions {
  import opened Wrappers
  import opened ObjectIds
  import opened Accounts
  import opened Http

  /** A session lasts 24 hours from login. */
  const DayMs: int := 24 * 60 * 60 * 1000

  datatype Session = Session(userId: ObjectId, userModel: Collection, email: string, role: Role,
                             ipAddress: string, userAgent: string, loginTime: int,
                             logoutTime: Option<int>, isActive: bool, expiresAt: int)

  /** The `loginsessions` collection, by `_id`. */
  type Store = map<ObjectId, Session>

  /** The filter `authenticateSession` adds to the id: still active, and `expiresAt` after now. */
  predicate IsLive(s: Session, now: int) {
    s.isActive && s.expiresAt > now
  }

  /** The record a successful login saves. */
  function NewSession(owner: ObjectId, c: Collection, a: Account, ip: string, ua: string, now: int): (s: Session)
    ensures s.userId == owner && s.userModel == c && s.email == a.email && s.role == a.role
    ensures forall t :: now <= t ==> (IsLive(s, t) <==> t < now + DayMs)
  {
    Session(owner, c, a.email, a.role, ip, ua, now, None, true, now + DayMs)
  }

  /** The last millisecond a new session is accepted is one day minus one millisecond after login. */
  lemma ExpiryBoundary(owner: ObjectId, c: Collection, a: Account, ip: string, ua: string, now: int)
    ensures IsLive(NewSession(owner, c, a, ip, ua, now), now + DayMs - 1)
    ensures !IsLive(NewSession(owner, c, a, ip, ua, now), now + DayMs)
  {
  }

  /**
   * How a session record may change from one database state to the next: what login copied
   * from the account (owner, role, email, login and expiry times) stays as it was, and a
   * session that is no longer active never becomes active again.
   */
  predicate Evolves(before: Store, after: Store) {
    forall id :: id in before && id in after ==>
      var b, a := before[id], after[id];
      a.userId == b.userId && a.userModel == b.userModel && a.role == b.role && a.email == b.email
      && a.loginTime == b.loginTime && a.expiresAt == b.expiresAt
      && (!b.isActive ==> !a.isActive)
  }

  lemma EvolvesTransitive(s1: Store, s2: Store, s3: Store)
    requires Evolves(s1, s2) && Evolves(s2, s3)
    requires s1.Keys * s3.Keys <= s2.Keys
    ensures Evolves(s1, s3)
  {
  }

  /**
   * Along any run of operations that each respect `Evolves`, and in which an id that leaves
   * the store never comes back, the first and the last store are related by `Evolves`: no
   * sequence of steps revives a session or rewrites its login snapshot.
   */
  lemma {:induction false} EvolvesAlong(trace: seq<Store>)
    requires |trace| >= 1
    requires forall i :: 0 <= i < |trace| - 1 ==> Evolves(trace[i], trace[i + 1])
    requires forall i, j, k :: 0 <= i < j < k < |trace| ==> trace[i].Keys * trace[k].Keys <= trace[j].Keys
    ensures Evolves(trace[0], trace[|trace| - 1])
  {
    var n := |trace|;
    if n > 2 {
      EvolvesAlong(trace[..n - 1]);
      EvolvesTransitive(trace[0], trace[n - 2], trace[n - 1]);
    }
  }

  // ---------------------------------------------------------------- authenticateSession

  datatype AuthOutcome =
    | Authenticated(id: ObjectId, session: Session)
    | Denied(reply: Reply)

  const NoSession: Reply := Reply(401, ErrorBody("No session provided"))
  const InvalidSession: Reply := Reply(401, ErrorBody("Invalid or expired session"))
  const AuthFailed: Reply := Reply(500, ErrorBody("Authentication failed"))

  /**
   * `authenticateSession`: the header is absent or empty (401), not castable to an ObjectId
   * (the query throws, 500), names no live session (401), or names a live one.
   */
  function Authenticate(store: Store, header: Option<string>, now: int): (r: AuthOutcome)
    ensures r.Authenticated? <==>
              header.Some? && Parse(header.value).Some?
              && Parse(header.value).value in store && IsLive(store[Parse(header.value).value], now)
    ensures r.Authenticated? ==>
              r.id in store && r.session == store[r.id] && Format(r.id) == JsString.Lower(header.value)
    ensures r.Denied? ==> r.reply in {NoSession, InvalidSession, AuthFailed}
    ensures r == Denied(AuthFailed) <==> header.Some? && header.value != "" && Parse(header.value).None?
    ensures r == Denied(NoSession) <==> header.None? || header.value == ""
    ensures r == Denied(InvalidSession) <==>
              header.Some? && Parse(header.value).Some?
              && !(Parse(header.value).value in store && IsLive(store[Parse(header.value).value], now))
  {
    match header
    case None => Denied(NoSession)
    case Some(text) =>
      if text == "" then Denied(NoSession)
      else
        match Parse(text)
        case None => Denied(AuthFailed)
        case Some(id) =>
          FormatParse(text);
          if id in store && IsLive(store[id], now) then Authenticated(id, store[id]) else Denied(InvalidSession)
  }

  /** The id a login hands out authenticates, for as long as its session is live. */
  lemma AuthenticateIssuedId(store: Store, id: ObjectId, now: int)
    requires id in store && IsLive(store[id], now)
    ensures Authenticate(store, Some(Format(id)), now) == Authenticated(id, store[id])
  {
    ParseFormat(id);
  }

  /** The same id in upper case authenticates too: the cast accepts either case. */
  lemma AuthenticateIgnoresCase(store: Store, header: string, now: int)
    ensures Authenticate(store, Some(JsString.Lower(header)), now) == Authenticate(store, Some(header), now)
  {
    var lower := JsString.Lower(header);
    assert JsString.AllHexDigits(header) <==> JsString.AllHexDigits(lower);
    if Parse(header).Some? {
      FormatParse(header);
      FormatParse(lower);
      JsString.LowerIdempotent(header);
      ParseFormat(Parse(header).value);
      ParseFormat(Parse(lower).value);
    }
  }

  /** Once its session is not live, an id is refused for good, at that time and every later one. */
  lemma DeadStaysDead(store: Store, id: ObjectId, now: int, later: int)
    requires id in store && !IsLive(store[id], now) && now <= later
    ensures Authenticate(store, Some(Format(id)), later) == Denied(InvalidSession)
  {
    ParseFormat(id);
  }

  // ---------------------------------------------------------------- logout

  const LogoutOk: Reply := Reply(200, MessageBody("Logout successful"))
  const LogoutFailed: Reply := Reply(500, ErrorBody("Logout failed"))

  /** The update `findByIdAndUpdate` applies: a logout time and the active flag cleared, whatever the record held. */
  function Deactivate(s: Session, now: int): (d: Session)
    ensures !d.isActive && d.logoutTime == Some(now)
    ensures d.userId == s.userId && d.userModel == s.userModel && d.email == s.email && d.role == s.role
    ensures d.loginTime == s.loginTime && d.expiresAt == s.expiresAt
  {
    s.(logoutTime := Some(now), isActive := false)
  }

  /**
   * `POST /api/logout`: an empty or absent id is ignored; an id that does not cast makes
   * the update throw (500); otherwise the record with that id, if any, is deactivated. The
   * reply is the same whether or not a record was found.
   */
  function Logout(store: Store, sessionId: string, now: int): (r: (Store, Reply))
    ensures r.1 in {LogoutOk, LogoutFailed}
    ensures r.1 == LogoutFailed <==> sessionId != "" && Parse(sessionId).None?
    ensures r.0.Keys == store.Keys
    ensures forall id :: id in store && (sessionId == "" || Parse(sessionId) != Some(id)) ==> r.0[id] == store[id]
    ensures sessionId != "" && Parse(sessionId).Some? && Parse(sessionId).value in store ==>
              r.0[Parse(sessionId).value] == Deactivate(store[Parse(sessionId).value], now)
  {
    if sessionId == "" then (store, LogoutOk)
    else
      match Parse(sessionId)
      case None => (store, LogoutFailed)
      case Some(id) =>
        if id in store then (store[id := Deactivate(store[id], now)], LogoutOk) else (store, LogoutOk)
  }

  /** After a logout naming it, a session is refused at every time. */
  lemma LogoutEndsSession(store: Store, id: ObjectId, now: int, later: int)
    ensures Authenticate(Logout(store, Format(id), now).0, Some(Format(id)), later).Denied?
  {
    ParseFormat(id);
    assert Format(id) != "";
  }

  /** A logout leaves every other session's authentication as it was. */
  lemma LogoutIsolated(store: Store, id: ObjectId, other: ObjectId, now: int, t: int)
    requires id != other
    ensures Authenticate(Logout(store, Format(id), now).0, Some(Format(other)), t)
         == Authenticate(store, Some(Format(other)), t)
  {
    ParseFormat(id);
    ParseFormat(other);
    assert Format(id) != "";
  }

  /** Logging out twice at the same moment is logging out once. */
  lemma LogoutIdempotent(store: Store, sessionId: string, now: int)
    ensures Logout(Logout(store, sessionId, now).0, sessionId, now) == Logout(store, sessionId, now)
  {
    if sessionId != "" && Parse(sessionId).Some? && Parse(sessionId).value in store {
      var id := Parse(sessionId).value;
      var once := store[id := Deactivate(store[id], now)];
      assert Deactivate(once[id], now) == once[id];
      assert once[id := Deactivate(once[id], now)] == once;
    }
  }

  /**
   * A second logout at a later time rewrites the recorded logout time: the update does not
   * filter on `isActive`.
   */
  lemma RepeatedLogoutMovesLogoutTime(store: Store, id: ObjectId, first: int, second: int)
    requires id in store
    ensures Logout(Logout(store, Format(id), first).0, Format(id), second).0[id].logoutTime == Some(second)
  {
    ParseFormat(id);
    assert Format(id) != "";
  }

  lemma LogoutEvolves(store: Store, sessionId: string, now: int)
    ensures Evolves(store, Logout(store, sessionId, now).0)
  {
  }

  // ---------------------------------------------------------------- TTL expiry

  /** The TTL monitor's pass at time `now`: every record whose `expiresAt` has passed is removed. */
  function Expire(store: Store, now: int): (r: Store)
    ensures r.Keys <= store.Keys
    ensures forall id :: id in r ==> r[id] == store[id] && store[id].expiresAt > now
    ensures forall id :: id in store && store[id].expiresAt > now ==> id in r
  {
    map id | id in store && store[id].expiresAt > now :: store[id]
  }

  /**
   * Removing records that are not live changes no authentication outcome at that time or
   * later: the TTL monitor, however late it runs, is invisible to clients.
   */
  lemma {:induction false} RemovingDeadSessionsIsInvisible(store: Store, dead: set<ObjectId>, now: int, t: int, header: Option<string>)
    requires forall id :: id in dead && id in store ==> !IsLive(store[id], now)
    requires now <= t
    ensures Authenticate(store - dead, header, t) == Authenticate(store, header, t)
  {
    if header.Some? && header.value != "" && Parse(header.value).Some? {
      var id := Parse(header.value).value;
      if id in dead && id in store {
        assert !IsLive(store[id], t);
      }
    }
  }

  lemma ExpireIsInvisible(store: Store, now: int, t: int, header: Option<string>)
    requires now <= t
    ensures Authenticate(Expire(store, now), header, t) == Authenticate(store, header, t)
  {
    var dead := set id | id in store && store[id].expiresAt <= now;
    assert Expire(store, now) == store - dead;
    RemovingDeadSessionsIsInvisible(store, dead, now, t, header);
  }

  lemma ExpireEvolves(store: Store, now: int)
    ensures Evolves(store, Expire(store, now))
  {
  }
}
