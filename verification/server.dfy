/**
 * The server's database as one object: the three account collections, the session
 * collection and the clock. Each API route is a method that runs the corresponding handler
 * of `Routes` against the current state and stores what it returns.
 */
module Server {
  import opened Wrappers
  import opened ObjectIds
  import opened Accounts
  import opened Sessions
  import opened Http
  import Routes

  /**
   * What a stored session promises about itself: it expires one day after login, it is
   * active exactly until a logout time is recorded, and neither time lies in the future.
   */
  predicate SessionWellFormed(s: Session, now: int) {
    s.expiresAt == s.loginTime + DayMs && s.loginTime <= now
    && (s.isActive <==> s.logoutTime.None?)
    && (s.logoutTime.Some? ==> s.loginTime <= s.logoutTime.value <= now)
  }

  /** A well-formed session whose account is still stored, with the role and email the session recorded. */
  predicate SessionOwned(s: Session, users: map<ObjectId, Account>, doctors: map<ObjectId, Account>,
                         admins: map<ObjectId, Account>, now: int) {
    SessionWellFormed(s, now)
    && s.userId in Routes.Owners(s.userModel, users, doctors, admins)
    && Routes.Owners(s.userModel, users, doctors, admins)[s.userId].role == s.role
    && Routes.Owners(s.userModel, users, doctors, admins)[s.userId].email == s.email
  }

  /**
   * The unique indexes hold in every collection, and every session is well formed and
   * belongs to an account whose role and email it recorded.
   */
  ghost predicate StateValid(users: map<ObjectId, Account>, doctors: map<ObjectId, Account>,
                             admins: map<ObjectId, Account>, sessions: Store, now: int) {
    UniqueAccounts(Users, users) && UniqueAccounts(Doctors, doctors) && UniqueAccounts(Admins, admins)
    && forall id :: id in sessions ==> SessionOwned(sessions[id], users, doctors, admins, now)
  }

  /** `after` keeps every document of `before` as it was. */
  ghost predicate Extends(before: map<ObjectId, Account>, after: map<ObjectId, Account>) {
    forall id :: id in before ==> id in after && after[id] == before[id]
  }

  /** Adding accounts that keep the unique indexes keeps the database valid. */
  lemma AccountsGrowKeepsValid(users: map<ObjectId, Account>, doctors: map<ObjectId, Account>,
                               admins: map<ObjectId, Account>, users': map<ObjectId, Account>,
                               doctors': map<ObjectId, Account>, admins': map<ObjectId, Account>,
                               sessions: Store, now: int)
    requires StateValid(users, doctors, admins, sessions, now)
    requires UniqueAccounts(Users, users') && UniqueAccounts(Doctors, doctors') && UniqueAccounts(Admins, admins')
    requires Extends(users, users') && Extends(doctors, doctors') && Extends(admins, admins')
    ensures StateValid(users', doctors', admins', sessions, now)
  {
    forall id | id in sessions
      ensures SessionOwned(sessions[id], users', doctors', admins', now)
    {
      var s := sessions[id];
      assert SessionOwned(s, users, doctors, admins, now);
    }
  }

  /** A patient registration keeps the database valid. */
  lemma RegisterUserKeepsValid(users: map<ObjectId, Account>, doctors: map<ObjectId, Account>,
                              admins: map<ObjectId, Account>, sessions: Store, now: int,
                              f: UserForm, found: Option<ObjectId>, newId: ObjectId, salt: string)
    requires StateValid(users, doctors, admins, sessions, now)
    requires IsFindOneAnswer(users, UserQuery(f), found)
    ensures StateValid(Routes.RegisterUser(users, f, found, newId, salt).0, doctors, admins, sessions, now)
  {
    Routes.RegisterUserKeepsUnique(users, f, found, newId, salt);
    var r := Routes.RegisterUser(users, f, found, newId, salt);
    if r.1.status == 201 {
      assert r.0 == users[newId := NewUser(f, salt)] && newId !in users;
    }
    assert Extends(users, r.0);
    AccountsGrowKeepsValid(users, doctors, admins, r.0, doctors, admins, sessions, now);
  }

  /** A doctor registration keeps the database valid. */
  lemma RegisterDoctorKeepsValid(users: map<ObjectId, Account>, doctors: map<ObjectId, Account>,
                              admins: map<ObjectId, Account>, sessions: Store, now: int,
                              f: DoctorForm, found: Option<ObjectId>, newId: ObjectId, salt: string)
    requires StateValid(users, doctors, admins, sessions, now)
    requires IsFindOneAnswer(doctors, DoctorQuery(f), found)
    ensures StateValid(users, Routes.RegisterDoctor(doctors, f, found, newId, salt).0, admins, sessions, now)
  {
    Routes.RegisterDoctorKeepsUnique(doctors, f, found, newId, salt);
    var r := Routes.RegisterDoctor(doctors, f, found, newId, salt);
    if r.1.status == 201 {
      assert r.0 == doctors[newId := NewDoctor(f, salt)] && newId !in doctors;
    }
    assert Extends(doctors, r.0);
    AccountsGrowKeepsValid(users, doctors, admins, users, r.0, admins, sessions, now);
  }

  /** An admin registration keeps the database valid. */
  lemma RegisterAdminKeepsValid(users: map<ObjectId, Account>, doctors: map<ObjectId, Account>,
                              admins: map<ObjectId, Account>, sessions: Store, now: int,
                              f: AdminForm, found: Option<ObjectId>, newId: ObjectId, salt: string)
    requires StateValid(users, doctors, admins, sessions, now)
    requires IsFindOneAnswer(admins, AdminQuery(f), found)
    ensures StateValid(users, doctors, Routes.RegisterAdmin(admins, f, found, newId, salt).0, sessions, now)
  {
    Routes.RegisterAdminKeepsUnique(admins, f, found, newId, salt);
    var r := Routes.RegisterAdmin(admins, f, found, newId, salt);
    if r.1.status == 201 {
      assert r.0 == admins[newId := NewAdmin(f, salt)] && newId !in admins;
    }
    assert Extends(admins, r.0);
    AccountsGrowKeepsValid(users, doctors, admins, users, doctors, r.0, sessions, now);
  }

  /** The clock moving forward keeps the database valid. */
  lemma TickKeepsValid(users: map<ObjectId, Account>, doctors: map<ObjectId, Account>,
                       admins: map<ObjectId, Account>, sessions: Store, now: int, later: int)
    requires StateValid(users, doctors, admins, sessions, now) && now <= later
    ensures StateValid(users, doctors, admins, sessions, later)
  {
    forall id | id in sessions
      ensures SessionOwned(sessions[id], users, doctors, admins, later)
    {
      assert SessionOwned(sessions[id], users, doctors, admins, now);
    }
  }

  /** A login keeps the database valid: the new session belongs to the account that logged in. */
  lemma LoginKeepsValid(users: map<ObjectId, Account>, doctors: map<ObjectId, Account>,
                        admins: map<ObjectId, Account>, sessions: Store, now: int,
                        f: Routes.LoginForm, found: Option<ObjectId>, newId: ObjectId, ip: string, ua: string)
    requires StateValid(users, doctors, admins, sessions, now)
    requires IsFindOneAnswer(Routes.Owners(Routes.CollectionFor(f.userType), users, doctors, admins), Routes.LoginQuery(f), found)
    ensures StateValid(users, doctors, admins,
                       Routes.Login(Routes.Owners(Routes.CollectionFor(f.userType), users, doctors, admins),
                                    f, found, sessions, newId, ip, ua, now).0, now)
  {
    var accounts := Routes.Owners(Routes.CollectionFor(f.userType), users, doctors, admins);
    var r := Routes.Login(accounts, f, found, sessions, newId, ip, ua, now);
    if r.1.Reply? && r.1.status == 200 {
      var s := NewSession(found.value, Routes.CollectionFor(f.userType), accounts[found.value], ip, ua, now);
      assert r.0 == sessions[newId := s];
      assert SessionOwned(s, users, doctors, admins, now);
    }
  }

  /** A logout keeps the database valid: a deactivated session records the time of its logout. */
  lemma LogoutKeepsValid(users: map<ObjectId, Account>, doctors: map<ObjectId, Account>,
                         admins: map<ObjectId, Account>, sessions: Store, now: int, sessionId: string)
    requires StateValid(users, doctors, admins, sessions, now)
    ensures StateValid(users, doctors, admins, Sessions.Logout(sessions, sessionId, now).0, now)
  {
    var r := Sessions.Logout(sessions, sessionId, now).0;
    forall id | id in r
      ensures SessionOwned(r[id], users, doctors, admins, now)
    {
      assert SessionOwned(sessions[id], users, doctors, admins, now);
    }
  }

  /** A TTL pass keeps the database valid: it only removes sessions. */
  lemma ExpireKeepsValid(users: map<ObjectId, Account>, doctors: map<ObjectId, Account>,
                         admins: map<ObjectId, Account>, sessions: Store, now: int)
    requires StateValid(users, doctors, admins, sessions, now)
    ensures StateValid(users, doctors, admins, Expire(sessions, now), now)
  {
  }

  class ClinicServer {
    var users: map<ObjectId, Account>
    var doctors: map<ObjectId, Account>
    var admins: map<ObjectId, Account>
    var sessions: Store
    var now: int

    /** The database as a whole satisfies `StateValid`. */
    ghost predicate Valid()
      reads this
    {
      StateValid(users, doctors, admins, sessions, now)
    }

    /** An empty database with the clock at `start`. */
    constructor(start: int)
      ensures Valid()
      ensures users == map[] && doctors == map[] && admins == map[] && sessions == map[] && now == start
    {
      users, doctors, admins, sessions := map[], map[], map[], map[];
      now := start;
    }

    /** The clock moves forward. */
    method Tick(ms: nat)
      requires Valid()
      modifies this
      ensures Valid()
      ensures now == old(now) + ms
      ensures users == old(users) && doctors == old(doctors) && admins == old(admins) && sessions == old(sessions)
    {
      TickKeepsValid(users, doctors, admins, sessions, now, now + ms);
      now := now + ms;
    }

    /** `POST /api/register`. */
    method RegisterUser(f: UserForm, newId: ObjectId, salt: string) returns (reply: Reply)
      requires Valid()
      modifies this
      ensures Valid()
      ensures exists found :: IsFindOneAnswer(old(users), UserQuery(f), found)
                              && (users, reply) == Routes.RegisterUser(old(users), f, found, newId, salt)
      ensures doctors == old(doctors) && admins == old(admins) && sessions == old(sessions) && now == old(now)
    {
      var found := FindOne(users, UserQuery(f));
      RegisterUserKeepsValid(users, doctors, admins, sessions, now, f, found, newId, salt);
      var r := Routes.RegisterUser(users, f, found, newId, salt);
      users, reply := r.0, r.1;
      assert (users, reply) == Routes.RegisterUser(old(users), f, found, newId, salt);
    }

    /** `POST /api/register/doctor`. */
    method RegisterDoctor(f: DoctorForm, newId: ObjectId, salt: string) returns (reply: Reply)
      requires Valid()
      modifies this
      ensures Valid()
      ensures exists found :: IsFindOneAnswer(old(doctors), DoctorQuery(f), found)
                              && (doctors, reply) == Routes.RegisterDoctor(old(doctors), f, found, newId, salt)
      ensures users == old(users) && admins == old(admins) && sessions == old(sessions) && now == old(now)
    {
      var found := FindOne(doctors, DoctorQuery(f));
      RegisterDoctorKeepsValid(users, doctors, admins, sessions, now, f, found, newId, salt);
      var r := Routes.RegisterDoctor(doctors, f, found, newId, salt);
      doctors, reply := r.0, r.1;
      assert (doctors, reply) == Routes.RegisterDoctor(old(doctors), f, found, newId, salt);
    }

    /** `POST /api/register/admin`. */
    method RegisterAdmin(f: AdminForm, newId: ObjectId, salt: string) returns (reply: Reply)
      requires Valid()
      modifies this
      ensures Valid()
      ensures exists found :: IsFindOneAnswer(old(admins), AdminQuery(f), found)
                              && (admins, reply) == Routes.RegisterAdmin(old(admins), f, found, newId, salt)
      ensures users == old(users) && doctors == old(doctors) && sessions == old(sessions) && now == old(now)
    {
      var found := FindOne(admins, AdminQuery(f));
      RegisterAdminKeepsValid(users, doctors, admins, sessions, now, f, found, newId, salt);
      var r := Routes.RegisterAdmin(admins, f, found, newId, salt);
      admins, reply := r.0, r.1;
      assert (admins, reply) == Routes.RegisterAdmin(old(admins), f, found, newId, salt);
    }

    /** `POST /api/login`; `newId` is the id the new session record gets. */
    method Login(f: Routes.LoginForm, newId: ObjectId, ip: string, ua: string) returns (reply: Reply)
      requires Valid()
      modifies this
      ensures Valid()
      ensures var accounts := Routes.Owners(Routes.CollectionFor(f.userType), users, doctors, admins);
              exists found :: IsFindOneAnswer(accounts, Routes.LoginQuery(f), found)
                              && (sessions, reply) == Routes.Login(accounts, f, found, old(sessions), newId, ip, ua, now)
      ensures Evolves(old(sessions), sessions)
      ensures users == old(users) && doctors == old(doctors) && admins == old(admins) && now == old(now)
    {
      var accounts := Routes.Owners(Routes.CollectionFor(f.userType), users, doctors, admins);
      var found := FindOne(accounts, Routes.LoginQuery(f));
      Routes.LoginEvolves(accounts, f, found, sessions, newId, ip, ua, now);
      LoginKeepsValid(users, doctors, admins, sessions, now, f, found, newId, ip, ua);
      var r := Routes.Login(accounts, f, found, sessions, newId, ip, ua, now);
      sessions, reply := r.0, r.1;
      assert (sessions, reply) == Routes.Login(accounts, f, found, old(sessions), newId, ip, ua, now);
    }

    /** `POST /api/logout` with the `sessionId` of the body ("" when absent). */
    method Logout(sessionId: string) returns (reply: Reply)
      requires Valid()
      modifies this
      ensures Valid()
      ensures (sessions, reply) == Sessions.Logout(old(sessions), sessionId, now)
      ensures Evolves(old(sessions), sessions)
      ensures users == old(users) && doctors == old(doctors) && admins == old(admins) && now == old(now)
    {
      LogoutEvolves(sessions, sessionId, now);
      LogoutKeepsValid(users, doctors, admins, sessions, now, sessionId);
      var r := Sessions.Logout(sessions, sessionId, now);
      sessions, reply := r.0, r.1;
    }

    /** `GET /api/profile` with the `Session-Id` header, if any. */
    method Profile(header: Option<string>) returns (reply: Reply)
      ensures reply == Routes.Profile(users, doctors, admins, sessions, header, now)
    {
      reply := Routes.Profile(users, doctors, admins, sessions, header, now);
    }

    /** In a valid state the profile route always answers: a session's account is still there. */
    lemma ProfileAlwaysAnswers(header: Option<string>)
      requires Valid()
      ensures Routes.Profile(users, doctors, admins, sessions, header, now).Reply?
      ensures Routes.Profile(users, doctors, admins, sessions, header, now).status == 200 ==>
                Routes.Profile(users, doctors, admins, sessions, header, now).body.user.role
                == RoleName(Authenticate(sessions, header, now).session.role)
    {
    }

    /** A pass of the TTL monitor; no client can observe it. */
    method ExpireSessions()
      requires Valid()
      modifies this
      ensures Valid()
      ensures sessions == Expire(old(sessions), now)
      ensures forall h :: Authenticate(sessions, h, now) == Authenticate(old(sessions), h, now)
      ensures Evolves(old(sessions), sessions)
      ensures users == old(users) && doctors == old(doctors) && admins == old(admins) && now == old(now)
    {
      forall h {
        ExpireIsInvisible(sessions, now, now, h);
      }
      ExpireEvolves(sessions, now);
      ExpireKeepsValid(users, doctors, admins, sessions, now);
      sessions := Expire(sessions, now);
    }
  }
}
