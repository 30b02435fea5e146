/**
 * The API route handlers of the server, each as a function from the database state (and
 * whatever `findOne` answered) to the new state and the reply. The `ClinicServer` class
 * runs them against its collections.
 */
module Routes {
  import opened Wrappers
  import opened JsString
  import opened ObjectIds
  import opened Credentials
  import opened Accounts
  import opened Sessions
  import opened Http

  /** The account fields the replies expose, with the role as the account stores it. */
  function SummaryOf(id: ObjectId, a: Account): Summary {
    Summary(Format(id), a.username, a.email, a.firstName, a.lastName, RoleName(a.role))
  }

  const RequiredFields: Reply := Reply(400, ErrorBody(RequiredFieldsMessage))

  // ---------------------------------------------------------------- registration

  /*
   * Each registration route checks its required fields, asks `findOne` for a document that
   * shares the email, the username or the third key, reports a duplicate, and otherwise
   * calls `save()`. `found` is what `findOne` answered for the route's query, `newId` the
   * `_id` the new document gets and `salt` the salt bcrypt draws. The routes below follow
   * the code: the duplicate is reported by comparing the document found with the values as
   * submitted. The `...Corrected` routes compare with the values as stored instead.
   */

  /**
   * `user.save()` and the reply that follows: the schema's validators, then the insert, which
   * fails on a used `_id` or a taken unique key (E11000); a failure is caught and answered 500.
   */
  function SaveUser(users: map<ObjectId, Account>, f: UserForm, newId: ObjectId, salt: string): (r: (map<ObjectId, Account>, Reply))
    ensures r.1.Reply? && r.1.status in {201, 500}
    ensures r.1.status == 201 <==> UserSchemaValid(f) && CanInsert(Users, users, newId, NewUser(f, salt))
    ensures r.1.status == 201 ==> r.0 == users[newId := NewUser(f, salt)]
    ensures r.1.status != 201 ==> r == (users, Reply(500, ErrorBody("Registration failed")))
  {
    var a := NewUser(f, salt);
    if !UserSchemaValid(f) || !CanInsert(Users, users, newId, a) then (users, Reply(500, ErrorBody("Registration failed")))
    else (users[newId := a], Reply(201, RegisteredBody("User registered successfully", SummaryOf(newId, a), [])))
  }

  /** `doctor.save()` and the reply that follows. */
  function SaveDoctor(doctors: map<ObjectId, Account>, f: DoctorForm, newId: ObjectId, salt: string): (r: (map<ObjectId, Account>, Reply))
    requires f.experience.Some?
    ensures r.1.Reply? && r.1.status in {201, 500}
    ensures r.1.status == 201 <==> DoctorSchemaValid(f) && CanInsert(Doctors, doctors, newId, NewDoctor(f, salt))
    ensures r.1.status == 201 ==> r.0 == doctors[newId := NewDoctor(f, salt)]
    ensures r.1.status != 201 ==> r == (doctors, Reply(500, ErrorBody("Doctor registration failed")))
  {
    var a := NewDoctor(f, salt);
    if !DoctorSchemaValid(f) || !CanInsert(Doctors, doctors, newId, a) then (doctors, Reply(500, ErrorBody("Doctor registration failed")))
    else
      (doctors[newId := a],
       Reply(201, RegisteredBody("Doctor registered successfully", SummaryOf(newId, a), [a.details.specialization])))
  }

  /** `admin.save()` and the reply that follows. */
  function SaveAdmin(admins: map<ObjectId, Account>, f: AdminForm, newId: ObjectId, salt: string): (r: (map<ObjectId, Account>, Reply))
    ensures r.1.Reply? && r.1.status in {201, 500}
    ensures r.1.status == 201 <==> AdminSchemaValid(f) && CanInsert(Admins, admins, newId, NewAdmin(f, salt))
    ensures r.1.status == 201 ==> r.0 == admins[newId := NewAdmin(f, salt)]
    ensures r.1.status != 201 ==> r == (admins, Reply(500, ErrorBody("Admin registration failed")))
  {
    var a := NewAdmin(f, salt);
    if !AdminSchemaValid(f) || !CanInsert(Admins, admins, newId, a) then (admins, Reply(500, ErrorBody("Admin registration failed")))
    else
      (admins[newId := a],
       Reply(201, RegisteredBody("Admin registered successfully", SummaryOf(newId, a),
                                 [a.details.position, a.details.accessLevel])))
  }

  /** A document the route's query found collides with the new document, so the insert fails. */
  lemma FoundBlocksInsert(c: Collection, m: map<ObjectId, Account>, q: Query, id: ObjectId, a: Account, found: ObjectId)
    requires c == Users ==> q == ByAnyKey(a.email, a.username, None)
    requires c != Users ==> q == ByAnyKey(a.email, a.username, Some(ThirdKey(a)))
    requires IsFindOneAnswer(m, q, Some(found))
    ensures !CanInsert(c, m, id, a)
  {
    QueryMatchesConflicts(c, q, a, m[found]);
  }

  /**
   * `POST /api/register`, as written: a duplicate is reported as the email when the stored
   * email equals the submitted text, and as the username otherwise.
   */
  function RegisterUser(users: map<ObjectId, Account>, f: UserForm, found: Option<ObjectId>,
                        newId: ObjectId, salt: string): (r: (map<ObjectId, Account>, Reply))
    requires IsFindOneAnswer(users, UserQuery(f), found)
    ensures r.1.Reply? && r.1.status in {201, 400, 500}
    ensures r.1 == RequiredFields <==> !UserFormComplete(f)
    ensures UserFormComplete(f) && found.Some? ==>
              r.1 == Reply(400, ErrorBody(ClashMessage(Users, UserClashAsWritten(users[found.value], f))))
    ensures r.1.status == 201 <==> UserFormComplete(f) && found.None? && UserSchemaValid(f) && newId !in users
    ensures r.1.status == 201 ==> r.0 == users[newId := NewUser(f, salt)]
    ensures r.1.status != 201 ==> r.0 == users
  {
    if !UserFormComplete(f) then (users, RequiredFields)
    else if found.Some? then
      (users, Reply(400, ErrorBody(ClashMessage(Users, UserClashAsWritten(users[found.value], f)))))
    else
      NoMatchMeansInsertable(Users, users, UserQuery(f), newId, NewUser(f, salt));
      SaveUser(users, f, newId, salt)
  }

  /** `POST /api/register` with the duplicate reported by the corrected `UserClash`. */
  function RegisterUserCorrected(users: map<ObjectId, Account>, f: UserForm, found: Option<ObjectId>,
                                 newId: ObjectId, salt: string): (r: (map<ObjectId, Account>, Reply))
    requires IsFindOneAnswer(users, UserQuery(f), found)
    ensures r.1 == RequiredFields <==> !UserFormComplete(f)
    ensures r.1 == Reply(400, ErrorBody("Email already registered")) <==>
              UserFormComplete(f) && found.Some? && users[found.value].email == NormEmail(f.email)
    ensures UserFormComplete(f) && found.Some? ==>
              r.1 == Reply(400, ErrorBody(ClashMessage(Users, UserClash(users[found.value], f))))
    ensures UserFormComplete(f) && found.None? ==> r == RegisterUser(users, f, found, newId, salt)
  {
    if !UserFormComplete(f) then (users, RequiredFields)
    else if found.Some? then
      (users, Reply(400, ErrorBody(ClashMessage(Users, UserClash(users[found.value], f)))))
    else
      RegisterUser(users, f, found, newId, salt)
  }

  /** A registration never breaks a unique index of the collection. */
  lemma RegisterUserKeepsUnique(users: map<ObjectId, Account>, f: UserForm, found: Option<ObjectId>, newId: ObjectId, salt: string)
    requires UniqueAccounts(Users, users) && IsFindOneAnswer(users, UserQuery(f), found)
    ensures UniqueAccounts(Users, RegisterUser(users, f, found, newId, salt).0)
  {
    var r := RegisterUser(users, f, found, newId, salt);
    if r.1.status == 201 {
      var a := NewUser(f, salt);
      NoMatchMeansInsertable(Users, users, UserQuery(f), newId, a);
      InsertKeepsUnique(Users, users, newId, a);
    }
  }

  /**
   * `POST /api/register/doctor`, as written: email, username and licence number of the
   * document found are compared with the submitted text; when none is equal the route goes
   * on to `save()`, whose insert then breaks a unique index and is answered 500.
   */
  function RegisterDoctor(doctors: map<ObjectId, Account>, f: DoctorForm, found: Option<ObjectId>,
                          newId: ObjectId, salt: string): (r: (map<ObjectId, Account>, Reply))
    requires IsFindOneAnswer(doctors, DoctorQuery(f), found)
    ensures r.1.Reply? && r.1.status in {201, 400, 500}
    ensures r.1 == RequiredFields <==> !DoctorFormComplete(f)
    ensures DoctorFormComplete(f) && found.Some? ==>
              var k := StaffClashAsWritten(doctors[found.value], f.email, f.username, f.licenseNumber);
              r.1 == if k.Some? then Reply(400, ErrorBody(ClashMessage(Doctors, k.value)))
                     else Reply(500, ErrorBody("Doctor registration failed"))
    ensures r.1.status == 201 <==> DoctorFormComplete(f) && found.None? && DoctorSchemaValid(f) && newId !in doctors
    ensures r.1.status == 201 ==> r.0 == doctors[newId := NewDoctor(f, salt)]
    ensures r.1.status != 201 ==> r.0 == doctors
  {
    if !DoctorFormComplete(f) then (doctors, RequiredFields)
    else
      var k := if found.Some? then StaffClashAsWritten(doctors[found.value], f.email, f.username, f.licenseNumber) else None;
      if k.Some? then (doctors, Reply(400, ErrorBody(ClashMessage(Doctors, k.value))))
      else
        var a := NewDoctor(f, salt);
        if found.Some? then
          FoundBlocksInsert(Doctors, doctors, DoctorQuery(f), newId, a, found.value);
          SaveDoctor(doctors, f, newId, salt)
        else
          NoMatchMeansInsertable(Doctors, doctors, DoctorQuery(f), newId, a);
          SaveDoctor(doctors, f, newId, salt)
  }

  /** `POST /api/register/doctor` with the duplicate reported by the corrected `StaffClash`. */
  function RegisterDoctorCorrected(doctors: map<ObjectId, Account>, f: DoctorForm, found: Option<ObjectId>,
                                   newId: ObjectId, salt: string): (r: (map<ObjectId, Account>, Reply))
    requires IsFindOneAnswer(doctors, DoctorQuery(f), found)
    ensures r.1 == RequiredFields <==> !DoctorFormComplete(f)
    ensures r.1.Reply? && r.1.status == 400 <==> !DoctorFormComplete(f) || found.Some?
    ensures DoctorFormComplete(f) && found.Some? ==>
              r.1 == Reply(400, ErrorBody(ClashMessage(Doctors, StaffClash(doctors[found.value], f.email, f.username, f.licenseNumber))))
    ensures DoctorFormComplete(f) && found.None? ==> r == RegisterDoctor(doctors, f, found, newId, salt)
  {
    if !DoctorFormComplete(f) then (doctors, RequiredFields)
    else if found.Some? then
      var k := StaffClash(doctors[found.value], f.email, f.username, f.licenseNumber);
      (doctors, Reply(400, ErrorBody(ClashMessage(Doctors, k))))
    else
      RegisterDoctor(doctors, f, found, newId, salt)
  }

  /** A registration never breaks a unique index of the collection. */
  lemma RegisterDoctorKeepsUnique(doctors: map<ObjectId, Account>, f: DoctorForm, found: Option<ObjectId>, newId: ObjectId, salt: string)
    requires UniqueAccounts(Doctors, doctors) && IsFindOneAnswer(doctors, DoctorQuery(f), found)
    ensures UniqueAccounts(Doctors, RegisterDoctor(doctors, f, found, newId, salt).0)
  {
    var r := RegisterDoctor(doctors, f, found, newId, salt);
    if r.1.status == 201 {
      var a := NewDoctor(f, salt);
      NoMatchMeansInsertable(Doctors, doctors, DoctorQuery(f), newId, a);
      InsertKeepsUnique(Doctors, doctors, newId, a);
    }
  }

  /**
   * `POST /api/register/admin`, as written: email, username and employee id compared with
   * the submitted text, and the same fall-through to a failing `save()`.
   */
  function RegisterAdmin(admins: map<ObjectId, Account>, f: AdminForm, found: Option<ObjectId>,
                         newId: ObjectId, salt: string): (r: (map<ObjectId, Account>, Reply))
    requires IsFindOneAnswer(admins, AdminQuery(f), found)
    ensures r.1.Reply? && r.1.status in {201, 400, 500}
    ensures r.1 == RequiredFields <==> !AdminFormComplete(f)
    ensures AdminFormComplete(f) && found.Some? ==>
              var k := StaffClashAsWritten(admins[found.value], f.email, f.username, f.employeeId);
              r.1 == if k.Some? then Reply(400, ErrorBody(ClashMessage(Admins, k.value)))
                     else Reply(500, ErrorBody("Admin registration failed"))
    ensures r.1.status == 201 <==> AdminFormComplete(f) && found.None? && AdminSchemaValid(f) && newId !in admins
    ensures r.1.status == 201 ==> r.0 == admins[newId := NewAdmin(f, salt)]
    ensures r.1.status != 201 ==> r.0 == admins
  {
    if !AdminFormComplete(f) then (admins, RequiredFields)
    else
      var k := if found.Some? then StaffClashAsWritten(admins[found.value], f.email, f.username, f.employeeId) else None;
      if k.Some? then (admins, Reply(400, ErrorBody(ClashMessage(Admins, k.value))))
      else
        var a := NewAdmin(f, salt);
        if found.Some? then
          FoundBlocksInsert(Admins, admins, AdminQuery(f), newId, a, found.value);
          SaveAdmin(admins, f, newId, salt)
        else
          NoMatchMeansInsertable(Admins, admins, AdminQuery(f), newId, a);
          SaveAdmin(admins, f, newId, salt)
  }

  /** `POST /api/register/admin` with the duplicate reported by the corrected `StaffClash`. */
  function RegisterAdminCorrected(admins: map<ObjectId, Account>, f: AdminForm, found: Option<ObjectId>,
                                  newId: ObjectId, salt: string): (r: (map<ObjectId, Account>, Reply))
    requires IsFindOneAnswer(admins, AdminQuery(f), found)
    ensures r.1 == RequiredFields <==> !AdminFormComplete(f)
    ensures r.1.Reply? && r.1.status == 400 <==> !AdminFormComplete(f) || found.Some?
    ensures AdminFormComplete(f) && found.Some? ==>
              r.1 == Reply(400, ErrorBody(ClashMessage(Admins, StaffClash(admins[found.value], f.email, f.username, f.employeeId))))
    ensures AdminFormComplete(f) && found.None? ==> r == RegisterAdmin(admins, f, found, newId, salt)
  {
    if !AdminFormComplete(f) then (admins, RequiredFields)
    else if found.Some? then
      var k := StaffClash(admins[found.value], f.email, f.username, f.employeeId);
      (admins, Reply(400, ErrorBody(ClashMessage(Admins, k))))
    else
      RegisterAdmin(admins, f, found, newId, salt)
  }

  /** A registration never breaks a unique index of the collection. */
  lemma RegisterAdminKeepsUnique(admins: map<ObjectId, Account>, f: AdminForm, found: Option<ObjectId>, newId: ObjectId, salt: string)
    requires UniqueAccounts(Admins, admins) && IsFindOneAnswer(admins, AdminQuery(f), found)
    ensures UniqueAccounts(Admins, RegisterAdmin(admins, f, found, newId, salt).0)
  {
    var r := RegisterAdmin(admins, f, found, newId, salt);
    if r.1.status == 201 {
      var a := NewAdmin(f, salt);
      NoMatchMeansInsertable(Admins, admins, AdminQuery(f), newId, a);
      InsertKeepsUnique(Admins, admins, newId, a);
    }
  }

  /** For a user form whose email is already trimmed and lower-case, both user routes give the same answer. */
  lemma UserRoutesAgreeOnNormalForm(users: map<ObjectId, Account>, f: UserForm, found: Option<ObjectId>,
                                    newId: ObjectId, salt: string)
    requires IsFindOneAnswer(users, UserQuery(f), found)
    requires NormEmail(f.email) == f.email
    ensures RegisterUserCorrected(users, f, found, newId, salt) == RegisterUser(users, f, found, newId, salt)
  {
  }

  /**
   * The doctor route as written, on an email taken only up to letter case or surrounding
   * whitespace (with a new username and licence number): the three comparisons fail and the
   * insert breaks the unique email index, so the reply is a 500; the corrected route names the email.
   */
  lemma DoctorEmailCaseGives500(doctors: map<ObjectId, Account>, f: DoctorForm, id: ObjectId, newId: ObjectId, salt: string)
    requires DoctorFormComplete(f) && IsFindOneAnswer(doctors, DoctorQuery(f), Some(id))
    requires doctors[id].email == NormEmail(f.email) != f.email
    requires doctors[id].username != f.username && ThirdKey(doctors[id]) != f.licenseNumber
    ensures RegisterDoctor(doctors, f, Some(id), newId, salt) == (doctors, Reply(500, ErrorBody("Doctor registration failed")))
    ensures RegisterDoctorCorrected(doctors, f, Some(id), newId, salt).1 == Reply(400, ErrorBody("Email already registered"))
  {
  }

  /**
   * For a doctor form whose email, username and licence number are already in stored form,
   * the route as written and the corrected route give the same answer.
   */
  lemma DoctorRoutesAgreeOnNormalForm(doctors: map<ObjectId, Account>, f: DoctorForm, found: Option<ObjectId>,
                                      newId: ObjectId, salt: string)
    requires IsFindOneAnswer(doctors, DoctorQuery(f), found)
    requires NormEmail(f.email) == f.email && Trim(f.username) == f.username && Trim(f.licenseNumber) == f.licenseNumber
    ensures RegisterDoctorCorrected(doctors, f, found, newId, salt) == RegisterDoctor(doctors, f, found, newId, salt)
  {
    if DoctorFormComplete(f) && found.Some? {
      StaffClashAgreesOnNormalForm(doctors[found.value], f.email, f.username, f.licenseNumber);
    }
  }

  /** For an admin form already in stored form, both admin routes give the same answer. */
  lemma AdminRoutesAgreeOnNormalForm(admins: map<ObjectId, Account>, f: AdminForm, found: Option<ObjectId>,
                                     newId: ObjectId, salt: string)
    requires IsFindOneAnswer(admins, AdminQuery(f), found)
    requires NormEmail(f.email) == f.email && Trim(f.username) == f.username && Trim(f.employeeId) == f.employeeId
    ensures RegisterAdminCorrected(admins, f, found, newId, salt) == RegisterAdmin(admins, f, found, newId, salt)
  {
    if AdminFormComplete(f) && found.Some? {
      StaffClashAgreesOnNormalForm(admins[found.value], f.email, f.username, f.employeeId);
    }
  }

  /**
   * A second registration with the same user form is refused. As written, the message names
   * the email only when the submitted email is already trimmed and lower-case, and the
   * username otherwise: the only document the lookup can find is the one first saved.
   */
  lemma SecondRegistrationAsWritten(users: map<ObjectId, Account>, f: UserForm, found: Option<ObjectId>,
                                    newId: ObjectId, salt: string, found2: Option<ObjectId>, newId2: ObjectId)
    requires IsFindOneAnswer(users, UserQuery(f), found)
    requires RegisterUser(users, f, found, newId, salt).1.status == 201
    requires IsFindOneAnswer(RegisterUser(users, f, found, newId, salt).0, UserQuery(f), found2)
    ensures RegisterUser(RegisterUser(users, f, found, newId, salt).0, f, found2, newId2, salt).1
         == Reply(400, ErrorBody(if NormEmail(f.email) == f.email then "Email already registered" else "Username already taken"))
  {
    var users' := RegisterUser(users, f, found, newId, salt).0;
    var a := NewUser(f, salt);
    assert users' == users[newId := a];
    assert newId in users' && Matches(UserQuery(f), users'[newId]);
    assert found2 == Some(newId);
  }

  /** With the corrected check the second registration is always refused as "Email already registered". */
  lemma SecondRegistrationReportsEmail(users: map<ObjectId, Account>, f: UserForm, found: Option<ObjectId>,
                                       newId: ObjectId, salt: string, found2: Option<ObjectId>, newId2: ObjectId)
    requires IsFindOneAnswer(users, UserQuery(f), found)
    requires RegisterUserCorrected(users, f, found, newId, salt).1.status == 201
    requires IsFindOneAnswer(RegisterUserCorrected(users, f, found, newId, salt).0, UserQuery(f), found2)
    ensures RegisterUserCorrected(RegisterUserCorrected(users, f, found, newId, salt).0, f, found2, newId2, salt).1
         == Reply(400, ErrorBody("Email already registered"))
  {
    var users' := RegisterUserCorrected(users, f, found, newId, salt).0;
    var a := NewUser(f, salt);
    assert users' == users[newId := a];
    assert newId in users' && Matches(UserQuery(f), users'[newId]);
    assert found2 == Some(newId);
  }

  // ---------------------------------------------------------------- login

  /** The body of `POST /api/login`; an absent field is the empty string. */
  datatype LoginForm = LoginForm(email: string, password: string, userType: string)

  /** The collection a login searches: doctors and admins by their user type, everyone else among patients. */
  function CollectionFor(userType: string): (c: Collection)
    ensures c == Doctors <==> userType == "doctor"
    ensures c == Admins <==> userType == "admin"
  {
    if userType == "doctor" then Doctors else if userType == "admin" then Admins else Users
  }

  /** The query the login route makes: the email lower-cased by the route, then by the schema's setters. */
  function LoginQuery(f: LoginForm): Query {
    ByEmail(NormEmail(Lower(f.email)))
  }

  const CredentialsRequired: Reply := Reply(400, ErrorBody("Email and password are required"))
  const BadCredentials: Reply := Reply(401, ErrorBody("Invalid email or password"))
  const LoginFailed: Reply := Reply(500, ErrorBody("Login failed"))

  /**
   * `POST /api/login` against the collection `CollectionFor(f.userType)`, whose documents are
   * `accounts`. `newId` is the `_id` of the session record, `ip` and `ua` the request's
   * address and user agent, `now` the clock.
   */
  function Login(accounts: map<ObjectId, Account>, f: LoginForm, found: Option<ObjectId>,
                 store: Store, newId: ObjectId, ip: string, ua: string, now: int): (r: (Store, Reply))
    requires IsFindOneAnswer(accounts, LoginQuery(f), found)
    ensures r.1 in {CredentialsRequired, BadCredentials, LoginFailed} || (r.1.Reply? && r.1.status == 200)
    ensures r.1.Reply? && r.1.status == 200 <==>
              f.email != "" && f.password != "" && found.Some?
              && Compare(f.password, accounts[found.value].password) && newId !in store
    ensures r.1 == BadCredentials <==>
              f.email != "" && f.password != "" && (found.None? || !Compare(f.password, accounts[found.value].password))
    ensures r.1.Reply? && r.1.status == 200 ==>
              accounts[found.value].email == NormEmail(f.email)
              && r.1.body == LoginBody("Login successful", SummaryOf(found.value, accounts[found.value]), Format(newId))
              && r.0 == store[newId := NewSession(found.value, CollectionFor(f.userType), accounts[found.value], ip, ua, now)]
    ensures !(r.1.Reply? && r.1.status == 200) ==> r.0 == store
  {
    NormEmailOfLower(f.email);
    if f.email == "" || f.password == "" then (store, CredentialsRequired)
    else if found.None? || !Compare(f.password, accounts[found.value].password) then (store, BadCredentials)
    else if newId in store then (store, LoginFailed)
    else
      var a := accounts[found.value];
      (store[newId := NewSession(found.value, CollectionFor(f.userType), a, ip, ua, now)],
       Reply(200, LoginBody("Login successful", SummaryOf(found.value, a), Format(newId))))
  }

  /** A login adds at most one session, under a fresh id, and touches no existing one. */
  lemma LoginEvolves(accounts: map<ObjectId, Account>, f: LoginForm, found: Option<ObjectId>,
                     store: Store, newId: ObjectId, ip: string, ua: string, now: int)
    requires IsFindOneAnswer(accounts, LoginQuery(f), found)
    ensures var store' := Login(accounts, f, found, store, newId, ip, ua, now).0;
            Evolves(store, store') && store'.Keys - store.Keys <= {newId}
            && forall id :: id in store ==> id in store' && store'[id] == store[id]
  {
  }

  /**
   * An unknown email and a wrong password are answered alike and leave the session store
   * alone: the reply does not reveal which accounts exist.
   */
  lemma LoginFailuresLookAlike(accounts: map<ObjectId, Account>, f: LoginForm, g: LoginForm,
                               store: Store, newId: ObjectId, ip: string, ua: string, now: int, id: ObjectId)
    requires f.email != "" && f.password != "" && g.email != "" && g.password != ""
    requires IsFindOneAnswer(accounts, LoginQuery(f), None)
    requires IsFindOneAnswer(accounts, LoginQuery(g), Some(id)) && !Compare(g.password, accounts[id].password)
    ensures Login(accounts, f, None, store, newId, ip, ua, now) == Login(accounts, g, Some(id), store, newId, ip, ua, now)
    ensures Login(accounts, f, None, store, newId, ip, ua, now) == (store, BadCredentials)
  {
  }

  /**
   * A user who has registered can log in with the same email, written in any letter case,
   * and the same password, whichever document the login's `findOne` returns.
   */
  lemma RegisteredUserCanLogIn(users: map<ObjectId, Account>, f: UserForm, found: Option<ObjectId>,
                               newId: ObjectId, salt: string,
                               email: string, found2: Option<ObjectId>,
                               store: Store, sid: ObjectId, ip: string, ua: string, now: int)
    requires UniqueAccounts(Users, users)
    requires IsFindOneAnswer(users, UserQuery(f), found)
    requires RegisterUser(users, f, found, newId, salt).1.status == 201
    requires Lower(email) == Lower(f.email) && sid !in store
    requires IsFindOneAnswer(RegisterUser(users, f, found, newId, salt).0,
                             LoginQuery(LoginForm(email, f.password, "patient")), found2)
    ensures Login(RegisterUser(users, f, found, newId, salt).0, LoginForm(email, f.password, "patient"),
                  found2, store, sid, ip, ua, now).1.status == 200
  {
    var users' := RegisterUser(users, f, found, newId, salt).0;
    var a := NewUser(f, salt);
    assert users' == users[newId := a];
    RegisterUserKeepsUnique(users, f, found, newId, salt);
    NormEmailOfLower(email);
    NormEmailOfLower(f.email);
    assert NormEmail(email) == NormEmail(f.email) by {
      TrimLower(email);
      TrimLower(f.email);
    }
    assert Matches(LoginQuery(LoginForm(email, f.password, "patient")), users'[newId]);
    assert found2 == Some(newId) by {
      EmailLookupIsUnique(Users, users', NormEmail(Lower(email)), found2, Some(newId));
    }
    CompareHash(f.password, salt);
  }

  // ---------------------------------------------------------------- profile

  /** The collection a session's `userModel` names, for `populate`. */
  function Owners(c: Collection, users: map<ObjectId, Account>, doctors: map<ObjectId, Account>,
                  admins: map<ObjectId, Account>): map<ObjectId, Account> {
    match c
    case Users => users
    case Doctors => doctors
    case Admins => admins
  }

  /**
   * `GET /api/profile`: the session check, then the populated account's fields with the role
   * the session recorded at login. When the account has since disappeared, `populate` yields
   * null, the handler throws and no reply is ever sent.
   */
  function Profile(users: map<ObjectId, Account>, doctors: map<ObjectId, Account>, admins: map<ObjectId, Account>,
                   store: Store, header: Option<string>, now: int): (r: Reply)
    ensures Authenticate(store, header, now).Denied? ==> r == Authenticate(store, header, now).reply
    ensures r == NoReply <==>
              Authenticate(store, header, now).Authenticated?
              && Authenticate(store, header, now).session.userId
                 !in Owners(Authenticate(store, header, now).session.userModel, users, doctors, admins)
    ensures r.Reply? && r.status == 200 ==>
              var s := Authenticate(store, header, now).session;
              var a := Owners(s.userModel, users, doctors, admins)[s.userId];
              r.body == ProfileBody(SummaryOf(s.userId, a).(role := RoleName(s.role)))
    ensures Authenticate(store, header, now).Authenticated?
            && Authenticate(store, header, now).session.userId
               in Owners(Authenticate(store, header, now).session.userModel, users, doctors, admins) ==>
              var s := Authenticate(store, header, now).session;
              var a := Owners(s.userModel, users, doctors, admins)[s.userId];
              r == Reply(200, ProfileBody(SummaryOf(s.userId, a).(role := RoleName(s.role))))
  {
    match Authenticate(store, header, now)
    case Denied(reply) => reply
    case Authenticated(_, s) =>
      var owners := Owners(s.userModel, users, doctors, admins);
      if s.userId in owners then
        Reply(200, ProfileBody(SummaryOf(s.userId, owners[s.userId]).(role := RoleName(s.role))))
      else NoReply
  }

  /**
   * The profile reports the role the session recorded at login, not the account's current
   * role: when the two differ, the answer is still 200 and carries the session's role.
   */
  lemma ProfileReportsSessionRole(users: map<ObjectId, Account>, doctors: map<ObjectId, Account>,
                                  admins: map<ObjectId, Account>, store: Store, header: Option<string>, now: int)
    requires Authenticate(store, header, now).Authenticated?
    requires var s := Authenticate(store, header, now).session;
             s.userId in Owners(s.userModel, users, doctors, admins)
             && Owners(s.userModel, users, doctors, admins)[s.userId].role != s.role
    ensures var s := Authenticate(store, header, now).session;
            var r := Profile(users, doctors, admins, store, header, now);
            r.Reply? && r.status == 200 && r.body.ProfileBody?
            && r.body.user.role == RoleName(s.role)
            && r.body.user.role != RoleName(Owners(s.userModel, users, doctors, admins)[s.userId].role)
  {
  }

  /**
   * Logging in and then asking for the profile with the session id the login returned, at
   * any time before the session expires, answers with the account that logged in.
   */
  lemma LoginThenProfile(users: map<ObjectId, Account>, doctors: map<ObjectId, Account>, admins: map<ObjectId, Account>,
                         f: LoginForm, found: Option<ObjectId>, store: Store, newId: ObjectId,
                         ip: string, ua: string, now: int, t: int)
    requires IsFindOneAnswer(Owners(CollectionFor(f.userType), users, doctors, admins), LoginQuery(f), found)
    requires Login(Owners(CollectionFor(f.userType), users, doctors, admins), f, found, store, newId, ip, ua, now).1.status == 200
    requires now <= t < now + DayMs
    ensures var (store', reply) := Login(Owners(CollectionFor(f.userType), users, doctors, admins), f, found, store, newId, ip, ua, now);
            Profile(users, doctors, admins, store', Some(reply.body.sessionId), t)
              == Reply(200, ProfileBody(reply.body.user))
  {
    var accounts := Owners(CollectionFor(f.userType), users, doctors, admins);
    var (store', reply) := Login(accounts, f, found, store, newId, ip, ua, now);
    AuthenticateIssuedId(store', newId, t);
  }

  /** Logging out with the id a login returned ends that login: the profile is refused from then on. */
  lemma LogoutThenProfile(users: map<ObjectId, Account>, doctors: map<ObjectId, Account>, admins: map<ObjectId, Account>,
                          store: Store, id: ObjectId, now: int, t: int)
    ensures Profile(users, doctors, admins, Logout(store, Format(id), now).0, Some(Format(id)), t)
         == InvalidSession
  {
    LogoutEndsSession(store, id, now, t);
    ParseFormat(id);
  }
}
