/**
 * The three account collections (User, Doctor, Admin) as the schemas define them: what a stored
 * document holds after the `trim` and `lowercase` setters, which fields are uniquely indexed,
 * which values the validators accept, the `findOne` lookups the routes make, and which
 * duplicate a registration reports.
 */
module Accounts {
  import opened Wrappers
  import opened JsString
  import opened ObjectIds
  import opened Credentials

  datatype Role = Patient | DoctorRole | AdminRole

  /** The role strings the schemas and the session record use. */
  function RoleName(r: Role): (s: string)
    ensures s in {"patient", "doctor", "admin"}
  {
    match r
    case Patient => "patient"
    case DoctorRole => "doctor"
    case AdminRole => "admin"
  }

  /** The three Mongoose models an account can live in. */
  datatype Collection = Users | Doctors | Admins

  /** The `userModel` string a session records. */
  function ModelName(c: Collection): (s: string)
    ensures s in {"User", "Doctor", "Admin"}
  {
    match c
    case Users => "User"
    case Doctors => "Doctor"
    case Admins => "Admin"
  }

  /** The fields only one kind of account has. */
  datatype Details =
    | PatientDetails(gender: string, address: string)
    | DoctorDetails(specialization: string, licenseNumber: string, qualification: string,
                    experience: int, department: string, biography: string)
    | AdminDetails(employeeId: string, department: string, position: string, accessLevel: string)

  /** A stored account. */
  datatype Account = Account(username: string, email: string, password: Digest,
                             firstName: string, lastName: string, phone: string,
                             role: Role, details: Details)

  /** The `email` path's setters, `trim` then `lowercase`, as applied on save and on query filters. */
  function NormEmail(e: string): string {
    Lower(Trim(e))
  }

  /** A stored email is its own normal form. */
  lemma NormEmailIdempotent(e: string)
    ensures NormEmail(NormEmail(e)) == NormEmail(e)
  {
    TrimLower(Trim(e));
    TrimIdempotent(e);
    LowerIdempotent(Trim(e));
  }

  /** The login route lower-cases the email itself before the setters run; that changes nothing. */
  lemma NormEmailOfLower(e: string)
    ensures NormEmail(Lower(e)) == NormEmail(e)
  {
    TrimLower(e);
    LowerIdempotent(Trim(e));
  }

  /** The third unique field: a doctor's licence number, an admin's employee id. */
  function ThirdKey(a: Account): string {
    match a.details
    case PatientDetails(_, _) => ""
    case DoctorDetails(_, license, _, _, _, _) => license
    case AdminDetails(employeeId, _, _, _) => employeeId
  }

  /** The unique indexes of a collection: email and username everywhere, plus the third key for doctors and admins. */
  predicate Conflicts(c: Collection, a: Account, b: Account) {
    a.email == b.email || a.username == b.username || (c != Users && ThirdKey(a) == ThirdKey(b))
  }

  /** No two accounts of a collection share a uniquely indexed value. */
  ghost predicate UniqueAccounts(c: Collection, m: map<ObjectId, Account>) {
    forall i, j :: i in m && j in m && i != j ==> !Conflicts(c, m[i], m[j])
  }

  /** Whether inserting `a` under `id` passes the `_id` index and the unique indexes (no E11000). */
  predicate CanInsert(c: Collection, m: map<ObjectId, Account>, id: ObjectId, a: Account) {
    id !in m && forall j :: j in m ==> !Conflicts(c, m[j], a)
  }

  /** A successful insert keeps the unique indexes satisfied. */
  lemma InsertKeepsUnique(c: Collection, m: map<ObjectId, Account>, id: ObjectId, a: Account)
    requires UniqueAccounts(c, m) && CanInsert(c, m, id, a)
    ensures UniqueAccounts(c, m[id := a])
  {
    var m' := m[id := a];
    forall i, j | i in m' && j in m' && i != j
      ensures !Conflicts(c, m'[i], m'[j])
    {
      if i == id {
        assert m'[j] == m[j];
      } else if j == id {
        assert m'[i] == m[i];
      }
    }
  }

  // ---------------------------------------------------------------- findOne

  /** The filters the routes pass to `findOne`, after the setters have been applied to them. */
  datatype Query =
    | ByEmail(email: string)
    | ByAnyKey(email: string, username: string, third: Option<string>)

  predicate Matches(q: Query, a: Account) {
    match q
    case ByEmail(e) => a.email == e
    case ByAnyKey(e, u, k) => a.email == e || a.username == u || (k.Some? && ThirdKey(a) == k.value)
  }

  /**
   * What `findOne` may answer: some matching document (MongoDB's natural order is not
   * specified), or nothing when no document matches.
   */
  ghost predicate IsFindOneAnswer(m: map<ObjectId, Account>, q: Query, ans: Option<ObjectId>) {
    match ans
    case Some(id) => id in m && Matches(q, m[id])
    case None => forall id :: id in m ==> !Matches(q, m[id])
  }

  /** `Model.findOne(q)`. */
  method FindOne(m: map<ObjectId, Account>, q: Query) returns (ans: Option<ObjectId>)
    ensures IsFindOneAnswer(m, q, ans)
  {
    if exists id :: id in m && Matches(q, m[id]) {
      var id :| id in m && Matches(q, m[id]);
      ans := Some(id);
    } else {
      ans := None;
    }
  }

  /** An email lookup in a collection with unique emails has at most one answer. */
  lemma EmailLookupIsUnique(c: Collection, m: map<ObjectId, Account>, e: string, a1: Option<ObjectId>, a2: Option<ObjectId>)
    requires UniqueAccounts(c, m)
    requires IsFindOneAnswer(m, ByEmail(e), a1) && IsFindOneAnswer(m, ByEmail(e), a2)
    ensures a1 == a2
  {
    if a1.Some? && a2.Some? {
      var i, j := a1.value, a2.value;
      assert Conflicts(c, m[i], m[j]) by { assert m[i].email == e == m[j].email; }
    }
  }

  // ---------------------------------------------------------------- registration forms

  /** The body of `POST /api/register`; an absent field is the empty string. */
  datatype UserForm = UserForm(username: string, email: string, password: string,
                               firstName: string, lastName: string, phone: string,
                               gender: string, address: string)

  /** The body of `POST /api/register/doctor`; `experience` is `None` when absent, null or NaN. */
  datatype DoctorForm = DoctorForm(username: string, email: string, password: string,
                                   firstName: string, lastName: string, phone: string,
                                   gender: string, specialization: string, licenseNumber: string,
                                   qualification: string, experience: Option<int>,
                                   department: string, biography: string)

  /** The body of `POST /api/register/admin`. */
  datatype AdminForm = AdminForm(username: string, email: string, password: string,
                                 firstName: string, lastName: string, phone: string,
                                 employeeId: string, department: string, position: string,
                                 accessLevel: string)

  const RequiredFieldsMessage: string := "All required fields must be filled"

  /** JavaScript truthiness of a number that may be missing: `0` and missing are falsy. */
  predicate TruthyNumber(n: Option<int>) {
    n.Some? && n.value != 0
  }

  /** The user route's own required-field test: username, email, password, first and last name. */
  predicate UserFormComplete(f: UserForm) {
    f.username != "" && f.email != "" && f.password != "" && f.firstName != "" && f.lastName != ""
  }

  /** The doctor route's own required-field test; an experience of 0 counts as missing. */
  predicate DoctorFormComplete(f: DoctorForm) {
    f.username != "" && f.email != "" && f.password != "" && f.firstName != ""
    && f.lastName != "" && f.phone != "" && f.specialization != "" && f.licenseNumber != ""
    && f.qualification != "" && TruthyNumber(f.experience) && f.department != ""
  }

  /** The admin route's own required-field test. */
  predicate AdminFormComplete(f: AdminForm) {
    f.username != "" && f.email != "" && f.password != "" && f.firstName != ""
    && f.lastName != "" && f.phone != "" && f.employeeId != "" && f.department != ""
    && f.position != ""
  }

  /** The duplicate check of each route, with the filter values passed through the setters. */
  function UserQuery(f: UserForm): Query {
    ByAnyKey(NormEmail(f.email), Trim(f.username), None)
  }

  function DoctorQuery(f: DoctorForm): Query {
    ByAnyKey(NormEmail(f.email), Trim(f.username), Some(Trim(f.licenseNumber)))
  }

  function AdminQuery(f: AdminForm): Query {
    ByAnyKey(NormEmail(f.email), Trim(f.username), Some(Trim(f.employeeId)))
  }

  /** The access level an admin gets: the submitted one, or the default when none was sent. */
  function AccessLevelOf(f: AdminForm): string {
    if f.accessLevel == "" then "admin" else f.accessLevel
  }

  /**
   * The document each route builds, as saved: trimmed strings, lower-cased email, the
   * password replaced by its digest, the schema's default role.
   */
  function NewUser(f: UserForm, salt: string): (a: Account)
    ensures UserQuery(f) == ByAnyKey(a.email, a.username, None)
    ensures Compare(f.password, a.password) && a.role == Patient
  {
    Account(Trim(f.username), NormEmail(f.email), Hash(f.password, salt), Trim(f.firstName),
            Trim(f.lastName), Trim(f.phone), Patient, PatientDetails(f.gender, Trim(f.address)))
  }

  function NewDoctor(f: DoctorForm, salt: string): (a: Account)
    requires f.experience.Some?
    ensures DoctorQuery(f) == ByAnyKey(a.email, a.username, Some(ThirdKey(a)))
    ensures Compare(f.password, a.password) && a.role == DoctorRole
  {
    Account(Trim(f.username), NormEmail(f.email), Hash(f.password, salt), Trim(f.firstName),
            Trim(f.lastName), Trim(f.phone), DoctorRole,
            DoctorDetails(Trim(f.specialization), Trim(f.licenseNumber), Trim(f.qualification),
                          f.experience.value, Trim(f.department), Trim(f.biography)))
  }

  function NewAdmin(f: AdminForm, salt: string): (a: Account)
    ensures AdminQuery(f) == ByAnyKey(a.email, a.username, Some(ThirdKey(a)))
    ensures Compare(f.password, a.password) && a.role == AdminRole && a.details.AdminDetails? && a.details.accessLevel != ""
  {
    Account(Trim(f.username), NormEmail(f.email), Hash(f.password, salt), Trim(f.firstName),
            Trim(f.lastName), Trim(f.phone), AdminRole,
            AdminDetails(Trim(f.employeeId), Trim(f.department), Trim(f.position), AccessLevelOf(f)))
  }

  /** A route's query finds exactly the documents the new document would collide with. */
  lemma QueryMatchesConflicts(c: Collection, q: Query, a: Account, b: Account)
    requires c == Users ==> q == ByAnyKey(a.email, a.username, None)
    requires c != Users ==> q == ByAnyKey(a.email, a.username, Some(ThirdKey(a)))
    ensures Matches(q, b) <==> Conflicts(c, b, a)
  {
  }

  // ---------------------------------------------------------------- schema validation

  /**
   * The user schema's validators, which run inside `save()` before the hashing hook: required
   * strings non-empty after trimming, a username of at least 3 characters, a password of at
   * least 6, and a gender from the enumeration (which admits the empty string).
   */
  predicate UserSchemaValid(f: UserForm) {
    |Trim(f.username)| >= 3 && NormEmail(f.email) != "" && |f.password| >= 6
    && Trim(f.firstName) != "" && Trim(f.lastName) != ""
    && f.gender in {"male", "female", "other", ""}
  }

  /**
   * The doctor schema's validators. Its gender enumeration does not admit the empty string
   * the route substitutes for a missing gender, and experience must not be negative.
   */
  predicate DoctorSchemaValid(f: DoctorForm) {
    Trim(f.username) != "" && NormEmail(f.email) != "" && |f.password| >= 6
    && Trim(f.firstName) != "" && Trim(f.lastName) != "" && Trim(f.phone) != ""
    && f.gender in {"male", "female", "other"}
    && Trim(f.specialization) != "" && Trim(f.licenseNumber) != "" && Trim(f.qualification) != ""
    && f.experience.Some? && f.experience.value >= 0 && Trim(f.department) != ""
  }

  /** The admin schema's validators: required strings, password length, and the access-level enumeration. */
  predicate AdminSchemaValid(f: AdminForm) {
    Trim(f.username) != "" && NormEmail(f.email) != "" && |f.password| >= 6
    && Trim(f.firstName) != "" && Trim(f.lastName) != "" && Trim(f.phone) != ""
    && Trim(f.employeeId) != "" && Trim(f.department) != "" && Trim(f.position) != ""
    && AccessLevelOf(f) in {"super_admin", "admin", "manager"}
  }

  // ---------------------------------------------------------------- which duplicate is reported

  datatype Clash = EmailTaken | UsernameTaken | ThirdKeyTaken

  function ClashMessage(c: Collection, k: Clash): string {
    match k
    case EmailTaken => "Email already registered"
    case UsernameTaken => "Username already taken"
    case ThirdKeyTaken => if c == Admins then "Employee ID already registered" else "License number already registered"
  }

  /**
   * The user route's choice, as written: the stored email of the account found (trimmed and
   * lower-cased) is compared with the email exactly as it was submitted.
   */
  function UserClashAsWritten(found: Account, f: UserForm): (k: Clash)
    ensures k == EmailTaken <==> found.email == f.email
    ensures k != ThirdKeyTaken
  {
    if found.email == f.email then EmailTaken else UsernameTaken
  }

  /** The user route's choice, comparing with the email as it is stored. */
  function UserClash(found: Account, f: UserForm): (k: Clash)
    requires Matches(UserQuery(f), found)
    ensures k == EmailTaken <==> found.email == NormEmail(f.email)
    ensures k == UsernameTaken ==> found.username == Trim(f.username)
    ensures k != ThirdKeyTaken
  {
    if found.email == NormEmail(f.email) then EmailTaken else UsernameTaken
  }

  /**
   * The doctor and admin routes' choice, as written: email, then username, then the third
   * key, each compared with the submitted text; when none of the three is equal the route
   * falls through to the insert.
   */
  function StaffClashAsWritten(found: Account, email: string, username: string, third: string): (k: Option<Clash>)
    ensures k == Some(EmailTaken) <==> found.email == email
    ensures k == Some(UsernameTaken) <==> found.email != email && found.username == username
    ensures k == Some(ThirdKeyTaken) <==> found.email != email && found.username != username && ThirdKey(found) == third
    ensures k.None? <==> found.email != email && found.username != username && ThirdKey(found) != third
  {
    if found.email == email then Some(EmailTaken)
    else if found.username == username then Some(UsernameTaken)
    else if ThirdKey(found) == third then Some(ThirdKeyTaken)
    else None
  }

  /** The doctor and admin routes' choice, comparing with the values as they are stored. */
  function StaffClash(found: Account, email: string, username: string, third: string): (k: Clash)
    requires Matches(ByAnyKey(NormEmail(email), Trim(username), Some(Trim(third))), found)
    ensures k == EmailTaken <==> found.email == NormEmail(email)
    ensures k == UsernameTaken <==> found.email != NormEmail(email) && found.username == Trim(username)
    ensures k == ThirdKeyTaken <==> found.email != NormEmail(email) && found.username != Trim(username) && ThirdKey(found) == Trim(third)
  {
    if found.email == NormEmail(email) then EmailTaken
    else if found.username == Trim(username) then UsernameTaken
    else ThirdKeyTaken
  }

  /** For a form whose values are already in stored form, the corrected and the written choices agree. */
  lemma StaffClashAgreesOnNormalForm(found: Account, email: string, username: string, third: string)
    requires Matches(ByAnyKey(NormEmail(email), Trim(username), Some(Trim(third))), found)
    requires NormEmail(email) == email && Trim(username) == username && Trim(third) == third
    ensures StaffClashAsWritten(found, email, username, third) == Some(StaffClash(found, email, username, third))
  {
  }

  /**
   * Whenever the account found carries the submitted email only up to case or surrounding
   * whitespace, and not the submitted username, the user route as written reports the
   * username although it is the email that is taken.
   */
  lemma UserClashAsWrittenMisreports(found: Account, f: UserForm)
    requires found.email == NormEmail(f.email) && found.email != f.email
    requires found.username != Trim(f.username)
    ensures Matches(UserQuery(f), found)
    ensures UserClashAsWritten(found, f) == UsernameTaken && UserClash(found, f) == EmailTaken
  {
  }

  /**
   * The doctor and admin routes as written fall through to the insert in the same situation
   * (with a different third key), and the insert then breaks the unique email index.
   */
  lemma StaffClashAsWrittenFallsThrough(c: Collection, found: Account, f: DoctorForm, salt: string)
    requires f.experience.Some?
    requires found.email == NormEmail(f.email) && found.email != f.email
    requires found.username != f.username && ThirdKey(found) != f.licenseNumber
    ensures Matches(DoctorQuery(f), found)
    ensures StaffClashAsWritten(found, f.email, f.username, f.licenseNumber).None?
    ensures Conflicts(c, found, NewDoctor(f, salt))
  {
  }

  /** "A@x.com" is stored and looked up as "a@x.com": the input that triggers both lemmas above. */
  lemma MixedCaseEmailExample()
    ensures NormEmail("A@x.com") == "a@x.com" != "A@x.com"
    ensures Trim("bob") == "bob" != "alice"
  {
    assert Trim("A@x.com") == "A@x.com" by { TrimKeeps("A@x.com"); }
    assert Lower("A@x.com") == "a@x.com";
    assert Trim("bob") == "bob" by { TrimKeeps("bob"); }
  }

  /** When the lookup found nothing, the insert cannot break a unique index. */
  lemma NoMatchMeansInsertable(c: Collection, m: map<ObjectId, Account>, q: Query, id: ObjectId, a: Account)
    requires c == Users ==> q == ByAnyKey(a.email, a.username, None)
    requires c != Users ==> q == ByAnyKey(a.email, a.username, Some(ThirdKey(a)))
    requires IsFindOneAnswer(m, q, None)
    ensures CanInsert(c, m, id, a) <==> id !in m
  {
    forall j | j in m
      ensures !Conflicts(c, m[j], a)
    {
      QueryMatchesConflicts(c, q, a, m[j]);
    }
  }
}
