# MedCare clinic: sessions, logins and the dashboards' rules

This project models the authentication core of the MedCare clinic web application, and
proves properties of that model.

The **server** (`server.js`) keeps three account collections (patients, doctors, admins)
and a collection of login sessions. The model covers:

- what registration accepts, and which duplicate it reports, both as the code compares
  and as the comparison was evidently meant;
- how a login picks the collection, checks the password and creates a session that lasts
  24 hours;
- how `authenticateSession` accepts a `Session-Id` header only for an active, unexpired
  session;
- how logout deactivates a session, and how the TTL index removes expired ones;
- what the block-list, the 404 handler and the error handler answer.

The route handlers are pure functions over the database state (`Routes`). The database is
a class, `Server.ClinicServer`, whose methods run those handlers and keep an invariant:
unique indexes hold, and every session is well formed and belongs to its account.

The **login page** (`Public/login/login.js`) covers:

- form validation and the request it sends;
- the role-to-dashboard table;
- what it writes to `localStorage` on login, remember-me, session check and logout.

`localStorage` is a class with a map field (`BrowserStorage.LocalStorage`). The page is a
class whose methods update it (`LoginClient.LoginPage`).

The **dashboards** (`doctor-dashboard.js`, `admin-dashboard.js`) contribute their
authentication guard and their pure rules:

- stat counters;
- today's schedule filter;
- status-gated actions;
- keyboard shortcuts;
- the prescription, profile, add-doctor and department forms;
- the icon and colour tables.

A cross-module lemma (`LoginClient.LoginReachesDashboard`) ties the login route, the page's
storage writes, the dashboard guard and the profile route together.

Foreign code enters as parameters:

- bcrypt is a digest recording its salt, over the first 72 characters of the password;
- MongoDB's `findOne` is a relation: any matching document, since the natural order is
  unspecified;
- new ObjectIds, salts, the clock, the client address and user agent, and the
  `JSON.stringify` text of a user are arguments;
- the browser's `fetch` results are arguments of the page's methods.

Where one might expect otherwise, the model follows the code:

- `GET /api/profile` for a session whose account has been deleted sends no reply at all
  (the handler throws outside any `try`, and Express 4 does not catch it). It is not a 401.
- A repeated logout rewrites `logoutTime`. The update is unconditional.
- A `Session-Id` header that is not a 24-digit hexadecimal id makes the query throw, and
  the answer is 500 "Authentication failed". It is not a 401. This is the cast of
  Mongoose 7 and later.
- There is no role gate on the server. Roles are only checked by the dashboards' guards.
- A doctor or admin registration whose email is taken only up to letter case passes the
  route's three comparisons, and the insert then fails on the unique index: the answer
  is 500, not "Email already registered" (`Routes.DoctorEmailCaseGives500`).

Two things the code does are not bugs of the core, but are worth knowing:

- The admin dashboard's add-doctor form posts no `username`. This server therefore always
  refuses it as missing required fields (`AdminDashboard.AddDoctorIsRefused`).
- The doctor dashboard checks its session against `/api/doctor/profile`, an endpoint this
  `server.js` does not define. Only the guard and the cleanup on failure are modelled; the
  server's answer is a parameter.

## Model

| member | source | states |
|---|---|---|
| JsString.TrimStart | server.js:107 | a suffix of the input, every character dropped is whitespace, and it does not start with whitespace |
| JsString.TrimEnd | server.js:107 | a prefix of the input, every character dropped is whitespace, and it does not end with whitespace |
| JsString.Trim | Public/login/login.js:123 | the result is no longer than the input and has no whitespace at either end |
| JsString.TrimIsTrimEndOfTrimStart | Public/login/login.js:123 | trimming is removing the leading and then the trailing whitespace |
| JsString.TrimRemovesOnlyEdges | Public/login/login.js:123 | the result is a slice `s[i..j]` of the input with only whitespace before `i` and from `j` on |
| JsString.TrimEmpty | Public/login/login.js:123 | a string trims to empty exactly when every character is whitespace |
| JsString.TrimLower | server.js:108 | the `trim` and `lowercase` setters commute |
| JsString.TrimIdempotent | Public/Dashboard/admin-dashboard/admin-dashboard.js:933 | trimming twice is trimming once |
| JsString.Split | Public/Dashboard/doctor-dashboard/doctor-dashboard.js:780 | `split` yields one piece more than there are separators, and no piece holds the separator |
| JsString.JoinSplit | Public/Dashboard/doctor-dashboard/doctor-dashboard.js:789 | joining the pieces of a split with the separator gives the string back |
| JsString.SplitHeadTail | Public/Dashboard/doctor-dashboard/doctor-dashboard.js:788-789 | a string with the separator is its first piece, the separator and the rest of the pieces joined |
| JsString.SplitJoin | Public/Dashboard/admin-dashboard/admin-dashboard.js:933 | splitting a join of separator-free pieces gives the pieces back |
| JsString.Lower | server.js:461 | `toLowerCase` keeps the length and lower-cases each letter |
| JsString.LowerIdempotent | server.js:461 | lower-casing twice is lower-casing once |
| JsString.ParseInt | Public/Dashboard/doctor-dashboard/doctor-dashboard.js:710 | `parseInt` without a radix: leading whitespace, a sign, then the leading decimal digits; not a number when there are none |
| JsString.ParseIntDecimalString | Public/Dashboard/doctor-dashboard/doctor-dashboard.js:245-251 | `parseInt` reads the decimal text of any integer back as that integer |
| JsString.ParseIntLeadingDigit | Public/Dashboard/doctor-dashboard/doctor-dashboard.js:1355 | a key starting with a digit 1-9 parses as the number its leading digits spell |
| ObjectIds.Format | server.js:506 | a session id in a reply is 24 hexadecimal digits |
| ObjectIds.Parse | server.js:241-242 | a string casts to an ObjectId exactly when it is 24 hexadecimal digits of either case |
| ObjectIds.ParseFormat | server.js:241-242 | an id the server hands out casts back to the same id |
| ObjectIds.FormatParse | server.js:241-242 | every castable text is the text of its id up to letter case |
| ObjectIds.HexValueOfFixedHex | server.js:506 | reading the fixed-width hex text of a number gives the number back |
| ObjectIds.FixedHexOfHexValue | server.js:241-242 | writing the value of a hex text at its width gives the text back, lower-cased |
| Credentials.Truncate | server.js:218-220 | bcrypt reads at most the first 72 characters, and all of a password that is no longer |
| Credentials.Hash | server.js:206-207 | the digest records cost factor 10 and the salt drawn |
| Credentials.Compare | server.js:218-220 | `comparePassword`: the candidate's 72-character prefix hashed with the digest's salt equals the digest |
| Credentials.CompareHash | server.js:218-220 | a password always matches its own digest, whatever the salt |
| Credentials.CompareHashIff | server.js:218-220 | a candidate matches exactly when it agrees with the password on the first 72 characters |
| Credentials.PreSave | server.js:203-212 | a modified password is replaced by a digest it matches; an unmodified one is kept, never hashed twice |
| Accounts.RoleName | server.js:116 | the role strings are `patient`, `doctor`, `admin` |
| Accounts.ModelName | server.js:184 | the `userModel` strings are `User`, `Doctor`, `Admin` |
| Accounts.NormEmail | server.js:108 | the `trim` and `lowercase` setters of the email path, applied on save and to query filters |
| Accounts.NormEmailIdempotent | server.js:108 | a stored email is its own normal form under the trim and lowercase setters |
| Accounts.NormEmailOfLower | server.js:461-464 | lower-casing the email in the login route changes nothing the setters would not |
| Accounts.UserFormComplete | server.js:317-319 | the user route's own test: username, email, password, first and last name non-empty |
| Accounts.DoctorFormComplete | server.js:355-358 | the doctor route's own test of eleven fields, where an experience of 0 counts as missing |
| Accounts.AdminFormComplete | server.js:407-410 | the admin route's own test of nine fields |
| Accounts.UserSchemaValid | server.js:106-116 | the user schema's validators: trimmed required strings, username of at least 3, password of at least 6, gender from the enumeration with `""` |
| Accounts.DoctorSchemaValid | server.js:121-135 | the doctor schema's validators, whose gender enumeration leaves out `""`, and experience not negative |
| Accounts.AdminSchemaValid | server.js:146-160 | the admin schema's validators and the access-level enumeration |
| Accounts.NewUser | server.js:328-332 | the saved user: the route's query asks for exactly its email and username, its digest matches the password, its role is `patient` |
| Accounts.NewDoctor | server.js:376-382 | the saved doctor: the query asks for its email, username and licence number; the digest matches; role `doctor` |
| Accounts.NewAdmin | server.js:428-433 | the saved admin: the query asks for its email, username and employee id; the digest matches; role `admin`; an access level always set |
| Accounts.InsertKeepsUnique | server.js:107-108 | an insert that passes the unique indexes keeps every pair of documents distinct on email, username and the third key |
| Accounts.Conflicts | server.js:122-131 | two accounts clash on a unique index when they share the email or the username, or, for doctors and admins, the licence number or employee id |
| Accounts.UniqueAccounts | server.js:107-153 | no two documents of a collection share a uniquely indexed value |
| Accounts.CanInsert | server.js:107-153 | an insert passes when its `_id` is unused and it clashes with no stored document |
| Accounts.UserQuery | server.js:321 | the `$or` of email and username, with the setters applied to the filter values |
| Accounts.DoctorQuery | server.js:360-362 | the `$or` of email, username and licence number, with the setters applied |
| Accounts.AdminQuery | server.js:412-414 | the `$or` of email, username and employee id, with the setters applied |
| Accounts.FindOne | server.js:321 | `findOne` answers a matching document, or nothing only when none matches |
| Accounts.EmailLookupIsUnique | server.js:464 | in a collection with unique emails, an email lookup has exactly one possible answer |
| Accounts.QueryMatchesConflicts | server.js:360-362 | the `$or` query of a registration finds exactly the documents the new one would collide with |
| Accounts.NoMatchMeansInsertable | server.js:321-334 | when the query finds nothing, the insert cannot break a unique index |
| Accounts.UserClashAsWritten | server.js:322-325 | as written: the email is reported iff the stored email equals the submitted text, otherwise the username |
| Accounts.UserClash | server.js:322-325 | corrected: the email is reported iff the stored email equals the submitted one in stored form, otherwise the username |
| Accounts.StaffClashAsWritten | server.js:364-374 | as written: email, then username, then licence number or employee id, each compared with the submitted text, each iff the earlier ones differ; none iff all three differ |
| Accounts.StaffClash | server.js:364-374 | corrected: the same precedence with the values in stored form, each iff the earlier ones differ |
| Accounts.StaffClashAgreesOnNormalForm | server.js:364-374 | for values already in stored form the written and the corrected checks agree |
| Accounts.UserClashAsWrittenMisreports | server.js:324 | an email taken up to case is reported as "Username already taken" |
| Accounts.StaffClashAsWrittenFallsThrough | server.js:364-376 | an email taken up to case passes all three checks, and the new doctor collides with the stored one |
| Accounts.MixedCaseEmailExample | server.js:108 | `"A@x.com"` is stored and looked up as `"a@x.com"` |
| Http.BlockSensitive | server.js:18-25 | 403 exactly for the four listed paths, compared exactly; every other path passes on |
| Http.BlockListIsExact | server.js:19-20 | `/server.js` is blocked; `/SERVER.JS` and `/server.js/` are not |
| Http.NotFoundReply | server.js:565-571 | 404 with the original URL and the method |
| Http.HandleError | server.js:573-600 | a validation error is 400 with the field messages; a duplicate key (code 11000) is 400 "Duplicate entry" naming the first key of the key pattern, or Express's default 500 page when there is no key pattern; a `JsonWebTokenError` is 401 "Invalid token"; anything else takes the error's own status when it is set and non-zero, else 500, hides the message in production and shows the stack only in development |
| Http.ProductionHidesInternals | server.js:596-599 | in production an unclassified error reads "Internal server error" without a stack |
| Http.NonProductionShowsMessage | server.js:596-597 | outside production the error's message is passed through |
| Sessions.IsLive | server.js:241-245 | the filter of the session lookup: active, and `expiresAt` strictly after now |
| Sessions.NewSession | server.js:483-492 | the new session copies owner, collection, email and role, and is live exactly from login until 24 hours later |
| Sessions.ExpiryBoundary | server.js:491 | live one millisecond before `loginTime + 24h`, dead at it (`expiresAt > now` is strict) |
| Sessions.Evolves | server.js:175-199 | the allowed change to the session collection: a record keeps its user, model, role, email, login time and expiry, and an inactive record stays inactive |
| Sessions.EvolvesTransitive | server.js:175-199 | the allowed changes to session records compose |
| Sessions.EvolvesAlong | server.js:175-199 | along any run of steps no session is revived and no login snapshot is rewritten |
| Sessions.Authenticate | server.js:233-258 | 401 "No session provided" iff the header is absent or empty; 500 "Authentication failed" iff a non-empty header does not cast; 401 "Invalid or expired session" iff it casts but names no live session; otherwise authenticated with that session |
| Sessions.AuthenticateIssuedId | server.js:241-253 | the id a login returned authenticates while its session is live |
| Sessions.AuthenticateIgnoresCase | server.js:241-242 | an id in any letter case authenticates alike |
| Sessions.DeadStaysDead | server.js:241-249 | a session that is not live is refused at that time and every later one |
| Sessions.Deactivate | server.js:519-522 | the update clears `isActive` and sets `logoutTime`, and keeps owner, role, email, login and expiry times |
| Sessions.Logout | server.js:514-530 | 500 iff the id is non-empty and does not cast; otherwise only the named session is deactivated; the reply is the same whether or not it existed |
| Sessions.LogoutEndsSession | server.js:514-525 | after a logout naming it, a session is refused at every time |
| Sessions.LogoutIsolated | server.js:519 | a logout leaves every other session's authentication as it was |
| Sessions.LogoutIdempotent | server.js:514-525 | logging out twice at the same moment is logging out once |
| Sessions.RepeatedLogoutMovesLogoutTime | server.js:519-522 | a later second logout rewrites the logout time |
| Sessions.LogoutEvolves | server.js:514-525 | logout neither revives a session nor rewrites its login snapshot |
| Sessions.Expire | server.js:201 | the TTL monitor removes exactly the records whose expiry has passed |
| Sessions.RemovingDeadSessionsIsInvisible | server.js:201 | removing sessions that are not live changes no authentication outcome then or later |
| Sessions.ExpireIsInvisible | server.js:201 | a TTL pass, however late, is invisible to clients |
| Sessions.ExpireEvolves | server.js:201 | a TTL pass only removes records |
| Routes.SaveUser | server.js:334-344 | 201 iff the schema accepts the user and the insert breaks no index, and then the user is added; otherwise 500 "Registration failed" and nothing changes |
| Routes.SaveDoctor | server.js:384-397 | the same for a doctor, with "Doctor registration failed" |
| Routes.SaveAdmin | server.js:435-448 | the same for an admin, with "Admin registration failed" |
| Routes.FoundBlocksInsert | server.js:360-384 | a document the route's query found always collides with the new one, so the insert fails |
| Routes.RegisterUser | server.js:313-345 | "All required fields" iff one of the five is missing; a duplicate gets 400 with the as-written choice's message; 201 iff the fields are present, nothing clashes, the schema accepts and the id is free, and then exactly the new account is added; otherwise nothing changes |
| Routes.RegisterUserCorrected | server.js:313-345 | the same route with the corrected choice: "Email already registered" iff the stored email equals the submitted one in stored form |
| Routes.RegisterUserKeepsUnique | server.js:321-334 | user registration keeps the unique indexes |
| Routes.RegisterDoctor | server.js:347-398 | "All required fields" iff one of the eleven is missing (an experience of 0 counts); a duplicate gets 400 with the as-written message, or 500 "Doctor registration failed" when none of the three comparisons holds; 201 iff nothing clashes and the doctor schema accepts |
| Routes.RegisterDoctorCorrected | server.js:347-398 | the same with the corrected choice: every duplicate is a 400 naming the key in stored form |
| Routes.RegisterDoctorKeepsUnique | server.js:360-384 | doctor registration keeps the unique indexes |
| Routes.RegisterAdmin | server.js:400-449 | "All required fields" iff one of the nine is missing; a duplicate gets 400 with the as-written message, or 500 "Admin registration failed" when none of the three comparisons holds; 201 iff nothing clashes and the admin schema accepts |
| Routes.RegisterAdminCorrected | server.js:400-449 | the same with the corrected choice: every duplicate is a 400 |
| Routes.RegisterAdminKeepsUnique | server.js:412-435 | admin registration keeps the unique indexes |
| Routes.UserRoutesAgreeOnNormalForm | server.js:322-325 | for an email already trimmed and lower-case the written and the corrected user routes agree |
| Routes.DoctorRoutesAgreeOnNormalForm | server.js:364-374 | for values already in stored form the written and the corrected doctor routes agree |
| Routes.AdminRoutesAgreeOnNormalForm | server.js:416-426 | for values already in stored form the written and the corrected admin routes agree |
| Routes.DoctorEmailCaseGives500 | server.js:364-396 | an email taken only up to case, with a new username and licence, gets 500 as written and "Email already registered" corrected |
| Routes.SecondRegistrationAsWritten | server.js:321-325 | the same user form registered again is refused with "Email already registered" iff its email is already trimmed and lower-case, else "Username already taken" |
| Routes.SecondRegistrationReportsEmail | server.js:321-325 | with the corrected check, the same form registered again is always refused with "Email already registered" |
| Routes.CollectionFor | server.js:463-472 | `doctor` selects doctors, `admin` admins, any other user type patients |
| Routes.LoginQuery | server.js:461-470 | the email lower-cased by the route and then passed through the setters |
| Routes.Login | server.js:451-512 | 400 without email or password; 401 alike for an unknown email or a wrong password; otherwise 200 with exactly one new session under the fresh id; a failure changes nothing |
| Routes.LoginEvolves | server.js:483-494 | a login adds at most one session and touches no existing one |
| Routes.LoginFailuresLookAlike | server.js:474-481 | an unknown email and a wrong password give the same reply and no session |
| Routes.RegisteredUserCanLogIn | server.js:451-507 | a registered user logs in with the same password and the email in any letter case |
| Routes.Owners | server.js:176-184 | the collection `populate` reads for a session's `userModel` |
| Routes.Profile | server.js:532-543 | a refused session gets the authentication reply; no reply iff the account is gone; an authenticated session whose account exists always gets 200 with the account's fields and the role the session recorded |
| Routes.ProfileReportsSessionRole | server.js:540 | when the account's current role differs from the role the session recorded, the answer is still 200 and carries the session's role |
| Routes.LoginThenProfile | server.js:451-543 | the profile with the id a login returned answers with that account for as long as the session lasts |
| Routes.LogoutThenProfile | server.js:514-543 | after logging out with that id the profile is refused |
| Server.SessionWellFormed | server.js:483-492 | a session expires one day after its login, is active exactly until a logout time is recorded, and has no time in the future |
| Server.SessionOwned | server.js:176-190 | a well-formed session whose account is stored in the collection its `userModel` names, with the role and email the session recorded |
| Server.StateValid | server.js:107-201 | the class invariant: the unique indexes hold in every collection and every session is owned |
| Server.AccountsGrowKeepsValid | server.js:107-153 | adding accounts that keep the unique indexes keeps the invariant |
| Server.RegisterUserKeepsValid | server.js:313-345 | a patient registration keeps the invariant |
| Server.RegisterDoctorKeepsValid | server.js:347-398 | a doctor registration keeps the invariant |
| Server.RegisterAdminKeepsValid | server.js:400-449 | an admin registration keeps the invariant |
| Server.TickKeepsValid | server.js:244 | the clock moving forward keeps the invariant |
| Server.LoginKeepsValid | server.js:483-494 | the new session belongs to the account that logged in, so the invariant holds |
| Server.LogoutKeepsValid | server.js:519-522 | a deactivated session records its logout time, so the invariant holds |
| Server.ExpireKeepsValid | server.js:201 | a TTL pass only removes sessions, so the invariant holds |
| Server.ClinicServer.constructor | server.js:226-229 | an empty database satisfies the invariant |
| Server.ClinicServer.Tick | server.js:244 | the clock moves forward and the invariant still holds |
| Server.ClinicServer.RegisterUser | server.js:313-345 | runs the as-written `Routes.RegisterUser` on the users collection for some answer of `findOne`, keeps the invariant, changes nothing else |
| Server.ClinicServer.RegisterDoctor | server.js:347-398 | the same for doctors, with the as-written `Routes.RegisterDoctor` |
| Server.ClinicServer.RegisterAdmin | server.js:400-449 | the same for admins, with the as-written `Routes.RegisterAdmin` |
| Server.ClinicServer.Login | server.js:451-512 | runs `Routes.Login` on the selected collection, keeps the invariant, only sessions change, and no session is revived |
| Server.ClinicServer.Logout | server.js:514-530 | runs `Sessions.Logout`, keeps the invariant, no session revived |
| Server.ClinicServer.Profile | server.js:532-543 | answers `Routes.Profile` on the current state |
| Server.ClinicServer.ProfileAlwaysAnswers | server.js:532-543 | in a valid state the profile always replies, and a 200 carries the session's account |
| Server.ClinicServer.ExpireSessions | server.js:201 | a TTL pass keeps the invariant and no authentication outcome changes |
| BrowserStorage.LocalStorage.GetItem | Public/login/login.js:345-346 | the stored string, or `null` for a key not present |
| BrowserStorage.LocalStorage.SetItem | Public/login/login.js:198-203 | the key holds the value; every other key is unchanged |
| BrowserStorage.LocalStorage.RemoveItem | Public/login/login.js:331 | the key is gone; every other key is unchanged |
| BrowserStorage.Lookup | Public/login/login.js:345-346 | present iff the key is stored, with its value |
| BrowserStorage.AuthGuard | Public/Dashboard/doctor-dashboard/doctor-dashboard.js:42-52 | verification is attempted iff a non-empty `sessionId` and a `userRole` equal to the dashboard's role are stored |
| BrowserStorage.GuardOpensOneDashboard | Public/Dashboard/admin-dashboard/admin-dashboard.js:33-37 | one stored role passes at most one dashboard's guard |
| LoginClient.ValidateForm | Public/login/login.js:122-153 | each of the four messages iff its check is the first to fail, in the source's order; accepted iff all pass |
| LoginClient.SubmitRequest | Public/login/login.js:160-187 | a request is sent iff validation passes, with the trimmed email, the password as typed and the selected role |
| LoginClient.SubmittedFormIsComplete | Public/login/login.js:156-187 | a form the page sends is never answered "Email and password are required" |
| LoginClient.DashboardPath | Public/login/login.js:248-259 | `/<role>-dashboard` for the three roles, `/` for anything else |
| LoginClient.EveryRoleHasDashboard | Public/login/login.js:249-253 | every role the server hands out has its own dashboard |
| LoginClient.WithoutAuth | Public/login/login.js:322-335 | exactly the four authentication keys are removed; every other key keeps its value |
| LoginClient.AfterLogin | Public/login/login.js:196-222 | the four keys hold the login's values; the remember keys are set when the box is checked and removed when not; nothing else changes |
| LoginClient.LoginOpensDashboard | Public/login/login.js:196-199 | after a login the returned role's dashboard guard passes with the returned session id |
| LoginClient.ClearedStoreOpensNoDashboard | Public/login/login.js:322-335 | after `clearAuthData` every dashboard guard sends the page back |
| LoginClient.Restore | Public/login/login.js:345-359 | a truthy remembered email fills the field and checks the box; a truthy remembered role is selected |
| LoginClient.RememberRoundTrip | Public/login/login.js:214-222 | with the box checked the next visit shows the same email and role; unchecked, a fresh page |
| LoginClient.LogoutKeepsRemembered | Public/login/login.js:322-359 | logging out keeps what remember-me stored |
| LoginClient.LoginReachesDashboard | Public/login/login.js:196-226 | after a successful login the returned role's dashboard lets the page in and the profile answers with the logged-in account while the session lasts |
| LoginClient.Greeting | Public/login/login.js:212 | the first name, or the email when the first name is empty |
| LoginClient.FailureMessage | Public/login/login.js:231 | the error if truthy, else the message if truthy, else "Login failed. Please try again." |
| LoginClient.LoginPage.constructor | Public/login/login.js:1 | the page starts with the patient role, empty fields and the box unchecked |
| LoginClient.LoginPage.SelectRole | Public/login/login.js:4-13 | a click selects that role and changes nothing else |
| LoginClient.LoginPage.Init | Public/login/login.js:338-374 | restores the remembered fields, and resumes iff both `sessionId` and `userRole` are truthy |
| LoginClient.LoginPage.ClearAuthData | Public/login/login.js:322-335 | the store becomes `WithoutAuth` of the old store |
| LoginClient.LoginPage.HandleLoginResponse | Public/login/login.js:189-241 | an ok answer with a session id and user is stored as `AfterLogin` and navigates to the role's dashboard; an ok answer with a session id but no user stores only the session id, shows the network alert and keeps the password (reading `data.user.role` throws into the catch); any answer that is not ok or has no session id shows the failure message, clears the password and leaves the storage alone; a network error shows the network alert |
| LoginClient.LoginPage.VerifySessionAndRedirect | Public/login/login.js:290-319 | an accepted session navigates to the stored role's dashboard; any other outcome clears the authentication keys |
| LoginClient.LoginPage.Logout | Public/login/login.js:406-429 | posts the truthy session id if any, always clears the authentication keys and goes to `/login` |
| DashboardCommon.CheckAuthentication | Public/Dashboard/doctor-dashboard/doctor-dashboard.js:39-94 | no request iff the guard fails; admitted iff the guard passes and the server accepts; a refusal removes `sessionId`, `userRole` and `userData` only |
| DashboardCommon.RejectionIsFinal | Public/Dashboard/admin-dashboard/admin-dashboard.js:63-71 | after a refusal every dashboard redirects without a request and there is no session to resume |
| DashboardCommon.CounterText | Public/Dashboard/doctor-dashboard/doctor-dashboard.js:245-251 | the counter's text parses back as the value, or 0 when it is missing; it reads "0" iff the value is missing or 0 |
| DoctorDashboard.OnlyDoctorsGetIn | Public/Dashboard/doctor-dashboard/doctor-dashboard.js:48-52 | a login under any other role is sent back without a request |
| DoctorDashboard.StatsDisplay | Public/Dashboard/doctor-dashboard/doctor-dashboard.js:245-251 | each counter element in order, showing its value or 0 |
| DoctorDashboard.DatePart | Public/Dashboard/doctor-dashboard/doctor-dashboard.js:296-298 | the longest prefix of the ISO text without a `T`: it is followed by `T` or is the whole text |
| DoctorDashboard.TodaysAppointments | Public/Dashboard/doctor-dashboard/doctor-dashboard.js:296-299 | an appointment is kept iff it is dated today |
| DoctorDashboard.TodaysAppointmentsAppend | Public/Dashboard/doctor-dashboard/doctor-dashboard.js:297-299 | the filter keeps the original order: it distributes over concatenation |
| DoctorDashboard.TodaysAppointmentsCounts | Public/Dashboard/doctor-dashboard/doctor-dashboard.js:297-299 | every copy of a matching appointment is kept and no copy of another |
| DoctorDashboard.StatusLabel | Public/Dashboard/doctor-dashboard/doctor-dashboard.js:351 | never empty: the status, or `scheduled` when it is missing or empty |
| DoctorDashboard.ListActions | Public/Dashboard/doctor-dashboard/doctor-dashboard.js:355-369 | view and prescribe always; complete and cancel iff the status is `scheduled` or `pending` |
| DoctorDashboard.TodayActions | Public/Dashboard/doctor-dashboard/doctor-dashboard.js:319-326 | view always; complete iff the status is `scheduled` |
| DoctorDashboard.TodayOffersLess | Public/Dashboard/doctor-dashboard/doctor-dashboard.js:321-359 | today's schedule offers no action the table would refuse |
| DoctorDashboard.MissingStatusLooksScheduled | Public/Dashboard/doctor-dashboard/doctor-dashboard.js:313-359 | an appointment without status reads `scheduled` but offers no complete or cancel |
| DoctorDashboard.ShortcutSection | Public/Dashboard/doctor-dashboard/doctor-dashboard.js:1352-1358 | a section opens only with Ctrl or Cmd and a key starting 1-6, and it is the section of that digit |
| DoctorDashboard.ShortcutDigits | Public/Dashboard/doctor-dashboard/doctor-dashboard.js:1352-1358 | Ctrl or Cmd with digit k from 1 to 6 opens section k; without either, nothing |
| DoctorDashboard.KeyInRange | Public/Dashboard/doctor-dashboard/doctor-dashboard.js:1352-1355 | a key within the string range starts with 1-6, and `parseInt` reads its digit alone or a number of at least 10 |
| DoctorDashboard.LexRange | Public/Dashboard/doctor-dashboard/doctor-dashboard.js:1352 | the keys between `"1"` and `"6"` in string order start with a digit from 1 to 6 |
| DoctorDashboard.QuantityOf | Public/Dashboard/doctor-dashboard/doctor-dashboard.js:723 | the typed quantity when it parses to a non-zero number; 1 when it is missing, not a number, or parses to 0 |
| DoctorDashboard.PrescriptionBody | Public/Dashboard/doctor-dashboard/doctor-dashboard.js:716-729 | exactly one medication, whose duration is the validity and the parsed duration, with a non-zero quantity |
| DoctorDashboard.PrescriptionAsWritten | Public/Dashboard/doctor-dashboard/doctor-dashboard.js:705-729 | accepted iff the fields are present and the duration does not parse to a number at most 0 |
| DoctorDashboard.Prescribe | Public/Dashboard/doctor-dashboard/doctor-dashboard.js:705-729 | accepted iff the fields are present and the duration parses to a positive number; then one medication whose duration equals the validity and whose quantity is `QuantityOf` of the field (1 unless it parses to a non-zero number), with the other fields copied |
| DoctorDashboard.PrescribeRefinesAsWritten | Public/Dashboard/doctor-dashboard/doctor-dashboard.js:705-729 | whatever the corrected check accepts, the written one sends with the same payload |
| DoctorDashboard.NonNumericDurationSlipsThrough | Public/Dashboard/doctor-dashboard/doctor-dashboard.js:710-728 | a duration with no leading number is sent with a null duration |
| DoctorDashboard.AbcIsNotANumber | Public/Dashboard/doctor-dashboard/doctor-dashboard.js:710 | `parseInt("abc")` is not a number |
| DoctorDashboard.Omittable | Public/Dashboard/doctor-dashboard/doctor-dashboard.js:791-794 | an empty field is omitted, any other is sent as is |
| DoctorDashboard.ProfileBody | Public/Dashboard/doctor-dashboard/doctor-dashboard.js:787-796 | first name the first piece, last name the rest joined with spaces; phone and experience omitted iff empty |
| DoctorDashboard.ProfileAsWritten | Public/Dashboard/doctor-dashboard/doctor-dashboard.js:775-796 | accepted iff name and specialization are present and the name holds a space; first name, a space and last name give the full name back |
| DoctorDashboard.UpdateProfile | Public/Dashboard/doctor-dashboard/doctor-dashboard.js:775-796 | accepted iff the first and the last name each hold something other than whitespace; they join back into the full name |
| DoctorDashboard.UpdateProfileRefinesAsWritten | Public/Dashboard/doctor-dashboard/doctor-dashboard.js:775-796 | a name the corrected check accepts is sent as written |
| DoctorDashboard.TrailingSpaceNameSlipsThrough | Public/Dashboard/doctor-dashboard/doctor-dashboard.js:780-789 | `"Madonna "` is sent with an empty last name |
| DoctorDashboard.BlankLastNameSlipsThrough | Public/Dashboard/doctor-dashboard/doctor-dashboard.js:780-789 | `"John  "` is sent with a last name of one space, and refused by the corrected check |
| DoctorDashboard.SeparatorSplits | Public/Dashboard/doctor-dashboard/doctor-dashboard.js:780-781 | `split(' ')` yields two or more pieces iff the string holds a space |
| AdminDashboard.OnlyAdminsGetIn | Public/Dashboard/admin-dashboard/admin-dashboard.js:33-37 | a login under any other role is sent back without a request |
| AdminDashboard.RevenueText | Public/Dashboard/admin-dashboard/admin-dashboard.js:246 | a dollar sign before text that parses as the revenue, or 0 |
| AdminDashboard.StatsDisplay | Public/Dashboard/admin-dashboard/admin-dashboard.js:242-248 | each counter element in order, the counts showing their value or 0 and the revenue `$` and its value or 0 |
| AdminDashboard.ActivityIcon | Public/Dashboard/admin-dashboard/admin-dashboard.js:602-612 | the fixed icon for each of the six types, `fa-circle` for any other |
| AdminDashboard.ActivityIconsDistinct | Public/Dashboard/admin-dashboard/admin-dashboard.js:602-612 | distinct known types get distinct icons, never the fallback |
| AdminDashboard.AlertClass | Public/Dashboard/admin-dashboard/admin-dashboard.js:660-667 | the identity on `warning`, `danger`, `info`, and `info` otherwise |
| AdminDashboard.AlertIcon | Public/Dashboard/admin-dashboard/admin-dashboard.js:670-677 | the `info` icon iff the severity is neither `warning` nor `danger` |
| AdminDashboard.IconFollowsClass | Public/Dashboard/admin-dashboard/admin-dashboard.js:660-677 | an alert's icon is its class's icon, and distinct classes have distinct icons |
| AdminDashboard.ShowAlertClass | Public/Dashboard/admin-dashboard/admin-dashboard.js:849 | `error` becomes `danger`; every other type stays |
| AdminDashboard.ShowAlertClassIdempotent | Public/Dashboard/admin-dashboard/admin-dashboard.js:849 | mapping twice is mapping once |
| AdminDashboard.AddDoctorRequest | Public/Dashboard/admin-dashboard/admin-dashboard.js:865-898 | sent iff first name, last name, email and password are filled in; the body has no username or gender |
| AdminDashboard.AddDoctorIsRefused | Public/Dashboard/admin-dashboard/admin-dashboard.js:870-880 | this server answers every add-doctor request with 400 and adds nothing |
| AdminDashboard.ParseServices | Public/Dashboard/admin-dashboard/admin-dashboard.js:933 | none for an empty field, else one trimmed service per comma-separated piece |
| AdminDashboard.ServicesAreTrimmed | Public/Dashboard/admin-dashboard/admin-dashboard.js:933 | no service has whitespace at either end |
| AdminDashboard.ServicesRoundTrip | Public/Dashboard/admin-dashboard/admin-dashboard.js:933 | a comma-joined list of trimmed, comma-free services reads back as the list |

## Left out

- The Express configuration: helmet, CORS, rate limiting, compression, body parsing,
  logging, static files and the HTML page routes. It is off-the-shelf middleware.
- `GET /api/doctors` and `GET /api/admins`. They are plain queries with no rule of their own.
- The MongoDB connection. `populate` is modelled only as a lookup in the named collection.
- Concurrency: two registrations racing the unique index, interleaved `fetch` calls, and
  the TTL monitor running between a route's query and its write. Each route is atomic here.
- bcrypt's key derivation. A digest compares equal exactly on the 72-character prefix;
  collisions of the real hash are not modelled.
- `Date`: times are integer milliseconds; dates on the client are `toISOString` text
  passed in; timezones and `toLocaleDateString` are not modelled.
- Routes.SaveUser, Routes.SaveDoctor, Routes.SaveAdmin, and through them the
  `Register*` routes and their corrected versions: `dateOfBirth`, `availableDays`,
  `availableTimeSlots`, `consultationFee` and `permissions` are passed to `new User`,
  `new Doctor` and `new Admin`, but they are not fields of the modelled forms. The 201
  conditions assume these values pass their validators. In the source, any of the following
  makes `save` throw, and the route then answers 500 where the model says 201:
  a `dateOfBirth` that does not cast to a date, a negative or non-numeric `consultationFee`,
  an `availableDays` entry outside the weekday enum, or a `permissions` entry that does not
  cast to a boolean.
- The defaults `isActive`, `isVerified` and `permissions` are not modelled. The rules
  proved do not read them.
- The `details: error.message` field of a registration's 500 answer. Mongoose's messages
  are not modelled.
- JSON: `JSON.stringify(data.user)` is a parameter. A JSON `NaN` is `null` (`None`).
- Unicode: whitespace and case folding cover the ASCII and common whitespace characters
  only, and characters stand for the bytes bcrypt reads.
- Lookup-table inheritance: `dashboardPaths[role]`, `getActivityIcon`, `getAlertClass` and
  `getAlertIcon` index a plain object, so a key such as `constructor` finds an inherited
  property (`getActivityIcon('constructor')` returns Object's constructor function, not
  `fa-circle`). LoginClient.DashboardPath, AdminDashboard.ActivityIcon,
  AdminDashboard.AlertClass and AdminDashboard.AlertIcon treat each table as having only
  its own keys.
- The DOM: rendering of tables and alerts, timers, loading spinners, `updateFormForRole`'s
  texts, the home page, the registration page script and the forgot-password link.
- The dashboards' own API calls other than the session check: statistics, appointments,
  prescriptions, profile, departments and alerts. Their endpoints are not part of this
  server, and their answers are parameters of the rules modelled.
- DashboardCommon.CheckAuthentication: the server's answer is a boolean, because the
  doctor dashboard asks an endpoint that is not part of this model.
- ObjectIds.Parse: follows the cast of Mongoose 7 and later, which accepts only 24
  hexadecimal digits. Under Mongoose 5 and 6 any 12-character ASCII string also casts
  (read as 12 bytes). With those versions a 12-character `Session-Id` gets 401, and a
  logout with such an id answers "Logout successful"; the model does not capture this.
- Routes.Profile: the answer for a deleted account is the behaviour of Express 4, where the
  rejected promise is not handled and nothing is sent. Under Node 15 and later that unhandled
  rejection also ends the process, which the model does not capture. Under Express 5 the
  error handler would answer 500 instead.
- AdminDashboard.RevenueText: the revenue is a whole number. A fractional JSON number such as
  150.5, which the page shows as `$150.5`, is outside the model, since it has no floating point.
- AdminDashboard.StatsDisplay: the same limit on the revenue counter.
- JsString.ParseInt: the result is an unbounded integer. JavaScript numbers lose precision
  above 2^53, and `String(n)` switches to exponent form from 1e21, so the decimal round trip
  (JsString.ParseIntDecimalString) holds in JavaScript only for safe integers.
- Server.ClinicServer.RegisterUser, RegisterDoctor, RegisterAdmin: which document
  `findOne` returns among several matches is left open (`exists found`), because MongoDB's
  natural order is not specified.

## Findings

| source | as written | input that shows it | evidently intended | confidence | as-written member | corrected member |
|---|---|---|---|---|---|---|
| server.js:322-325 | the stored email, trimmed and lower-cased by the schema, is compared with the email as submitted | registering `"A@x.com"` with a new username when `"a@x.com"` exists | report "Email already registered" | not executed; holds if the `lowercase` setter applies to query filters (Mongoose 5 and later) | Accounts.UserClashAsWritten, Accounts.UserClashAsWrittenMisreports, Routes.RegisterUser | Accounts.UserClash, Routes.RegisterUserCorrected |
| server.js:364-374 | the same comparison with the raw email, username and licence number or employee id; when none is equal the route goes on to insert | `"A@x.com"` with a new username and licence number when `"a@x.com"` exists | report "Email already registered" instead of a 500 from the duplicate-key error | not executed; same condition | Accounts.StaffClashAsWritten, Accounts.StaffClashAsWrittenFallsThrough, Routes.DoctorEmailCaseGives500 | Accounts.StaffClash, Routes.RegisterDoctorCorrected, Routes.RegisterAdminCorrected |
| Public/Dashboard/doctor-dashboard/doctor-dashboard.js:780-789 | a name is accepted when `split(' ')` gives two pieces, which may be empty or blank | `"Madonna "` gives first name `Madonna` and last name `""`; `"John  "` gives last name `" "` | both a first and a last name, as the message asks | not executed | DoctorDashboard.ProfileAsWritten, DoctorDashboard.TrailingSpaceNameSlipsThrough, DoctorDashboard.BlankLastNameSlipsThrough | DoctorDashboard.UpdateProfile |
| Public/Dashboard/doctor-dashboard/doctor-dashboard.js:710 | `parseInt(duration) <= 0` is false for `NaN` | duration `"abc"` is sent with a `null` duration and validity | duration must be a positive number, as the message says | not executed | DoctorDashboard.PrescriptionAsWritten, DoctorDashboard.NonNumericDurationSlipsThrough | DoctorDashboard.Prescribe |
