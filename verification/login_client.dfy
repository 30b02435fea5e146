/**
 * The login page's script: form validation, the role-to-dashboard table, and what the page
 * writes to and removes from `localStorage` when a login answers, when a remembered session
 * is checked, and on logout. The server's answers arrive as parameters; alerts are returned
 * instead of drawn.
 */
module LoginClient {
  import opened Wrappers
  import opened JsString
  import opened ObjectIds
  import opened Accounts
  import opened Sessions
  import opened Http
  import opened BrowserStorage
  import Routes

  // ---------------------------------------------------------------- validateForm

  const EmailMissing: string := "Please enter your email address"
  const EmailInvalid: string := "Please enter a valid email address"
  const PasswordMissing: string := "Please enter your password"
  const PasswordShort: string := "Password must be at least 6 characters long"

  /**
   * `validateForm`: the first failing check's message, or `None` when the form may be sent.
   * The email is trimmed before it is checked; the password is not.
   */
  function ValidateForm(email: string, password: string): (r: Option<string>)
    ensures r.None? <==> Trim(email) != "" && '@' in Trim(email) && '.' in Trim(email) && |password| >= 6
    ensures r == Some(EmailMissing) <==> Trim(email) == ""
    ensures r == Some(EmailInvalid) <==> Trim(email) != "" && !('@' in Trim(email) && '.' in Trim(email))
    ensures r == Some(PasswordMissing) <==>
              Trim(email) != "" && '@' in Trim(email) && '.' in Trim(email) && password == ""
    ensures r == Some(PasswordShort) <==>
              Trim(email) != "" && '@' in Trim(email) && '.' in Trim(email) && 0 < |password| < 6
  {
    var e := Trim(email);
    if e == "" then Some(EmailMissing)
    else if !('@' in e) || !('.' in e) then Some(EmailInvalid)
    else if password == "" then Some(PasswordMissing)
    else if |password| < 6 then Some(PasswordShort)
    else None
  }

  /** The request body the submit handler posts: the trimmed email, the password as typed, the selected role. */
  function SubmitRequest(email: string, password: string, selectedRole: string): (r: Result<Routes.LoginForm, string>)
    ensures r.Success? <==> ValidateForm(email, password).None?
    ensures r.Success? ==> r.value == Routes.LoginForm(Trim(email), password, selectedRole)
    ensures r.Failure? ==> Some(r.error) == ValidateForm(email, password)
  {
    match ValidateForm(email, password)
    case Some(message) => Failure(message)
    case None => Success(Routes.LoginForm(Trim(email), password, selectedRole))
  }

  /**
   * A form the page lets through is never answered "Email and password are required": the
   * server's own presence check is implied by the page's.
   */
  lemma SubmittedFormIsComplete(email: string, password: string, selectedRole: string,
                                accounts: map<ObjectId, Account>, found: Option<ObjectId>,
                                store: Store, newId: ObjectId, ip: string, ua: string, now: int)
    requires SubmitRequest(email, password, selectedRole).Success?
    requires IsFindOneAnswer(accounts, Routes.LoginQuery(SubmitRequest(email, password, selectedRole).value), found)
    ensures Routes.Login(accounts, SubmitRequest(email, password, selectedRole).value, found, store, newId, ip, ua, now).1
            != Routes.CredentialsRequired
  {
    var f := SubmitRequest(email, password, selectedRole).value;
    assert f.email != "" && f.password != "";
  }

  // ---------------------------------------------------------------- redirectToDashboard

  /** `redirectToDashboard`: the three known roles have a dashboard; anything else goes to `/`. */
  function DashboardPath(role: string): (path: string)
    ensures path == "/" <==> role !in {"admin", "doctor", "patient"}
    ensures path != "/" ==> path == "/" + role + "-dashboard"
  {
    if role in {"admin", "doctor", "patient"} then
      var path := "/" + role + "-dashboard";
      assert |path| > 1;
      path
    else "/"
  }

  /** Every role the server hands out has its own dashboard. */
  lemma EveryRoleHasDashboard(r: Role)
    ensures DashboardPath(RoleName(r)) == "/" + RoleName(r) + "-dashboard"
  {
  }

  // ---------------------------------------------------------------- localStorage effects

  /** The keys `clearAuthData` removes, in its order. */
  const AuthKeys: seq<string> := ["sessionId", "userRole", "userData", "loginTime"]

  /** The keys the remember-me box controls. */
  const RememberKeys: set<string> := {"rememberEmail", "rememberRole"}

  /** The store after `clearAuthData`: the four authentication keys are gone, every other key is as it was. */
  function WithoutAuth(items: map<string, string>): (r: map<string, string>)
    ensures forall k :: k in r <==> k in items && k !in AuthKeys
    ensures forall k :: k in r ==> r[k] == items[k]
  {
    map k | k in items && k !in AuthKeys :: items[k]
  }

  /**
   * The store after a successful login answer: the session id, the role, the user's JSON
   * text and the login time are written; the remembered email and role are written when
   * the box is checked and removed when it is not.
   */
  function AfterLogin(items: map<string, string>, sessionId: string, role: string, userJson: string,
                      nowIso: string, remember: bool, email: string, selectedRole: string): (r: map<string, string>)
    ensures "sessionId" in r && r["sessionId"] == sessionId && "userRole" in r && r["userRole"] == role
    ensures "userData" in r && r["userData"] == userJson && "loginTime" in r && r["loginTime"] == nowIso
    ensures remember ==> "rememberEmail" in r && r["rememberEmail"] == email
                         && "rememberRole" in r && r["rememberRole"] == selectedRole
    ensures !remember ==> "rememberEmail" !in r && "rememberRole" !in r
    ensures forall k :: k !in AuthKeys && k !in RememberKeys ==>
              (k in r <==> k in items) && (k in items ==> r[k] == items[k])
  {
    var a := items["sessionId" := sessionId]["userRole" := role]["userData" := userJson]["loginTime" := nowIso];
    if remember then a["rememberEmail" := email]["rememberRole" := selectedRole]
    else a - {"rememberEmail"} - {"rememberRole"}
  }

  /** After a login, the dashboard of the returned role lets the page in with the returned session id. */
  lemma LoginOpensDashboard(items: map<string, string>, sessionId: string, role: string, userJson: string,
                            nowIso: string, remember: bool, email: string, selectedRole: string)
    requires sessionId != ""
    ensures AuthGuard(AfterLogin(items, sessionId, role, userJson, nowIso, remember, email, selectedRole), role)
            == VerifyWithServer(sessionId)
  {
  }

  /** After `clearAuthData` every dashboard sends the page back to login. */
  lemma ClearedStoreOpensNoDashboard(items: map<string, string>, role: string)
    ensures AuthGuard(WithoutAuth(items), role) == RedirectToLogin
  {
    assert "sessionId" !in WithoutAuth(items) by {
      assert AuthKeys[0] == "sessionId";
    }
  }

  /** What the page shows on load from the store: the email field, the remember box and the selected role. */
  datatype Prefill = Prefill(email: string, remember: bool, role: string)

  /** The remembered-credentials part of the `DOMContentLoaded` handler, from the page's initial field values. */
  function Restore(items: map<string, string>, initial: Prefill): (p: Prefill)
    ensures Truthy(Lookup(items, "rememberEmail")) ==> p.email == items["rememberEmail"] && p.remember
    ensures !Truthy(Lookup(items, "rememberEmail")) ==> p.email == initial.email && p.remember == initial.remember
    ensures p.role == if Truthy(Lookup(items, "rememberRole")) then items["rememberRole"] else initial.role
  {
    var e := Lookup(items, "rememberEmail");
    var r := Lookup(items, "rememberRole");
    Prefill(if Truthy(e) then e.value else initial.email,
            if Truthy(e) then true else initial.remember,
            if Truthy(r) then r.value else initial.role)
  }

  /** A fresh login page: empty email, box unchecked, the patient role selected. */
  const FreshPage: Prefill := Prefill("", false, "patient")

  /**
   * Remember-me completes a round trip: after a login with the box checked, the next visit
   * shows the same email and role with the box checked; after one with the box unchecked,
   * the next visit shows a fresh page.
   */
  lemma RememberRoundTrip(items: map<string, string>, sessionId: string, role: string, userJson: string,
                          nowIso: string, remember: bool, email: string, selectedRole: string)
    requires email != "" && selectedRole != ""
    ensures remember ==>
              Restore(AfterLogin(items, sessionId, role, userJson, nowIso, remember, email, selectedRole), FreshPage)
              == Prefill(email, true, selectedRole)
    ensures !remember ==>
              Restore(AfterLogin(items, sessionId, role, userJson, nowIso, remember, email, selectedRole), FreshPage)
              == FreshPage
  {
  }

  /** Logging out keeps what remember-me stored. */
  lemma LogoutKeepsRemembered(items: map<string, string>, initial: Prefill)
    ensures Restore(WithoutAuth(items), initial) == Restore(items, initial)
  {
    assert forall k :: k in RememberKeys ==> k !in AuthKeys;
  }

  /**
   * The whole login, client and server together: the page stores what a successful
   * `POST /api/login` returned, the dashboard of the returned role lets it in, and the
   * profile request the dashboard then makes is answered with the logged-in account for
   * as long as the session lasts.
   */
  lemma LoginReachesDashboard(users: map<ObjectId, Account>, doctors: map<ObjectId, Account>,
                              admins: map<ObjectId, Account>, f: Routes.LoginForm, found: Option<ObjectId>,
                              store: Store, newId: ObjectId, ip: string, ua: string, now: int, t: int,
                              items: map<string, string>, userJson: string, nowIso: string, remember: bool)
    requires IsFindOneAnswer(Routes.Owners(Routes.CollectionFor(f.userType), users, doctors, admins), Routes.LoginQuery(f), found)
    requires Routes.Login(Routes.Owners(Routes.CollectionFor(f.userType), users, doctors, admins),
                          f, found, store, newId, ip, ua, now).1.status == 200
    requires now <= t < now + DayMs
    ensures var r := Routes.Login(Routes.Owners(Routes.CollectionFor(f.userType), users, doctors, admins),
                                  f, found, store, newId, ip, ua, now);
            var user := r.1.body.user;
            var g := AuthGuard(AfterLogin(items, r.1.body.sessionId, user.role, userJson, nowIso,
                                          remember, f.email, f.userType), user.role);
            g.VerifyWithServer?
            && Routes.Profile(users, doctors, admins, r.0, Some(g.sessionId), t) == Reply(200, ProfileBody(user))
  {
    var accounts := Routes.Owners(Routes.CollectionFor(f.userType), users, doctors, admins);
    var r := Routes.Login(accounts, f, found, store, newId, ip, ua, now);
    var user := r.1.body.user;
    assert r.1.body.sessionId == Format(newId);
    assert Format(newId) != "" by {
      assert |Format(newId)| == 24;
    }
    LoginOpensDashboard(items, Format(newId), user.role, userJson, nowIso, remember, f.email, f.userType);
    Routes.LoginThenProfile(users, doctors, admins, f, found, store, newId, ip, ua, now, t);
  }

  // ---------------------------------------------------------------- the page

  /** What the page tells the user. */
  datatype Alert = Alert(kind: string, message: string)

  /** The JSON of a `POST /api/login` answer; a missing property is `None`. */
  datatype LoginData = LoginData(sessionId: Option<string>, user: Option<Summary>,
                                 error: Option<string>, message: Option<string>)

  /** How the `fetch` of the login request ended: an answer with its `ok` flag, or a thrown error. */
  datatype LoginResponse = Answered(ok: bool, data: LoginData) | NetworkError

  /** How the `fetch` of `/api/profile` ended. */
  datatype ProfileResponse = ProfileAnswered(ok: bool, user: Option<Summary>) | ProfileUnreachable

  const NetworkAlert: Alert := Alert("error", "Network error. Please check your connection and try again.")
  const LoginFallback: string := "Login failed. Please try again."

  /** `data.error || data.message || 'Login failed. Please try again.'` */
  function FailureMessage(data: LoginData): (m: string)
    ensures m != ""
    ensures Truthy(data.error) ==> m == data.error.value
    ensures !Truthy(data.error) && Truthy(data.message) ==> m == data.message.value
    ensures !Truthy(data.error) && !Truthy(data.message) ==> m == LoginFallback
  {
    if Truthy(data.error) then data.error.value
    else if Truthy(data.message) then data.message.value
    else LoginFallback
  }

  /** The greeting: the first name, or the email when the first name is empty. */
  function Greeting(user: Summary): (g: string)
    ensures user.firstName != "" ==> g == user.firstName
    ensures user.firstName == "" ==> g == user.email
  {
    if user.firstName != "" then user.firstName else user.email
  }

  /** The login page: its form fields, the module-level `selectedRole`, and where it navigates. */
  class LoginPage {
    var selectedRole: string
    var emailField: string
    var passwordField: string
    var rememberMe: bool
    /** The address the page has navigated, or is about to navigate, to. */
    var navigation: Option<string>
    const storage: LocalStorage

    constructor(storage: LocalStorage)
      ensures this.storage == storage
      ensures selectedRole == "patient" && emailField == "" && passwordField == "" && !rememberMe
      ensures navigation == None
    {
      this.storage := storage;
      selectedRole := "patient";
      emailField, passwordField := "", "";
      rememberMe := false;
      navigation := None;
    }

    /** A click on a role option selects its `data-role`. */
    method SelectRole(role: string)
      modifies this
      ensures selectedRole == role
      ensures emailField == old(emailField) && passwordField == old(passwordField)
      ensures rememberMe == old(rememberMe) && navigation == old(navigation)
    {
      selectedRole := role;
    }

    /**
     * The `DOMContentLoaded` handler: restore the remembered email and role, then report the
     * stored session id and role to verify when both are truthy.
     */
    method Init() returns (resume: Option<(string, string)>)
      modifies this
      ensures Prefill(emailField, rememberMe, selectedRole)
              == Restore(storage.items, Prefill(old(emailField), old(rememberMe), old(selectedRole)))
      ensures resume.Some? <==>
                Truthy(Lookup(storage.items, "sessionId")) && Truthy(Lookup(storage.items, "userRole"))
      ensures resume.Some? ==> resume.value == (storage.items["sessionId"], storage.items["userRole"])
      ensures passwordField == old(passwordField) && navigation == old(navigation)
    {
      var rememberedEmail := storage.GetItem("rememberEmail");
      var rememberedRole := storage.GetItem("rememberRole");
      if Truthy(rememberedEmail) {
        emailField := rememberedEmail.value;
        rememberMe := true;
      }
      if Truthy(rememberedRole) {
        selectedRole := rememberedRole.value;
      }
      var sessionId := storage.GetItem("sessionId");
      var userRole := storage.GetItem("userRole");
      if Truthy(sessionId) && Truthy(userRole) {
        resume := Some((sessionId.value, userRole.value));
      } else {
        resume := None;
      }
    }

    /** `clearAuthData`: remove the four authentication keys one after the other. */
    method ClearAuthData()
      modifies storage
      ensures storage.items == WithoutAuth(old(storage.items))
    {
      var i := 0;
      while i < |AuthKeys|
        invariant 0 <= i <= |AuthKeys|
        invariant storage.items == map k | k in old(storage.items) && k !in AuthKeys[..i] :: old(storage.items)[k]
      {
        storage.RemoveItem(AuthKeys[i]);
        assert AuthKeys[..i + 1] == AuthKeys[..i] + [AuthKeys[i]];
        i := i + 1;
      }
      assert AuthKeys[..i] == AuthKeys;
    }

    /**
     * The submit handler after validation passed and the request was sent: store the login
     * when the answer is ok and carries a session id, otherwise report the failure and clear
     * the password field.
     */
    method HandleLoginResponse(response: LoginResponse, userJson: string, nowIso: string) returns (alert: Alert)
      modifies this, storage
      ensures response.NetworkError? ==>
                alert == NetworkAlert && storage.items == old(storage.items) && passwordField == old(passwordField)
      ensures response.Answered? && !(response.ok && Truthy(response.data.sessionId)) ==>
                alert == Alert("error", FailureMessage(response.data))
                && storage.items == old(storage.items) && passwordField == ""
      ensures response.Answered? && response.ok && Truthy(response.data.sessionId) && response.data.user.None? ==>
                alert == NetworkAlert && passwordField == old(passwordField)
                && storage.items == old(storage.items)["sessionId" := response.data.sessionId.value]
      ensures response.Answered? && response.ok && Truthy(response.data.sessionId) && response.data.user.Some? ==>
                var user := response.data.user.value;
                alert == Alert("success", "Welcome back, " + Greeting(user) + "! Redirecting...")
                && storage.items == AfterLogin(old(storage.items), response.data.sessionId.value, user.role, userJson,
                                               nowIso, old(rememberMe), Trim(old(emailField)), old(selectedRole))
                && navigation == Some(DashboardPath(user.role)) && passwordField == old(passwordField)
      ensures !(response.Answered? && response.ok && Truthy(response.data.sessionId) && response.data.user.Some?) ==>
                navigation == old(navigation)
      ensures selectedRole == old(selectedRole) && emailField == old(emailField) && rememberMe == old(rememberMe)
    {
      match response
      case NetworkError =>
        alert := NetworkAlert;
      case Answered(ok, data) =>
        if ok && Truthy(data.sessionId) {
          storage.SetItem("sessionId", data.sessionId.value);
          if data.user.None? {
            // reading `data.user.role` throws; the catch reports a network error
            alert := NetworkAlert;
          } else {
            var user := data.user.value;
            storage.SetItem("userRole", user.role);
            storage.SetItem("userData", userJson);
            storage.SetItem("loginTime", nowIso);
            alert := Alert("success", "Welcome back, " + Greeting(user) + "! Redirecting...");
            if rememberMe {
              storage.SetItem("rememberEmail", Trim(emailField));
              storage.SetItem("rememberRole", selectedRole);
            } else {
              storage.RemoveItem("rememberEmail");
              storage.RemoveItem("rememberRole");
            }
            navigation := Some(DashboardPath(user.role));
          }
        } else {
          alert := Alert("error", FailureMessage(data));
          passwordField := "";
        }
    }

    /**
     * `verifySessionAndRedirect`: a stored session the server still accepts sends the page
     * to the stored role's dashboard; any other outcome clears the authentication keys.
     */
    method VerifySessionAndRedirect(userRole: string, response: ProfileResponse) returns (alert: Option<Alert>)
      modifies this, storage
      ensures response.ProfileAnswered? && response.ok && response.user.Some? ==>
                storage.items == old(storage.items) && navigation == Some(DashboardPath(userRole))
                && alert == Some(Alert("success", "Welcome back, " + Greeting(response.user.value) + "!"))
      ensures !(response.ProfileAnswered? && response.ok && response.user.Some?) ==>
                storage.items == WithoutAuth(old(storage.items)) && navigation == old(navigation) && alert == None
      ensures selectedRole == old(selectedRole) && emailField == old(emailField)
      ensures passwordField == old(passwordField) && rememberMe == old(rememberMe)
    {
      if response.ProfileAnswered? && response.ok && response.user.Some? {
        alert := Some(Alert("success", "Welcome back, " + Greeting(response.user.value) + "!"));
        navigation := Some(DashboardPath(userRole));
      } else {
        ClearAuthData();
        alert := None;
      }
    }

    /**
     * `logout`: the stored session id, when truthy, is posted to `/api/logout` (returned
     * here); whatever that request does, the authentication keys are cleared and the page
     * goes to `/login`.
     */
    method Logout() returns (request: Option<string>)
      modifies this, storage
      ensures request.Some? <==> Truthy(Lookup(old(storage.items), "sessionId"))
      ensures request.Some? ==> request.value == old(storage.items)["sessionId"]
      ensures storage.items == WithoutAuth(old(storage.items))
      ensures navigation == Some("/login")
      ensures selectedRole == old(selectedRole) && emailField == old(emailField)
      ensures passwordField == old(passwordField) && rememberMe == old(rememberMe)
    {
      var sessionId := storage.GetItem("sessionId");
      request := if Truthy(sessionId) then Some(sessionId.value) else None;
      ClearAuthData();
      navigation := Some("/login");
    }
  }
}
