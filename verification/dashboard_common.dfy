/**
 * What the doctor and admin dashboards do alike: the authentication check each runs on
 * load, and the way each shows a numeric counter that may be missing.
 */
module DashboardCommon {
  import opened Wrappers
  import opened JsString
  import opened BrowserStorage

  /** The keys a dashboard removes when the server refuses its stored session (`loginTime` is not among them). */
  const StaleKeys: set<string> := {"sessionId", "userRole", "userData"}

  /** How a dashboard's `checkAuthentication` ends. */
  datatype Entry =
    | RedirectedWithoutCall            // the guard failed; no request was made
    | RejectedByServer                 // the request failed or was refused; stale keys removed
    | Admitted(sessionId: string)      // the server accepted the session; the dashboard loads

  /**
   * `checkAuthentication` of the dashboard for `role`: the guard on the stored keys, then,
   * only when it passes, the profile request, whose success is `serverAccepts`. Returns
   * the store afterwards and how the check ended; every ending but `Admitted` goes to `/login`.
   */
  function CheckAuthentication(items: map<string, string>, role: string, serverAccepts: bool): (r: (map<string, string>, Entry))
    ensures r.1 == RedirectedWithoutCall <==> AuthGuard(items, role) == RedirectToLogin
    ensures r.1.Admitted? <==> AuthGuard(items, role).VerifyWithServer? && serverAccepts
    ensures r.1.Admitted? ==> r.1.sessionId == items["sessionId"] && items["userRole"] == role
    ensures r.1 == RejectedByServer ==> r.0 == items - StaleKeys
    ensures r.1 != RejectedByServer ==> r.0 == items
  {
    match AuthGuard(items, role)
    case RedirectToLogin => (items, RedirectedWithoutCall)
    case VerifyWithServer(sessionId) =>
      if serverAccepts then (items, Admitted(sessionId)) else (items - StaleKeys, RejectedByServer)
  }

  /**
   * A refused session does not come back: after the cleanup the next check of any dashboard
   * redirects without a request, and the login page has no session to resume.
   */
  lemma RejectionIsFinal(items: map<string, string>, role: string, role2: string, accepts: bool)
    requires CheckAuthentication(items, role, false).1 == RejectedByServer
    ensures CheckAuthentication(CheckAuthentication(items, role, false).0, role2, accepts).1 == RedirectedWithoutCall
    ensures !Truthy(Lookup(CheckAuthentication(items, role, false).0, "sessionId"))
  {
  }

  /** `String(v || 0)`: the text a stat counter shows, for a count that may be missing. */
  function CounterText(v: Option<int>): (t: string)
    ensures |t| >= 1 && ParseInt(t) == Some(v.GetOr(0))
    ensures (v.None? || v.value == 0) <==> t == "0"
  {
    ParseIntDecimalString(v.GetOr(0));
    assert DecimalString(0) == "0";
    var t := DecimalString(v.GetOr(0));
    assert t == "0" ==> ParseInt(t) == Some(0);
    t
  }
}
