/**
 * The browser's `localStorage`, shared by the login page and the dashboards: a string-keyed
 * map of strings, and the guard each dashboard runs on it before talking to the server.
 */
module BrowserStorage {
  import opened Wrappers

  /** The origin's key/value store. */
  class LocalStorage {
    var items: map<string, string>

    constructor(initial: map<string, string>)
      ensures items == initial
    {
      items := initial;
    }

    /** `getItem`: the stored string, or `null` (here `None`) for a key never set or removed. */
    method GetItem(key: string) returns (v: Option<string>)
      ensures v == Lookup(items, key)
      ensures v.Some? <==> key in items
    {
      v := if key in items then Some(items[key]) else None;
    }

    /** `setItem`: the key now holds the value; every other key is untouched. */
    method SetItem(key: string, value: string)
      modifies this
      ensures items == old(items)[key := value]
    {
      items := items[key := value];
    }

    /** `removeItem`: the key is gone (if it was there); every other key is untouched. */
    method RemoveItem(key: string)
      modifies this
      ensures items == old(items) - {key}
    {
      items := items - {key};
    }
  }

  /** What `getItem` answers for a stored map. */
  function Lookup(items: map<string, string>, key: string): (v: Option<string>)
    ensures v.Some? <==> key in items
    ensures v.Some? ==> v.value == items[key]
  {
    if key in items then Some(items[key]) else None
  }

  /** JavaScript truthiness of a `getItem` answer: `null` and the empty string are falsy. */
  predicate Truthy(v: Option<string>) {
    v.Some? && v.value != ""
  }

  /** What a dashboard's `checkAuthentication` decides before any request. */
  datatype GuardOutcome = RedirectToLogin | VerifyWithServer(sessionId: string)

  /**
   * The guard at the top of each dashboard's `checkAuthentication`: without a truthy stored
   * `sessionId`, or with a stored `userRole` other than the dashboard's own role, the page
   * goes back to the login page without calling the server.
   */
  function AuthGuard(items: map<string, string>, role: string): (g: GuardOutcome)
    ensures g.VerifyWithServer? <==>
              "sessionId" in items && items["sessionId"] != "" && "userRole" in items && items["userRole"] == role
    ensures g.VerifyWithServer? ==> g.sessionId == items["sessionId"]
  {
    if !Truthy(Lookup(items, "sessionId")) || Lookup(items, "userRole") != Some(role) then RedirectToLogin
    else VerifyWithServer(items["sessionId"])
  }

  /** One stored role opens at most one dashboard. */
  lemma GuardOpensOneDashboard(items: map<string, string>, role1: string, role2: string)
    requires AuthGuard(items, role1).VerifyWithServer? && AuthGuard(items, role2).VerifyWithServer?
    ensures role1 == role2
  {
  }
}
