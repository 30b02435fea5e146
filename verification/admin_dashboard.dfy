/**
 * The admin dashboard's rules: who may open it, the stat counters, the icon and colour
 * tables for activities and system alerts, the alert type mapping, the add-doctor check
 * and the services list of a new department.
 */
module AdminDashboard {
  import opened Wrappers
  import opened JsString
  import opened ObjectIds
  import opened Accounts
  import opened Http
  import opened BrowserStorage
  import opened DashboardCommon
  import LoginClient
  import Routes

  // ---------------------------------------------------------------- checkAuthentication

  /** The role this dashboard admits. */
  const DashboardRole: string := "admin"

  /** A login under any other role never opens the admin dashboard; it is sent back without a request. */
  lemma OnlyAdminsGetIn(items: map<string, string>, sessionId: string, role: string, userJson: string,
                        nowIso: string, remember: bool, email: string, selectedRole: string, accepts: bool)
    requires role != DashboardRole
    ensures CheckAuthentication(LoginClient.AfterLogin(items, sessionId, role, userJson, nowIso, remember, email, selectedRole),
                                DashboardRole, accepts).1 == RedirectedWithoutCall
  {
  }

  // ---------------------------------------------------------------- updateStatsDisplay

  /** The counts the stats request returns; a missing one is `None`. Revenue is a whole number here. */
  datatype Stats = Stats(totalDoctors: Option<int>, totalPatients: Option<int>,
                         todayAppointments: Option<int>, todayRevenue: Option<int>)

  const StatIds: seq<string> := ["stat-doctors", "stat-patients", "stat-appointments", "stat-revenue"]

  /** `` `$${v || 0}` ``: a dollar sign before the revenue, or before 0 when it is missing. */
  function RevenueText(v: Option<int>): (t: string)
    ensures |t| >= 2 && t[0] == '$' && ParseInt(t[1..]) == Some(v.GetOr(0))
  {
    var c := CounterText(v);
    assert ("$" + c)[1..] == c;
    "$" + c
  }

  /**
   * `updateStatsDisplay`: each counter element with its text, in the source's order; the
   * three counts show their number or 0, the revenue a dollar sign before its number or 0.
   */
  function StatsDisplay(s: Stats): (r: seq<(string, string)>)
    ensures |r| == |StatIds|
    ensures r[0].0 == StatIds[0] && r[1].0 == StatIds[1] && r[2].0 == StatIds[2] && r[3].0 == StatIds[3]
    ensures ParseInt(r[0].1) == Some(s.totalDoctors.GetOr(0))
    ensures ParseInt(r[1].1) == Some(s.totalPatients.GetOr(0))
    ensures ParseInt(r[2].1) == Some(s.todayAppointments.GetOr(0))
    ensures |r[3].1| >= 2 && r[3].1[0] == '$' && ParseInt(r[3].1[1..]) == Some(s.todayRevenue.GetOr(0))
  {
    var doctors, patients, appointments := CounterText(s.totalDoctors), CounterText(s.totalPatients),
                                           CounterText(s.todayAppointments);
    var revenue := RevenueText(s.todayRevenue);
    [(StatIds[0], doctors), (StatIds[1], patients), (StatIds[2], appointments), (StatIds[3], revenue)]
  }

  // ---------------------------------------------------------------- lookup tables

  const ActivityTypes: seq<string> := ["appointment", "patient", "doctor", "prescription", "payment", "system"]
  const ActivityIcons: seq<string> := ["fa-calendar-check", "fa-user-plus", "fa-user-md", "fa-prescription",
                                       "fa-money-bill-wave", "fa-cog"]

  /** `getActivityIcon`: the icon of each of the six known activity types, `fa-circle` for any other. */
  function ActivityIcon(kind: string): (icon: string)
    ensures forall i :: 0 <= i < |ActivityTypes| && kind == ActivityTypes[i] ==> icon == ActivityIcons[i]
    ensures kind !in ActivityTypes ==> icon == "fa-circle"
  {
    if kind == "appointment" then "fa-calendar-check"
    else if kind == "patient" then "fa-user-plus"
    else if kind == "doctor" then "fa-user-md"
    else if kind == "prescription" then "fa-prescription"
    else if kind == "payment" then "fa-money-bill-wave"
    else if kind == "system" then "fa-cog"
    else "fa-circle"
  }

  /** Distinct known types get distinct icons, and none of them gets the fallback. */
  lemma ActivityIconsDistinct(k1: string, k2: string)
    requires k1 in ActivityTypes && k2 in ActivityTypes && k1 != k2
    ensures ActivityIcon(k1) != ActivityIcon(k2) && ActivityIcon(k1) != "fa-circle"
  {
  }

  const Severities: set<string> := {"warning", "danger", "info"}

  /** `getAlertClass`: a known severity is its own class; any other value is shown as `info`. */
  function AlertClass(severity: string): (c: string)
    ensures c in Severities
    ensures severity in Severities ==> c == severity
    ensures severity !in Severities ==> c == "info"
  {
    if severity == "warning" then "warning"
    else if severity == "danger" then "danger"
    else if severity == "info" then "info"
    else "info"
  }

  /** `getAlertIcon`: one icon per known severity, and the `info` icon for any other value. */
  function AlertIcon(severity: string): (icon: string)
    ensures icon in {"fa-exclamation-triangle", "fa-exclamation-circle", "fa-info-circle"}
    ensures icon == "fa-info-circle" <==> severity !in {"warning", "danger"}
  {
    if severity == "warning" then "fa-exclamation-triangle"
    else if severity == "danger" then "fa-exclamation-circle"
    else "fa-info-circle"
  }

  /**
   * The icon and the colour of an alert always agree: the icon of any severity is the icon
   * of the class it is shown with, and each class has its own icon.
   */
  lemma IconFollowsClass(severity: string, other: string)
    ensures AlertIcon(severity) == AlertIcon(AlertClass(severity))
    ensures AlertClass(severity) != AlertClass(other) ==> AlertIcon(severity) != AlertIcon(other)
  {
  }

  /** The type `showAlert` colours its box with: `error` becomes `danger`, every other type stays. */
  function ShowAlertClass(kind: string): (c: string)
    ensures c != "error"
    ensures kind != "error" ==> c == kind
    ensures kind == "error" ==> c == "danger"
  {
    if kind == "error" then "danger" else kind
  }

  /** Mapping twice is mapping once. */
  lemma ShowAlertClassIdempotent(kind: string)
    ensures ShowAlertClass(ShowAlertClass(kind)) == ShowAlertClass(kind)
  {
  }

  // ---------------------------------------------------------------- handleAddDoctor

  /** The add-doctor form's fields (the consultation fee is not modelled). */
  datatype AddDoctorForm = AddDoctorForm(firstName: string, lastName: string, email: string, password: string,
                                         phone: string, specialization: string, licenseNumber: string,
                                         qualification: string, experience: string, department: string,
                                         biography: string)

  const FieldsMissing: string := "Please fill in all required fields."

  /**
   * `handleAddDoctor`: nothing is sent unless first name, last name, email and password are
   * filled in. The body it posts to `/api/register/doctor` is given as the server reads it:
   * it carries no username and no gender, and the experience is the parsed number.
   */
  function AddDoctorRequest(f: AddDoctorForm): (r: Result<DoctorForm, string>)
    ensures r.Success? <==> f.firstName != "" && f.lastName != "" && f.email != "" && f.password != ""
    ensures r.Failure? ==> r.error == FieldsMissing
    ensures r.Success? ==>
              var d := r.value;
              d.username == "" && d.gender == "" && d.firstName == f.firstName && d.lastName == f.lastName
              && d.email == f.email && d.password == f.password && d.licenseNumber == f.licenseNumber
              && d.experience == ParseInt(f.experience)
  {
    if f.firstName == "" || f.lastName == "" || f.email == "" || f.password == "" then Failure(FieldsMissing)
    else
      Success(DoctorForm("", f.email, f.password, f.firstName, f.lastName, f.phone, "", f.specialization,
                         f.licenseNumber, f.qualification, ParseInt(f.experience), f.department, f.biography))
  }

  /**
   * Against this server the add-doctor form never adds a doctor: the body has no username,
   * so the route answers that required fields are missing and the collection is unchanged.
   */
  lemma AddDoctorIsRefused(f: AddDoctorForm, doctors: map<ObjectId, Account>, found: Option<ObjectId>,
                           newId: ObjectId, salt: string)
    requires AddDoctorRequest(f).Success?
    requires IsFindOneAnswer(doctors, DoctorQuery(AddDoctorRequest(f).value), found)
    ensures Routes.RegisterDoctor(doctors, AddDoctorRequest(f).value, found, newId, salt) == (doctors, Routes.RequiredFields)
  {
  }

  // ---------------------------------------------------------------- handleAddDepartment

  /** The `services` field of a new department: none when empty, else the comma-separated pieces, each trimmed. */
  function ParseServices(field: string): (r: seq<string>)
    ensures field == "" ==> r == []
    ensures field != "" ==> |r| == Count(field, ',') + 1
    ensures field != "" ==> forall i :: 0 <= i < |r| ==> r[i] == Trim(Split(field, ',')[i])
  {
    if field == "" then []
    else
      var parts := Split(field, ',');
      seq(|parts|, i requires 0 <= i < |parts| => Trim(parts[i]))
  }

  /** No parsed service has whitespace at either end. */
  lemma ServicesAreTrimmed(field: string)
    ensures forall i :: 0 <= i < |ParseServices(field)| ==> Trim(ParseServices(field)[i]) == ParseServices(field)[i]
  {
    if field != "" {
      forall i | 0 <= i < |ParseServices(field)|
        ensures Trim(ParseServices(field)[i]) == ParseServices(field)[i]
      {
        TrimIdempotent(Split(field, ',')[i]);
      }
    }
  }

  /**
   * Writing a list of services as the form expects, separated by commas, reads back as the
   * same list, provided no service holds a comma or surrounding whitespace and the text is
   * not empty.
   */
  lemma ServicesRoundTrip(services: seq<string>)
    requires |services| >= 1 && Join(services, ',') != ""
    requires forall i :: 0 <= i < |services| ==> ',' !in services[i] && Trim(services[i]) == services[i]
    ensures ParseServices(Join(services, ',')) == services
  {
    SplitJoin(services, ',');
  }
}
