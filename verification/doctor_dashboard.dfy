/**
 * The doctor dashboard's rules: who may open it, the stat counters, today's schedule, the
 * actions an appointment's status allows, the keyboard shortcuts, and the checks and
 * payloads of the prescription and profile forms. Dates are the ISO text
 * `toISOString()` produces; the server's answers are left to the callers.
 */
module DoctorDashboard {
  import opened Wrappers
  import opened JsString
  import opened BrowserStorage
  import opened DashboardCommon
  import LoginClient

  // ---------------------------------------------------------------- checkAuthentication

  /** The role this dashboard admits. */
  const DashboardRole: string := "doctor"

  /** A login under any other role never opens the doctor dashboard; it is sent back without a request. */
  lemma OnlyDoctorsGetIn(items: map<string, string>, sessionId: string, role: string, userJson: string,
                         nowIso: string, remember: bool, email: string, selectedRole: string, accepts: bool)
    requires role != DashboardRole
    ensures CheckAuthentication(LoginClient.AfterLogin(items, sessionId, role, userJson, nowIso, remember, email, selectedRole),
                                DashboardRole, accepts).1 == RedirectedWithoutCall
  {
  }

  // ---------------------------------------------------------------- updateStatsDisplay

  /** The counts the stats request returns; a missing one is `None`. */
  datatype Stats = Stats(todayAppointments: Option<int>, totalPatients: Option<int>,
                         todayPrescriptions: Option<int>, pendingAppointments: Option<int>)

  const StatIds: seq<string> := ["stat-appointments", "stat-patients", "stat-prescriptions", "stat-pending"]

  function StatValues(s: Stats): seq<Option<int>> {
    [s.todayAppointments, s.totalPatients, s.todayPrescriptions, s.pendingAppointments]
  }

  /** `updateStatsDisplay`: each counter element with its text, in the source's order. */
  function StatsDisplay(s: Stats): (r: seq<(string, string)>)
    ensures |r| == |StatIds|
    ensures forall i :: 0 <= i < |r| ==> r[i].0 == StatIds[i]
    ensures forall i :: 0 <= i < |r| ==> ParseInt(r[i].1) == Some(StatValues(s)[i].GetOr(0))
  {
    var v := StatValues(s);
    seq(|StatIds|, i requires 0 <= i < |StatIds| => (StatIds[i], CounterText(v[i])))
  }

  // ---------------------------------------------------------------- today's schedule

  /** An appointment as the dashboard reads it; `status` is `None` when the record has none. */
  datatype Appointment = Appointment(id: string, appointmentDate: string, status: Option<string>)

  /** The date part of an ISO timestamp: what precedes the first `T`. */
  function DatePart(iso: string): (d: string)
    ensures 'T' !in d
    ensures d <= iso && (|d| < |iso| ==> iso[|d|] == 'T')
  {
    JoinSplit(iso, 'T');
    if |Split(iso, 'T')| >= 2 then
      SplitHeadTail(iso, 'T');
      Split(iso, 'T')[0]
    else
      Split(iso, 'T')[0]
  }

  predicate OnDay(a: Appointment, todayIso: string) {
    DatePart(a.appointmentDate) == DatePart(todayIso)
  }

  /** The filter in `updateTodaySchedule`: the appointments dated today, in their original order. */
  function TodaysAppointments(apts: seq<Appointment>, todayIso: string): (r: seq<Appointment>)
    ensures |r| <= |apts|
    ensures forall a :: a in r <==> a in apts && OnDay(a, todayIso)
  {
    if apts == [] then []
    else if OnDay(apts[0], todayIso) then [apts[0]] + TodaysAppointments(apts[1..], todayIso)
    else TodaysAppointments(apts[1..], todayIso)
  }

  /** The filter keeps order: on a concatenation it is the concatenation of the filtered parts. */
  lemma {:induction false} TodaysAppointmentsAppend(xs: seq<Appointment>, ys: seq<Appointment>, todayIso: string)
    ensures TodaysAppointments(xs + ys, todayIso) == TodaysAppointments(xs, todayIso) + TodaysAppointments(ys, todayIso)
  {
    if xs == [] {
      assert xs + ys == ys;
    } else {
      var zs := xs + ys;
      assert zs[0] == xs[0] && zs[1..] == xs[1..] + ys;
      TodaysAppointmentsAppend(xs[1..], ys, todayIso);
      var rest := TodaysAppointments(xs[1..], todayIso) + TodaysAppointments(ys, todayIso);
      assert TodaysAppointments(zs[1..], todayIso) == rest;
      if OnDay(xs[0], todayIso) {
        assert TodaysAppointments(zs, todayIso) == [xs[0]] + rest;
        assert TodaysAppointments(xs, todayIso) == [xs[0]] + TodaysAppointments(xs[1..], todayIso);
      } else {
        assert TodaysAppointments(zs, todayIso) == rest;
      }
    }
  }

  /** The filter keeps every copy of a matching appointment and no copy of any other. */
  lemma {:induction false} TodaysAppointmentsCounts(apts: seq<Appointment>, todayIso: string, a: Appointment)
    ensures multiset(TodaysAppointments(apts, todayIso))[a] == if OnDay(a, todayIso) then multiset(apts)[a] else 0
  {
    if apts != [] {
      TodaysAppointmentsCounts(apts[1..], todayIso, a);
      assert apts == [apts[0]] + apts[1..];
    }
  }

  // ---------------------------------------------------------------- status-gated actions

  datatype Action = View | Complete | Cancel | WritePrescription

  /** The text of an appointment's status badge: a missing status reads as `scheduled`. */
  function StatusLabel(status: Option<string>): (badge: string)
    ensures badge != ""
    ensures status.Some? && status.value != "" ==> badge == status.value
    ensures status.None? || status.value == "" ==> badge == "scheduled"
  {
    if status.Some? && status.value != "" then status.value else "scheduled"
  }

  /** The buttons of an appointments-table row: complete and cancel only for a scheduled or pending appointment. */
  function ListActions(status: Option<string>): (r: set<Action>)
    ensures View in r && WritePrescription in r
    ensures Complete in r <==> status == Some("scheduled") || status == Some("pending")
    ensures Cancel in r <==> Complete in r
  {
    if status == Some("scheduled") || status == Some("pending") then {View, Complete, Cancel, WritePrescription}
    else {View, WritePrescription}
  }

  /** The buttons of a today's-schedule row: complete only for a scheduled appointment. */
  function TodayActions(status: Option<string>): (r: set<Action>)
    ensures View in r && Cancel !in r && WritePrescription !in r
    ensures Complete in r <==> status == Some("scheduled")
  {
    if status == Some("scheduled") then {View, Complete} else {View}
  }

  /** Today's schedule never offers an action on an appointment that the full table would refuse. */
  lemma TodayOffersLess(status: Option<string>)
    ensures TodayActions(status) <= ListActions(status)
  {
  }

  /**
   * The badge and the buttons disagree on an appointment without a status: it reads as
   * `scheduled` but offers neither complete nor cancel.
   */
  lemma MissingStatusLooksScheduled()
    ensures StatusLabel(None) == StatusLabel(Some("scheduled"))
    ensures Complete !in ListActions(None) && Complete in ListActions(Some("scheduled"))
  {
  }

  // ---------------------------------------------------------------- handleKeyboardShortcuts

  const Sections: seq<string> := ["overview", "appointments", "patients", "prescriptions", "schedule", "profile"]

  /**
   * Ctrl or Cmd with a key from `'1'` to `'6'` (compared as strings) opens
   * `sections[parseInt(key) - 1]` when that entry exists.
   */
  function ShortcutSection(ctrl: bool, meta: bool, key: string): (r: Option<string>)
    ensures r.Some? ==> (ctrl || meta) && |key| >= 1 && '1' <= key[0] <= '6'
                        && r.value == Sections[DigitValue(key[0]) - 1]
  {
    if (ctrl || meta) && LexLe("1", key) && LexLe(key, "6") then
      KeyInRange(key);
      var n := ParseInt(key);
      if n.Some? && 1 <= n.value <= |Sections| then Some(Sections[n.value - 1]) else None
    else None
  }

  /** Each digit from 1 to 6 with Ctrl or Cmd opens its section, and without either opens nothing. */
  lemma ShortcutDigits(d: nat, ctrl: bool, meta: bool)
    requires 1 <= d <= 6
    ensures ShortcutSection(ctrl, meta, [DigitChar(d)]) == if ctrl || meta then Some(Sections[d - 1]) else None
  {
    var key := [DigitChar(d)];
    if ctrl || meta {
      assert LexLe("1", key) by {
        assert "1"[1..] == "";
      }
      assert LexLe(key, "6") by {
        assert key[1..] == "";
      }
      ParseIntLeadingDigit(key);
      assert DigitPrefix(key) == key;
      assert DecimalValue(key) == d by {
        assert key[..0] == "";
      }
    }
  }

  /** Keys inside the string range start with a digit from 1 to 6, and `parseInt` reads that digit alone or a number of at least 10. */
  lemma KeyInRange(key: string)
    requires LexLe("1", key) && LexLe(key, "6")
    ensures |key| >= 1 && '1' <= key[0] <= '6'
    ensures ParseInt(key).Some?
    ensures ParseInt(key).value == DigitValue(key[0]) || ParseInt(key).value >= 10
  {
    LexRange(key);
    ParseIntLeadingDigit(key);
    var d := DigitPrefix(key);
    assert ParseInt(key) == Some(DecimalValue(d) as int);
    if |d| >= 2 {
      LeadingDigitValue(d);
    } else {
      SingleDigitValue(d);
    }
  }

  /** A one-digit numeral denotes its digit. */
  lemma SingleDigitValue(d: string)
    requires AllDigits(d) && |d| == 1
    ensures DecimalValue(d) == DigitValue(d[0])
  {
    assert d[..0] == "";
  }

  /** The keys between `"1"` and `"6"` in string order are those starting with 1 to 5, and `"6"` itself. */
  lemma LexRange(key: string)
    requires LexLe("1", key) && LexLe(key, "6")
    ensures |key| >= 1 && '1' <= key[0] <= '6'
  {
    assert "1"[0] == '1' && "6"[0] == '6';
  }

  /** A numeral of at least two digits that does not start with 0 denotes at least 10. */
  lemma {:induction false} LeadingDigitValue(d: string)
    requires AllDigits(d) && |d| >= 1 && d[0] != '0'
    ensures DecimalValue(d) >= 1
    ensures |d| >= 2 ==> DecimalValue(d) >= 10
  {
    if |d| >= 2 {
      LeadingDigitValue(d[..|d| - 1]);
    } else {
      assert d[..0] == "";
    }
  }

  // ---------------------------------------------------------------- handlePrescriptionSubmit

  /** The prescription form's fields, as the inputs hold them. */
  datatype PrescriptionForm = PrescriptionForm(patientId: string, medication: string, dosage: string,
                                               frequency: string, duration: string, instructions: string,
                                               diagnosis: string, additionalNotes: string, quantity: string)

  /** One medication of the payload; `duration` is `None` where the source sends `NaN` (JSON `null`). */
  datatype Medication = Medication(name: string, dosage: string, frequency: string, duration: Option<int>,
                                   quantity: int, instructions: string)

  datatype Prescription = Prescription(patientId: string, medications: seq<Medication>, diagnosis: string,
                                       additionalNotes: string, validDays: Option<int>)

  const FieldsMissing: string := "Please fill in all required fields."
  const DurationNotPositive: string := "Duration must be a positive number."

  predicate PrescriptionFieldsPresent(f: PrescriptionForm) {
    f.patientId != "" && f.medication != "" && f.dosage != "" && f.frequency != "" && f.duration != "" && f.diagnosis != ""
  }

  /** `parseInt(quantity) || 1`: the quantity typed, or 1 when it is missing, not a number, or 0. */
  function QuantityOf(text: string): (q: int)
    ensures q != 0
    ensures ParseInt(text).Some? && ParseInt(text).value != 0 ==> q == ParseInt(text).value
    ensures !(ParseInt(text).Some? && ParseInt(text).value != 0) ==> q == 1
  {
    var n := ParseInt(text);
    if n.Some? && n.value != 0 then n.value else 1
  }

  /** The request body, with the duration as parsed. */
  function PrescriptionBody(f: PrescriptionForm, duration: Option<int>): (p: Prescription)
    ensures |p.medications| == 1 && p.medications[0].duration == p.validDays == duration
    ensures p.medications[0].quantity == QuantityOf(f.quantity) != 0 && p.patientId == f.patientId
  {
    Prescription(f.patientId,
                 [Medication(f.medication, f.dosage, f.frequency, duration, QuantityOf(f.quantity), f.instructions)],
                 f.diagnosis, f.additionalNotes, duration)
  }

  /**
   * The checks of `handlePrescriptionSubmit` as written: `parseInt(duration) <= 0` is false
   * for `NaN`, so a duration with no leading number passes and is sent as `null`.
   */
  function PrescriptionAsWritten(f: PrescriptionForm): (r: Result<Prescription, string>)
    ensures r.Success? <==> PrescriptionFieldsPresent(f) && !(ParseInt(f.duration).Some? && ParseInt(f.duration).value <= 0)
    ensures r.Success? ==> r.value == PrescriptionBody(f, ParseInt(f.duration))
  {
    if !PrescriptionFieldsPresent(f) then Failure(FieldsMissing)
    else if ParseInt(f.duration).Some? && ParseInt(f.duration).value <= 0 then Failure(DurationNotPositive)
    else Success(PrescriptionBody(f, ParseInt(f.duration)))
  }

  /**
   * The checks as their message states them: the duration must read as a positive number.
   * An accepted form yields exactly one medication whose duration is the prescription's
   * validity, both the positive number the duration field reads as.
   */
  function Prescribe(f: PrescriptionForm): (r: Result<Prescription, string>)
    ensures r.Success? <==> PrescriptionFieldsPresent(f) && ParseInt(f.duration).Some? && ParseInt(f.duration).value > 0
    ensures r.Failure? ==> (r.error == FieldsMissing <==> !PrescriptionFieldsPresent(f))
    ensures r.Failure? ==> r.error in {FieldsMissing, DurationNotPositive}
    ensures r.Success? ==>
              var p := r.value;
              |p.medications| == 1 && p.validDays == p.medications[0].duration == ParseInt(f.duration)
              && p.validDays.value > 0 && p.medications[0].quantity == QuantityOf(f.quantity)
              && p.patientId == f.patientId && p.diagnosis == f.diagnosis && p.additionalNotes == f.additionalNotes
              && p.medications[0].name == f.medication && p.medications[0].dosage == f.dosage
              && p.medications[0].frequency == f.frequency && p.medications[0].instructions == f.instructions
  {
    if !PrescriptionFieldsPresent(f) then Failure(FieldsMissing)
    else if ParseInt(f.duration).None? || ParseInt(f.duration).value <= 0 then Failure(DurationNotPositive)
    else Success(PrescriptionBody(f, ParseInt(f.duration)))
  }

  /** Where the two agree: every form the corrected check accepts, the written one accepts with the same payload. */
  lemma PrescribeRefinesAsWritten(f: PrescriptionForm)
    requires Prescribe(f).Success?
    ensures PrescriptionAsWritten(f) == Prescribe(f)
  {
  }

  /**
   * Where they differ: a complete form whose duration does not start with a number (such
   * as `"abc"`) is sent as written, with a `null` duration, and refused by the corrected check.
   */
  lemma NonNumericDurationSlipsThrough(f: PrescriptionForm)
    requires PrescriptionFieldsPresent(f) && ParseInt(f.duration).None?
    ensures PrescriptionAsWritten(f).Success? && PrescriptionAsWritten(f).value.validDays.None?
    ensures PrescriptionAsWritten(f).value.medications[0].duration.None?
    ensures Prescribe(f) == Failure(DurationNotPositive)
  {
  }

  /** `"abc"` has no leading number. */
  lemma AbcIsNotANumber()
    ensures ParseInt("abc").None?
  {
    assert !IsWhitespace('a');
    TrimStartKeeps("abc");
    assert !IsDigit("abc"[0]);
  }

  // ---------------------------------------------------------------- handleProfileSubmit

  /** The profile form's fields (the consultation fee is not modelled). */
  datatype ProfileForm = ProfileForm(fullName: string, specialization: string, phone: string,
                                     biography: string, licenseNumber: string, experience: string)

  /**
   * The request body. An empty optional field is omitted (`None`); the experience is
   * omitted when empty and otherwise sent parsed, `Some(None)` standing for `NaN`.
   */
  datatype ProfileUpdate = ProfileUpdate(firstName: string, lastName: string, specialization: string,
                                         phone: Option<string>, biography: Option<string>,
                                         licenseNumber: Option<string>, experience: Option<Option<int>>)

  const NameRequired: string := "Name and specialization are required."
  const BothNames: string := "Please enter both first and last name."

  /** `value || undefined` for a text field. */
  function Omittable(s: string): (r: Option<string>)
    ensures r.None? <==> s == ""
    ensures r.Some? ==> r.value == s
  {
    if s == "" then None else Some(s)
  }

  /** The body built from the pieces of the full name split on single spaces. */
  function ProfileBody(f: ProfileForm, parts: seq<string>): (u: ProfileUpdate)
    requires |parts| >= 2
    ensures u.firstName == parts[0] && u.lastName == Join(parts[1..], ' ')
    ensures u.phone.None? <==> f.phone == ""
    ensures u.experience.None? <==> f.experience == ""
  {
    ProfileUpdate(parts[0], Join(parts[1..], ' '), f.specialization,
                  Omittable(f.phone), Omittable(f.biography), Omittable(f.licenseNumber),
                  if f.experience == "" then None else Some(ParseInt(f.experience)))
  }

  /**
   * The checks of `handleProfileSubmit` as written: the name must contain a space, but the
   * piece before or after it may be empty. Whatever it accepts, first name, a space and
   * last name give the full name back.
   */
  function ProfileAsWritten(f: ProfileForm): (r: Result<ProfileUpdate, string>)
    ensures r.Success? <==> f.fullName != "" && f.specialization != "" && ' ' in f.fullName
    ensures r.Success? ==> r.value.firstName + " " + r.value.lastName == f.fullName && ' ' !in r.value.firstName
  {
    if f.fullName == "" || f.specialization == "" then Failure(NameRequired)
    else
      var parts := Split(f.fullName, ' ');
      SeparatorSplits(f.fullName, ' ');
      if |parts| < 2 then Failure(BothNames)
      else
        SplitHeadTail(f.fullName, ' ');
        Success(ProfileBody(f, parts))
  }

  /**
   * The checks as the message states them: both a first and a last name, neither of them
   * blank. An accepted name splits into a first name without spaces and a last name, each
   * holding something other than whitespace, that join back into the full name.
   */
  function UpdateProfile(f: ProfileForm): (r: Result<ProfileUpdate, string>)
    ensures r.Success? ==>
              r.value.firstName + " " + r.value.lastName == f.fullName
              && Trim(r.value.firstName) != "" && Trim(r.value.lastName) != "" && ' ' !in r.value.firstName
              && r.value.specialization == f.specialization
    ensures r.Success? <==>
              f.fullName != "" && f.specialization != "" && ' ' in f.fullName
              && Trim(Split(f.fullName, ' ')[0]) != "" && Trim(Join(Split(f.fullName, ' ')[1..], ' ')) != ""
    ensures r.Failure? ==> r.error in {NameRequired, BothNames}
  {
    if f.fullName == "" || f.specialization == "" then Failure(NameRequired)
    else
      var parts := Split(f.fullName, ' ');
      SeparatorSplits(f.fullName, ' ');
      if |parts| < 2 || Trim(parts[0]) == "" || Trim(Join(parts[1..], ' ')) == "" then Failure(BothNames)
      else
        SplitHeadTail(f.fullName, ' ');
        Success(ProfileBody(f, parts))
  }

  /** Where the two agree: a name the corrected check accepts is sent as written. */
  lemma UpdateProfileRefinesAsWritten(f: ProfileForm)
    requires UpdateProfile(f).Success?
    ensures ProfileAsWritten(f) == UpdateProfile(f)
  {
  }

  /**
   * Where they differ: a single name followed by a space (such as `"Madonna "`) is sent as
   * written with an empty last name, and refused by the corrected check.
   */
  lemma TrailingSpaceNameSlipsThrough(f: ProfileForm, name: string)
    requires f.fullName == name + " " && ' ' !in name && f.specialization != ""
    ensures ProfileAsWritten(f).Success? && ProfileAsWritten(f).value.firstName == name
    ensures ProfileAsWritten(f).value.lastName == ""
    ensures UpdateProfile(f) == Failure(BothNames)
  {
    SplitAfterPiece(name, ' ', "");
    assert name + [' '] + "" == f.fullName;
    assert Split(f.fullName, ' ') == [name, ""];
    assert Split(f.fullName, ' ')[1..] == [""];
  }

  /**
   * A single name followed by two spaces (such as `"John  "`) is sent as written with a last
   * name of one space, and refused by the corrected check.
   */
  lemma BlankLastNameSlipsThrough(f: ProfileForm, name: string)
    requires f.fullName == name + "  " && ' ' !in name && f.specialization != ""
    ensures ProfileAsWritten(f).Success? && ProfileAsWritten(f).value.lastName == " "
    ensures UpdateProfile(f) == Failure(BothNames)
  {
    SplitAfterPiece("", ' ', "");
    SplitAfterPiece(name, ' ', " ");
    assert name + [' '] + " " == f.fullName;
    assert Split(" ", ' ') == ["", ""] by {
      assert "" + [' '] + "" == " ";
    }
    var parts := Split(f.fullName, ' ');
    assert parts == [name, "", ""];
    assert parts[1..] == ["", ""];
    assert Join(parts[1..], ' ') == " ";
    assert Trim(" ") == "";
  }

  /** `split(' ')` yields at least two pieces exactly when the string contains a space. */
  lemma {:induction false} SeparatorSplits(s: string, sep: char)
    ensures |Split(s, sep)| >= 2 <==> sep in s
  {
    if s != [] {
      SeparatorSplits(s[1..], sep);
      assert s == [s[0]] + s[1..];
    }
  }
}
