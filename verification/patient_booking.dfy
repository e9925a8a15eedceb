/**
 * The appointment half of the patient controller: clinic, QR and video
 * bookings, the three cancellations, the video reschedule, the token-status
 * query and the dashboard and upcoming listings. CURDATE() is the `today`
 * parameter; the caller's id is `patientId`.
 */
module PatientBooking {
  import opened Common
  import opened Query
  import opened Appointments

  /** A row a visit booking inserts: dated today, no time, PENDING. */
  function VisitRow(kind: Kind, patient: Option<nat>, doctor: nat, today: int, token: nat, creator: Creator): (a: Appointment)
    ensures a.kind == kind && a.doctorId == doctor && a.date == today && a.token == Some(token)
    ensures a.status == Pending && a.createdBy == creator && a.patientId == patient && a.familyMemberId.None?
  {
    Appointment(0, kind, patient, None, doctor, today, None, Some(token), Pending, creator)
  }

  /** A row a video booking inserts: the requested slot, no token, PENDING. */
  function VideoRow(patient: nat, doctor: nat, date: int, time: int): (a: Appointment)
    ensures a.kind == Video && HoldsSlot(a, doctor, date, time) && a.token.None?
    ensures a.status == Pending && a.createdBy == ByPatient && a.patientId == Some(patient)
  {
    Appointment(0, Video, Some(patient), None, doctor, date, Some(time), None, Pending, ByPatient)
  }

  /* ---------------- clinic booking ---------------- */

  /** `!doctorId || appointmentType !== "CLINIC"` fails. */
  predicate ClinicRequest(doctorId: Option<nat>, kind: Option<Kind>)
  {
    GivenId(doctorId) && kind == Some(Clinic)
  }

  /**
   * bookVisitAppointment as written (patientController.js:512-548): after the
   * MAX query, the INSERT's parameter list names `familyMemberId` and
   * `tokenNumber`, which are declared nowhere in the function, so evaluating
   * it throws a ReferenceError into the catch block. Nothing is inserted.
   */
  function BookVisitAsWritten(doctorId: Option<nat>, kind: Option<Kind>): (code: nat)
    ensures code == BAD_REQUEST <==> !ClinicRequest(doctorId, kind)
    ensures code != CREATED
  {
    if !ClinicRequest(doctorId, kind) then BAD_REQUEST else SERVER_ERROR
  }

  /** A well-formed clinic request for doctor 7 ends in 500 as written. */
  lemma BookVisitAsWrittenFails()
    ensures ClinicRequest(Some(7), Some(Clinic))
    ensures BookVisitAsWritten(Some(7), Some(Clinic)) == SERVER_ERROR
  {
  }

  /**
   * bookVisitAppointment as evidently intended: the computed `nextToken` is
   * inserted and returned, with no family member.
   */
  method BookVisit(table: AppointmentTable, patientId: nat, doctorId: Option<nat>, kind: Option<Kind>, today: int)
    returns (code: nat, token: Option<nat>)
    requires table.Valid()
    modifies table
    ensures table.Valid()
    ensures !ClinicRequest(doctorId, kind) ==> code == BAD_REQUEST && token.None? && unchanged(table)
    ensures ClinicRequest(doctorId, kind) ==>
      && code == CREATED
      && token == Some(NextToken(old(table.rows), doctorId.value, today, Clinic))
      && table.rows == old(table.rows)
         + [VisitRow(Clinic, Some(patientId), doctorId.value, today, token.value, ByPatient).(id := old(table.nextId))]
  {
    if !ClinicRequest(doctorId, kind) {
      return BAD_REQUEST, None;
    }
    var next := NextToken(table.rows, doctorId.value, today, Clinic);
    var id := table.Insert(VisitRow(Clinic, Some(patientId), doctorId.value, today, next, ByPatient));
    return CREATED, Some(next);
  }

  /**
   * qrBookVisit: no validation; the bucket is the requested type, the row is
   * PENDING and created by QR, and the answer carries the inserted token.
   */
  method QrBookVisit(table: AppointmentTable, patientId: nat, doctorId: nat, kind: Kind, today: int)
    returns (code: nat, token: nat)
    requires table.Valid()
    modifies table
    ensures table.Valid()
    ensures code == CREATED
    ensures token == NextToken(old(table.rows), doctorId, today, kind)
    ensures table.rows == old(table.rows) + [VisitRow(kind, Some(patientId), doctorId, today, token, ByQr).(id := old(table.nextId))]
  {
    token := NextToken(table.rows, doctorId, today, kind);
    var id := table.Insert(VisitRow(kind, Some(patientId), doctorId, today, token, ByQr));
    code := CREATED;
  }

  /* ---------------- video booking ---------------- */

  /** `!doctorId || !appointmentDate || !appointmentTime` fails. */
  predicate VideoRequest(doctorId: Option<nat>, date: Option<int>, time: Option<int>)
  {
    GivenId(doctorId) && date.Some? && time.Some?
  }

  /**
   * bookVideoAppointment as written (patientController.js:333-372): the
   * double-booking check runs, then the INSERT's parameter list names
   * `appointmentType`, `familyMemberId` and `tokenNumber`, none of them
   * declared, so a free slot ends in the catch block with nothing inserted.
   */
  function BookVideoAsWritten(rows: seq<Appointment>, doctorId: Option<nat>, date: Option<int>, time: Option<int>): (code: nat)
    ensures code == BAD_REQUEST <==> !VideoRequest(doctorId, date, time)
    ensures VideoRequest(doctorId, date, time) ==>
      (code == CONFLICT <==> SlotTaken(rows, doctorId.value, date.value, time.value, None))
    ensures code != CREATED
  {
    if !VideoRequest(doctorId, date, time) then BAD_REQUEST
    else if SlotTaken(rows, doctorId.value, date.value, time.value, None) then CONFLICT
    else SERVER_ERROR
  }

  /** A request for a free slot on an empty table ends in 500 as written. */
  lemma BookVideoAsWrittenFails()
    ensures !SlotTaken([], 7, 20000, 600, None)
    ensures BookVideoAsWritten([], Some(7), Some(20000), Some(600)) == SERVER_ERROR
  {
  }

  /**
   * bookVideoAppointment as evidently intended: a free slot is booked as a
   * VIDEO row for the requested date and time.
   */
  method BookVideo(table: AppointmentTable, patientId: nat, doctorId: Option<nat>, date: Option<int>, time: Option<int>)
    returns (code: nat)
    requires table.Valid()
    modifies table
    ensures table.Valid()
    ensures !VideoRequest(doctorId, date, time) ==> code == BAD_REQUEST && unchanged(table)
    ensures VideoRequest(doctorId, date, time) && SlotTaken(old(table.rows), doctorId.value, date.value, time.value, None)
      ==> code == CONFLICT && unchanged(table)
    ensures VideoRequest(doctorId, date, time) && !SlotTaken(old(table.rows), doctorId.value, date.value, time.value, None)
      ==> code == CREATED
          && table.rows == old(table.rows) + [VideoRow(patientId, doctorId.value, date.value, time.value).(id := old(table.nextId))]
  {
    if !VideoRequest(doctorId, date, time) {
      return BAD_REQUEST;
    }
    if SlotTaken(table.rows, doctorId.value, date.value, time.value, None) {
      return CONFLICT;
    }
    var id := table.Insert(VideoRow(patientId, doctorId.value, date.value, time.value));
    return CREATED;
  }

  /* ---------------- cancellations ---------------- */

  /** The guarded cancel shared by the clinic and video routes. */
  method CancelOpen(table: AppointmentTable, patientId: nat, appointmentId: nat, kind: Kind) returns (code: nat)
    requires table.Valid()
    modifies table
    ensures table.Valid() && table.nextId == old(table.nextId)
    ensures table.rows == CancelWhere(old(table.rows), OpenOwned(appointmentId, patientId, kind))
    ensures code == OK <==>
      exists i :: 0 <= i < |old(table.rows)| && Matches(old(table.rows)[i], OpenOwned(appointmentId, patientId, kind))
    ensures code != OK ==> code == BAD_REQUEST && table.rows == old(table.rows)
  {
    var affected := table.Cancel(OpenOwned(appointmentId, patientId, kind));
    if affected == 0 {
      assert table.rows == old(table.rows);
      return BAD_REQUEST;
    }
    return OK;
  }

  /** cancelClinicAppointment: only an open CLINIC row of the caller is cancelled. */
  method CancelClinic(table: AppointmentTable, patientId: nat, appointmentId: nat) returns (code: nat)
    requires table.Valid()
    modifies table
    ensures table.Valid() && table.nextId == old(table.nextId)
    ensures table.rows == CancelWhere(old(table.rows), OpenOwned(appointmentId, patientId, Clinic))
    ensures code == OK <==>
      exists i :: 0 <= i < |old(table.rows)| && Matches(old(table.rows)[i], OpenOwned(appointmentId, patientId, Clinic))
    ensures code != OK ==> code == BAD_REQUEST && table.rows == old(table.rows)
  {
    code := CancelOpen(table, patientId, appointmentId, Clinic);
  }

  /** cancelVideoAppointment: only an open VIDEO row of the caller is cancelled. */
  method CancelVideo(table: AppointmentTable, patientId: nat, appointmentId: nat) returns (code: nat)
    requires table.Valid()
    modifies table
    ensures table.Valid() && table.nextId == old(table.nextId)
    ensures table.rows == CancelWhere(old(table.rows), OpenOwned(appointmentId, patientId, Video))
    ensures code == OK <==>
      exists i :: 0 <= i < |old(table.rows)| && Matches(old(table.rows)[i], OpenOwned(appointmentId, patientId, Video))
    ensures code != OK ==> code == BAD_REQUEST && table.rows == old(table.rows)
  {
    code := CancelOpen(table, patientId, appointmentId, Video);
  }

  /**
   * hardCancelAppointment: any row the caller owns is cancelled, whatever its
   * type and status, COMPLETED and REJECTED included.
   */
  method HardCancel(table: AppointmentTable, patientId: nat, appointmentId: nat) returns (code: nat)
    requires table.Valid()
    modifies table
    ensures table.Valid() && table.nextId == old(table.nextId)
    ensures table.rows == CancelWhere(old(table.rows), OwnedBy(appointmentId, patientId))
    ensures code == OK <==>
      exists i :: 0 <= i < |old(table.rows)| && old(table.rows)[i].id == appointmentId
                  && old(table.rows)[i].patientId == Some(patientId)
    ensures code != OK ==> code == BAD_REQUEST && table.rows == old(table.rows)
  {
    var affected := table.Cancel(OwnedBy(appointmentId, patientId));
    if affected == 0 {
      assert table.rows == old(table.rows);
      return BAD_REQUEST;
    }
    return OK;
  }

  /* ---------------- reschedule ---------------- */

  /** `id = ? AND patient_id = ? AND appointment_type = 'VIDEO'`. */
  predicate OwnedVideo(a: Appointment, id: nat, patientId: nat)
  {
    a.id == id && a.patientId == Some(patientId) && a.kind == Video
  }

  /**
   * rescheduleVideoAppointment: 400 without a date and a time, 404 unless the
   * caller owns that VIDEO appointment, 400 unless it is PENDING or ACCEPTED,
   * 409 when another live VIDEO row of the doctor holds the new slot, else
   * only its date and time change.
   */
  method RescheduleVideo(table: AppointmentTable, patientId: nat, appointmentId: nat, date: Option<int>, time: Option<int>)
    returns (code: nat)
    requires table.Valid()
    modifies table
    ensures table.Valid() && table.nextId == old(table.nextId)
    ensures (date.None? || time.None?) ==> code == BAD_REQUEST && table.rows == old(table.rows)
    ensures date.Some? && time.Some? ==>
      var found := FirstWhere(old(table.rows), a => OwnedVideo(a, appointmentId, patientId));
      && (found.None? ==> code == NOT_FOUND && table.rows == old(table.rows))
      && (found.Some? && !IsOpen(found.value.status) ==> code == BAD_REQUEST && table.rows == old(table.rows))
      && (found.Some? && IsOpen(found.value.status)
          && SlotTaken(old(table.rows), found.value.doctorId, date.value, time.value, Some(appointmentId))
          ==> code == CONFLICT && table.rows == old(table.rows))
      && (found.Some? && IsOpen(found.value.status)
          && !SlotTaken(old(table.rows), found.value.doctorId, date.value, time.value, Some(appointmentId))
          ==> code == OK && table.rows == MoveWhere(old(table.rows), appointmentId, date.value, time.value))
  {
    if date.None? || time.None? {
      return BAD_REQUEST;
    }
    var found := FirstWhere(table.rows, a => OwnedVideo(a, appointmentId, patientId));
    if found.None? {
      return NOT_FOUND;
    }
    var row := found.value;
    if !IsOpen(row.status) {
      return BAD_REQUEST;
    }
    if SlotTaken(table.rows, row.doctorId, date.value, time.value, Some(appointmentId)) {
      return CONFLICT;
    }
    // Ids are unique, so the row found is the only one the UPDATE touches.
    forall i | 0 <= i < |table.rows| && table.rows[i].id == appointmentId
      ensures table.rows[i] == row
    {
      var k :| 0 <= k < |table.rows| && table.rows[k] == row && OwnedVideo(table.rows[k], appointmentId, patientId);
      assert UniqueIds(table.rows);
      if i != k {
        assert table.rows[i].id != table.rows[k].id by {
          if i < k { } else { }
        }
      }
    }
    table.Move(appointmentId, date.value, time.value);
    return OK;
  }

  /* ---------------- token status ---------------- */

  /** `id = ? AND patient_id = ? AND appointment_type IN ('CLINIC','HOSPITAL')`. */
  predicate OwnedVisit(a: Appointment, id: nat, patientId: nat)
  {
    a.id == id && a.patientId == Some(patientId) && IsVisit(a.kind)
  }

  /**
   * `currentToken || null`: the lowest token of an ACCEPTED or IN_PROGRESS
   * row of the bucket; NULL when there is none, and also when that lowest
   * token is 0.
   */
  function NowServing(rows: seq<Appointment>, doctor: nat, day: int, kind: Kind): (n: Option<nat>)
    ensures n.Some? ==> (n.value > 0
      && (exists i :: 0 <= i < |rows| && Serving(rows[i], doctor, day, kind) && rows[i].token == n)
      && (forall i :: 0 <= i < |rows| && Serving(rows[i], doctor, day, kind) && rows[i].token.Some?
                      ==> n.value <= rows[i].token.value))
    ensures n.None? <==>
      (forall i :: 0 <= i < |rows| && Serving(rows[i], doctor, day, kind) ==> rows[i].token.None?)
      || (exists i :: 0 <= i < |rows| && Serving(rows[i], doctor, day, kind) && rows[i].token == Some(0))
  {
    match MinServingToken(rows, doctor, day, kind)
    case None => None
    case Some(m) => if m == 0 then None else Some(m)
  }

  datatype TokenStatusReply = TokenNotFound | TokenStatus(yourToken: Option<nat>, nowServing: Option<nat>)

  /** getTokenStatus: the caller's own visit row, and who is being served in its bucket. */
  function GetTokenStatus(rows: seq<Appointment>, patientId: nat, appointmentId: nat): (r: TokenStatusReply)
    ensures r.TokenNotFound? <==> forall i :: 0 <= i < |rows| ==> !OwnedVisit(rows[i], appointmentId, patientId)
    ensures r.TokenStatus? ==>
      exists i :: 0 <= i < |rows| && OwnedVisit(rows[i], appointmentId, patientId)
        && r.yourToken == rows[i].token
        && r.nowServing == NowServing(rows, rows[i].doctorId, rows[i].date, rows[i].kind)
  {
    match FirstWhere(rows, a => OwnedVisit(a, appointmentId, patientId))
    case None => TokenNotFound
    case Some(a) => TokenStatus(a.token, NowServing(rows, a.doctorId, a.date, a.kind))
  }

  /* ---------------- listings ---------------- */

  /** ORDER BY token_number ASC: NULL sorts first in MySQL. */
  predicate TokenLeq(x: Option<nat>, y: Option<nat>)
  {
    x.None? || (y.Some? && x.value <= y.value)
  }

  predicate ByToken(a: Appointment, b: Appointment)
  {
    TokenLeq(a.token, b.token)
  }

  /** ORDER BY appointment_date, token_number. */
  predicate ByDateThenToken(a: Appointment, b: Appointment)
  {
    a.date < b.date || (a.date == b.date && TokenLeq(a.token, b.token))
  }

  lemma ListingOrdersArePreorders()
    ensures TotalPreorder(ByToken)
    ensures TotalPreorder(ByDateThenToken)
  {
  }

  /** A row the JOIN with `doctors` keeps: its doctor has a profile row. */
  predicate Listed(a: Appointment, doctors: set<nat>)
  {
    a.doctorId in doctors
  }

  /** The dashboard's upcoming count: open rows of the caller dated today or later. */
  predicate UpcomingOpen(a: Appointment, patientId: nat, today: int)
  {
    a.patientId == Some(patientId) && a.date >= today && IsOpen(a.status)
  }

  /** The dashboard's token candidates: the caller's open visits of today. */
  predicate TodayVisit(a: Appointment, patientId: nat, today: int)
  {
    a.patientId == Some(patientId) && a.date == today && IsVisit(a.kind) && IsOpen(a.status)
  }

  /** The dashboard's list: the caller's open rows whose doctor is listed. */
  predicate DashboardRow(a: Appointment, patientId: nat, doctors: set<nat>)
  {
    a.patientId == Some(patientId) && IsOpen(a.status) && Listed(a, doctors)
  }

  datatype TodayToken = TodayToken(kind: Kind, token: Option<nat>)
  datatype Dashboard = Dashboard(upcomingCount: nat, todayToken: Option<TodayToken>, appointments: seq<Appointment>)

  /**
   * `ORDER BY token_number ASC LIMIT 1` over the caller's open visits of
   * today: one with the lowest token, NULL first.
   */
  function FirstTodayToken(rows: seq<Appointment>, patientId: nat, today: int): (t: Option<TodayToken>)
    ensures t.None? <==> forall i :: 0 <= i < |rows| ==> !TodayVisit(rows[i], patientId, today)
    ensures t.Some? ==>
      exists i :: 0 <= i < |rows| && TodayVisit(rows[i], patientId, today)
        && t.value == TodayToken(rows[i].kind, rows[i].token)
        && forall j :: 0 <= j < |rows| && TodayVisit(rows[j], patientId, today) ==> TokenLeq(rows[i].token, rows[j].token)
  {
    ListingOrdersArePreorders();
    var candidates := Filter(rows, a => TodayVisit(a, patientId, today));
    var todays := SortBy(candidates, ByToken);
    if |todays| == 0 then
      assert forall i :: 0 <= i < |rows| ==> !TodayVisit(rows[i], patientId, today) by {
        forall i | 0 <= i < |rows| ensures !TodayVisit(rows[i], patientId, today) {
          SortByMembers(candidates, ByToken, rows[i]);
        }
      }
      None
    else
      var first := todays[0];
      SortByMembers(candidates, ByToken, first);
      assert forall j :: 0 <= j < |rows| && TodayVisit(rows[j], patientId, today) ==> TokenLeq(first.token, rows[j].token) by {
        forall j | 0 <= j < |rows| && TodayVisit(rows[j], patientId, today) ensures TokenLeq(first.token, rows[j].token) {
          SortByMembers(candidates, ByToken, rows[j]);
          var k :| 0 <= k < |todays| && todays[k] == rows[j];
          if k > 0 { assert ByToken(todays[0], todays[k]); }
        }
      }
      Some(TodayToken(first.kind, first.token))
  }

  /** The dashboard's list: the caller's open rows, by date then token. */
  function DashboardList(rows: seq<Appointment>, doctors: set<nat>, patientId: nat): (r: seq<Appointment>)
    ensures multiset(r) == multiset(Filter(rows, a => DashboardRow(a, patientId, doctors)))
    ensures forall a :: a in r <==> a in rows && DashboardRow(a, patientId, doctors)
    ensures SortedBy(r, ByDateThenToken)
  {
    ListingOrdersArePreorders();
    var selected := Filter(rows, a => DashboardRow(a, patientId, doctors));
    var r := SortBy(selected, ByDateThenToken);
    forall a ensures a in r <==> a in selected {
      SortByMembers(selected, ByDateThenToken, a);
    }
    r
  }

  /**
   * getDashboard: the upcoming count, the lowest-token open visit of today,
   * and the open appointments. `doctors` holds the user ids that have a
   * `doctors` row (the JOIN).
   */
  function GetDashboard(rows: seq<Appointment>, doctors: set<nat>, patientId: nat, today: int): (d: Dashboard)
    ensures d.upcomingCount == |Filter(rows, a => UpcomingOpen(a, patientId, today))|
    ensures d.todayToken == FirstTodayToken(rows, patientId, today)
    ensures d.appointments == DashboardList(rows, doctors, patientId)
  {
    CountIsFilterLength(rows, a => UpcomingOpen(a, patientId, today));
    Dashboard(Count(rows, a => UpcomingOpen(a, patientId, today)),
              FirstTodayToken(rows, patientId, today),
              DashboardList(rows, doctors, patientId))
  }

  /** The `filter` query parameter of getUpcomingAppointments. */
  datatype Window = TodayOnly | NextSevenDays | FromToday

  function WindowOf(filter: Option<string>): (w: Window)
    ensures w == TodayOnly <==> filter == Some("today")
    ensures w == NextSevenDays <==> filter == Some("next7")
  {
    if filter == Some("today") then TodayOnly
    else if filter == Some("next7") then NextSevenDays
    else FromToday
  }

  /** The date condition: `= CURDATE()`, `BETWEEN CURDATE() AND CURDATE() + 7` or `>= CURDATE()`. */
  predicate InWindow(date: int, w: Window, today: int)
  {
    match w
    case TodayOnly => date == today
    case NextSevenDays => today <= date <= today + 7
    case FromToday => date >= today
  }

  predicate UpcomingRow(a: Appointment, patientId: nat, w: Window, today: int, doctors: set<nat>)
  {
    a.patientId == Some(patientId) && InWindow(a.date, w, today) && IsOpen(a.status) && Listed(a, doctors)
  }

  /** getUpcomingAppointments: the caller's open rows in the window, by date then token. */
  function GetUpcoming(rows: seq<Appointment>, doctors: set<nat>, patientId: nat, filter: Option<string>, today: int)
    : (r: seq<Appointment>)
    ensures multiset(r) == multiset(Filter(rows, a => UpcomingRow(a, patientId, WindowOf(filter), today, doctors)))
    ensures forall a :: a in r <==> a in rows && UpcomingRow(a, patientId, WindowOf(filter), today, doctors)
    ensures SortedBy(r, ByDateThenToken)
    ensures forall a :: a in r ==> a.date >= today
  {
    ListingOrdersArePreorders();
    var selected := Filter(rows, a => UpcomingRow(a, patientId, WindowOf(filter), today, doctors));
    var r := SortBy(selected, ByDateThenToken);
    forall a ensures a in r <==> a in selected {
      SortByMembers(selected, ByDateThenToken, a);
    }
    r
  }

  /** Every window lies within "from today on": the filters only narrow the list. */
  lemma {:induction false} WindowsNarrow(rows: seq<Appointment>, doctors: set<nat>, patientId: nat, filter: Option<string>, today: int)
    ensures forall a :: (a in GetUpcoming(rows, doctors, patientId, filter, today)
                         ==> a in GetUpcoming(rows, doctors, patientId, None, today))
  {
    var narrow := GetUpcoming(rows, doctors, patientId, filter, today);
    var wide := GetUpcoming(rows, doctors, patientId, None, today);
    forall a | a in narrow ensures a in wide {
      assert UpcomingRow(a, patientId, WindowOf(filter), today, doctors);
      assert UpcomingRow(a, patientId, FromToday, today, doctors);
    }
  }
}
