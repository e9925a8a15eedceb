/**
 * The admin controller: dashboard and analytics counts, the doctor and
 * patient listings, the unconditional status overwrites (approve, reject,
 * block, unblock, force-cancel) and the appointment search whose WHERE clause
 * is assembled from the filters the caller supplied.
 */
module AdminController {
  import opened Common
  import opened Query
  import opened Appointments
  import opened Accounts
  import AdminSearch
  import AuthController

  /** The spelling of `doctors.status`. */
  function DoctorStatusName(s: DoctorStatus): string
  {
    match s
    case DoctorPending => "PENDING"
    case DoctorApproved => "APPROVED"
    case DoctorRejected => "REJECTED"
  }

  predicate IsPendingDoctor(d: DoctorRow)
  {
    d.status == DoctorPending
  }

  predicate IsApprovedDoctor(d: DoctorRow)
  {
    d.status == DoctorApproved
  }

  predicate IsPatientUser(u: User)
  {
    u.role == Patient
  }

  /* ---------------- listings ---------------- */

  /** getDoctors: `WHERE status = ?` only when a status is given. */
  function GetDoctors(doctors: seq<DoctorRow>, status: Option<string>): (r: seq<DoctorRow>)
    ensures !Given(status) ==> r == doctors
    ensures Given(status) ==> forall d :: d in r <==> d in doctors && DoctorStatusName(d.status) == status.value
  {
    if Given(status) then Filter(doctors, (d: DoctorRow) => DoctorStatusName(d.status) == status.value)
    else doctors
  }

  /** One row of getPatients: `SELECT id, loginId, is_active`. */
  datatype PatientListing = PatientListing(id: nat, loginId: Option<string>, isActive: bool)

  function Listing(u: User): PatientListing
  {
    PatientListing(u.id, u.loginId, u.isActive)
  }

  /** getPatients: every PATIENT user, projected to three columns. */
  function GetPatients(users: seq<User>): (r: seq<PatientListing>)
    ensures |r| == Count(users, IsPatientUser)
    ensures forall u :: u in users && IsPatientUser(u) ==> Listing(u) in r
  {
    if |users| == 0 then []
    else
      var rest := GetPatients(users[1..]);
      assert forall u :: u in users ==> u == users[0] || u in users[1..];
      if IsPatientUser(users[0]) then [Listing(users[0])] + rest else rest
  }

  /* ---------------- dashboard and analytics ---------------- */

  /**
   * getDashboard. `SUM(status='PENDING')` over an empty `doctors` table is
   * NULL, not 0, so `pending` is `None` exactly then.
   */
  datatype Dashboard = Dashboard(doctorsTotal: nat, pending: Option<nat>, patientsTotal: nat, todayAppointments: nat)

  function GetDashboard(doctors: seq<DoctorRow>, users: seq<User>, appointments: seq<Appointment>, today: int): (r: Dashboard)
    ensures r.doctorsTotal == |doctors|
    ensures r.pending.None? <==> |doctors| == 0
    ensures r.pending.Some? ==> r.pending.value == Count(doctors, IsPendingDoctor) <= r.doctorsTotal
    ensures r.patientsTotal == Count(users, IsPatientUser) <= |users|
    ensures r.todayAppointments == |AdminSearch.Search(appointments, None, Some(today), None)| <= |appointments|
    ensures r.todayAppointments == 0 <==> forall i :: 0 <= i < |appointments| ==> appointments[i].date != today
  {
    var onDay := (a: Appointment) => a.date == today;
    CountIsFilterLength(appointments, onDay);
    AdminSearch.FilterIsSearch(appointments, onDay, None, Some(today), None);
    Dashboard(|doctors|,
              if |doctors| == 0 then None else Some(Count(doctors, IsPendingDoctor)),
              Count(users, IsPatientUser),
              Count(appointments, onDay))
  }

  /** Counting with two conditions that agree on every row gives the same number. */
  lemma {:induction false} CountAgrees<T>(s: seq<T>, p: T -> bool, q: T -> bool)
    requires forall x :: p(x) == q(x)
    ensures Count(s, p) == Count(s, q)
  {
    if |s| > 0 {
      CountAgrees(s[1..], p, q);
    }
  }

  /**
   * The dashboard agrees with the listings: `pending` is the length of
   * getDoctors?status=PENDING and the patient total the length of getPatients.
   */
  lemma DashboardMatchesListings(doctors: seq<DoctorRow>, users: seq<User>, appointments: seq<Appointment>, today: int)
    requires |doctors| > 0
    ensures GetDashboard(doctors, users, appointments, today).pending == Some(|GetDoctors(doctors, Some("PENDING"))|)
    ensures GetDashboard(doctors, users, appointments, today).patientsTotal == |GetPatients(users)|
  {
    var byName := (d: DoctorRow) => DoctorStatusName(d.status) == "PENDING";
    CountAgrees(doctors, IsPendingDoctor, byName);
    CountIsFilterLength(doctors, byName);
  }

  /** getAdminAnalytics. */
  datatype Analytics = Analytics(totalAppointments: nat, activeDoctors: nat, patients: nat)

  function GetAnalytics(appointments: seq<Appointment>, doctors: seq<DoctorRow>, users: seq<User>): (r: Analytics)
    ensures r.totalAppointments == |appointments|
    ensures r.activeDoctors == Count(doctors, IsApprovedDoctor)
    ensures r.patients == Count(users, IsPatientUser)
  {
    Analytics(|appointments|, Count(doctors, IsApprovedDoctor), Count(users, IsPatientUser))
  }

  /** Approved and pending doctors are disjoint: together they are at most all doctors. */
  lemma ActivePlusPendingAtMostTotal(doctors: seq<DoctorRow>)
    ensures Count(doctors, IsApprovedDoctor) + Count(doctors, IsPendingDoctor) <= |doctors|
  {
    CountDisjoint(doctors, IsApprovedDoctor, IsPendingDoctor);
  }

  /* ---------------- status overwrites ---------------- */

  /** approveDoctor: APPROVED for every row of the user, whatever its status; always 200. */
  method ApproveDoctor(accounts: AccountTables, userId: nat) returns (code: nat, message: string)
    requires accounts.Valid()
    modifies accounts
    ensures accounts.Valid() && code == OK && message == "Doctor approved"
    ensures accounts.doctors == WithDoctorStatus(old(accounts.doctors), userId, DoctorApproved)
    ensures accounts.users == old(accounts.users) && accounts.patients == old(accounts.patients)
  {
    accounts.SetDoctorStatus(userId, DoctorApproved);
    return OK, "Doctor approved";
  }

  /** rejectDoctor: REJECTED for every row of the user, whatever its status; always 200. */
  method RejectDoctor(accounts: AccountTables, userId: nat) returns (code: nat, message: string)
    requires accounts.Valid()
    modifies accounts
    ensures accounts.Valid() && code == OK && message == "Doctor rejected"
    ensures accounts.doctors == WithDoctorStatus(old(accounts.doctors), userId, DoctorRejected)
    ensures accounts.users == old(accounts.users) && accounts.patients == old(accounts.patients)
  {
    accounts.SetDoctorStatus(userId, DoctorRejected);
    return OK, "Doctor rejected";
  }

  /** The last overwrite wins, whatever came before: approve and reject do not look at the old status. */
  lemma LastStatusWins(doctors: seq<DoctorRow>, userId: nat, first: DoctorStatus, second: DoctorStatus)
    ensures WithDoctorStatus(WithDoctorStatus(doctors, userId, first), userId, second)
            == WithDoctorStatus(doctors, userId, second)
  {
    var a := WithDoctorStatus(WithDoctorStatus(doctors, userId, first), userId, second);
    var b := WithDoctorStatus(doctors, userId, second);
    assert forall i :: 0 <= i < |a| ==> a[i] == b[i];
  }

  /** The row login finds for a user after its status is overwritten carries the new status. */
  lemma FoundRowHasNewStatus(doctors: seq<DoctorRow>, userId: nat, status: DoctorStatus)
    requires exists i :: 0 <= i < |doctors| && doctors[i].userId == userId
    ensures AuthController.FindDoctor(WithDoctorStatus(doctors, userId, status), userId).Some?
    ensures AuthController.FindDoctor(WithDoctorStatus(doctors, userId, status), userId).value.status == status
  {
    var r := WithDoctorStatus(doctors, userId, status);
    var i :| 0 <= i < |doctors| && doctors[i].userId == userId;
    assert r[i].userId == userId;
    var d := AuthController.FindDoctor(r, userId).value;
    var k :| 0 <= k < |r| && r[k] == d;
  }

  /** After approveDoctor, a doctor that has a doctor row passes the login's approval gate. */
  lemma ApprovalOpensLogin(doctors: seq<DoctorRow>, u: User)
    requires exists i :: 0 <= i < |doctors| && doctors[i].userId == u.id
    ensures AuthController.MayPractise(WithDoctorStatus(doctors, u.id, DoctorApproved), u)
  {
    FoundRowHasNewStatus(doctors, u.id, DoctorApproved);
  }

  /** After rejectDoctor, a doctor no longer passes the login's approval gate. */
  lemma RejectionClosesLogin(doctors: seq<DoctorRow>, u: User)
    requires u.role == Doctor
    ensures !AuthController.MayPractise(WithDoctorStatus(doctors, u.id, DoctorRejected), u)
  {
    if exists i :: 0 <= i < |doctors| && doctors[i].userId == u.id {
      FoundRowHasNewStatus(doctors, u.id, DoctorRejected);
    }
  }

  /** blockUser: `is_active = FALSE` on exactly that user; always 200. */
  method BlockUser(accounts: AccountTables, userId: nat) returns (code: nat, message: string)
    requires accounts.Valid()
    modifies accounts
    ensures accounts.Valid() && code == OK && message == "User blocked"
    ensures accounts.users == WithActive(old(accounts.users), userId, false)
    ensures accounts.doctors == old(accounts.doctors) && accounts.patients == old(accounts.patients)
  {
    accounts.SetActive(userId, false);
    return OK, "User blocked";
  }

  /** unblockUser: `is_active = TRUE` on exactly that user; always 200. */
  method UnblockUser(accounts: AccountTables, userId: nat) returns (code: nat, message: string)
    requires accounts.Valid()
    modifies accounts
    ensures accounts.Valid() && code == OK && message == "User unblocked"
    ensures accounts.users == WithActive(old(accounts.users), userId, true)
    ensures accounts.doctors == old(accounts.doctors) && accounts.patients == old(accounts.patients)
  {
    accounts.SetActive(userId, true);
    return OK, "User unblocked";
  }

  /** The row rewrite of `UPDATE users SET is_active = ? WHERE id = ?`. */
  function SetActiveRow(userId: nat, active: bool): User -> User
  {
    (u: User) => if u.id == userId then u.(isActive := active) else u
  }

  /** Blocking changes no column a lookup matches on, so login finds the same row, now inactive. */
  lemma FindUserAfterSetActive(users: seq<User>, userId: nat, active: bool, identifier: string)
    ensures AuthController.FindUser(WithActive(users, userId, active), identifier)
      == if AuthController.FindUser(users, identifier).Some?
         then Some(SetActiveRow(userId, active)(AuthController.FindUser(users, identifier).value))
         else None
  {
    Query.FirstWhereMap(users, WithActive(users, userId, active), AuthController.IdentifiedBy(identifier),
                        SetActiveRow(userId, active));
  }

  /** A blocked user whose row the identifier picks is refused with 403, whatever the password. */
  lemma BlockedUserCannotLogin(users: seq<User>, doctors: seq<DoctorRow>, identifier: string, password: string,
                               matches: (string, string) -> bool)
    requires identifier != "" && password != ""
    requires AuthController.FindUser(users, identifier).Some?
    ensures
      var u := AuthController.FindUser(users, identifier).value;
      AuthController.Login(WithActive(users, u.id, false), doctors, Some(identifier), Some(password), matches)
        == AuthController.Refused(FORBIDDEN, AuthController.ACCOUNT_INACTIVE)
  {
    var u := AuthController.FindUser(users, identifier).value;
    FindUserAfterSetActive(users, u.id, false, identifier);
  }

  /** forceCancelAppointment: CANCELLED on the row with that id from any status; 200 even when none matched. */
  method ForceCancelAppointment(table: AppointmentTable, id: nat) returns (code: nat, message: string)
    requires table.Valid()
    modifies table
    ensures table.Valid() && code == OK && message == "Appointment cancelled by admin"
    ensures table.rows == CancelWhere(old(table.rows), WithId(id))
    ensures forall i :: 0 <= i < |table.rows| ==>
      table.rows[i].status == if old(table.rows)[i].id == id then Cancelled else old(table.rows)[i].status
  {
    var affected := table.Cancel(WithId(id));
    return OK, "Appointment cancelled by admin";
  }
}
