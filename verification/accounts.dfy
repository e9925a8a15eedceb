/**
 * The `users`, `patients` and `doctors` tables. The registration
 * controllers insert into them inside one transaction; the admin controller
 * overwrites `doctors.status` and `users.is_active`; the patient controller
 * updates profile columns.
 */
module Accounts {
  import opened Common

  datatype DoctorStatus = DoctorPending | DoctorApproved | DoctorRejected

  /**
   * A `users` row. Registration writes `loginId`; login reads the `email`
   * and `mobile` columns, which registration leaves NULL.
   */
  datatype User = User(
    id: nat,
    loginId: Option<string>,
    email: Option<string>,
    mobile: Option<string>,
    passwordHash: string,
    role: Role,
    isActive: bool)

  datatype PatientRow = PatientRow(
    userId: nat,
    fullName: string,
    phone: string,
    gender: string,
    dob: string,
    email: string)

  datatype DoctorRow = DoctorRow(
    userId: nat,
    doctorName: string,
    degree: Option<string>,
    licenseNumber: string,
    specialization: string,
    email: Option<string>,
    clinicName: Option<string>,
    city: Option<string>,
    address: Option<string>,
    consultationFee: Option<string>,
    timings: Option<string>,
    availableDays: string,
    status: DoctorStatus)

  /** A column of `patients` that updateProfile may set. */
  datatype PatientColumn = FullNameColumn | PhoneColumn | GenderColumn | DobColumn

  /** The value a column currently holds. */
  function PatientField(p: PatientRow, c: PatientColumn): string
  {
    match c
    case FullNameColumn => p.fullName
    case PhoneColumn => p.phone
    case GenderColumn => p.gender
    case DobColumn => p.dob
  }

  /** `SET column = value` on one row; a non-text value leaves it alone. */
  function AssignPatient(p: PatientRow, c: PatientColumn, v: SqlValue): PatientRow
  {
    if !v.Text? then p
    else match c
      case FullNameColumn => p.(fullName := v.text)
      case PhoneColumn => p.(phone := v.text)
      case GenderColumn => p.(gender := v.text)
      case DobColumn => p.(dob := v.text)
  }

  /** The row after `SET c1 = v1, c2 = v2, ...`, applied left to right. */
  function AssignAllPatient(p: PatientRow, columns: seq<PatientColumn>, values: seq<SqlValue>): (r: PatientRow)
    requires |columns| <= |values|
    ensures r.userId == p.userId && r.email == p.email
    decreases |columns|
  {
    if |columns| == 0 then p
    else AssignAllPatient(AssignPatient(p, columns[0], values[0]), columns[1..], values[1..])
  }

  /**
   * With distinct columns and text values, the SET list writes each listed
   * column with its own value and leaves every other column as it was.
   */
  lemma {:induction false} AssignAllPatientFields(p: PatientRow, columns: seq<PatientColumn>, values: seq<SqlValue>)
    requires |columns| <= |values|
    requires forall i, j :: 0 <= i < j < |columns| ==> columns[i] != columns[j]
    requires forall i :: 0 <= i < |columns| ==> values[i].Text?
    ensures forall i :: 0 <= i < |columns| ==>
      PatientField(AssignAllPatient(p, columns, values), columns[i]) == values[i].text
    ensures forall c :: c !in columns ==> PatientField(AssignAllPatient(p, columns, values), c) == PatientField(p, c)
    decreases |columns|
  {
    if |columns| > 0 {
      var q := AssignPatient(p, columns[0], values[0]);
      var cs, vs := columns[1..], values[1..];
      assert forall i, j :: 0 <= i < j < |cs| ==> cs[i] != cs[j] by {
        forall i, j | 0 <= i < j < |cs| ensures cs[i] != cs[j] { assert cs[i] == columns[i + 1] && cs[j] == columns[j + 1]; }
      }
      AssignAllPatientFields(q, cs, vs);
      assert columns[0] !in cs by {
        forall i | 0 <= i < |cs| ensures cs[i] != columns[0] { assert cs[i] == columns[i + 1]; }
      }
      forall i | 0 <= i < |columns|
        ensures PatientField(AssignAllPatient(p, columns, values), columns[i]) == values[i].text
      {
        if i > 0 { assert columns[i] == cs[i - 1] && values[i] == vs[i - 1]; }
      }
    }
  }

  predicate LoginTaken(users: seq<User>, loginId: string)
  {
    exists i :: 0 <= i < |users| && users[i].loginId == Some(loginId)
  }

  predicate LicenseTaken(doctors: seq<DoctorRow>, license: string)
  {
    exists i :: 0 <= i < |doctors| && doctors[i].licenseNumber == license
  }

  /** The number of rows a `WHERE user_id = ?` UPDATE on `patients` affects. */
  function PatientMatches(patients: seq<PatientRow>, userId: nat): (n: nat)
    ensures n == 0 <==> forall i :: 0 <= i < |patients| ==> patients[i].userId != userId
  {
    if |patients| == 0 then 0
    else
      assert forall i :: 1 <= i < |patients| ==> patients[i] == patients[1..][i - 1];
      (if patients[0].userId == userId then 1 else 0) + PatientMatches(patients[1..], userId)
  }

  ghost predicate UniqueUsers(users: seq<User>, nextUserId: nat)
  {
    && (forall i :: 0 <= i < |users| ==> users[i].id < nextUserId)
    && (forall i, j :: 0 <= i < j < |users| ==> users[i].id != users[j].id)
    && (forall i, j :: 0 <= i < j < |users| && users[i].loginId.Some? ==> users[i].loginId != users[j].loginId)
  }

  ghost predicate UniqueLicenses(doctors: seq<DoctorRow>)
  {
    forall i, j :: 0 <= i < j < |doctors| ==> doctors[i].licenseNumber != doctors[j].licenseNumber
  }

  /**
   * `doctors` after `UPDATE doctors SET status = ? WHERE user_id = ?`: every
   * row of that user gets the status, every other row is kept, licences stay.
   */
  function WithDoctorStatus(doctors: seq<DoctorRow>, userId: nat, status: DoctorStatus): (r: seq<DoctorRow>)
    ensures |r| == |doctors|
    ensures forall i :: 0 <= i < |doctors| ==>
      r[i] == if doctors[i].userId == userId then doctors[i].(status := status) else doctors[i]
    ensures UniqueLicenses(doctors) ==> UniqueLicenses(r)
  {
    seq(|doctors|, i requires 0 <= i < |doctors| =>
      if doctors[i].userId == userId then doctors[i].(status := status) else doctors[i])
  }

  /**
   * `users` after `UPDATE users SET is_active = ? WHERE id = ?`: that user's
   * flag is set, every other row and every other column is kept.
   */
  function WithActive(users: seq<User>, userId: nat, active: bool): (r: seq<User>)
    ensures |r| == |users|
    ensures forall i :: 0 <= i < |users| ==>
      r[i] == if users[i].id == userId then users[i].(isActive := active) else users[i]
    ensures forall n :: UniqueUsers(users, n) ==> UniqueUsers(r, n)
  {
    seq(|users|, i requires 0 <= i < |users| =>
      if users[i].id == userId then users[i].(isActive := active) else users[i])
  }

  class AccountTables {
    var users: seq<User>
    var patients: seq<PatientRow>
    var doctors: seq<DoctorRow>
    /** The AUTO_INCREMENT counter of `users.id`. */
    var nextUserId: nat

    ghost predicate Valid()
      reads this
    {
      UniqueUsers(users, nextUserId) && UniqueLicenses(doctors)
    }

    constructor ()
      ensures Valid() && users == [] && patients == [] && doctors == [] && nextUserId == 1
    {
      users, patients, doctors := [], [], [];
      nextUserId := 1;
    }

    /** INSERT INTO users (loginId, password, role): a fresh, active user. */
    method InsertUser(loginId: string, passwordHash: string, role: Role) returns (id: nat)
      requires Valid() && !LoginTaken(users, loginId)
      modifies this
      ensures Valid()
      ensures id == old(nextUserId) && nextUserId == id + 1
      ensures users == old(users) + [User(id, Some(loginId), None, None, passwordHash, role, true)]
      ensures patients == old(patients) && doctors == old(doctors)
    {
      id := nextUserId;
      users := users + [User(id, Some(loginId), None, None, passwordHash, role, true)];
      nextUserId := nextUserId + 1;
    }

    /** INSERT INTO patients. */
    method InsertPatient(p: PatientRow)
      requires Valid()
      modifies this
      ensures Valid()
      ensures patients == old(patients) + [p]
      ensures users == old(users) && doctors == old(doctors) && nextUserId == old(nextUserId)
    {
      patients := patients + [p];
    }

    /** INSERT INTO doctors. */
    method InsertDoctor(d: DoctorRow)
      requires Valid() && !LicenseTaken(doctors, d.licenseNumber)
      modifies this
      ensures Valid()
      ensures doctors == old(doctors) + [d]
      ensures users == old(users) && patients == old(patients) && nextUserId == old(nextUserId)
    {
      doctors := doctors + [d];
    }

    /** UPDATE doctors SET status = ? WHERE user_id = ?, whatever the old status. */
    method SetDoctorStatus(userId: nat, status: DoctorStatus)
      requires Valid()
      modifies this
      ensures Valid()
      ensures doctors == WithDoctorStatus(old(doctors), userId, status)
      ensures users == old(users) && patients == old(patients) && nextUserId == old(nextUserId)
    {
      doctors := WithDoctorStatus(doctors, userId, status);
    }

    /** UPDATE users SET is_active = ? WHERE id = ?. */
    method SetActive(userId: nat, active: bool)
      requires Valid()
      modifies this
      ensures Valid()
      ensures users == WithActive(old(users), userId, active)
      ensures doctors == old(doctors) && patients == old(patients) && nextUserId == old(nextUserId)
    {
      users := WithActive(users, userId, active);
    }

    /** UPDATE patients SET ... WHERE user_id = ?; returns affectedRows. */
    method UpdatePatient(userId: nat, columns: seq<PatientColumn>, values: seq<SqlValue>) returns (affected: nat)
      requires Valid() && |columns| <= |values|
      modifies this
      ensures Valid()
      ensures affected == PatientMatches(old(patients), userId)
      ensures |patients| == |old(patients)|
      ensures forall i :: 0 <= i < |patients| ==>
        patients[i] == if old(patients)[i].userId == userId then AssignAllPatient(old(patients)[i], columns, values) else old(patients)[i]
      ensures users == old(users) && doctors == old(doctors) && nextUserId == old(nextUserId)
    {
      affected := PatientMatches(patients, userId);
      var ps := patients;
      patients := seq(|ps|, i requires 0 <= i < |ps| =>
        if ps[i].userId == userId then AssignAllPatient(ps[i], columns, values) else ps[i]);
    }
  }
}
