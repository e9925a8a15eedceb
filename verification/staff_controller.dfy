/**
 * The staff controller: a walk-in CLINIC or HOSPITAL visit booked at the
 * desk. It shares the (doctor, today, type) token bucket with the patient's
 * own clinic booking and the QR booking, and inserts a row with no patient.
 */
module StaffController {
  import opened Common
  import opened Appointments
  import PatientBooking

  /** `!doctorId || !["CLINIC","HOSPITAL"].includes(appointmentType)` fails. */
  predicate StaffRequest(doctorId: Option<nat>, kind: Option<Kind>)
  {
    GivenId(doctorId) && kind.Some? && IsVisit(kind.value)
  }

  /**
   * manualVisitBooking as written: the file never binds `db`, so the first
   * `db.query` throws a ReferenceError into the catch block and a valid
   * request ends in 500 with nothing inserted.
   */
  function ManualVisitBookingAsWritten(doctorId: Option<nat>, kind: Option<Kind>): (code: nat)
    ensures code == BAD_REQUEST <==> !StaffRequest(doctorId, kind)
    ensures code != CREATED
  {
    if !StaffRequest(doctorId, kind) then BAD_REQUEST else SERVER_ERROR
  }

  /** A well-formed HOSPITAL request for doctor 3 ends in 500 as written. */
  lemma ManualVisitBookingAsWrittenFails()
    ensures StaffRequest(Some(3), Some(Hospital))
    ensures ManualVisitBookingAsWritten(Some(3), Some(Hospital)) == SERVER_ERROR
  {
  }

  /**
   * manualVisitBooking with `db` bound: the next token of the requested
   * bucket is inserted as a PENDING, STAFF-created row with no patient, and
   * the answer carries that same token.
   */
  method ManualVisitBooking(table: AppointmentTable, doctorId: Option<nat>, kind: Option<Kind>, today: int)
    returns (code: nat, token: Option<nat>)
    requires table.Valid()
    modifies table
    ensures table.Valid()
    ensures !StaffRequest(doctorId, kind) ==> code == BAD_REQUEST && token.None? && unchanged(table)
    ensures StaffRequest(doctorId, kind) ==>
      && code == CREATED
      && token == Some(NextToken(old(table.rows), doctorId.value, today, kind.value))
      && table.rows == old(table.rows)
         + [PatientBooking.VisitRow(kind.value, None, doctorId.value, today, token.value, ByStaff).(id := old(table.nextId))]
  {
    if !StaffRequest(doctorId, kind) {
      return BAD_REQUEST, None;
    }
    var next := NextToken(table.rows, doctorId.value, today, kind.value);
    var id := table.Insert(PatientBooking.VisitRow(kind.value, None, doctorId.value, today, next, ByStaff));
    return CREATED, Some(next);
  }

  /* ---------------- bookings in sequence ---------------- */

  /** One successful visit booking, by whichever route: patient, QR or staff. */
  datatype Booking = Booking(creator: Creator, patient: Option<nat>, doctor: nat, kind: Kind)

  /** The row a booking inserts into a table holding `rows`. */
  function Booked(rows: seq<Appointment>, nextId: nat, b: Booking, today: int): (a: Appointment)
    ensures a.id == nextId && InBucket(a, b.doctor, today, b.kind)
    ensures a.token == Some(NextToken(rows, b.doctor, today, b.kind))
  {
    PatientBooking.VisitRow(b.kind, b.patient, b.doctor, today, NextToken(rows, b.doctor, today, b.kind), b.creator).(id := nextId)
  }

  /**
   * The table after a sequence of visit bookings on day `today`, run one after
   * the other: each reads its bucket's next token from the rows so far and
   * takes the next id.
   */
  function Replay(rows: seq<Appointment>, nextId: nat, bookings: seq<Booking>, today: int): (r: seq<Appointment>)
    ensures |r| == |rows| + |bookings|
    decreases |bookings|
  {
    if |bookings| == 0 then rows
    else Replay(rows + [Booked(rows, nextId, bookings[0], today)], nextId + 1, bookings[1..], today)
  }

  /** Replaying only appends: the rows already there stay as they were. */
  lemma {:induction false} ReplayKeepsRows(rows: seq<Appointment>, nextId: nat, bookings: seq<Booking>, today: int)
    ensures Replay(rows, nextId, bookings, today)[..|rows|] == rows
    decreases |bookings|
  {
    if |bookings| > 0 {
      var rows' := rows + [Booked(rows, nextId, bookings[0], today)];
      var r := Replay(rows', nextId + 1, bookings[1..], today);
      ReplayKeepsRows(rows', nextId + 1, bookings[1..], today);
      assert r[..|rows|] == r[..|rows'|][..|rows|];
    }
  }

  /** Booking into a bucket advances that bucket's next token by one. */
  lemma BookedAdvances(rows: seq<Appointment>, nextId: nat, b: Booking, today: int)
    ensures NextToken(rows + [Booked(rows, nextId, b, today)], b.doctor, today, b.kind)
            == NextToken(rows, b.doctor, today, b.kind) + 1
  {
    NextTokenAfterBooking(rows, Booked(rows, nextId, b, today));
  }

  /** The first step of a replay: the first booking's row, then the rest. */
  lemma ReplayStep(rows: seq<Appointment>, nextId: nat, bookings: seq<Booking>, today: int)
    requires |bookings| > 0
    ensures Replay(rows, nextId, bookings, today)
            == Replay(rows + [Booked(rows, nextId, bookings[0], today)], nextId + 1, bookings[1..], today)
    ensures Replay(rows, nextId, bookings, today)[|rows|] == Booked(rows, nextId, bookings[0], today)
  {
    var rows' := rows + [Booked(rows, nextId, bookings[0], today)];
    ReplayKeepsRows(rows', nextId + 1, bookings[1..], today);
    assert Replay(rows', nextId + 1, bookings[1..], today)[|rows|] == rows'[|rows|];
  }

  /** Replaying bookings of one bucket advances its next token by their number. */
  lemma {:induction false} ReplayNextToken(rows: seq<Appointment>, nextId: nat, bookings: seq<Booking>, today: int, doctor: nat, kind: Kind)
    requires forall b :: b in bookings ==> b.doctor == doctor && b.kind == kind
    ensures NextToken(Replay(rows, nextId, bookings, today), doctor, today, kind)
            == NextToken(rows, doctor, today, kind) + |bookings|
    decreases |bookings|
  {
    if |bookings| > 0 {
      var a := Booked(rows, nextId, bookings[0], today);
      BookedAdvances(rows, nextId, bookings[0], today);
      ReplayStep(rows, nextId, bookings, today);
      ReplayNextToken(rows + [a], nextId + 1, bookings[1..], today, doctor, kind);
    }
  }

  /** The first replayed booking gets its bucket's next token. */
  lemma ReplayFirstToken(rows: seq<Appointment>, nextId: nat, bookings: seq<Booking>, today: int)
    requires |bookings| > 0
    ensures Replay(rows, nextId, bookings, today)[|rows|].token
            == Some(NextToken(rows, bookings[0].doctor, today, bookings[0].kind))
  {
    ReplayStep(rows, nextId, bookings, today);
  }

  /** The `k`-th replayed booking of one bucket gets the bucket's next token plus `k`. */
  lemma {:induction false} ReplayTokenAt(rows: seq<Appointment>, nextId: nat, bookings: seq<Booking>, today: int,
                                         doctor: nat, kind: Kind, k: nat)
    requires forall b :: b in bookings ==> b.doctor == doctor && b.kind == kind
    requires k < |bookings|
    ensures Replay(rows, nextId, bookings, today)[|rows| + k].token == Some(NextToken(rows, doctor, today, kind) + k)
    decreases k
  {
    assert bookings[0] in bookings;
    if k == 0 {
      ReplayFirstToken(rows, nextId, bookings, today);
    } else {
      var a := Booked(rows, nextId, bookings[0], today);
      var more := bookings[1..];
      assert forall x :: x in more ==> x in bookings;
      BookedAdvances(rows, nextId, bookings[0], today);
      ReplayTokenAt(rows + [a], nextId + 1, more, today, doctor, kind, k - 1);
      assert Replay(rows, nextId, bookings, today) == Replay(rows + [a], nextId + 1, more, today);
      assert |rows| + k == |rows + [a]| + (k - 1);
    }
  }

  /**
   * Bookings of one bucket, whoever makes them, get consecutive tokens from
   * the bucket's next token on: staff and QR bookings interleave without
   * ever sharing a token.
   */
  lemma ReplayTokens(rows: seq<Appointment>, nextId: nat, bookings: seq<Booking>, today: int, doctor: nat, kind: Kind)
    requires forall b :: b in bookings ==> b.doctor == doctor && b.kind == kind
    ensures forall k :: |rows| <= k < |Replay(rows, nextId, bookings, today)| ==>
      Replay(rows, nextId, bookings, today)[k].token == Some(NextToken(rows, doctor, today, kind) + (k - |rows|))
  {
    forall k | |rows| <= k < |Replay(rows, nextId, bookings, today)|
      ensures Replay(rows, nextId, bookings, today)[k].token == Some(NextToken(rows, doctor, today, kind) + (k - |rows|))
    {
      ReplayTokenAt(rows, nextId, bookings, today, doctor, kind, k - |rows|);
    }
  }

  /** Hence no two bookings of a replayed bucket share a token. */
  lemma ReplayTokensDistinct(rows: seq<Appointment>, nextId: nat, bookings: seq<Booking>, today: int, doctor: nat, kind: Kind)
    requires forall b :: b in bookings ==> b.doctor == doctor && b.kind == kind
    ensures forall j, k :: |rows| <= j < k < |Replay(rows, nextId, bookings, today)| ==>
      Replay(rows, nextId, bookings, today)[j].token != Replay(rows, nextId, bookings, today)[k].token
  {
    ReplayTokens(rows, nextId, bookings, today, doctor, kind);
  }
}
