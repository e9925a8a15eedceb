/**
 * The `appointments` table. Rows are values; the table is an object whose
 * `rows` the controllers insert into and update in place. The WHERE clauses
 * of the guarded UPDATE statements are data (`Guard`), and the token rule
 * "MAX(token_number) + 1 in the (doctor, day, type) bucket" is a function
 * of the rows.
 */
module Appointments {
  import opened Common

  datatype Kind = Clinic | Hospital | Video
  datatype Status = Pending | Accepted | InProgress | Completed | Rejected | Cancelled
  datatype Creator = ByPatient | ByQr | ByStaff | ByAdmin

  /**
   * One row. `date` is a day number (the value CURDATE() stands for),
   * `time` a time of day; NULL columns are `None`.
   */
  datatype Appointment = Appointment(
    id: nat,
    kind: Kind,
    patientId: Option<nat>,
    familyMemberId: Option<nat>,
    doctorId: nat,
    date: int,
    time: Option<int>,
    token: Option<nat>,
    status: Status,
    createdBy: Creator)

  /** The spelling of `appointments.status`. */
  function StatusName(s: Status): string
  {
    match s
    case Pending => "PENDING"
    case Accepted => "ACCEPTED"
    case InProgress => "IN_PROGRESS"
    case Completed => "COMPLETED"
    case Rejected => "REJECTED"
    case Cancelled => "CANCELLED"
  }

  /** CLINIC and HOSPITAL appointments are visits with a queue token. */
  predicate IsVisit(k: Kind)
  {
    k == Clinic || k == Hospital
  }

  /** `status IN ('PENDING','ACCEPTED')`. */
  predicate IsOpen(s: Status)
  {
    s == Pending || s == Accepted
  }

  /* ---------------- token bucket ---------------- */

  predicate InBucket(a: Appointment, doctor: nat, day: int, kind: Kind)
  {
    a.doctorId == doctor && a.date == day && a.kind == kind
  }

  /**
   * `SELECT MAX(token_number) ... WHERE doctor_id = ? AND appointment_date = ?
   * AND appointment_type = ?`: NULL tokens are skipped and an empty bucket
   * gives NULL. The status is not in the WHERE clause.
   */
  function MaxToken(rows: seq<Appointment>, doctor: nat, day: int, kind: Kind): (m: Option<nat>)
    ensures m.None? <==>
      forall i :: 0 <= i < |rows| && InBucket(rows[i], doctor, day, kind) ==> rows[i].token.None?
    ensures m.Some? ==>
      forall i :: 0 <= i < |rows| && InBucket(rows[i], doctor, day, kind) && rows[i].token.Some?
        ==> rows[i].token.value <= m.value
    ensures m.Some? ==>
      exists i :: 0 <= i < |rows| && InBucket(rows[i], doctor, day, kind) && rows[i].token == m
  {
    if |rows| == 0 then None
    else
      var rest := MaxToken(rows[1..], doctor, day, kind);
      var here := if InBucket(rows[0], doctor, day, kind) then rows[0].token else None;
      assert forall i :: 1 <= i < |rows| ==> rows[i] == rows[1..][i - 1];
      var m := match (here, rest)
        case (None, r) => r
        case (Some(h), None) => Some(h)
        case (Some(h), Some(r)) => Some(if h < r then r else h);
      assert rest.Some? ==> exists i :: 1 <= i < |rows| && InBucket(rows[i], doctor, day, kind) && rows[i].token == rest by {
        if rest.Some? {
          var i :| 0 <= i < |rows[1..]| && InBucket(rows[1..][i], doctor, day, kind) && rows[1..][i].token == rest;
          assert rows[i + 1] == rows[1..][i];
        }
      }
      m
  }

  /**
   * `(lastToken || 0) + 1`: one more than the largest token in the bucket,
   * or 1 when the bucket has none. Every token already in the bucket, in any
   * status, is below it, so a token is never handed out twice.
   */
  function NextToken(rows: seq<Appointment>, doctor: nat, day: int, kind: Kind): (t: nat)
    ensures t >= 1
    ensures forall i :: (0 <= i < |rows| && InBucket(rows[i], doctor, day, kind) && rows[i].token.Some?)
                        ==> rows[i].token.value < t
    ensures (forall i :: 0 <= i < |rows| && InBucket(rows[i], doctor, day, kind) ==> rows[i].token.None?)
      ==> t == 1
    ensures t > 1 ==> exists i :: 0 <= i < |rows| && InBucket(rows[i], doctor, day, kind) && rows[i].token == Some(t - 1)
  {
    match MaxToken(rows, doctor, day, kind)
    case None => 1
    case Some(m) => m + 1
  }

  /**
   * `SELECT MIN(token_number) ... AND status IN ('ACCEPTED','IN_PROGRESS')`
   * over one bucket: the lowest token being served.
   */
  function MinServingToken(rows: seq<Appointment>, doctor: nat, day: int, kind: Kind): (m: Option<nat>)
    ensures m.None? <==>
      forall i :: 0 <= i < |rows| && Serving(rows[i], doctor, day, kind) ==> rows[i].token.None?
    ensures m.Some? ==>
      forall i :: 0 <= i < |rows| && Serving(rows[i], doctor, day, kind) && rows[i].token.Some?
        ==> m.value <= rows[i].token.value
    ensures m.Some? ==>
      exists i :: 0 <= i < |rows| && Serving(rows[i], doctor, day, kind) && rows[i].token == m
  {
    if |rows| == 0 then None
    else
      var rest := MinServingToken(rows[1..], doctor, day, kind);
      var here := if Serving(rows[0], doctor, day, kind) then rows[0].token else None;
      assert forall i :: 1 <= i < |rows| ==> rows[i] == rows[1..][i - 1];
      var m := match (here, rest)
        case (None, r) => r
        case (Some(h), None) => Some(h)
        case (Some(h), Some(r)) => Some(if h < r then h else r);
      assert rest.Some? ==> exists i :: 1 <= i < |rows| && Serving(rows[i], doctor, day, kind) && rows[i].token == rest by {
        if rest.Some? {
          var i :| 0 <= i < |rows[1..]| && Serving(rows[1..][i], doctor, day, kind) && rows[1..][i].token == rest;
          assert rows[i + 1] == rows[1..][i];
        }
      }
      m
  }

  /** A row of the bucket that is accepted or being seen. */
  predicate Serving(a: Appointment, doctor: nat, day: int, kind: Kind)
  {
    InBucket(a, doctor, day, kind) && (a.status == Accepted || a.status == InProgress)
  }

  /* ---------------- video slots ---------------- */

  /** A VIDEO row that is not CANCELLED and occupies (doctor, date, time). */
  predicate HoldsSlot(a: Appointment, doctor: nat, date: int, time: int)
  {
    a.kind == Video && a.status != Cancelled && a.doctorId == doctor && a.date == date && a.time == Some(time)
  }

  /**
   * The double-booking query: some other live VIDEO row of the doctor has the
   * same date and time; `except` is the `id != ?` conjunct of a reschedule.
   */
  predicate SlotTaken(rows: seq<Appointment>, doctor: nat, date: int, time: int, except: Option<nat>)
  {
    exists i :: 0 <= i < |rows| && HoldsSlot(rows[i], doctor, date, time)
      && (except.None? || rows[i].id != except.value)
  }

  /* ---------------- guarded updates ---------------- */

  /** The WHERE clause of an UPDATE ... SET status = 'CANCELLED'. */
  datatype Guard =
    | WithId(id: nat)                                        // id = ?
    | OwnedBy(id: nat, patient: nat)                         // id = ? AND patient_id = ?
    | OpenOwned(id: nat, patient: nat, kind: Kind)           // ... AND appointment_type = ? AND status IN ('PENDING','ACCEPTED')

  predicate Matches(a: Appointment, g: Guard)
  {
    match g
    case WithId(id) => a.id == id
    case OwnedBy(id, p) => a.id == id && a.patientId == Some(p)
    case OpenOwned(id, p, k) => a.id == id && a.patientId == Some(p) && a.kind == k && IsOpen(a.status)
  }

  /** The affected-row count of the UPDATE: how many rows the guard matches. */
  function Affected(rows: seq<Appointment>, g: Guard): (n: nat)
    ensures n <= |rows|
    ensures n == 0 <==> forall i :: 0 <= i < |rows| ==> !Matches(rows[i], g)
  {
    if |rows| == 0 then 0
    else
      assert forall i :: 1 <= i < |rows| ==> rows[i] == rows[1..][i - 1];
      (if Matches(rows[0], g) then 1 else 0) + Affected(rows[1..], g)
  }

  /** The table after `UPDATE appointments SET status = 'CANCELLED' WHERE g`. */
  function CancelWhere(rows: seq<Appointment>, g: Guard): (r: seq<Appointment>)
    ensures |r| == |rows|
    ensures forall i :: 0 <= i < |rows| ==>
      r[i] == if Matches(rows[i], g) then rows[i].(status := Cancelled) else rows[i]
  {
    seq(|rows|, i requires 0 <= i < |rows| =>
      if Matches(rows[i], g) then rows[i].(status := Cancelled) else rows[i])
  }

  /** The table after `UPDATE appointments SET appointment_date = ?, appointment_time = ? WHERE id = ?`. */
  function MoveWhere(rows: seq<Appointment>, id: nat, date: int, time: int): (r: seq<Appointment>)
    ensures |r| == |rows|
    ensures forall i :: 0 <= i < |rows| ==>
      r[i] == if rows[i].id == id then rows[i].(date := date, time := Some(time)) else rows[i]
  {
    seq(|rows|, i requires 0 <= i < |rows| =>
      if rows[i].id == id then rows[i].(date := date, time := Some(time)) else rows[i])
  }

  /* ---------------- table invariant ---------------- */

  ghost predicate UniqueIds(rows: seq<Appointment>)
  {
    forall i, j :: 0 <= i < j < |rows| ==> rows[i].id != rows[j].id
  }

  /** No two CLINIC/HOSPITAL rows of one bucket carry the same token. */
  ghost predicate VisitTokensDistinct(rows: seq<Appointment>)
  {
    forall i, j ::
      (0 <= i < j < |rows| && IsVisit(rows[i].kind) && rows[i].token.Some?
       && InBucket(rows[j], rows[i].doctorId, rows[i].date, rows[i].kind))
      ==> rows[i].token != rows[j].token
  }

  /** No two live VIDEO rows of one doctor share a date and a time. */
  ghost predicate VideoSlotsDistinct(rows: seq<Appointment>)
  {
    forall i, j :: 0 <= i < j < |rows| && rows[i].time.Some?
      && HoldsSlot(rows[i], rows[j].doctorId, rows[j].date, rows[i].time.value)
      ==> !HoldsSlot(rows[j], rows[i].doctorId, rows[i].date, rows[i].time.value)
  }

  ghost predicate Consistent(rows: seq<Appointment>, nextId: nat)
  {
    && (forall i :: 0 <= i < |rows| ==> rows[i].id < nextId)
    && UniqueIds(rows)
    && VisitTokensDistinct(rows)
    && VideoSlotsDistinct(rows)
  }

  /** What an INSERT must respect: a fresh token in its bucket, a free video slot. */
  predicate Fits(rows: seq<Appointment>, a: Appointment)
  {
    && (IsVisit(a.kind) && a.token.Some? ==>
          forall i :: 0 <= i < |rows| && InBucket(rows[i], a.doctorId, a.date, a.kind) ==> rows[i].token != a.token)
    && (a.kind == Video && a.status != Cancelled && a.time.Some? ==>
          !SlotTaken(rows, a.doctorId, a.date, a.time.value, None))
  }

  /** With unique ids a guard, which always fixes the id, matches at most one row. */
  lemma {:induction false} AffectedAtMostOne(rows: seq<Appointment>, g: Guard)
    requires UniqueIds(rows)
    ensures Affected(rows, g) <= 1
  {
    if |rows| > 0 {
      assert UniqueIds(rows[1..]) by {
        forall i, j | 0 <= i < j < |rows[1..]| ensures rows[1..][i].id != rows[1..][j].id {
          assert rows[1..][i] == rows[i + 1] && rows[1..][j] == rows[j + 1];
        }
      }
      AffectedAtMostOne(rows[1..], g);
      if Matches(rows[0], g) {
        forall i | 0 <= i < |rows[1..]| ensures !Matches(rows[1..][i], g) {
          assert rows[1..][i] == rows[i + 1];
          assert rows[0].id != rows[i + 1].id;
        }
      }
    }
  }

  /** A successful insert keeps the table consistent. */
  lemma InsertKeepsConsistent(rows: seq<Appointment>, nextId: nat, a: Appointment)
    requires Consistent(rows, nextId)
    requires Fits(rows, a)
    requires a.id == nextId
    ensures Consistent(rows + [a], nextId + 1)
  {
    var r := rows + [a];
    forall i, j | 0 <= i < j < |r| && IsVisit(r[i].kind) && InBucket(r[j], r[i].doctorId, r[i].date, r[i].kind)
      && r[i].token.Some?
      ensures r[i].token != r[j].token
    {
      if j == |rows| {
        assert InBucket(rows[i], a.doctorId, a.date, a.kind);
      }
    }
    forall i, j | 0 <= i < j < |r| && r[i].time.Some?
      && HoldsSlot(r[i], r[j].doctorId, r[j].date, r[i].time.value)
      ensures !HoldsSlot(r[j], r[i].doctorId, r[i].date, r[i].time.value)
    {
      if j == |rows| && a.time.Some? {
        assert HoldsSlot(a, r[i].doctorId, r[i].date, r[i].time.value)
          ==> HoldsSlot(rows[i], a.doctorId, a.date, a.time.value);
      }
    }
  }

  lemma CancelKeepsConsistent(rows: seq<Appointment>, nextId: nat, g: Guard)
    requires Consistent(rows, nextId)
    ensures Consistent(CancelWhere(rows, g), nextId)
  {
    var r := CancelWhere(rows, g);
    forall i, j | 0 <= i < j < |r| && r[i].time.Some?
      && HoldsSlot(r[i], r[j].doctorId, r[j].date, r[i].time.value)
      ensures !HoldsSlot(r[j], r[i].doctorId, r[i].date, r[i].time.value)
    {
      assert HoldsSlot(rows[i], rows[j].doctorId, rows[j].date, rows[i].time.value);
    }
  }

  lemma MoveKeepsConsistent(rows: seq<Appointment>, nextId: nat, id: nat, date: int, time: int)
    requires Consistent(rows, nextId)
    requires forall i :: 0 <= i < |rows| && rows[i].id == id ==>
      rows[i].kind == Video && !SlotTaken(rows, rows[i].doctorId, date, time, Some(id))
    ensures Consistent(MoveWhere(rows, id, date, time), nextId)
  {
    var r := MoveWhere(rows, id, date, time);
    forall i, j | 0 <= i < j < |r| && r[i].time.Some?
      && HoldsSlot(r[i], r[j].doctorId, r[j].date, r[i].time.value)
      ensures !HoldsSlot(r[j], r[i].doctorId, r[i].date, r[i].time.value)
    {
      var newI, newJ, oldI, oldJ := r[i], r[j], rows[i], rows[j];
      if oldI.id == id {
        assert oldJ.id != id;
        assert HoldsSlot(newJ, newI.doctorId, newI.date, newI.time.value)
          ==> HoldsSlot(oldJ, oldI.doctorId, date, time);
      } else if oldJ.id == id {
        assert HoldsSlot(newJ, newI.doctorId, newI.date, newI.time.value)
          ==> HoldsSlot(oldI, oldJ.doctorId, date, time);
      } else {
        assert HoldsSlot(rows[i], rows[j].doctorId, rows[j].date, rows[i].time.value);
      }
    }
  }

  /* ---------------- how the next token evolves ---------------- */

  /** The three facts `NextToken` ensures single out one number. */
  lemma NextTokenDetermined(rows: seq<Appointment>, doctor: nat, day: int, kind: Kind, t: nat)
    requires t >= 1
    requires forall i :: (0 <= i < |rows| && InBucket(rows[i], doctor, day, kind) && rows[i].token.Some?)
                         ==> rows[i].token.value < t
    requires t > 1 ==> exists i :: 0 <= i < |rows| && InBucket(rows[i], doctor, day, kind) && rows[i].token == Some(t - 1)
    ensures t == NextToken(rows, doctor, day, kind)
  {
  }

  /**
   * Booking with the bucket's next token advances that bucket by exactly one:
   * successive bookings of one bucket get 1, 2, 3, ... whoever makes them.
   */
  lemma NextTokenAfterBooking(rows: seq<Appointment>, a: Appointment)
    requires a.token == Some(NextToken(rows, a.doctorId, a.date, a.kind))
    ensures NextToken(rows + [a], a.doctorId, a.date, a.kind) == NextToken(rows, a.doctorId, a.date, a.kind) + 1
  {
    var n := NextToken(rows, a.doctorId, a.date, a.kind);
    var r := rows + [a];
    assert r[|rows|] == a;
    assert forall i :: 0 <= i < |rows| ==> r[i] == rows[i];
    NextTokenDetermined(r, a.doctorId, a.date, a.kind, n + 1);
  }

  /** A row booked into another bucket leaves this bucket's next token alone. */
  lemma NextTokenOtherBucket(rows: seq<Appointment>, a: Appointment, doctor: nat, day: int, kind: Kind)
    requires !InBucket(a, doctor, day, kind)
    ensures NextToken(rows + [a], doctor, day, kind) == NextToken(rows, doctor, day, kind)
  {
    var n := NextToken(rows, doctor, day, kind);
    var r := rows + [a];
    assert forall i :: 0 <= i < |rows| ==> r[i] == rows[i];
    if n > 1 {
      var i :| 0 <= i < |rows| && InBucket(rows[i], doctor, day, kind) && rows[i].token == Some(n - 1);
      assert r[i] == rows[i];
    }
    NextTokenDetermined(r, doctor, day, kind, n);
  }

  /**
   * Cancelling keeps the row and its token, so the bucket's next token does
   * not move: a cancelled token is never handed out again.
   */
  lemma NextTokenAfterCancel(rows: seq<Appointment>, g: Guard, doctor: nat, day: int, kind: Kind)
    ensures NextToken(CancelWhere(rows, g), doctor, day, kind) == NextToken(rows, doctor, day, kind)
  {
    var n := NextToken(rows, doctor, day, kind);
    var r := CancelWhere(rows, g);
    if n > 1 {
      var i :| 0 <= i < |rows| && InBucket(rows[i], doctor, day, kind) && rows[i].token == Some(n - 1);
      assert InBucket(r[i], doctor, day, kind) && r[i].token == Some(n - 1);
    }
    NextTokenDetermined(r, doctor, day, kind, n);
  }

  class AppointmentTable {
    var rows: seq<Appointment>
    /** The AUTO_INCREMENT counter of `appointments.id`. */
    var nextId: nat

    ghost predicate Valid()
      reads this
    {
      Consistent(rows, nextId)
    }

    constructor ()
      ensures Valid() && rows == [] && nextId == 1
    {
      rows := [];
      nextId := 1;
    }

    /** INSERT INTO appointments: the row gets the next id. */
    method Insert(a: Appointment) returns (id: nat)
      requires Valid() && Fits(rows, a)
      modifies this
      ensures Valid()
      ensures id == old(nextId) && nextId == id + 1
      ensures rows == old(rows) + [a.(id := id)]
    {
      id := nextId;
      InsertKeepsConsistent(rows, nextId, a.(id := id));
      rows := rows + [a.(id := id)];
      nextId := nextId + 1;
    }

    /** UPDATE appointments SET status = 'CANCELLED' WHERE g; returns affectedRows. */
    method Cancel(g: Guard) returns (affected: nat)
      requires Valid()
      modifies this
      ensures Valid() && nextId == old(nextId)
      ensures rows == CancelWhere(old(rows), g)
      ensures affected == Affected(old(rows), g) && affected <= 1
    {
      affected := Affected(rows, g);
      AffectedAtMostOne(rows, g);
      CancelKeepsConsistent(rows, nextId, g);
      rows := CancelWhere(rows, g);
    }

    /** UPDATE appointments SET appointment_date = ?, appointment_time = ? WHERE id = ?. */
    method Move(id: nat, date: int, time: int)
      requires Valid()
      requires forall i :: 0 <= i < |rows| && rows[i].id == id ==>
        rows[i].kind == Video && !SlotTaken(rows, rows[i].doctorId, date, time, Some(id))
      modifies this
      ensures Valid() && nextId == old(nextId)
      ensures rows == MoveWhere(old(rows), id, date, time)
    {
      MoveKeepsConsistent(rows, nextId, id, date, time);
      rows := MoveWhere(rows, id, date, time);
    }
  }
}
