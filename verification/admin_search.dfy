/**
 * The appointment search of the admin controller (getAllAppointments): the
 * WHERE clause starts as `1=1` and gains one `AND column = ?` conjunct, with
 * its value pushed onto the parameter list, for each filter supplied.
 */
module AdminSearch {
  import opened Common
  import opened Query
  import opened Appointments

  /** A filter the caller supplied: one `AND column = ?` conjunct and its parameter. */
  datatype Condition = DoctorIs(doctor: nat) | DateIs(date: int) | StatusIs(status: string)

  const BASE_QUERY := "SELECT * FROM appointments WHERE 1=1"

  /** The conjunct up to its placeholder. */
  function ClauseHead(c: Condition): string
  {
    match c
    case DoctorIs(_) => " AND doctor_id="
    case DateIs(_) => " AND appointment_date="
    case StatusIs(_) => " AND status="
  }

  /** The conjunct a filter appends: `" AND doctor_id=?"` and so on. */
  function Clause(c: Condition): string
  {
    ClauseHead(c) + "?"
  }

  function Param(c: Condition): SqlValue
  {
    match c
    case DoctorIs(d) => Number(d)
    case DateIs(d) => Number(d)
    case StatusIs(s) => Text(s)
  }

  /** The query text: the base query, then one conjunct per filter, in order. */
  function QueryText(cs: seq<Condition>): string
  {
    if |cs| == 0 then BASE_QUERY else QueryText(cs[..|cs| - 1]) + Clause(cs[|cs| - 1])
  }

  /** The `params` array, in the order of the conjuncts. */
  function Params(cs: seq<Condition>): (ps: seq<SqlValue>)
    ensures |ps| == |cs|
    ensures forall i :: 0 <= i < |cs| ==> ps[i] == Param(cs[i])
  {
    if |cs| == 0 then [] else Params(cs[..|cs| - 1]) + [Param(cs[|cs| - 1])]
  }

  /**
   * The filters in the order the controller tests them. An empty query
   * string is falsy and adds nothing; `None` stands for absent or empty.
   */
  function Conditions(doctorId: Option<nat>, date: Option<int>, status: Option<string>): (cs: seq<Condition>)
    ensures |cs| <= 3
  {
    (if doctorId.Some? then [DoctorIs(doctorId.value)] else [])
    + (if date.Some? then [DateIs(date.value)] else [])
    + (if Given(status) then [StatusIs(status.value)] else [])
  }

  /** The row satisfies one conjunct. */
  predicate Holds(a: Appointment, c: Condition)
  {
    match c
    case DoctorIs(d) => a.doctorId == d
    case DateIs(d) => a.date == d
    case StatusIs(s) => StatusName(a.status) == s
  }

  /** The row satisfies `1=1` and every conjunct. */
  predicate HoldsAll(a: Appointment, cs: seq<Condition>)
  {
    forall c :: c in cs ==> Holds(a, c)
  }

  predicate IsPlaceholder(c: char)
  {
    c == '?'
  }

  /** Appending a filter appends its conjunct to the text and its value to the parameters. */
  lemma ClausesAppend(cs: seq<Condition>, c: Condition)
    ensures QueryText(cs + [c]) == QueryText(cs) + Clause(c)
    ensures Params(cs + [c]) == Params(cs) + [Param(c)]
  {
    assert (cs + [c])[..|cs|] == cs;
  }

  /**
   * The query text and the parameter list, built as the controller builds
   * them: `query += ...` and `params.push(...)` once per supplied filter.
   */
  method AppointmentQuery(doctorId: Option<nat>, date: Option<int>, status: Option<string>)
    returns (query: string, params: seq<SqlValue>)
    ensures query == QueryText(Conditions(doctorId, date, status))
    ensures params == Params(Conditions(doctorId, date, status))
  {
    ghost var cs: seq<Condition> := [];
    query := BASE_QUERY;
    params := [];
    if doctorId.Some? {
      ClausesAppend(cs, DoctorIs(doctorId.value));
      query := query + Clause(DoctorIs(doctorId.value));
      params := params + [Number(doctorId.value)];
      cs := cs + [DoctorIs(doctorId.value)];
    }
    if date.Some? {
      ClausesAppend(cs, DateIs(date.value));
      query := query + Clause(DateIs(date.value));
      params := params + [Number(date.value)];
      cs := cs + [DateIs(date.value)];
    }
    if Given(status) {
      ClausesAppend(cs, StatusIs(status.value));
      query := query + Clause(StatusIs(status.value));
      params := params + [Text(status.value)];
      cs := cs + [StatusIs(status.value)];
    }
    assert cs == Conditions(doctorId, date, status);
  }

  /** No `?` in a piece of query text. */
  predicate NoPlaceholder(s: string)
  {
    forall i :: 0 <= i < |s| ==> !IsPlaceholder(s[i])
  }

  /** Each conjunct carries exactly one `?`. */
  lemma ClausePlaceholders(c: Condition)
    ensures Count(Clause(c), IsPlaceholder) == 1
  {
    assert NoPlaceholder(ClauseHead(c));
    CountAppend(ClauseHead(c), "?", IsPlaceholder);
  }

  /** The query has exactly as many placeholders as there are parameters. */
  lemma {:induction false} PlaceholdersMatchParams(cs: seq<Condition>)
    ensures Count(QueryText(cs), IsPlaceholder) == |Params(cs)|
  {
    if |cs| == 0 {
      assert NoPlaceholder(BASE_QUERY);
    } else {
      PlaceholdersMatchParams(cs[..|cs| - 1]);
      CountAppend(QueryText(cs[..|cs| - 1]), Clause(cs[|cs| - 1]), IsPlaceholder);
      ClausePlaceholders(cs[|cs| - 1]);
    }
  }

  /** What the filters ask of a row, column by column. */
  predicate Selected(a: Appointment, doctorId: Option<nat>, date: Option<int>, status: Option<string>)
  {
    && (doctorId.Some? ==> a.doctorId == doctorId.value)
    && (date.Some? ==> a.date == date.value)
    && (Given(status) ==> StatusName(a.status) == status.value)
  }

  /** The built conjuncts say exactly what the filters ask, and no filter means no conjunct. */
  lemma ConditionsMeaning(a: Appointment, doctorId: Option<nat>, date: Option<int>, status: Option<string>)
    ensures HoldsAll(a, Conditions(doctorId, date, status)) <==> Selected(a, doctorId, date, status)
    ensures Conditions(doctorId, date, status) == [] <==> doctorId.None? && date.None? && !Given(status)
  {
    var cs := Conditions(doctorId, date, status);
    if doctorId.Some? { assert DoctorIs(doctorId.value) in cs; }
    if date.Some? { assert DateIs(date.value) in cs; }
    if Given(status) { assert StatusIs(status.value) in cs; }
  }

  /** The rows the search selects, in table order. */
  function Search(rows: seq<Appointment>, doctorId: Option<nat>, date: Option<int>, status: Option<string>): (r: seq<Appointment>)
    ensures |r| <= |rows|
    ensures forall a :: a in r <==> a in rows && Selected(a, doctorId, date, status)
  {
    if |rows| == 0 then []
    else
      assert forall a :: a in rows <==> a == rows[0] || a in rows[1..];
      (if Selected(rows[0], doctorId, date, status) then [rows[0]] else []) + Search(rows[1..], doctorId, date, status)
  }

  /** A `WHERE` condition that agrees with the filters selects exactly the searched rows. */
  lemma {:induction false} FilterIsSearch(rows: seq<Appointment>, p: Appointment -> bool,
                                          doctorId: Option<nat>, date: Option<int>, status: Option<string>)
    requires forall a :: p(a) <==> Selected(a, doctorId, date, status)
    ensures Filter(rows, p) == Search(rows, doctorId, date, status)
  {
    if |rows| > 0 {
      FilterIsSearch(rows[1..], p, doctorId, date, status);
    }
  }

  /**
   * getAllAppointments: the rows the built query selects. Each supplied
   * filter restricts its column; with no filter every row comes back.
   */
  method GetAllAppointments(table: AppointmentTable, doctorId: Option<nat>, date: Option<int>, status: Option<string>)
    returns (rows: seq<Appointment>)
    ensures rows == Search(table.rows, doctorId, date, status)
    ensures forall a :: a in rows <==> a in table.rows && Selected(a, doctorId, date, status)
    ensures doctorId.None? && date.None? && !Given(status) ==> rows == table.rows
  {
    var query, params := AppointmentQuery(doctorId, date, status);
    var cs := Conditions(doctorId, date, status);
    rows := Filter(table.rows, (a: Appointment) => HoldsAll(a, cs));
    forall a ensures HoldsAll(a, cs) <==> Selected(a, doctorId, date, status) {
      ConditionsMeaning(a, doctorId, date, status);
    }
    FilterIsSearch(table.rows, (a: Appointment) => HoldsAll(a, cs), doctorId, date, status);
    if cs == [] {
      FilterAll(table.rows, (a: Appointment) => HoldsAll(a, cs));
    }
  }

  /** Filtering with a condition every row meets keeps the table as it is. */
  lemma {:induction false} FilterAll<T(!new)>(s: seq<T>, p: T -> bool)
    requires forall x :: p(x)
    ensures Filter(s, p) == s
  {
    if |s| > 0 {
      FilterAll(s[1..], p);
    }
  }
}
