/**
 * Doctor self-registration: an ordered chain of request checks, then a
 * transaction that refuses a taken login id or licence number and otherwise
 * inserts a DOCTOR user and a PENDING doctor row. `availableDays` is stored
 * as the JSON text of the submitted array.
 */
module DoctorController {
  import opened Common
  import opened Text
  import opened Accounts

  datatype DoctorForm = DoctorForm(
    doctorName: Option<string>,
    degree: Option<string>,
    licenseNumber: Option<string>,
    specialization: Option<string>,
    clinicName: Option<string>,
    city: Option<string>,
    address: Option<string>,
    consultationFee: Option<string>,
    timings: Option<string>,
    /** `None` when the field is not an array; only arrays of strings are modelled. */
    availableDays: Option<seq<string>>,
    email: Option<string>,
    password: Option<string>,
    confirmPassword: Option<string>)

  /** The six fields whose absence is "Required fields missing". */
  predicate RequiredGiven(f: DoctorForm)
  {
    Given(f.doctorName) && Given(f.email) && Given(f.password) && Given(f.confirmPassword)
    && Given(f.licenseNumber) && Given(f.specialization)
  }

  /** Every check before the transaction passes. */
  ghost predicate Acceptable(f: DoctorForm)
  {
    RequiredGiven(f) && MatchesEmailPattern(f.email.value) && f.password == f.confirmPassword
    && Utf16Length(f.password.value) >= 8 && f.availableDays.Some?
  }

  /** The message of the first failing check, `None` when all pass. */
  function DoctorProblem(f: DoctorForm): (m: Option<string>)
    ensures m.None? <==> Acceptable(f)
    ensures !RequiredGiven(f) ==> m == Some("Required fields missing")
    ensures RequiredGiven(f) && !MatchesEmailPattern(f.email.value) ==> m == Some("Invalid email format")
    ensures (RequiredGiven(f) && MatchesEmailPattern(f.email.value) && f.password != f.confirmPassword)
      ==> m == Some("Passwords do not match")
    ensures (RequiredGiven(f) && MatchesEmailPattern(f.email.value) && f.password == f.confirmPassword
             && Utf16Length(f.password.value) < 8) ==> m == Some("Password must be at least 8 characters long")
    ensures (RequiredGiven(f) && MatchesEmailPattern(f.email.value) && f.password == f.confirmPassword
             && Utf16Length(f.password.value) >= 8 && f.availableDays.None?) ==> m == Some("availableDays must be an array")
  {
    if !RequiredGiven(f) then Some("Required fields missing")
    else if (IsEmailMatchesPattern(f.email.value); !IsEmail(f.email.value)) then Some("Invalid email format")
    else if f.password != f.confirmPassword then Some("Passwords do not match")
    else if Utf16Length(f.password.value) < 8 then Some("Password must be at least 8 characters long")
    else if f.availableDays.None? then Some("availableDays must be an array")
    else None
  }

  /* ---------------- JSON.stringify of the day list ---------------- */

  /** A character inside a JSON string: `"` and `\` get a backslash. */
  function EscapeChar(c: char): (r: string)
    ensures |r| >= 1 && r[|r| - 1] == c
  {
    if c == '"' || c == '\\' then ['\\', c] else [c]
  }

  function Escape(s: string): string
  {
    if |s| == 0 then "" else EscapeChar(s[0]) + Escape(s[1..])
  }

  /** The JSON text of a string. */
  function Quote(s: string): string
  {
    "\"" + Escape(s) + "\""
  }

  /** The elements of the array, quoted and separated by commas. */
  function JoinQuoted(days: seq<string>): string
  {
    if |days| == 0 then ""
    else if |days| == 1 then Quote(days[0])
    else Quote(days[0]) + "," + JoinQuoted(days[1..])
  }

  /** `JSON.stringify(availableDays)` for an array of strings. */
  function JsonStringArray(days: seq<string>): (r: string)
    ensures |r| >= 2 && r[0] == '[' && r[|r| - 1] == ']'
  {
    "[" + JoinQuoted(days) + "]"
  }

  /**
   * Reads the rest of a JSON string after its opening quote: the decoded
   * text and what follows the closing quote.
   */
  function ReadString(s: string): (r: Option<(string, string)>)
    ensures r.Some? ==> |r.value.1| < |s|
  {
    if |s| == 0 then None
    else if s[0] == '"' then Some(("", s[1..]))
    else if s[0] == '\\' then
      if |s| < 2 then None
      else match ReadString(s[2..])
        case None => None
        case Some((text, rest)) => Some(([s[1]] + text, rest))
    else match ReadString(s[1..])
      case None => None
      case Some((text, rest)) => Some(([s[0]] + text, rest))
  }

  /** Reads `"x", "y", ... ]`: one quoted string, then a comma and more, or the closing bracket. */
  function ReadItems(s: string): Option<seq<string>>
    decreases |s|
  {
    if |s| == 0 || s[0] != '"' then None
    else match ReadString(s[1..])
      case None => None
      case Some((text, rest)) =>
        if rest == "]" then Some([text])
        else if |rest| > 0 && rest[0] == ',' then
          match ReadItems(rest[1..])
          case None => None
          case Some(more) => Some([text] + more)
        else None
  }

  /** `JSON.parse` for an array of strings; `None` for any other text. */
  function ParseStringArray(s: string): Option<seq<string>>
  {
    if s == "[]" then Some([])
    else if |s| > 0 && s[0] == '[' then ReadItems(s[1..])
    else None
  }

  /** Reading one escaped character consumes exactly its escape. */
  lemma ReadStep(c: char, tail: string, x: string, rest: string)
    requires ReadString(tail) == Some((x, rest))
    ensures ReadString(EscapeChar(c) + tail) == Some(([c] + x, rest))
  {
    var e := EscapeChar(c);
    var s := e + tail;
    if |e| == 2 {
      assert s[0] == '\\' && s[1] == c && s[2..] == tail;
    } else {
      assert s[0] == c && s[1..] == tail;
    }
  }

  lemma {:induction false} ReadEscaped(x: string, rest: string)
    ensures ReadString(Escape(x) + "\"" + rest) == Some((x, rest))
    decreases |x|
  {
    if |x| == 0 {
      assert Escape(x) + "\"" + rest == "\"" + rest;
    } else {
      var tail := Escape(x[1..]) + "\"" + rest;
      ReadEscaped(x[1..], rest);
      assert Escape(x) + "\"" + rest == EscapeChar(x[0]) + tail;
      ReadStep(x[0], tail, x[1..], rest);
      assert [x[0]] + x[1..] == x;
    }
  }

  lemma {:induction false} ReadJoined(days: seq<string>)
    requires |days| > 0
    ensures ReadItems(JoinQuoted(days) + "]") == Some(days)
    decreases |days|
  {
    var s := JoinQuoted(days) + "]";
    if |days| == 1 {
      assert s == "\"" + (Escape(days[0]) + "\"" + "]");
      ReadEscaped(days[0], "]");
      assert s[1..] == Escape(days[0]) + "\"" + "]";
      assert s[0] == '"' && [days[0]] == days;
    } else {
      var tail := JoinQuoted(days[1..]) + "]";
      assert s == "\"" + (Escape(days[0]) + "\"" + ("," + tail));
      ReadEscaped(days[0], "," + tail);
      assert s[1..] == Escape(days[0]) + "\"" + ("," + tail);
      assert s[0] == '"';
      ReadJoined(days[1..]);
      assert ("," + tail)[1..] == tail;
      assert "," + tail != "]";
      assert [days[0]] + days[1..] == days;
    }
  }

  /** The stored `availableDays` text reads back as the submitted list. */
  lemma DaysRoundTrip(days: seq<string>)
    ensures ParseStringArray(JsonStringArray(days)) == Some(days)
  {
    var s := JsonStringArray(days);
    if |days| == 0 {
      assert s == "[]";
    } else {
      ReadJoined(days);
      assert s[1..] == JoinQuoted(days) + "]";
    }
  }

  /* ---------------- the doctors row ---------------- */

  /**
   * The INSERT INTO doctors as written (doctorController.js:118-138): the
   * column list names `email` before `clinicName`, but the value list passes
   * `clinicName` before `email`, so each lands in the other's column.
   */
  function DoctorRowAsWritten(userId: nat, f: DoctorForm, days: seq<string>): (d: DoctorRow)
    requires Given(f.doctorName) && Given(f.email) && Given(f.licenseNumber) && Given(f.specialization)
    ensures d.email == f.clinicName && d.clinicName == f.email
  {
    DoctorRow(userId, f.doctorName.value, f.degree, f.licenseNumber.value, f.specialization.value,
              f.clinicName, f.email, f.city, f.address, f.consultationFee, f.timings,
              JsonStringArray(days), DoctorPending)
  }

  /** A registration without a clinic name stores no e-mail and files the e-mail as the clinic. */
  lemma DoctorRowAsWrittenSwaps(userId: nat, f: DoctorForm, days: seq<string>)
    requires Given(f.doctorName) && Given(f.email) && Given(f.licenseNumber) && Given(f.specialization)
    requires f.clinicName.None?
    ensures DoctorRowAsWritten(userId, f, days).email.None?
    ensures DoctorRowAsWritten(userId, f, days).clinicName == f.email
    ensures DoctorRowAsWritten(userId, f, days) != DoctorRowFor(userId, f, days)
  {
  }

  /**
   * The row as evidently intended: each request field in its own column,
   * absent optional fields NULL, the day list as JSON, status PENDING.
   */
  function DoctorRowFor(userId: nat, f: DoctorForm, days: seq<string>): (d: DoctorRow)
    requires Given(f.doctorName) && Given(f.email) && Given(f.licenseNumber) && Given(f.specialization)
    ensures d.userId == userId && d.status == DoctorPending
    ensures Some(d.doctorName) == f.doctorName && Some(d.licenseNumber) == f.licenseNumber
    ensures Some(d.specialization) == f.specialization
    ensures d.email == f.email && d.clinicName == f.clinicName && d.degree == f.degree
    ensures d.city == f.city && d.address == f.address && d.consultationFee == f.consultationFee && d.timings == f.timings
    ensures ParseStringArray(d.availableDays) == Some(days)
  {
    DaysRoundTrip(days);
    DoctorRow(userId, f.doctorName.value, f.degree, f.licenseNumber.value, f.specialization.value,
              f.email, f.clinicName, f.city, f.address, f.consultationFee, f.timings,
              JsonStringArray(days), DoctorPending)
  }

  /* ---------------- register ---------------- */

  /**
   * register: 400 with the first failing check's message; in the
   * transaction, 409 for a login id already taken by the e-mail, then 409 for
   * a licence number already on file, both rolled back; otherwise a DOCTOR
   * user and its PENDING doctor row. `fault` is a database error in the
   * transaction: it rolls back and answers 500.
   */
  method Register(accounts: AccountTables, f: DoctorForm, hashed: string, fault: bool)
    returns (code: nat, message: string)
    requires accounts.Valid()
    modifies accounts
    ensures accounts.Valid()
    ensures DoctorProblem(f).Some? ==>
      code == BAD_REQUEST && message == DoctorProblem(f).value && unchanged(accounts)
    ensures DoctorProblem(f).None? && fault ==> code == SERVER_ERROR && unchanged(accounts)
    ensures DoctorProblem(f).None? && !fault && LoginTaken(old(accounts.users), f.email.value)
      ==> code == CONFLICT && message == "Doctor already exists" && unchanged(accounts)
    ensures (DoctorProblem(f).None? && !fault && !LoginTaken(old(accounts.users), f.email.value)
             && LicenseTaken(old(accounts.doctors), f.licenseNumber.value))
      ==> code == CONFLICT && message == "License number already registered" && unchanged(accounts)
    ensures (DoctorProblem(f).None? && !fault && !LoginTaken(old(accounts.users), f.email.value)
             && !LicenseTaken(old(accounts.doctors), f.licenseNumber.value)) ==>
      && code == CREATED
      && accounts.users == old(accounts.users)
         + [User(old(accounts.nextUserId), f.email, None, None, hashed, Doctor, true)]
      && accounts.doctors == old(accounts.doctors)
         + [DoctorRowFor(old(accounts.nextUserId), f, f.availableDays.value)]
      && accounts.patients == old(accounts.patients)
  {
    var problem := DoctorProblem(f);
    if problem.Some? {
      return BAD_REQUEST, problem.value;
    }
    if fault {
      return SERVER_ERROR, "Server error";
    }
    if LoginTaken(accounts.users, f.email.value) {
      return CONFLICT, "Doctor already exists";
    }
    if LicenseTaken(accounts.doctors, f.licenseNumber.value) {
      return CONFLICT, "License number already registered";
    }
    var userId := accounts.InsertUser(f.email.value, hashed, Doctor);
    accounts.InsertDoctor(DoctorRowFor(userId, f, f.availableDays.value));
    return CREATED, "Doctor registered successfully. Waiting for admin approval.";
  }
}
