/**
 * The account half of the patient controller: registration, the profile
 * update, and the family-member CRUD. Password hashing is not modelled:
 * registration receives the hash bcrypt produced as `hashed`.
 */
module PatientAccount {
  import opened Common
  import opened Text
  import opened Query
  import opened Accounts
  import Family

  /* ---------------- registration ---------------- */

  datatype RegisterForm = RegisterForm(
    fullName: Option<string>,
    phone: Option<string>,
    email: Option<string>,
    password: Option<string>,
    confirmPassword: Option<string>,
    gender: Option<string>,
    dob: Option<string>)

  predicate AllGiven(f: RegisterForm)
  {
    Given(f.fullName) && Given(f.phone) && Given(f.email) && Given(f.password)
    && Given(f.confirmPassword) && Given(f.gender) && Given(f.dob)
  }

  /**
   * The validation chain, before any database access: the message of the
   * first failing check, or `None` when the form passes them all.
   */
  function RegisterProblem(f: RegisterForm): (m: Option<string>)
    ensures m.None? <==>
      (AllGiven(f) && MatchesEmailPattern(f.email.value) && IsPhone(f.phone.value)
       && f.password == f.confirmPassword && Utf16Length(f.password.value) >= 8)
    ensures !AllGiven(f) ==> m == Some("All fields are required")
    ensures AllGiven(f) && !MatchesEmailPattern(f.email.value) ==> m == Some("Invalid email format")
    ensures AllGiven(f) && MatchesEmailPattern(f.email.value) && !IsPhone(f.phone.value)
      ==> m == Some("Invalid phone number")
    ensures (AllGiven(f) && MatchesEmailPattern(f.email.value) && IsPhone(f.phone.value)
             && f.password != f.confirmPassword) ==> m == Some("Passwords do not match")
    ensures (AllGiven(f) && MatchesEmailPattern(f.email.value) && IsPhone(f.phone.value)
             && f.password == f.confirmPassword && Utf16Length(f.password.value) < 8)
      ==> m == Some("Password must be at least 8 characters")
  {
    if !AllGiven(f) then Some("All fields are required")
    else if (IsEmailMatchesPattern(f.email.value); !IsEmail(f.email.value)) then Some("Invalid email format")
    else if !IsPhone(f.phone.value) then Some("Invalid phone number")
    else if f.password != f.confirmPassword then Some("Passwords do not match")
    else if Utf16Length(f.password.value) < 8 then Some("Password must be at least 8 characters")
    else None
  }

  /**
   * register: 400 with the first failing check's message, then inside the
   * transaction 409 when the e-mail is already a login id, else one PATIENT
   * user and one patient row. `fault` is a database error inside the
   * transaction: it rolls back and answers 500.
   */
  method Register(accounts: AccountTables, f: RegisterForm, hashed: string, fault: bool)
    returns (code: nat, message: string)
    requires accounts.Valid()
    modifies accounts
    ensures accounts.Valid()
    ensures RegisterProblem(f).Some? ==>
      code == BAD_REQUEST && message == RegisterProblem(f).value && unchanged(accounts)
    ensures RegisterProblem(f).None? && fault ==> code == SERVER_ERROR && unchanged(accounts)
    ensures RegisterProblem(f).None? && !fault && LoginTaken(old(accounts.users), f.email.value)
      ==> code == CONFLICT && message == "User already exists" && unchanged(accounts)
    ensures RegisterProblem(f).None? && !fault && !LoginTaken(old(accounts.users), f.email.value) ==>
      && code == CREATED
      && accounts.users == old(accounts.users)
         + [User(old(accounts.nextUserId), f.email, None, None, hashed, Patient, true)]
      && accounts.patients == old(accounts.patients)
         + [PatientRow(old(accounts.nextUserId), f.fullName.value, f.phone.value, f.gender.value, f.dob.value, f.email.value)]
      && accounts.doctors == old(accounts.doctors)
  {
    var problem := RegisterProblem(f);
    if problem.Some? {
      return BAD_REQUEST, problem.value;
    }
    if fault {
      return SERVER_ERROR, "Server error";
    }
    if LoginTaken(accounts.users, f.email.value) {
      return CONFLICT, "User already exists";
    }
    var userId := accounts.InsertUser(f.email.value, hashed, Patient);
    accounts.InsertPatient(PatientRow(userId, f.fullName.value, f.phone.value, f.gender.value, f.dob.value, f.email.value));
    return CREATED, "Patient registered successfully";
  }

  /* ---------------- profile update ---------------- */

  /**
   * One `if (x) { fields.push("column = ?"); values.push(x); }` test of the
   * update handlers; `v` is `x` when it is truthy and `None` otherwise.
   */
  method PushIfGiven<C>(fields: seq<C>, values: seq<SqlValue>, column: C, v: Option<SqlValue>)
    returns (fields': seq<C>, values': seq<SqlValue>)
    ensures fields' == fields + (if v.Some? then [column] else [])
    ensures values' == values + (if v.Some? then [v.value] else [])
  {
    fields', values' := fields, values;
    if v.Some? {
      fields', values' := fields + [column], values + [v.value];
    }
  }

  datatype ProfileForm = ProfileForm(
    fullName: Option<string>,
    phone: Option<string>,
    gender: Option<string>,
    dob: Option<string>)

  /** The request field that feeds a column. */
  function ProfileValue(f: ProfileForm, c: PatientColumn): Option<string>
  {
    match c
    case FullNameColumn => f.fullName
    case PhoneColumn => f.phone
    case GenderColumn => f.gender
    case DobColumn => f.dob
  }

  /** The value bound to a column's `?`: the field as text when it is truthy. */
  function ProfileBound(f: ProfileForm, c: PatientColumn): (v: Option<SqlValue>)
    ensures v.Some? <==> Given(ProfileValue(f, c))
    ensures v.Some? ==> v.value == Text(ProfileValue(f, c).value)
  {
    if Given(ProfileValue(f, c)) then Some(Text(ProfileValue(f, c).value)) else None
  }

  /** The order in which the controller tests the fields. */
  function PatientRank(c: PatientColumn): nat
  {
    match c
    case FullNameColumn => 0
    case PhoneColumn => 1
    case GenderColumn => 2
    case DobColumn => 3
  }

  /** A phone is given but is not ten digits. */
  predicate BadPhone(f: ProfileForm)
  {
    Given(f.phone) && !IsPhone(f.phone.value)
  }

  predicate NothingToUpdate(f: ProfileForm)
  {
    forall c :: !Given(ProfileValue(f, c))
  }

  /** The row after the update: each given field replaced, the rest kept. */
  function ProfileApplied(p: PatientRow, f: ProfileForm): (r: PatientRow)
    ensures forall c :: PatientField(r, c) == if Given(ProfileValue(f, c)) then ProfileValue(f, c).value else PatientField(p, c)
    ensures r.userId == p.userId && r.email == p.email
  {
    p.(fullName := if Given(f.fullName) then f.fullName.value else p.fullName,
       phone := if Given(f.phone) then f.phone.value else p.phone,
       gender := if Given(f.gender) then f.gender.value else p.gender,
       dob := if Given(f.dob) then f.dob.value else p.dob)
  }

  function PatientColumnAt(k: nat): (c: PatientColumn)
    requires k < 4
    ensures PatientRank(c) == k
  {
    if k == 0 then FullNameColumn else if k == 1 then PhoneColumn else if k == 2 then GenderColumn else DobColumn
  }

  /** The columns the first `k` tests push: the given ones, in test order. */
  function ProfileColumns(f: ProfileForm, k: nat): seq<PatientColumn>
    requires k <= 4
  {
    if k == 0 then []
    else ProfileColumns(f, k - 1)
         + (if ProfileBound(f, PatientColumnAt(k - 1)).Some? then [PatientColumnAt(k - 1)] else [])
  }

  /** The values the first `k` tests push, one per pushed column. */
  function ProfileParams(f: ProfileForm, k: nat): (vals: seq<SqlValue>)
    requires k <= 4
    ensures |vals| == |ProfileColumns(f, k)|
  {
    if k == 0 then []
    else ProfileParams(f, k - 1)
         + (if ProfileBound(f, PatientColumnAt(k - 1)).Some? then [ProfileBound(f, PatientColumnAt(k - 1)).value] else [])
  }

  /**
   * The pushed columns are exactly the given ones among the first `k`, in
   * strictly increasing test order, and each is bound to its own field.
   */
  lemma {:induction false} ProfileColumnsMeaning(f: ProfileForm, k: nat)
    requires k <= 4
    ensures forall c :: c in ProfileColumns(f, k) ==> PatientRank(c) < k
    ensures forall i :: 0 <= i < |ProfileColumns(f, k)| ==>
      Given(ProfileValue(f, ProfileColumns(f, k)[i])) && ProfileParams(f, k)[i] == Text(ProfileValue(f, ProfileColumns(f, k)[i]).value)
    ensures forall i, j :: 0 <= i < j < |ProfileColumns(f, k)| ==>
      PatientRank(ProfileColumns(f, k)[i]) < PatientRank(ProfileColumns(f, k)[j])
    ensures forall c :: PatientRank(c) < k ==> (c in ProfileColumns(f, k) <==> Given(ProfileValue(f, c)))
  {
    if k > 0 {
      ProfileColumnsMeaning(f, k - 1);
      var c := PatientColumnAt(k - 1);
      var cols := ProfileColumns(f, k - 1);
      forall d | PatientRank(d) < k ensures d in ProfileColumns(f, k) <==> Given(ProfileValue(f, d)) {
        if PatientRank(d) == k - 1 {
          assert d == c;
          assert c !in cols;
        }
      }
    }
  }

  /** The four tests of updateProfile, one column each, in order. */
  lemma ProfileSteps(f: ProfileForm)
    ensures ProfileColumns(f, 0) == [] && ProfileParams(f, 0) == []
    ensures ProfileColumns(f, 1) == ProfileColumns(f, 0) + (if ProfileBound(f, FullNameColumn).Some? then [FullNameColumn] else [])
    ensures ProfileParams(f, 1) == ProfileParams(f, 0) + (if ProfileBound(f, FullNameColumn).Some? then [ProfileBound(f, FullNameColumn).value] else [])
    ensures ProfileColumns(f, 2) == ProfileColumns(f, 1) + (if ProfileBound(f, PhoneColumn).Some? then [PhoneColumn] else [])
    ensures ProfileParams(f, 2) == ProfileParams(f, 1) + (if ProfileBound(f, PhoneColumn).Some? then [ProfileBound(f, PhoneColumn).value] else [])
    ensures ProfileColumns(f, 3) == ProfileColumns(f, 2) + (if ProfileBound(f, GenderColumn).Some? then [GenderColumn] else [])
    ensures ProfileParams(f, 3) == ProfileParams(f, 2) + (if ProfileBound(f, GenderColumn).Some? then [ProfileBound(f, GenderColumn).value] else [])
    ensures ProfileColumns(f, 4) == ProfileColumns(f, 3) + (if ProfileBound(f, DobColumn).Some? then [DobColumn] else [])
    ensures ProfileParams(f, 4) == ProfileParams(f, 3) + (if ProfileBound(f, DobColumn).Some? then [ProfileBound(f, DobColumn).value] else [])
  {
  }

  /**
   * The `fields` / `values` arrays of updateProfile: a bad phone stops the
   * build, an empty list is refused, and otherwise the user id is appended
   * for the WHERE clause.
   */
  method ProfileAssignments(f: ProfileForm, userId: nat)
    returns (problem: Option<string>, fields: seq<PatientColumn>, values: seq<SqlValue>)
    ensures problem == Some("Invalid phone number") <==> BadPhone(f)
    ensures problem == Some("No fields provided to update") <==> !BadPhone(f) && NothingToUpdate(f)
    ensures problem.None? <==> !BadPhone(f) && !NothingToUpdate(f)
    ensures problem.None? ==> fields == ProfileColumns(f, 4) && values == ProfileParams(f, 4) + [Number(userId)]
  {
    ProfileSteps(f);
    fields, values := PushIfGiven([], [], FullNameColumn, ProfileBound(f, FullNameColumn));
    if Given(f.phone) && !IsPhone(f.phone.value) {
      return Some("Invalid phone number"), [], [];
    }
    fields, values := PushIfGiven(fields, values, PhoneColumn, ProfileBound(f, PhoneColumn));
    fields, values := PushIfGiven(fields, values, GenderColumn, ProfileBound(f, GenderColumn));
    fields, values := PushIfGiven(fields, values, DobColumn, ProfileBound(f, DobColumn));
    ProfileColumnsMeaning(f, 4);
    if |fields| == 0 {
      assert NothingToUpdate(f) by {
        forall c ensures !Given(ProfileValue(f, c)) { assert c !in fields; }
      }
      return Some("No fields provided to update"), [], [];
    }
    assert Given(ProfileValue(f, fields[0]));
    values := values + [Number(userId)];
    problem := None;
  }

  /** Applying the built SET list is applying the form. */
  lemma ProfileAssignmentsApply(f: ProfileForm, userId: nat)
    ensures forall p :: AssignAllPatient(p, ProfileColumns(f, 4), ProfileParams(f, 4) + [Number(userId)]) == ProfileApplied(p, f)
  {
    var fields, values := ProfileColumns(f, 4), ProfileParams(f, 4) + [Number(userId)];
    ProfileColumnsMeaning(f, 4);
    forall p: PatientRow ensures AssignAllPatient(p, fields, values) == ProfileApplied(p, f) {
      AssignAllPatientFields(p, fields, values);
      var r, q := AssignAllPatient(p, fields, values), ProfileApplied(p, f);
      forall c ensures PatientField(r, c) == PatientField(q, c) {
        if c in fields {
          var i :| 0 <= i < |fields| && fields[i] == c;
        }
      }
      assert PatientField(r, FullNameColumn) == PatientField(q, FullNameColumn);
      assert PatientField(r, PhoneColumn) == PatientField(q, PhoneColumn);
      assert PatientField(r, GenderColumn) == PatientField(q, GenderColumn);
      assert PatientField(r, DobColumn) == PatientField(q, DobColumn);
    }
  }

  /**
   * updateProfile: 400 for a bad phone or an empty request, else the
   * caller's patient rows get exactly the given fields; 404 when the caller
   * has no patient row.
   */
  method UpdateProfile(accounts: AccountTables, userId: nat, f: ProfileForm) returns (code: nat)
    requires accounts.Valid()
    modifies accounts
    ensures accounts.Valid()
    ensures BadPhone(f) || NothingToUpdate(f) ==> code == BAD_REQUEST && unchanged(accounts)
    ensures !BadPhone(f) && !NothingToUpdate(f) ==>
      && (code == NOT_FOUND <==> PatientMatches(old(accounts.patients), userId) == 0)
      && (code != NOT_FOUND ==> code == OK)
      && accounts.users == old(accounts.users) && accounts.doctors == old(accounts.doctors)
      && |accounts.patients| == |old(accounts.patients)|
      && forall i :: 0 <= i < |accounts.patients| ==>
           accounts.patients[i] == if old(accounts.patients)[i].userId == userId
                                   then ProfileApplied(old(accounts.patients)[i], f)
                                   else old(accounts.patients)[i]
  {
    var problem, fields, values := ProfileAssignments(f, userId);
    if problem.Some? {
      return BAD_REQUEST;
    }
    ProfileAssignmentsApply(f, userId);
    var affected := accounts.UpdatePatient(userId, fields, values);
    code := if affected == 0 then NOT_FOUND else OK;
  }

  /* ---------------- family members ---------------- */

  datatype FamilyForm = FamilyForm(
    fullName: Option<string>,
    gender: Option<string>,
    dob: Option<string>,
    bloodGroup: Option<string>,
    heightCm: Option<int>,
    weightKg: Option<int>,
    relation: Option<string>)

  /**
   * addFamilyMember: 400 without a name and a relation, else one row owned
   * by the caller, with `x || null` for the optional fields. `now` is the
   * row's creation time.
   */
  method AddFamilyMember(family: Family.FamilyTable, patientId: nat, f: FamilyForm, now: int) returns (code: nat)
    requires family.Valid()
    modifies family
    ensures family.Valid()
    ensures !(Given(f.fullName) && Given(f.relation)) ==> code == BAD_REQUEST && unchanged(family)
    ensures Given(f.fullName) && Given(f.relation) ==>
      && code == CREATED
      && family.rows == old(family.rows) + [Family.Member(old(family.nextId), patientId, f.fullName.value,
           StringOrNull(f.gender), StringOrNull(f.dob), StringOrNull(f.bloodGroup),
           NumberOrNull(f.heightCm), NumberOrNull(f.weightKg), f.relation.value, now)]
  {
    if !(Given(f.fullName) && Given(f.relation)) {
      return BAD_REQUEST;
    }
    var id := family.Insert(Family.Member(0, patientId, f.fullName.value,
      StringOrNull(f.gender), StringOrNull(f.dob), StringOrNull(f.bloodGroup),
      NumberOrNull(f.heightCm), NumberOrNull(f.weightKg), f.relation.value, now));
    return CREATED;
  }

  /** The request field that feeds a column, as the value bound to its `?`; absent when falsy. */
  function FamilyValue(f: FamilyForm, c: Family.Column): (v: Option<SqlValue>)
    ensures v.Some? ==> Family.ValueFits(c, v.value)
  {
    match c
    case FullNameColumn => if Given(f.fullName) then Some(Text(f.fullName.value)) else None
    case GenderColumn => if Given(f.gender) then Some(Text(f.gender.value)) else None
    case DobColumn => if Given(f.dob) then Some(Text(f.dob.value)) else None
    case BloodGroupColumn => if Given(f.bloodGroup) then Some(Text(f.bloodGroup.value)) else None
    case HeightColumn => if NumberOrNull(f.heightCm).Some? then Some(Number(f.heightCm.value)) else None
    case WeightColumn => if NumberOrNull(f.weightKg).Some? then Some(Number(f.weightKg.value)) else None
    case RelationColumn => if Given(f.relation) then Some(Text(f.relation.value)) else None
  }

  function FamilyRank(c: Family.Column): nat
  {
    match c
    case FullNameColumn => 0
    case GenderColumn => 1
    case DobColumn => 2
    case BloodGroupColumn => 3
    case HeightColumn => 4
    case WeightColumn => 5
    case RelationColumn => 6
  }

  /** The row after the update: each given field replaced, the rest kept. */
  function FamilyApplied(m: Family.Member, f: FamilyForm): (r: Family.Member)
    ensures forall c :: Family.Field(r, c) == if FamilyValue(f, c).Some? then FamilyValue(f, c) else Family.Field(m, c)
    ensures r.id == m.id && r.patientId == m.patientId && r.createdAt == m.createdAt
  {
    m.(fullName := if Given(f.fullName) then f.fullName.value else m.fullName,
       gender := if Given(f.gender) then f.gender else m.gender,
       dob := if Given(f.dob) then f.dob else m.dob,
       bloodGroup := if Given(f.bloodGroup) then f.bloodGroup else m.bloodGroup,
       heightCm := if NumberOrNull(f.heightCm).Some? then f.heightCm else m.heightCm,
       weightKg := if NumberOrNull(f.weightKg).Some? then f.weightKg else m.weightKg,
       relation := if Given(f.relation) then f.relation.value else m.relation)
  }

  function FamilyColumnAt(k: nat): (c: Family.Column)
    requires k < 7
    ensures FamilyRank(c) == k
  {
    if k == 0 then Family.FullNameColumn
    else if k == 1 then Family.GenderColumn
    else if k == 2 then Family.DobColumn
    else if k == 3 then Family.BloodGroupColumn
    else if k == 4 then Family.HeightColumn
    else if k == 5 then Family.WeightColumn
    else Family.RelationColumn
  }

  /** The columns the first `k` tests push: the given ones, in test order. */
  function FamilyColumns(f: FamilyForm, k: nat): seq<Family.Column>
    requires k <= 7
  {
    if k == 0 then []
    else FamilyColumns(f, k - 1)
         + (if FamilyValue(f, FamilyColumnAt(k - 1)).Some? then [FamilyColumnAt(k - 1)] else [])
  }

  /** The values the first `k` tests push, one per pushed column. */
  function FamilyParams(f: FamilyForm, k: nat): (vals: seq<SqlValue>)
    requires k <= 7
    ensures |vals| == |FamilyColumns(f, k)|
  {
    if k == 0 then []
    else FamilyParams(f, k - 1)
         + (if FamilyValue(f, FamilyColumnAt(k - 1)).Some? then [FamilyValue(f, FamilyColumnAt(k - 1)).value] else [])
  }

  /** The pushed columns come from the first `k` tests, in strictly increasing test order. */
  lemma {:induction false} FamilyColumnsOrdered(f: FamilyForm, k: nat)
    requires k <= 7
    ensures forall c :: c in FamilyColumns(f, k) ==> FamilyRank(c) < k
    ensures forall i, j :: 0 <= i < j < |FamilyColumns(f, k)| ==>
      FamilyRank(FamilyColumns(f, k)[i]) < FamilyRank(FamilyColumns(f, k)[j])
  {
    if k > 0 {
      FamilyColumnsOrdered(f, k - 1);
      var cols, c := FamilyColumns(f, k - 1), FamilyColumnAt(k - 1);
      if FamilyValue(f, c).Some? {
        var all := cols + [c];
        assert FamilyColumns(f, k) == all;
        forall i, j | 0 <= i < j < |all| ensures FamilyRank(all[i]) < FamilyRank(all[j]) {
          assert all[i] == cols[i];
          if j < |cols| {
            assert all[j] == cols[j];
          } else {
            assert all[j] == c && cols[i] in cols;
          }
        }
      }
    }
  }

  /** Each pushed value is the field of its own column. */
  lemma {:induction false} FamilyColumnsBound(f: FamilyForm, k: nat)
    requires k <= 7
    ensures forall i :: 0 <= i < |FamilyColumns(f, k)| ==> Some(FamilyParams(f, k)[i]) == FamilyValue(f, FamilyColumns(f, k)[i])
  {
    if k > 0 {
      FamilyColumnsBound(f, k - 1);
      var cols, vals, v := FamilyColumns(f, k - 1), FamilyParams(f, k - 1), FamilyValue(f, FamilyColumnAt(k - 1));
      if v.Some? {
        var all, bound := cols + [FamilyColumnAt(k - 1)], vals + [v.value];
        assert FamilyColumns(f, k) == all && FamilyParams(f, k) == bound;
        forall i | 0 <= i < |all| ensures Some(bound[i]) == FamilyValue(f, all[i]) {
          if i < |cols| {
            assert all[i] == cols[i] && bound[i] == vals[i];
          }
        }
      }
    }
  }

  /** Among the first `k` tests, a column is pushed exactly when its field is given. */
  lemma {:induction false} FamilyColumnsExact(f: FamilyForm, k: nat)
    requires k <= 7
    ensures forall c :: FamilyRank(c) < k ==> (c in FamilyColumns(f, k) <==> FamilyValue(f, c).Some?)
  {
    if k > 0 {
      FamilyColumnsExact(f, k - 1);
      FamilyColumnsOrdered(f, k - 1);
      var c := FamilyColumnAt(k - 1);
      forall d | FamilyRank(d) < k ensures d in FamilyColumns(f, k) <==> FamilyValue(f, d).Some? {
        if FamilyRank(d) == k - 1 {
          assert d == c;
        }
      }
    }
  }

  /** No column is pushed exactly when no field is given. */
  lemma FamilyNothingGiven(f: FamilyForm)
    ensures |FamilyColumns(f, 7)| == 0 <==> forall c :: FamilyValue(f, c).None?
  {
    FamilyColumnsExact(f, 7);
    FamilyColumnsBound(f, 7);
    var cols := FamilyColumns(f, 7);
    if |cols| == 0 {
      forall c ensures FamilyValue(f, c).None? { assert c !in cols; }
    } else {
      assert FamilyValue(f, cols[0]).Some?;
    }
  }

  /** The seven tests of updateFamilyMember, one column each, in order. */
  lemma FamilySteps(f: FamilyForm)
    ensures FamilyColumns(f, 0) == [] && FamilyParams(f, 0) == []
    ensures FamilyColumns(f, 1) == FamilyColumns(f, 0) + (if FamilyValue(f, Family.FullNameColumn).Some? then [Family.FullNameColumn] else [])
    ensures FamilyParams(f, 1) == FamilyParams(f, 0) + (if FamilyValue(f, Family.FullNameColumn).Some? then [FamilyValue(f, Family.FullNameColumn).value] else [])
    ensures FamilyColumns(f, 2) == FamilyColumns(f, 1) + (if FamilyValue(f, Family.GenderColumn).Some? then [Family.GenderColumn] else [])
    ensures FamilyParams(f, 2) == FamilyParams(f, 1) + (if FamilyValue(f, Family.GenderColumn).Some? then [FamilyValue(f, Family.GenderColumn).value] else [])
    ensures FamilyColumns(f, 3) == FamilyColumns(f, 2) + (if FamilyValue(f, Family.DobColumn).Some? then [Family.DobColumn] else [])
    ensures FamilyParams(f, 3) == FamilyParams(f, 2) + (if FamilyValue(f, Family.DobColumn).Some? then [FamilyValue(f, Family.DobColumn).value] else [])
    ensures FamilyColumns(f, 4) == FamilyColumns(f, 3) + (if FamilyValue(f, Family.BloodGroupColumn).Some? then [Family.BloodGroupColumn] else [])
    ensures FamilyParams(f, 4) == FamilyParams(f, 3) + (if FamilyValue(f, Family.BloodGroupColumn).Some? then [FamilyValue(f, Family.BloodGroupColumn).value] else [])
    ensures FamilyColumns(f, 5) == FamilyColumns(f, 4) + (if FamilyValue(f, Family.HeightColumn).Some? then [Family.HeightColumn] else [])
    ensures FamilyParams(f, 5) == FamilyParams(f, 4) + (if FamilyValue(f, Family.HeightColumn).Some? then [FamilyValue(f, Family.HeightColumn).value] else [])
    ensures FamilyColumns(f, 6) == FamilyColumns(f, 5) + (if FamilyValue(f, Family.WeightColumn).Some? then [Family.WeightColumn] else [])
    ensures FamilyParams(f, 6) == FamilyParams(f, 5) + (if FamilyValue(f, Family.WeightColumn).Some? then [FamilyValue(f, Family.WeightColumn).value] else [])
    ensures FamilyColumns(f, 7) == FamilyColumns(f, 6) + (if FamilyValue(f, Family.RelationColumn).Some? then [Family.RelationColumn] else [])
    ensures FamilyParams(f, 7) == FamilyParams(f, 6) + (if FamilyValue(f, Family.RelationColumn).Some? then [FamilyValue(f, Family.RelationColumn).value] else [])
  {
  }

  /**
   * The `fields` / `values` arrays of updateFamilyMember: an empty list is
   * refused, otherwise the member id and the caller's id are appended for
   * the WHERE clause.
   */
  method FamilyAssignments(f: FamilyForm, id: nat, patientId: nat)
    returns (empty: bool, fields: seq<Family.Column>, values: seq<SqlValue>)
    ensures empty <==> forall c :: FamilyValue(f, c).None?
    ensures !empty ==> fields == FamilyColumns(f, 7) && values == FamilyParams(f, 7) + [Number(id), Number(patientId)]
  {
    FamilySteps(f);
    fields, values := PushIfGiven([], [], Family.FullNameColumn, FamilyValue(f, Family.FullNameColumn));
    fields, values := PushIfGiven(fields, values, Family.GenderColumn, FamilyValue(f, Family.GenderColumn));
    fields, values := PushIfGiven(fields, values, Family.DobColumn, FamilyValue(f, Family.DobColumn));
    fields, values := PushIfGiven(fields, values, Family.BloodGroupColumn, FamilyValue(f, Family.BloodGroupColumn));
    fields, values := PushIfGiven(fields, values, Family.HeightColumn, FamilyValue(f, Family.HeightColumn));
    fields, values := PushIfGiven(fields, values, Family.WeightColumn, FamilyValue(f, Family.WeightColumn));
    fields, values := PushIfGiven(fields, values, Family.RelationColumn, FamilyValue(f, Family.RelationColumn));
    FamilyNothingGiven(f);
    if |fields| == 0 {
      return true, [], [];
    }
    values := values + [Number(id), Number(patientId)];
    empty := false;
  }

  /** One column of the updated row: the form's value if given, the old one otherwise. */
  lemma FamilyColumnApplied(f: FamilyForm, fields: seq<Family.Column>, values: seq<SqlValue>, m: Family.Member, c: Family.Column)
    requires |fields| <= |values|
    requires forall d :: d in fields <==> FamilyValue(f, d).Some?
    requires forall i :: 0 <= i < |fields| ==> Some(values[i]) == FamilyValue(f, fields[i])
    requires forall i, j :: 0 <= i < j < |fields| ==> fields[i] != fields[j]
    ensures Family.Field(Family.AssignAll(m, fields, values), c) == Family.Field(FamilyApplied(m, f), c)
  {
    Family.AssignAllFields(m, fields, values);
    if c in fields {
      var i :| 0 <= i < |fields| && fields[i] == c;
    }
  }

  /** Applying the built SET list to a row is applying the form to it. */
  lemma FamilyMemberApplied(f: FamilyForm, fields: seq<Family.Column>, values: seq<SqlValue>, m: Family.Member)
    requires |fields| <= |values|
    requires forall d :: d in fields <==> FamilyValue(f, d).Some?
    requires forall i :: 0 <= i < |fields| ==> Some(values[i]) == FamilyValue(f, fields[i])
    requires forall i, j :: 0 <= i < j < |fields| ==> fields[i] != fields[j]
    ensures Family.AssignAll(m, fields, values) == FamilyApplied(m, f)
  {
    var r, q := Family.AssignAll(m, fields, values), FamilyApplied(m, f);
    FamilyColumnApplied(f, fields, values, m, Family.FullNameColumn);
    FamilyColumnApplied(f, fields, values, m, Family.GenderColumn);
    FamilyColumnApplied(f, fields, values, m, Family.DobColumn);
    FamilyColumnApplied(f, fields, values, m, Family.BloodGroupColumn);
    FamilyColumnApplied(f, fields, values, m, Family.HeightColumn);
    FamilyColumnApplied(f, fields, values, m, Family.WeightColumn);
    FamilyColumnApplied(f, fields, values, m, Family.RelationColumn);
    Family.SameFields(r, q);
  }

  /** The SET list of updateFamilyMember applies the form to every row it reaches. */
  lemma FamilyAssignmentsApply(f: FamilyForm, id: nat, patientId: nat)
    ensures forall m :: Family.AssignAll(m, FamilyColumns(f, 7), FamilyParams(f, 7) + [Number(id), Number(patientId)])
                        == FamilyApplied(m, f)
  {
    var fields, values := FamilyColumns(f, 7), FamilyParams(f, 7) + [Number(id), Number(patientId)];
    FamilyColumnsOrdered(f, 7);
    FamilyColumnsBound(f, 7);
    FamilyColumnsExact(f, 7);
    forall i, j | 0 <= i < j < |fields| ensures fields[i] != fields[j] {
      assert FamilyRank(fields[i]) < FamilyRank(fields[j]);
    }
    forall m: Family.Member ensures Family.AssignAll(m, fields, values) == FamilyApplied(m, f) {
      FamilyMemberApplied(f, fields, values, m);
    }
  }

  /**
   * updateFamilyMember: 400 for an empty request, else the caller's member
   * with that id gets exactly the given fields; 404 when there is none.
   */
  method UpdateFamilyMember(family: Family.FamilyTable, patientId: nat, id: nat, f: FamilyForm) returns (code: nat)
    requires family.Valid()
    modifies family
    ensures family.Valid()
    ensures (forall c :: FamilyValue(f, c).None?) ==> code == BAD_REQUEST && unchanged(family)
    ensures (exists c :: FamilyValue(f, c).Some?) ==>
      && (code == NOT_FOUND <==> Family.OwnedCount(old(family.rows), id, patientId) == 0)
      && (code != NOT_FOUND ==> code == OK)
      && |family.rows| == |old(family.rows)|
      && forall i :: 0 <= i < |family.rows| ==>
           family.rows[i] == if Family.Owned(old(family.rows)[i], id, patientId)
                             then FamilyApplied(old(family.rows)[i], f)
                             else old(family.rows)[i]
  {
    var empty, fields, values := FamilyAssignments(f, id, patientId);
    if empty {
      return BAD_REQUEST;
    }
    FamilyAssignmentsApply(f, id, patientId);
    var affected := family.Update(id, patientId, fields, values);
    code := if affected == 0 then NOT_FOUND else OK;
  }

  /** deleteFamilyMember: removes the caller's member with that id; 404 when there is none. */
  method DeleteFamilyMember(family: Family.FamilyTable, patientId: nat, id: nat) returns (code: nat)
    requires family.Valid()
    modifies family
    ensures family.Valid()
    ensures family.rows == Family.DeleteOwned(old(family.rows), id, patientId)
    ensures code == NOT_FOUND <==> Family.OwnedCount(old(family.rows), id, patientId) == 0
    ensures code != NOT_FOUND ==> code == OK
  {
    var affected := family.Delete(id, patientId);
    code := if affected == 0 then NOT_FOUND else OK;
  }

  /** ORDER BY created_at DESC. */
  predicate NewerFirst(a: Family.Member, b: Family.Member)
  {
    a.createdAt >= b.createdAt
  }

  /** getFamilyMembers: the caller's members, newest first. */
  function ListFamily(rows: seq<Family.Member>, patientId: nat): (r: seq<Family.Member>)
    ensures multiset(r) == multiset(Filter(rows, (m: Family.Member) => m.patientId == patientId))
    ensures forall m :: m in r <==> m in rows && m.patientId == patientId
    ensures SortedBy(r, NewerFirst)
  {
    var selected := Filter(rows, (m: Family.Member) => m.patientId == patientId);
    var r := SortBy(selected, NewerFirst);
    forall m ensures m in r <==> m in selected {
      SortByMembers(selected, NewerFirst, m);
    }
    r
  }
}
