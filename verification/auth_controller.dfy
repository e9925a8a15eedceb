/**
 * The login decision of the auth controller. Login changes no state: it looks
 * the identifier up in `users` (as an email or as a mobile number), checks
 * the account, the password and, for a doctor, the approval status, and
 * answers with a signed token. bcrypt's compare is the parameter `matches`;
 * the JWT signature itself is left out and the token is its payload.
 */
module AuthController {
  import opened Common
  import opened Query
  import opened Accounts

  /** The claims the token carries: exactly the user id and the role. */
  datatype Payload = Payload(id: nat, role: Role)

  /** "1d" in seconds. */
  const TOKEN_LIFETIME: nat := 86400

  datatype LoginReply =
    | Refused(code: nat, message: string)
    | LoggedIn(token: Payload, expiresIn: nat, id: nat, email: Option<string>, mobile: Option<string>, role: Role)

  const MISSING_CREDENTIALS := "Email or mobile and password required"
  const INVALID_CREDENTIALS := "Invalid credentials"
  const ACCOUNT_INACTIVE := "Account inactive"
  const DOCTOR_NOT_FOUND := "Doctor profile not found. Contact admin."
  const DOCTOR_NOT_APPROVED := "Your account is pending approval. Please contact admin."

  /** `WHERE email = ? OR mobile = ?` with the identifier in both places. */
  predicate Identifies(u: User, identifier: string)
  {
    u.email == Some(identifier) || u.mobile == Some(identifier)
  }

  /** The lookup's condition, for a given identifier. */
  function IdentifiedBy(identifier: string): User -> bool
  {
    (u: User) => Identifies(u, identifier)
  }

  /** `users[0]` of the lookup: the first row in table order that matches. */
  function FindUser(users: seq<User>, identifier: string): (r: Option<User>)
    ensures r.None? <==> forall i :: 0 <= i < |users| ==> !Identifies(users[i], identifier)
    ensures r.Some? ==> exists i :: (0 <= i < |users| && users[i] == r.value && Identifies(r.value, identifier)
                                     && forall j :: 0 <= j < i ==> !Identifies(users[j], identifier))
  {
    FirstWhere(users, IdentifiedBy(identifier))
  }

  /** `[[doctor]]` of `SELECT status FROM doctors WHERE user_id = ?`. */
  function FindDoctor(doctors: seq<DoctorRow>, userId: nat): (r: Option<DoctorRow>)
    ensures r.None? <==> forall i :: 0 <= i < |doctors| ==> doctors[i].userId != userId
    ensures r.Some? ==> r.value in doctors && r.value.userId == userId
  {
    FirstWhere(doctors, (d: DoctorRow) => d.userId == userId)
  }

  /** The doctor gate: a doctor needs a doctor row whose status is APPROVED. */
  predicate MayPractise(doctors: seq<DoctorRow>, u: User)
  {
    u.role == Doctor ==> FindDoctor(doctors, u.id).Some? && FindDoctor(doctors, u.id).value.status == DoctorApproved
  }

  /** The login handler, check by check. */
  function Login(users: seq<User>, doctors: seq<DoctorRow>, identifier: Option<string>, password: Option<string>,
                 matches: (string, string) -> bool): (r: LoginReply)
    ensures !Given(identifier) || !Given(password) ==> r == Refused(BAD_REQUEST, MISSING_CREDENTIALS)
    ensures r.LoggedIn? ==> r.expiresIn == TOKEN_LIFETIME && r.token == Payload(r.id, r.role)
    ensures r.Refused? ==> r.code in {BAD_REQUEST, UNAUTHORIZED, FORBIDDEN}
  {
    if !Given(identifier) || !Given(password) then Refused(BAD_REQUEST, MISSING_CREDENTIALS)
    else match FindUser(users, identifier.value)
      case None => Refused(UNAUTHORIZED, INVALID_CREDENTIALS)
      case Some(u) =>
        if !u.isActive then Refused(FORBIDDEN, ACCOUNT_INACTIVE)
        else if !matches(password.value, u.passwordHash) then Refused(UNAUTHORIZED, INVALID_CREDENTIALS)
        else if u.role == Doctor && FindDoctor(doctors, u.id).None? then Refused(FORBIDDEN, DOCTOR_NOT_FOUND)
        else if u.role == Doctor && FindDoctor(doctors, u.id).value.status != DoctorApproved then
          Refused(FORBIDDEN, DOCTOR_NOT_APPROVED)
        else LoggedIn(Payload(u.id, u.role), TOKEN_LIFETIME, u.id, u.email, u.mobile, u.role)
  }

  /**
   * Login succeeds exactly when both fields are given, the identifier picks a
   * first user, that user is active, the password matches its hash and, for a
   * doctor, the doctor row is APPROVED; the token then names that user.
   */
  lemma LoginSucceedsIff(users: seq<User>, doctors: seq<DoctorRow>, identifier: Option<string>, password: Option<string>,
                         matches: (string, string) -> bool)
    ensures Login(users, doctors, identifier, password, matches).LoggedIn? <==>
      && Given(identifier) && Given(password)
      && FindUser(users, identifier.value).Some?
      && FindUser(users, identifier.value).value.isActive
      && matches(password.value, FindUser(users, identifier.value).value.passwordHash)
      && MayPractise(doctors, FindUser(users, identifier.value).value)
    ensures Login(users, doctors, identifier, password, matches).LoggedIn? ==>
      var u := FindUser(users, identifier.value).value;
      Login(users, doctors, identifier, password, matches)
        == LoggedIn(Payload(u.id, u.role), TOKEN_LIFETIME, u.id, u.email, u.mobile, u.role)
  {
  }

  /**
   * An unknown identifier and a wrong password get the same answer, so a
   * caller cannot tell which accounts exist from the reply.
   */
  lemma UnknownUserLooksLikeWrongPassword(users: seq<User>, doctors: seq<DoctorRow>, identifier: string, password: string,
                                          matches: (string, string) -> bool)
    requires identifier != "" && password != ""
    requires FindUser(users, identifier).None? ||
             (FindUser(users, identifier).value.isActive && !matches(password, FindUser(users, identifier).value.passwordHash))
    ensures Login(users, doctors, Some(identifier), Some(password), matches) == Refused(UNAUTHORIZED, INVALID_CREDENTIALS)
  {
  }

  /**
   * An inactive account is refused before the password is looked at: the
   * answer is 403 whatever the password and whatever bcrypt would say.
   */
  lemma InactiveBeforePassword(users: seq<User>, doctors: seq<DoctorRow>, identifier: string, password: string,
                               matches: (string, string) -> bool, other: (string, string) -> bool)
    requires identifier != "" && password != ""
    requires FindUser(users, identifier).Some? && !FindUser(users, identifier).value.isActive
    ensures Login(users, doctors, Some(identifier), Some(password), matches) == Refused(FORBIDDEN, ACCOUNT_INACTIVE)
    ensures Login(users, doctors, Some(identifier), Some(password), matches)
            == Login(users, doctors, Some(identifier), Some(password), other)
  {
  }

  /**
   * The lookup reads only `email` and `mobile`: whatever `loginId` a user
   * registered with, an identifier that is nobody's email or mobile is refused
   * as invalid credentials.
   */
  lemma LoginIgnoresLoginId(users: seq<User>, doctors: seq<DoctorRow>, identifier: string, password: string,
                            matches: (string, string) -> bool)
    requires identifier != "" && password != ""
    requires forall i :: 0 <= i < |users| ==> users[i].email != Some(identifier) && users[i].mobile != Some(identifier)
    ensures Login(users, doctors, Some(identifier), Some(password), matches) == Refused(UNAUTHORIZED, INVALID_CREDENTIALS)
  {
  }

  /** Only rows up to the first match matter: rows after it never change the answer. */
  lemma {:induction false} FirstMatchWins(users: seq<User>, more: seq<User>, identifier: string)
    requires FindUser(users, identifier).Some?
    ensures FindUser(users + more, identifier) == FindUser(users, identifier)
  {
    var u := FindUser(users, identifier).value;
    var i :| 0 <= i < |users| && users[i] == u && Identifies(u, identifier)
             && forall j :: 0 <= j < i ==> !Identifies(users[j], identifier);
    var all := users + more;
    var v := FindUser(all, identifier);
    assert all[i] == u;
    var k :| 0 <= k < |all| && all[k] == v.value && Identifies(v.value, identifier)
             && forall j :: 0 <= j < k ==> !Identifies(all[j], identifier);
  }
}
