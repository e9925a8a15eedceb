/**
 * Shared vocabulary of the clinic back end: optional SQL values, the
 * JavaScript truthiness tests the controllers apply to request fields, the
 * HTTP status codes they answer with, and the user roles.
 */
module Common {

  /** A nullable column or an absent request field. */
  datatype Option<+T> = None | Some(value: T)

  /** The roles carried in the `users.role` column and in the JWT. */
  datatype Role = Patient | Doctor | Admin

  /** The upper-case spelling the source stores and compares. */
  function RoleName(r: Role): (s: string)
    ensures |s| > 0
  {
    match r
    case Patient => "PATIENT"
    case Doctor => "DOCTOR"
    case Admin => "ADMIN"
  }

  // HTTP status codes used by the controllers.
  const OK: nat := 200
  const CREATED: nat := 201
  const BAD_REQUEST: nat := 400
  const UNAUTHORIZED: nat := 401
  const FORBIDDEN: nat := 403
  const NOT_FOUND: nat := 404
  const CONFLICT: nat := 409
  const SERVER_ERROR: nat := 500

  /** `!!s` for a string field of a request body: present and not "". */
  predicate Given(s: Option<string>)
  {
    s.Some? && s.value != ""
  }

  /** `!!n` for a numeric field of a request body: present and not 0. */
  predicate GivenId(n: Option<nat>)
  {
    n.Some? && n.value != 0
  }

  /** A value bound to a `?` placeholder of a parameterised query. */
  datatype SqlValue = Text(text: string) | Number(number: int)

  /** `x || null` for a string field: "" and absent both become NULL. */
  function StringOrNull(s: Option<string>): (r: Option<string>)
    ensures r.Some? <==> Given(s)
    ensures r.Some? ==> r == s
  {
    if Given(s) then s else None
  }

  /** `x || null` for a numeric field: 0 and absent both become NULL. */
  function NumberOrNull(n: Option<int>): (r: Option<int>)
    ensures r.Some? <==> n.Some? && n.value != 0
    ensures r.Some? ==> r == n
  {
    if n.Some? && n.value != 0 then n else None
  }
}
