/**
 * The profile-picture upload rules: a file must claim an image MIME type, the
 * uploader must be signed in with a role, the extension (lower-cased) must be
 * one of four image extensions, and the file must fit the size limit. An
 * accepted file is stored under `uploads/profiles/<role>s` as
 * `user_<id>_<timestamp><ext>`.
 */
module Upload {
  import opened Common
  import opened Text

  /** `limits.fileSize`: 10 MiB. */
  const MAX_FILE_SIZE: nat := 10 * 1024 * 1024

  const ALLOWED: seq<string> := [".jpg", ".jpeg", ".png", ".webp"]
  const PROFILE_DIR := "uploads/profiles/"
  const NAME_PREFIX := "user_"

  /** Why an upload is refused, in the order the checks run. */
  datatype Reason = NotAnImage | Unauthorized | InvalidFormat | TooLarge

  /**
   * The error messages the middleware raises; the size limit's error comes
   * from the upload library and its text is not part of this model.
   */
  function ReasonMessage(r: Reason): Option<string>
  {
    match r
    case NotAnImage => Some("Only image files allowed")
    case Unauthorized => Some("Unauthorized upload")
    case InvalidFormat => Some("Invalid image format")
    case TooLarge => None
  }

  datatype Result<T> = Ok(value: T) | Rejected(reason: Reason)

  /** `req.user` as the JWT check leaves it. */
  datatype Uploader = Uploader(id: nat, role: Option<string>)

  /** `!req.user || !req.user.role` fails. */
  predicate Authorised(user: Option<Uploader>)
  {
    user.Some? && Given(user.value.role)
  }

  /* ---------------- path.extname ---------------- */

  /** The last position of `c` in `s`. */
  function LastIndexOf(s: string, c: char): (r: Option<nat>)
    ensures r.Some? ==> r.value < |s| && s[r.value] == c && forall j :: r.value < j < |s| ==> s[j] != c
    ensures r.None? ==> forall j :: 0 <= j < |s| ==> s[j] != c
  {
    if |s| == 0 then None
    else if s[|s| - 1] == c then Some(|s| - 1)
    else LastIndexOf(s[..|s| - 1], c)
  }

  /** The path without its trailing '/'s. */
  function TrimSlashes(p: string): (r: string)
    ensures |r| <= |p| && r == p[..|r|]
    ensures |r| > 0 ==> r[|r| - 1] != '/'
    ensures forall i :: |r| <= i < |p| ==> p[i] == '/'
  {
    if |p| == 0 || p[|p| - 1] != '/' then p else TrimSlashes(p[..|p| - 1])
  }

  /** The last path segment, with trailing '/'s ignored. */
  function BaseName(p: string): (b: string)
    ensures forall i :: 0 <= i < |b| ==> b[i] != '/'
  {
    var q := TrimSlashes(p);
    match LastIndexOf(q, '/')
    case None => q
    case Some(i) => q[i + 1..]
  }

  /** A dot followed by anything but dots and slashes. */
  predicate ProperExt(ext: string)
  {
    |ext| > 0 && ext[0] == '.' && forall i :: 1 <= i < |ext| ==> ext[i] != '.' && ext[i] != '/'
  }

  /**
   * `path.extname` on POSIX paths: from the last '.' of the last segment to
   * its end, or "" when that segment has no '.', starts with its only '.'
   * run's last dot (a dot-file such as ".png"), or is "..".
   */
  function ExtName(p: string): (r: string)
    ensures r == "" || ProperExt(r)
  {
    var b := BaseName(p);
    match LastIndexOf(b, '.')
    case None => ""
    case Some(d) => if d == 0 || b == ".." then "" else b[d..]
  }

  /** `path.extname(file.originalname).toLowerCase()`. */
  function LowerExt(name: string): (r: string)
    ensures r == "" || ProperExt(r)
  {
    var e := ExtName(name);
    var r := ToLower(e);
    assert r != "" ==> r[0] == LowerChar(e[0]);
    r
  }

  /** Every allowed extension has the shape `ExtName` returns. */
  lemma AllowedAreProper()
    ensures forall x :: x in ALLOWED ==> ProperExt(x)
  {
  }

  /* ---------------- the stored name ---------------- */

  /** `user_${req.user.id}_${Date.now()}${ext}`. */
  function Filename(id: nat, now: nat, ext: string): string
  {
    NAME_PREFIX + DecimalString(id) + "_" + DecimalString(now) + ext
  }

  /** The three parts a stored name is made of. */
  datatype FileParts = FileParts(id: nat, now: nat, ext: string)

  predicate AllDigits(s: string)
  {
    forall i :: 0 <= i < |s| ==> IsDigit(s[i])
  }

  /** Reads `user_<digits>_<digits><ext>` back into its parts. */
  function ParseFilename(name: string): Option<FileParts>
  {
    if |name| < |NAME_PREFIX| || name[..|NAME_PREFIX|] != NAME_PREFIX then None
    else ParseParts(name[|NAME_PREFIX|..])
  }

  /** `<digits>_<digits><ext>`: the id runs up to the first '_'. */
  function ParseParts(rest: string): Option<FileParts>
  {
    match IndexOf(rest, '_')
    case None => None
    case Some(u) => if AllDigits(rest[..u]) then ParseStamp(ParseDecimal(rest[..u]), rest[u + 1..]) else None
  }

  /** `<digits><ext>`: the timestamp runs up to the first '.'. */
  function ParseStamp(id: nat, tail: string): Option<FileParts>
  {
    match IndexOf(tail, '.')
    case None => None
    case Some(d) => if AllDigits(tail[..d]) then Some(FileParts(id, ParseDecimal(tail[..d]), tail[d..])) else None
  }

  /** The first `c` in `a + b` is the first in `b` when `a` has none. */
  lemma IndexOfAfter(a: string, b: string, c: char)
    requires forall i :: 0 <= i < |a| ==> a[i] != c
    requires |b| > 0 && b[0] == c
    ensures IndexOf(a + b, c) == Some(|a|)
  {
    var s := a + b;
    assert s[|a|] == c;
    assert forall i :: 0 <= i < |a| ==> s[i] == a[i];
  }

  lemma StampRoundTrip(id: nat, now: nat, ext: string)
    requires ProperExt(ext)
    ensures ParseStamp(id, DecimalString(now) + ext) == Some(FileParts(id, now, ext))
  {
    var ts := DecimalString(now);
    var tail := ts + ext;
    IndexOfAfter(ts, ext, '.');
    assert tail[..|ts|] == ts && tail[|ts|..] == ext;
    DecimalRoundTrip(now);
  }

  lemma PartsRoundTrip(id: nat, tail: string)
    ensures ParseParts(DecimalString(id) + "_" + tail) == ParseStamp(id, tail)
  {
    var ds := DecimalString(id);
    var rest := ds + "_" + tail;
    IndexOfAfter(ds, "_" + tail, '_');
    assert rest == ds + ("_" + tail);
    assert rest[..|ds|] == ds;
    assert rest[|ds| + 1..] == tail;
    DecimalRoundTrip(id);
  }

  /** Round trip: the stored name gives back the uploader's id, the timestamp and the extension. */
  lemma FilenameRoundTrip(id: nat, now: nat, ext: string)
    requires ProperExt(ext)
    ensures ParseFilename(Filename(id, now, ext)) == Some(FileParts(id, now, ext))
  {
    var rest := DecimalString(id) + "_" + (DecimalString(now) + ext);
    var name := Filename(id, now, ext);
    assert name == NAME_PREFIX + rest;
    assert name[..|NAME_PREFIX|] == NAME_PREFIX && name[|NAME_PREFIX|..] == rest;
    PartsRoundTrip(id, DecimalString(now) + ext);
    StampRoundTrip(id, now, ext);
  }

  /** Different uploaders, instants or extensions never produce the same stored name. */
  lemma FilenamesDistinct(id: nat, now: nat, ext: string, id': nat, now': nat, ext': string)
    requires ProperExt(ext) && ProperExt(ext')
    requires (id, now, ext) != (id', now', ext')
    ensures Filename(id, now, ext) != Filename(id', now', ext')
  {
    FilenameRoundTrip(id, now, ext);
    FilenameRoundTrip(id', now', ext');
  }

  /** The stored name keeps the extension it was given, as `path.extname` reads it. */
  lemma {:induction false} ExtNameOfFilename(id: nat, now: nat, ext: string)
    requires ProperExt(ext)
    ensures ExtName(Filename(id, now, ext)) == ext
  {
    var name := Filename(id, now, ext);
    var head := NAME_PREFIX + DecimalString(id) + "_" + DecimalString(now);
    assert name == head + ext;
    assert forall i :: 0 <= i < |head| ==> head[i] != '/' && head[i] != '.';
    assert forall i :: 0 <= i < |name| ==> name[i] != '/' by {
      forall i | 0 <= i < |name| ensures name[i] != '/' {
        if i < |head| { assert name[i] == head[i]; } else { assert name[i] == ext[i - |head|]; }
      }
    }
    assert TrimSlashes(name) == name;
    assert BaseName(name) == name;
    var d := LastIndexOf(name, '.');
    assert name[|head|] == '.';
    assert d.value == |head|;
    assert name[|head|..] == ext;
  }

  /* ---------------- the callbacks ---------------- */

  /** The `destination` callback: the role's own directory, lower-cased and pluralised. */
  function Destination(user: Option<Uploader>): (r: Result<string>)
    ensures r.Ok? <==> Authorised(user)
    ensures r.Rejected? ==> r.reason == Unauthorized
  {
    if !Authorised(user) then Rejected(Unauthorized)
    else Ok(PROFILE_DIR + ToLower(user.value.role.value) + "s")
  }

  /** Patients' pictures go to `uploads/profiles/patients`. */
  lemma PatientDirectory(id: nat)
    ensures Destination(Some(Uploader(id, Some(RoleName(Patient))))) == Ok(PROFILE_DIR + "patients")
  {
    assert ToLower("PATIENT") == "patient";
    assert PROFILE_DIR + "patient" + "s" == PROFILE_DIR + ("patient" + "s");
    assert "patient" + "s" == "patients";
  }

  /** Doctors' pictures go to `uploads/profiles/doctors`. */
  lemma DoctorDirectory(id: nat)
    ensures Destination(Some(Uploader(id, Some(RoleName(Doctor))))) == Ok(PROFILE_DIR + "doctors")
  {
    assert ToLower("DOCTOR") == "doctor";
    assert PROFILE_DIR + "doctor" + "s" == PROFILE_DIR + ("doctor" + "s");
    assert "doctor" + "s" == "doctors";
  }

  /** The directory depends on the role only through its lower-case spelling. */
  lemma DestinationIgnoresCase(id: nat, id': nat, role: string, role': string)
    requires role != "" && role' != "" && ToLower(role) == ToLower(role')
    ensures Destination(Some(Uploader(id, Some(role)))) == Destination(Some(Uploader(id', Some(role'))))
  {
  }

  /** The `filename` callback. */
  function StoredName(user: Uploader, originalName: string, now: nat): (r: Result<string>)
    ensures r.Ok? <==> LowerExt(originalName) in ALLOWED
    ensures r.Rejected? ==> r.reason == InvalidFormat
    ensures r.Ok? ==> ParseFilename(r.value) == Some(FileParts(user.id, now, LowerExt(originalName)))
    ensures r.Ok? ==> ExtName(r.value) == LowerExt(originalName)
  {
    var ext := LowerExt(originalName);
    if ext !in ALLOWED then Rejected(InvalidFormat)
    else
      AllowedAreProper();
      FilenameRoundTrip(user.id, now, ext);
      ExtNameOfFilename(user.id, now, ext);
      Ok(Filename(user.id, now, ext))
  }

  /** `file.mimetype.startsWith("image/")`. */
  predicate IsImage(mimeType: string)
  {
    |mimeType| >= 6 && mimeType[..6] == "image/"
  }

  /** The file as the upload library sees it. */
  datatype File = File(originalName: string, mimeType: string, size: nat)

  datatype Stored = Stored(directory: string, filename: string)

  /**
   * One upload end to end: the file filter, then the destination, then the
   * name, then the size limit as the bytes arrive. The first failing check
   * decides the refusal.
   */
  function Accept(user: Option<Uploader>, file: File, now: nat): (r: Result<Stored>)
    ensures r.Ok? <==> IsImage(file.mimeType) && Authorised(user) && LowerExt(file.originalName) in ALLOWED
                       && file.size <= MAX_FILE_SIZE
    ensures !IsImage(file.mimeType) ==> r == Rejected(NotAnImage)
    ensures IsImage(file.mimeType) && !Authorised(user) ==> r == Rejected(Unauthorized)
    ensures IsImage(file.mimeType) && Authorised(user) && LowerExt(file.originalName) !in ALLOWED ==> r == Rejected(InvalidFormat)
    ensures (IsImage(file.mimeType) && Authorised(user) && LowerExt(file.originalName) in ALLOWED
             && file.size > MAX_FILE_SIZE) ==> r == Rejected(TooLarge)
    ensures r.Ok? ==> Destination(user) == Ok(r.value.directory)
    ensures r.Ok? ==> r.value.filename == Filename(user.value.id, now, LowerExt(file.originalName))
  {
    if !IsImage(file.mimeType) then Rejected(NotAnImage)
    else match Destination(user)
      case Rejected(reason) => Rejected(reason)
      case Ok(dir) =>
        match StoredName(user.value, file.originalName, now)
        case Rejected(reason) => Rejected(reason)
        case Ok(name) => if file.size > MAX_FILE_SIZE then Rejected(TooLarge) else Ok(Stored(dir, name))
  }
}
