/**
 * String predicates the controllers apply to request fields: the e-mail
 * pattern `^[^\s@]+@[^\s@]+\.[^\s@]+$`, the ten-digit phone pattern
 * `^\d{10}$`, lower-casing, and decimal rendering of numbers.
 */
module Text {
  import opened Common

  /** The characters JavaScript's `\s` class matches. */
  predicate IsSpace(c: char)
  {
    var n := c as int;
    (0x09 <= n <= 0x0D) || n == 0x20 || n == 0xA0 || n == 0x1680 || (0x2000 <= n <= 0x200A)
    || n == 0x2028 || n == 0x2029 || n == 0x202F || n == 0x205F || n == 0x3000 || n == 0xFEFF
  }

  /** A character of the class `[^\s@]`. */
  predicate Plain(c: char)
  {
    c != '@' && !IsSpace(c)
  }

  /** `[^\s@]*` over the whole string. */
  predicate AllPlain(s: string)
  {
    forall i :: 0 <= i < |s| ==> Plain(s[i])
  }

  /**
   * What the e-mail regular expression accepts, read off the pattern: a
   * non-empty run of plain characters, an '@', a non-empty run, a '.', and
   * a non-empty run, covering the whole string.
   */
  ghost predicate MatchesEmailPattern(s: string)
  {
    exists k, j :: 0 < k && k + 1 < j < |s| - 1 && s[k] == '@' && s[j] == '.'
      && AllPlain(s[..k]) && AllPlain(s[k + 1..j]) && AllPlain(s[j + 1..])
  }

  /** Position of the first occurrence of `c` in `s`. */
  function IndexOf(s: string, c: char): (r: Option<nat>)
    ensures r.Some? ==> (r.value < |s| && s[r.value] == c
                         && forall i :: 0 <= i < r.value ==> s[i] != c)
    ensures r.None? ==> forall i :: 0 <= i < |s| ==> s[i] != c
  {
    if |s| == 0 then None
    else if s[0] == c then Some(0)
    else match IndexOf(s[1..], c)
      case None => None
      case Some(i) => Some(i + 1)
  }

  /** A '.' with at least one character on each side. */
  predicate HasInnerDot(d: string)
  {
    exists j | 0 < j < |d| - 1 :: d[j] == '.'
  }

  /**
   * The e-mail test as a scan: split at the first '@', then the local part
   * must be a non-empty plain run, and the domain a plain run with an inner
   * dot.
   */
  predicate IsEmail(s: string)
  {
    match IndexOf(s, '@')
    case None => false
    case Some(k) => 0 < k && AllPlain(s[..k]) && AllPlain(s[k + 1..]) && HasInnerDot(s[k + 1..])
  }

  lemma AllPlainSplit(s: string, j: nat)
    requires j < |s|
    ensures AllPlain(s) <==> AllPlain(s[..j]) && Plain(s[j]) && AllPlain(s[j + 1..])
  {
    if AllPlain(s[..j]) && Plain(s[j]) && AllPlain(s[j + 1..]) {
      forall i | 0 <= i < |s| ensures Plain(s[i]) {
        if i < j { assert s[i] == s[..j][i]; }
        else if i > j { assert s[i] == s[j + 1..][i - j - 1]; }
      }
    }
  }

  lemma IsEmailSound(s: string)
    requires IsEmail(s)
    ensures MatchesEmailPattern(s)
  {
    var k := IndexOf(s, '@').value;
    var d := s[k + 1..];
    var j' :| 0 < j' < |d| - 1 && d[j'] == '.';
    var j := k + 1 + j';
    assert s[j] == '.';
    AllPlainSplit(d, j');
    assert s[k + 1..j] == d[..j'];
    assert s[j + 1..] == d[j' + 1..];
  }

  /** An '@' preceded only by plain characters is the first '@'. */
  lemma FirstAt(s: string, k: nat)
    requires k < |s| && s[k] == '@' && AllPlain(s[..k])
    ensures IndexOf(s, '@') == Some(k)
  {
    forall i | 0 <= i < k ensures s[i] != '@' {
      assert Plain(s[..k][i]);
    }
  }

  /** The two sides of position `j` of `s`, seen from the suffix that starts at `k`. */
  lemma SliceOfSuffix(s: string, k: nat, j: nat)
    requires k <= j < |s|
    ensures s[k..][..j - k] == s[k..j] && s[k..][j - k + 1..] == s[j + 1..] && s[k..][j - k] == s[j]
  {
  }

  /** Around a '.', plain runs on both sides make a plain domain with an inner dot. */
  lemma DomainAroundDot(s: string, k: nat, j: nat)
    requires k + 1 < j < |s| - 1 && s[j] == '.'
    requires AllPlain(s[k + 1..j]) && AllPlain(s[j + 1..])
    ensures AllPlain(s[k + 1..]) && HasInnerDot(s[k + 1..])
  {
    SliceOfSuffix(s, k + 1, j);
    assert Plain('.');
    AllPlainSplit(s[k + 1..], j - k - 1);
  }

  lemma IsEmailComplete(s: string)
    requires MatchesEmailPattern(s)
    ensures IsEmail(s)
  {
    var k, j :| 0 < k && k + 1 < j < |s| - 1 && s[k] == '@' && s[j] == '.'
      && AllPlain(s[..k]) && AllPlain(s[k + 1..j]) && AllPlain(s[j + 1..]);
    FirstAt(s, k);
    DomainAroundDot(s, k, j);
  }

  /** The scan accepts exactly the strings the regular expression matches. */
  lemma IsEmailMatchesPattern(s: string)
    ensures IsEmail(s) <==> MatchesEmailPattern(s)
  {
    if IsEmail(s) { IsEmailSound(s); }
    if MatchesEmailPattern(s) { IsEmailComplete(s); }
  }

  /** A character of `\d` (ASCII digits only in JavaScript). */
  predicate IsDigit(c: char)
  {
    '0' <= c <= '9'
  }

  /** `/^\d{10}$/.test(phone)`. */
  predicate IsPhone(s: string)
  {
    |s| == 10 && forall i :: 0 <= i < |s| ==> IsDigit(s[i])
  }

  /**
   * JavaScript's `length`: UTF-16 code units, so a character outside the
   * Basic Multilingual Plane (a surrogate pair) counts twice.
   */
  function Utf16Length(s: string): (n: nat)
    ensures |s| <= n <= 2 * |s|
    ensures n == |s| <==> forall i :: 0 <= i < |s| ==> s[i] as int < 0x1_0000
  {
    if |s| == 0 then 0
    else
      assert forall i :: 1 <= i < |s| ==> s[i] == s[1..][i - 1];
      (if s[0] as int < 0x1_0000 then 1 else 2) + Utf16Length(s[1..])
  }

  /** Code units add up over concatenation. */
  lemma {:induction false} Utf16LengthAppend(a: string, b: string)
    ensures Utf16Length(a + b) == Utf16Length(a) + Utf16Length(b)
  {
    if |a| == 0 {
      assert a + b == b;
    } else {
      assert (a + b)[0] == a[0];
      assert (a + b)[1..] == a[1..] + b;
      Utf16LengthAppend(a[1..], b);
    }
  }

  /** Four emoji are four characters but eight code units. */
  lemma AstralCountsTwice()
    ensures |"\U{1F600}\U{1F600}\U{1F600}\U{1F600}"| == 4
    ensures Utf16Length("\U{1F600}\U{1F600}\U{1F600}\U{1F600}") == 8
  {
    var e := "\U{1F600}";
    Utf16LengthAppend(e + e, e + e);
    Utf16LengthAppend(e, e);
    assert e + e + (e + e) == "\U{1F600}\U{1F600}\U{1F600}\U{1F600}";
  }

  function LowerChar(c: char): char
  {
    if 'A' <= c <= 'Z' then (c as int + 32) as char else c
  }

  /** `toLowerCase()` on the ASCII range. */
  function ToLower(s: string): (r: string)
    ensures |r| == |s|
    ensures forall i :: 0 <= i < |s| ==> r[i] == LowerChar(s[i])
  {
    if |s| == 0 then "" else [LowerChar(s[0])] + ToLower(s[1..])
  }

  /** Lower-casing twice is lower-casing once. */
  lemma ToLowerIdempotent(s: string)
    ensures ToLower(ToLower(s)) == ToLower(s)
  {
    var once := ToLower(s);
    var twice := ToLower(once);
    assert forall i :: 0 <= i < |s| ==> twice[i] == LowerChar(LowerChar(s[i]));
  }

  function DigitChar(d: nat): (c: char)
    requires d < 10
    ensures IsDigit(c)
  {
    ('0' as int + d) as char
  }

  /** `${n}` for a non-negative integer: its decimal digits. */
  function DecimalString(n: nat): (s: string)
    ensures |s| > 0
    ensures forall i :: 0 <= i < |s| ==> IsDigit(s[i])
  {
    if n < 10 then [DigitChar(n)] else DecimalString(n / 10) + [DigitChar(n % 10)]
  }

  function DigitValue(c: char): nat
    requires IsDigit(c)
  {
    c as int - '0' as int
  }

  /** Reading the digits back gives the number: the rendering is injective. */
  function ParseDecimal(s: string): nat
    requires forall i :: 0 <= i < |s| ==> IsDigit(s[i])
  {
    if |s| == 0 then 0 else 10 * ParseDecimal(s[..|s| - 1]) + DigitValue(s[|s| - 1])
  }

  lemma {:induction false} DecimalRoundTrip(n: nat)
    ensures ParseDecimal(DecimalString(n)) == n
  {
    var s := DecimalString(n);
    if n >= 10 {
      DecimalRoundTrip(n / 10);
      assert s[..|s| - 1] == DecimalString(n / 10);
    }
  }
}
