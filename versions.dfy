/** Resolution of a descriptor's specification version, from an explicit
    `version` attribute or from a legacy DTD public identifier, and its
    rendering as "major.minor". */
module Versions {
  import opened Outcomes

  datatype Version = Version(major: int, minor: int)

  /** The version a new descriptor reports before anything is set. */
  const DefaultVersion := Version(3, 1)

  /** The public identifiers of the Servlet 2.2 and 2.3 web application DTDs.
      These documents carry no version attribute; the identifier is the only
      version information they have. */
  const WEB_22_PUBLIC: string := "-//Sun Microsystems, Inc.//DTD Web Application 2.2//EN"
  const WEB_23_PUBLIC: string := "-//Sun Microsystems, Inc.//DTD Web Application 2.3//EN"

  /** The version strings `setVersion` recognises. */
  const VersionStrings: set<string> := {"2.4", "2.5", "3.0", "3.1"}

  /** Every version a descriptor can be at: the default, and whatever the
      two setters can produce. */
  predicate Known(v: Version) {
    v in {Version(2, 2), Version(2, 3), Version(2, 4), Version(2, 5), Version(3, 0), Version(3, 1)}
  }

  /** The version denoted by a `version` attribute, or `None` when the
      string (or a null reference) is not one the descriptor recognises. */
  function ParseVersion(version: Option<string>): (r: Option<Version>)
    ensures r.Some? <==> version.Some? && version.value in VersionStrings
    ensures r.Some? ==> Known(r.value) && version == Some(Render(r.value))
  {
    match version
    case None => None
    case Some(s) =>
      KnownRenderings();
      if s == "2.4" then Some(Version(2, 4))
      else if s == "2.5" then Some(Version(2, 5))
      else if s == "3.0" then Some(Version(3, 0))
      else if s == "3.1" then Some(Version(3, 1))
      else None
  }

  /** The version implied by a legacy public identifier, or `None` for any
      other identifier. */
  function ParsePublicId(publicId: string): (r: Option<Version>)
    ensures r.Some? <==> publicId == WEB_22_PUBLIC || publicId == WEB_23_PUBLIC
    ensures r.Some? ==> Known(r.value) && r.value.major == 2
    ensures r.Some? ==> Render(r.value) == if publicId == WEB_22_PUBLIC then "2.2" else "2.3"
  {
    KnownRenderings();
    if publicId == WEB_22_PUBLIC then Some(Version(2, 2))
    else if publicId == WEB_23_PUBLIC then Some(Version(2, 3))
    else None
  }

  lemma KnownRenderings()
    ensures Render(Version(2, 2)) == "2.2" && Render(Version(2, 3)) == "2.3"
    ensures Render(Version(2, 4)) == "2.4" && Render(Version(2, 5)) == "2.5"
    ensures Render(Version(3, 0)) == "3.0" && Render(Version(3, 1)) == "3.1"
  {
  }

  /** "major.minor", each part in Java's decimal rendering of an int. */
  function Render(v: Version): string {
    IntToString(v.major) + "." + IntToString(v.minor)
  }

  function IntToString(n: int): string {
    if n < 0 then "-" + NatToString(-n) else NatToString(n)
  }

  function DigitChar(d: nat): (c: char)
    requires d < 10
    ensures '0' <= c <= '9' && c as int - '0' as int == d
  {
    ('0' as int + d) as char
  }

  predicate AllDigits(s: string) {
    forall i | 0 <= i < |s| :: '0' <= s[i] <= '9'
  }

  /** Decimal digits of `n`, most significant first, without leading zeros. */
  function NatToString(n: nat): (s: string)
    ensures |s| > 0 && AllDigits(s)
    ensures |s| > 1 ==> s[0] != '0'
    decreases n
  {
    if n < 10 then [DigitChar(n)] else NatToString(n / 10) + [DigitChar(n % 10)]
  }

  /** The number a string of decimal digits denotes. */
  function DecimalValue(s: string): nat
    requires AllDigits(s)
  {
    if s == [] then 0 else DecimalValue(s[..|s| - 1]) * 10 + (s[|s| - 1] as int - '0' as int)
  }

  lemma {:induction false} DecimalRoundTrip(n: nat)
    ensures DecimalValue(NatToString(n)) == n
    decreases n
  {
    if n >= 10 {
      var s := NatToString(n);
      assert s[..|s| - 1] == NatToString(n / 10);
      DecimalRoundTrip(n / 10);
    }
  }

  lemma NatToStringInjective(m: nat, n: nat)
    ensures NatToString(m) == NatToString(n) <==> m == n
  {
    if NatToString(m) == NatToString(n) {
      DecimalRoundTrip(m);
      DecimalRoundTrip(n);
    }
  }

  /** The rendering of an int starts with '-' exactly when it is negative,
      and the rest is the magnitude's digits. */
  lemma IntToStringSign(n: int)
    ensures |IntToString(n)| > 0
    ensures IntToString(n)[0] == '-' <==> n < 0
    ensures n < 0 ==> IntToString(n)[1..] == NatToString(-n)
  {
    if n >= 0 {
      assert '0' <= NatToString(n)[0] <= '9';
    }
  }

  lemma IntToStringInjective(m: int, n: int)
    ensures IntToString(m) == IntToString(n) <==> m == n
  {
    if IntToString(m) == IntToString(n) {
      IntToStringSign(m);
      IntToStringSign(n);
      if m < 0 {
        NatToStringInjective(-m, -n);
      } else {
        NatToStringInjective(m, n);
      }
    }
  }

  /** A string that contains no '.' can be recovered from `a + "." + b`. */
  lemma SplitAtDot(a: string, b: string, c: string, d: string)
    requires '.' !in a && '.' !in c
    requires a + "." + b == c + "." + d
    ensures a == c && b == d
  {
    var s := a + "." + b;
    assert s[|a|] == '.' && s[|c|] == '.';
    assert forall i | 0 <= i < |a| :: s[i] == a[i];
    assert forall i | 0 <= i < |c| :: s[i] == c[i];
    assert |a| == |c|;
    assert a == s[..|a|] && c == s[..|c|];
    assert b == s[|a| + 1..] && d == s[|c| + 1..];
  }

  lemma NoDotInIntToString(n: int)
    ensures '.' !in IntToString(n)
  {
  }

  /** "major.minor" is a faithful rendering: it determines the version. */
  lemma {:induction false} RenderInjective(v: Version, w: Version)
    ensures Render(v) == Render(w) <==> v == w
  {
    if Render(v) == Render(w) {
      NoDotInIntToString(v.major);
      NoDotInIntToString(w.major);
      SplitAtDot(IntToString(v.major), IntToString(v.minor), IntToString(w.major), IntToString(w.minor));
      IntToStringInjective(v.major, w.major);
      IntToStringInjective(v.minor, w.minor);
    }
  }

  /** Rendering a version that `setVersion` accepts and parsing it back
      gives that version again. */
  lemma {:induction false} ParseRenderRoundTrip(v: Version)
    requires Render(v) in VersionStrings
    ensures ParseVersion(Some(Render(v))) == Some(v)
  {
    var r := ParseVersion(Some(Render(v)));
    assert r.Some?;
    RenderInjective(r.value, v);
  }
}
