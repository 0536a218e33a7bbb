/**
 * Release tags and version comparison: `adjust_version` pads `vX` and
 * `vX.Y` tags to three components, and `is_version_newer` compares the
 * padded candidate with the running version as semantic versions.
 */
module Release {
  import opened Common
  import opened Strings

  /** One downloadable file of a published release. */
  datatype Asset = Asset(browserDownloadUrl: string)

  /** The part of the published-release record the kiosk reads. */
  datatype Release = Release(tagName: string, assets: seq<Asset>)

  /** A `major.minor.patch` version without pre-release or build parts. */
  datatype Version = Version(major: nat, minor: nat, patch: nat)

  datatype VersionError = Malformed(text: string)

  /** The version numbers are `u64`. */
  const U64Max: nat := 18446744073709551615

  predicate InRange(v: Version) {
    v.major <= U64Max && v.minor <= U64Max && v.patch <= U64Max
  }

  /**
   * `adjust_version`: strip every leading `v`, then pad with `.0` until
   * there are two dots; a string that already has two or more dots is
   * returned as it is.
   */
  function AdjustVersion(version: string): string {
    PadVersion(TrimStartMatches(version, 'v'))
  }

  /** The `match` on the dot count of `adjust_version`. */
  function PadVersion(trimmed: string): string {
    var dotCount := CountChar(trimmed, '.');
    if dotCount == 1 then trimmed + ".0"
    else if dotCount == 0 then trimmed + ".0.0"
    else trimmed
  }

  lemma PadDots()
    ensures CountChar(".0", '.') == 1 && CountChar(".0.0", '.') == 2
  {
  }

  lemma {:induction false} PadVersionShape(t: string)
    requires t == [] || t[0] != 'v'
    ensures var r := PadVersion(t);
            && r != [] && r[0] != 'v'
            && StartsWith(r, t)
            && CountChar(r, '.') == (if CountChar(t, '.') >= 2 then CountChar(t, '.') else 2)
  {
    var r := PadVersion(t);
    PadDots();
    if CountChar(t, '.') == 1 {
      assert t != [];
      assert r == t + ".0";
      CountCharAppend(t, ".0", '.');
      assert r[..|t|] == t && r[0] == t[0];
    } else if CountChar(t, '.') == 0 {
      assert r == t + ".0.0";
      CountCharAppend(t, ".0.0", '.');
      assert r[..|t|] == t;
      if t == [] {
        assert r == ".0.0";
      } else {
        assert r[0] == t[0];
      }
    } else {
      assert r == t;
      assert t != [];
    }
  }

  /**
   * What `adjust_version` returns: the input without its leading `v`s,
   * followed by as many `.0` as it takes to reach two dots; never empty and
   * never starting with `v`.
   */
  lemma {:induction false} AdjustVersionShape(version: string)
    ensures var r, t := AdjustVersion(version), TrimStartMatches(version, 'v');
            && r != [] && r[0] != 'v'
            && StartsWith(r, t)
            && CountChar(r, '.') == (if CountChar(t, '.') >= 2 then CountChar(t, '.') else 2)
  {
    PadVersionShape(TrimStartMatches(version, 'v'));
  }

  function DigitValue(c: char): nat
    requires IsAsciiDigit(c)
  {
    c as int - '0' as int
  }

  function DigitChar(d: nat): (c: char)
    requires d < 10
    ensures IsAsciiDigit(c) && DigitValue(c) == d
  {
    ('0' as int + d) as char
  }

  predicate AllDigits(s: string) {
    forall i :: 0 <= i < |s| ==> IsAsciiDigit(s[i])
  }

  /** A decimal numeral as semver accepts it: digits, with no leading zero. */
  predicate IsNumeral(s: string) {
    s != [] && AllDigits(s) && (s[0] == '0' ==> |s| == 1)
  }

  /** The number a string of digits denotes. */
  function DigitsValue(s: string): nat
    requires AllDigits(s)
  {
    if s == [] then 0 else DigitsValue(s[..|s| - 1]) * 10 + DigitValue(s[|s| - 1])
  }

  /** The decimal rendering of `n`: a canonical numeral that denotes `n`. */
  function NatToString(n: nat): (r: string)
    ensures IsNumeral(r) && DigitsValue(r) == n
    ensures n > 0 ==> r[0] != '0'
  {
    if n < 10 then [DigitChar(n)]
    else
      var r := NatToString(n / 10) + [DigitChar(n % 10)];
      assert r[..|r| - 1] == NatToString(n / 10);
      r
  }

  /** A numeral with no leading zero other than `0` itself denotes a positive number. */
  lemma {:induction false} NumeralPositive(s: string)
    requires IsNumeral(s) && s[0] != '0'
    ensures DigitsValue(s) > 0
  {
    if |s| > 1 {
      NumeralPositive(s[..|s| - 1]);
    }
  }

  /** Canonical numerals and numbers are in one-to-one correspondence. */
  lemma {:induction false} NumeralRoundTrip(s: string)
    requires IsNumeral(s)
    ensures NatToString(DigitsValue(s)) == s
  {
    if |s| > 1 {
      var init := s[..|s| - 1];
      assert IsNumeral(init);
      NumeralPositive(init);
      NumeralRoundTrip(init);
      var n := DigitsValue(s);
      assert n / 10 == DigitsValue(init) && n % 10 == DigitValue(s[|s| - 1]);
      assert s == init + [s[|s| - 1]];
    } else {
      assert s == [DigitChar(DigitValue(s[0]))];
    }
  }

  /** `Version`'s display form, `major.minor.patch`. */
  function Format(v: Version): string {
    NatToString(v.major) + "." + NatToString(v.minor) + "." + NatToString(v.patch)
  }

  function ParseNumber(s: string): (r: Option<nat>)
    ensures r.Some? ==> r.value <= U64Max && NatToString(r.value) == s
  {
    if IsNumeral(s) && DigitsValue(s) <= U64Max then
      NumeralRoundTrip(s);
      Some(DigitsValue(s))
    else None
  }

  /**
   * `Version::parse` restricted to plain versions: exactly three
   * dot-separated canonical numerals, each fitting in a `u64`. Whatever it
   * accepts is the display form of the version it returns.
   */
  function ParseVersion(s: string): (r: Result<Version, VersionError>)
    ensures r.Ok? ==> InRange(r.value) && s == Format(r.value)
    ensures r.Err? ==> r.error == Malformed(s)
  {
    var parts := Split(s, '.');
    JoinSplit(s, '.');
    if |parts| != 3 then Err(Malformed(s))
    else
      assert s == parts[0] + "." + (parts[1] + "." + parts[2]) by {
        assert parts[1..][1..] == [parts[2]];
        assert JoinWith(parts[1..], '.') == parts[1] + "." + parts[2];
        assert JoinWith(parts, '.') == parts[0] + "." + JoinWith(parts[1..], '.');
      }
      match (ParseNumber(parts[0]), ParseNumber(parts[1]), ParseNumber(parts[2]))
      case (Some(a), Some(b), Some(c)) => Ok(Version(a, b, c))
      case _ => Err(Malformed(s))
  }

  lemma {:induction false} NumeralHasNoDot(n: nat)
    ensures '.' !in NatToString(n)
  {
    var s := NatToString(n);
    assert forall i :: 0 <= i < |s| ==> s[i] != '.';
  }

  lemma {:induction false} SplitThree(a: string, b: string, c: string)
    requires '.' !in a && '.' !in b && '.' !in c
    ensures Split(a + "." + b + "." + c, '.') == [a, b, c]
  {
    assert a + "." + b + "." + c == a + ['.'] + (b + ['.'] + c);
    SplitCons(a, b + ['.'] + c, '.');
    SplitCons(b, c, '.');
    SplitNone(c, '.');
  }

  /** Every in-range version is parsed back from its display form. */
  lemma {:induction false} ParseFormat(v: Version)
    requires InRange(v)
    ensures ParseVersion(Format(v)) == Ok(v)
  {
    var a, b, c := NatToString(v.major), NatToString(v.minor), NatToString(v.patch);
    NumeralHasNoDot(v.major);
    NumeralHasNoDot(v.minor);
    NumeralHasNoDot(v.patch);
    SplitThree(a, b, c);
    NumeralRoundTrip(a);
    NumeralRoundTrip(b);
    NumeralRoundTrip(c);
    assert ParseNumber(a) == Some(v.major);
    assert ParseNumber(b) == Some(v.minor);
    assert ParseNumber(c) == Some(v.patch);
  }

  /** `ParseVersion` accepts exactly the display forms of in-range versions. */
  lemma {:induction false} ParseVersionExact(s: string, v: Version)
    ensures ParseVersion(s) == Ok(v) <==> InRange(v) && s == Format(v)
  {
    if InRange(v) && s == Format(v) {
      ParseFormat(v);
    }
  }

  /** semver's precedence on plain versions: lexicographic on the three numbers. */
  predicate Newer(a: Version, b: Version) {
    a.major > b.major
    || (a.major == b.major && a.minor > b.minor)
    || (a.major == b.major && a.minor == b.minor && a.patch > b.patch)
  }

  /**
   * `is_version_newer`: is the adjusted candidate strictly greater than the
   * adjusted running version? A parse failure on either side is an error.
   */
  function IsVersionNewer(candidate: string, current: string): Result<bool, VersionError> {
    CompareParsed(ParseVersion(AdjustVersion(candidate)), ParseVersion(AdjustVersion(current)))
  }

  /** The `?`s of `is_version_newer`: the candidate's parse error first, then the running version's. */
  function CompareParsed(candidate: Result<Version, VersionError>, current: Result<Version, VersionError>)
    : Result<bool, VersionError>
  {
    match candidate
    case Err(e) => Err(e)
    case Ok(compare) =>
      match current
      case Err(e) => Err(e)
      case Ok(running) => Ok(Newer(compare, running))
  }

  lemma CompareParsedAsymmetric(p: Result<Version, VersionError>, q: Result<Version, VersionError>)
    ensures CompareParsed(p, q) == Ok(true) ==> CompareParsed(q, p) == Ok(false)
  {
  }

  /** `is_update_available`: the release's tag compared with the running version. */
  function IsUpdateAvailable(release: Release, appVersion: string): Result<bool, VersionError> {
    IsVersionNewer(release.tagName, appVersion)
  }

  // ---------------------------------------------------------------------
  // Properties of AdjustVersion

  /** Every leading `v` goes, however many there are. */
  lemma {:induction false} AdjustVersionDropsLeadingV(s: string)
    ensures AdjustVersion("v" + s) == AdjustVersion(s)
  {
    assert ("v" + s)[0] == 'v' && ("v" + s)[1..] == s;
  }

  /** The output already has two dots and no leading `v`, so adjusting again changes nothing. */
  lemma {:induction false} AdjustVersionIdempotent(s: string)
    ensures AdjustVersion(AdjustVersion(s)) == AdjustVersion(s)
  {
    AdjustVersionShape(s);
    var r := AdjustVersion(s);
    assert TrimStartMatches(r, 'v') == r;
  }

  lemma {:induction false} AdjustNoDot(t: string)
    requires t != [] && t[0] != 'v' && CountChar(t, '.') == 0
    ensures AdjustVersion(t) == t + ".0.0"
  {
    assert TrimStartMatches(t, 'v') == t;
  }

  lemma {:induction false} AdjustOneDot(t: string)
    requires t != [] && t[0] != 'v' && CountChar(t, '.') == 1
    ensures AdjustVersion(t) == t + ".0"
  {
    assert TrimStartMatches(t, 'v') == t;
  }

  lemma {:induction false} AdjustTwoDots(t: string)
    requires t != [] && t[0] != 'v' && CountChar(t, '.') >= 2
    ensures AdjustVersion(t) == t
  {
    assert TrimStartMatches(t, 'v') == t;
  }

  /** The decimal digits the examples use. */
  lemma SmallNumerals()
    ensures NatToString(0) == "0" && NatToString(1) == "1" && NatToString(2) == "2" && NatToString(3) == "3"
  {
  }

  /** The dots of the short example tags, counted one character at a time. */
  lemma {:induction false} OneDotExample(t: string)
    requires |t| == 3 && t[0] == '1' && t[1] == '.' && IsAsciiDigit(t[2])
    ensures t != [] && t[0] != 'v' && CountChar(t, '.') == 1
  {
    assert t[1..][1..] == t[2..];
    assert t[2..][1..] == [];
    assert CountChar(t[2..], '.') == 0;
    assert CountChar(t[1..], '.') == 1;
  }

  lemma {:induction false} TwoDotExample(t: string)
    requires t == "1.2.3"
    ensures t != [] && t[0] != 'v' && CountChar(t, '.') == 2
  {
    assert t[1..][1..] == t[2..];
    assert t[2..][1..] == t[3..];
    assert t[3..][1..] == t[4..];
    assert t[4..][1..] == [];
    assert CountChar(t[4..], '.') == 0;
    assert CountChar(t[3..], '.') == 1;
    assert CountChar(t[2..], '.') == 1;
    assert CountChar(t[1..], '.') == 2;
  }

  /** A short tag `v1.<digit>`, such as `v1.2`, becomes `1.<digit>.0`. */
  lemma {:induction false} AdjustVersionShortTag(tag: string)
    requires |tag| == 4 && tag[0] == 'v' && tag[1] == '1' && tag[2] == '.' && IsAsciiDigit(tag[3])
    ensures AdjustVersion(tag) == tag[1..] + ".0"
  {
    var t := tag[1..];
    assert tag == "v" + t;
    AdjustVersionDropsLeadingV(t);
    OneDotExample(t);
    AdjustOneDot(t);
  }

  /** A one-digit tag `v<digit>`, such as `v2`, becomes `<digit>.0.0`. */
  lemma {:induction false} AdjustVersionDigitTag(tag: string)
    requires |tag| == 2 && tag[0] == 'v' && IsAsciiDigit(tag[1])
    ensures AdjustVersion(tag) == tag[1..] + ".0.0"
  {
    var t := tag[1..];
    assert tag == "v" + t;
    AdjustVersionDropsLeadingV(t);
    DigitHasNoDot(t);
    AdjustNoDot(t);
  }

  lemma {:induction false} DigitHasNoDot(t: string)
    requires |t| == 1 && IsAsciiDigit(t[0])
    ensures t != [] && t[0] != 'v' && CountChar(t, '.') == 0
  {
    assert t[1..] == [];
  }

  /** `v1.2.3` becomes `1.2.3`. */
  lemma {:induction false} AdjustVersionExampleFull(tag: string)
    requires tag == "v1.2.3"
    ensures AdjustVersion(tag) == "1.2.3"
  {
    var t := tag[1..];
    assert tag == "v" + t;
    AdjustVersionDropsLeadingV(t);
    TwoDotExample(t);
    AdjustTwoDots(t);
  }

  lemma {:induction false} CountNoDot(s: string)
    requires '.' !in s
    ensures CountChar(s, '.') == 0
  {
    if s != [] {
      CountNoDot(s[1..]);
    }
  }

  /** `vX` becomes `X.0.0`. */
  lemma {:induction false} AdjustMajorTag(x: nat)
    ensures AdjustVersion("v" + NatToString(x)) == Format(Version(x, 0, 0))
  {
    var a := NatToString(x);
    NumeralHasNoDot(x);
    CountNoDot(a);
    AdjustVersionDropsLeadingV(a);
    AdjustNoDot(a);
    assert NatToString(0) == "0";
  }

  /** `vX.Y` becomes `X.Y.0`. */
  lemma {:induction false} AdjustMinorTag(x: nat, y: nat)
    ensures AdjustVersion("v" + NatToString(x) + "." + NatToString(y)) == Format(Version(x, y, 0))
  {
    var a, b := NatToString(x), NatToString(y);
    var t := a + "." + b;
    NumeralHasNoDot(x);
    NumeralHasNoDot(y);
    CountNoDot(a);
    CountNoDot(b);
    CountCharAppend(a + ".", b, '.');
    CountCharAppend(a, ".", '.');
    assert t[0] == a[0];
    assert "v" + NatToString(x) + "." + NatToString(y) == "v" + t;
    AdjustVersionDropsLeadingV(t);
    AdjustOneDot(t);
    assert NatToString(0) == "0";
  }

  /** A full display form passes through unchanged. */
  lemma {:induction false} AdjustFormatted(v: Version)
    ensures AdjustVersion(Format(v)) == Format(v)
  {
    var a, b, c := NatToString(v.major), NatToString(v.minor), NatToString(v.patch);
    NumeralHasNoDot(v.major);
    NumeralHasNoDot(v.minor);
    NumeralHasNoDot(v.patch);
    CountNoDot(a);
    CountNoDot(b);
    CountNoDot(c);
    CountCharAppend(a + "." + b + ".", c, '.');
    CountCharAppend(a + "." + b, ".", '.');
    CountCharAppend(a + ".", b, '.');
    CountCharAppend(a, ".", '.');
    assert Format(v)[0] == a[0];
    AdjustTwoDots(Format(v));
  }

  lemma FormatExamples()
    ensures Format(Version(1, 3, 0)) == "1.3.0" && Format(Version(1, 2, 0)) == "1.2.0"
  {
    SmallNumerals();
  }

  /** A minor bump published as `v1.3` is newer than the running `1.2.0`. */
  lemma {:induction false} IsVersionNewerExampleBump(tag: string, running: string)
    requires tag == "v1.3" && running == "1.2.0"
    ensures IsVersionNewer(tag, running) == Ok(true)
  {
    var a, b := Version(1, 3, 0), Version(1, 2, 0);
    AdjustVersionShortTag(tag);
    assert tag[1..] + ".0" == "1.3.0";
    FormatExamples();
    AdjustFormatted(b);
    IsVersionNewerSpec(tag, running, a, b);
  }

  /** The running `1.2.0` published again as the short tag `v1.2` is not newer. */
  lemma {:induction false} IsVersionNewerExampleSame(tag: string, running: string)
    requires tag == "v1.2" && running == "1.2.0"
    ensures IsVersionNewer(tag, running) == Ok(false)
  {
    var v := Version(1, 2, 0);
    AdjustVersionShortTag(tag);
    assert tag[1..] + ".0" == "1.2.0";
    FormatExamples();
    AdjustFormatted(v);
    IsVersionNewerSpec(tag, running, v, v);
  }

  // ---------------------------------------------------------------------
  // Properties of IsVersionNewer

  /**
   * On well-formed inputs the comparison is exactly semver precedence: a
   * candidate is newer iff it is strictly greater.
   */
  lemma {:induction false} IsVersionNewerFormatted(a: Version, b: Version)
    requires InRange(a) && InRange(b)
    ensures IsVersionNewer(Format(a), Format(b)) == Ok(Newer(a, b))
    ensures IsVersionNewer("v" + Format(a), Format(b)) == Ok(Newer(a, b))
  {
    AdjustFormatted(a);
    AdjustFormatted(b);
    AdjustVersionDropsLeadingV(Format(a));
    ParseFormat(a);
    ParseFormat(b);
  }

  /** The outcome is decided by the two parsed versions, and is an error iff either parse fails. */
  lemma {:induction false} IsVersionNewerSpec(candidate: string, current: string, a: Version, b: Version)
    ensures IsVersionNewer(candidate, current).Err? <==>
            ParseVersion(AdjustVersion(candidate)).Err? || ParseVersion(AdjustVersion(current)).Err?
    ensures InRange(a) && InRange(b) && AdjustVersion(candidate) == Format(a)
            && AdjustVersion(current) == Format(b)
            ==> IsVersionNewer(candidate, current) == Ok(Newer(a, b))
  {
    if InRange(a) && InRange(b) && AdjustVersion(candidate) == Format(a) && AdjustVersion(current) == Format(b) {
      ParseFormat(a);
      ParseFormat(b);
    }
  }

  /** A parse failure of the candidate is reported as that error, never as `false`. */
  lemma {:induction false} IsVersionNewerParseError(candidate: string, current: string)
    requires ParseVersion(AdjustVersion(candidate)).Err?
    ensures IsVersionNewer(candidate, current) == Err(Malformed(AdjustVersion(candidate)))
  {
  }

  /** Equal versions are never newer than each other. */
  lemma {:induction false} IsVersionNewerIrreflexive(s: string)
    ensures IsVersionNewer(s, s) != Ok(true)
  {
  }

  lemma {:induction false} NewerTransitive(a: Version, b: Version, c: Version)
    requires Newer(a, b) && Newer(b, c)
    ensures Newer(a, c)
  {
  }

  /** A candidate newer than the running version is not also older than it. */
  lemma {:induction false} IsVersionNewerAsymmetric(x: string, y: string)
    ensures IsVersionNewer(x, y) == Ok(true) ==> IsVersionNewer(y, x) == Ok(false)
  {
    CompareParsedAsymmetric(ParseVersion(AdjustVersion(x)), ParseVersion(AdjustVersion(y)));
  }

  /** Newer-than chains: it is transitive on the strings it accepts. */
  lemma {:induction false} IsVersionNewerTransitive(x: string, y: string, z: string)
    requires IsVersionNewer(x, y) == Ok(true) && IsVersionNewer(y, z) == Ok(true)
    ensures IsVersionNewer(x, z) == Ok(true)
  {
    var px, py, pz := ParseVersion(AdjustVersion(x)), ParseVersion(AdjustVersion(y)), ParseVersion(AdjustVersion(z));
    assert px.Ok? && py.Ok? && pz.Ok?;
    NewerTransitive(px.value, py.value, pz.value);
  }

  /** Only the tag of a release matters, not its assets. */
  lemma {:induction false} UpdateAvailableReadsTag(r1: Release, r2: Release, appVersion: string, a: Version, b: Version)
    requires InRange(a) && InRange(b)
    ensures r1.tagName == r2.tagName ==> IsUpdateAvailable(r1, appVersion) == IsUpdateAvailable(r2, appVersion)
    ensures r1.tagName == "v" + Format(a) ==> IsUpdateAvailable(r1, Format(b)) == Ok(Newer(a, b))
  {
    IsVersionNewerFormatted(a, b);
  }
}
