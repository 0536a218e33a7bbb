/**
 * The build script: it picks the version string compiled into the program
 * as `APP_VERSION`. A CI ref name of the form `v1`, `v1.2`, `v1.2.3`, ...
 * is used verbatim; otherwise the trimmed output of
 * `git describe --tags --abbrev=0`; otherwise `0.0.0`.
 */
module BuildScript {
  import opened Common
  import opened Strings
  import opened Release

  // ---------------------------------------------------------------------
  // The tag pattern `^v\d+(\.\d+)*$`

  /**
   * The pattern after its `v`, read left to right as an automaton: a digit
   * continues a group, a `.` is allowed only right after a digit, and the
   * text may end only right after a digit. `afterDigit` is the state.
   */
  predicate ScanGroups(t: string, afterDigit: bool) {
    if t == [] then afterDigit
    else if IsAsciiDigit(t[0]) then ScanGroups(t[1..], true)
    else t[0] == '.' && afterDigit && ScanGroups(t[1..], false)
  }

  /** Does the whole of `s` match `^v\d+(\.\d+)*$`? */
  predicate MatchesTag(s: string) {
    s != [] && s[0] == 'v' && ScanGroups(s[1..], false)
  }

  predicate AllAsciiDigits(g: string) {
    forall i :: 0 <= i < |g| ==> IsAsciiDigit(g[i])
  }

  predicate DigitGroup(g: string) {
    g != [] && AllAsciiDigits(g)
  }

  predicate AllGroups(sp: seq<string>) {
    forall j :: 0 <= j < |sp| ==> DigitGroup(sp[j])
  }

  /** The pattern's meaning: `v`, then one or more dot-separated non-empty digit groups. */
  predicate TagForm(s: string) {
    s != [] && s[0] == 'v' && AllGroups(Split(s[1..], '.'))
  }

  lemma AllGroupsCons(sp: seq<string>)
    requires |sp| >= 1
    ensures AllGroups(sp) <==> DigitGroup(sp[0]) && AllGroups(sp[1..])
  {
    if DigitGroup(sp[0]) && AllGroups(sp[1..]) {
      forall j | 0 <= j < |sp| ensures DigitGroup(sp[j]) {
        if j > 0 { assert sp[j] == sp[1..][j - 1]; }
      }
    }
  }

  lemma AllAsciiDigitsCons(c: char, g: string)
    ensures AllAsciiDigits([c] + g) <==> IsAsciiDigit(c) && AllAsciiDigits(g)
  {
    var h := [c] + g;
    assert h[0] == c && h[1..] == g;
    if IsAsciiDigit(c) && AllAsciiDigits(g) {
      forall i | 0 <= i < |h| ensures IsAsciiDigit(h[i]) {
        if i > 0 { assert h[i] == g[i - 1]; }
      }
    }
  }

  lemma {:induction false} ScanGroupsSplit(t: string)
    ensures ScanGroups(t, false) <==> AllGroups(Split(t, '.'))
    ensures ScanGroups(t, true) <==> AllAsciiDigits(Split(t, '.')[0]) && AllGroups(Split(t, '.')[1..])
  {
    var sp := Split(t, '.');
    if t == [] {
      assert sp == [[]];
      assert !DigitGroup(sp[0]);
    } else {
      var rest := Split(t[1..], '.');
      ScanGroupsSplit(t[1..]);
      AllGroupsCons(sp);
      AllGroupsCons(rest);
      if t[0] == '.' {
        assert sp == [[]] + rest;
        assert sp[1..] == rest;
      } else {
        assert sp == [[t[0]] + rest[0]] + rest[1..];
        assert sp[1..] == rest[1..];
        AllAsciiDigitsCons(t[0], rest[0]);
      }
    }
  }

  /** The automaton accepts exactly the strings of the pattern's form. */
  lemma {:induction false} MatchesTagIsTagForm(s: string)
    ensures MatchesTag(s) <==> TagForm(s)
  {
    if s != [] {
      ScanGroupsSplit(s[1..]);
    }
  }

  /** A matched text ends in a digit. */
  lemma {:induction false} ScanEndsInDigit(t: string, afterDigit: bool)
    requires ScanGroups(t, afterDigit) && t != []
    ensures IsAsciiDigit(t[|t| - 1])
  {
    if |t| > 1 {
      ScanEndsInDigit(t[1..], IsAsciiDigit(t[0]));
      assert t[1..][|t| - 2] == t[|t| - 1];
    }
  }

  lemma {:induction false} MatchesTagExamples(a: string, b: string, c: string)
    requires a == "v1" && b == "v1.2.3" && c == "v10.0"
    ensures MatchesTag(a) && MatchesTag(b) && MatchesTag(c)
  {
    assert a[1..] == "1" && ScanGroups("1", false);
    assert b[1..] == "1.2.3" && ScanGroups("1.2.3", false);
    assert c[1..] == "10.0" && ScanGroups("10.0", false);
  }

  lemma {:induction false} MatchesTagCounterExamples(a: string, b: string, c: string, d: string, e: string, f: string)
    requires a == "1.2" && b == "v1..2" && c == "v1." && d == "v" && e == "v1.2-rc" && f == "V1"
    ensures !MatchesTag(a) && !MatchesTag(b) && !MatchesTag(c)
    ensures !MatchesTag(d) && !MatchesTag(e) && !MatchesTag(f)
  {
    assert a[0] != 'v' && f[0] != 'v';
    assert b[1..] == "1..2" && !ScanGroups("1..2", false);
    assert c[1..] == "1." && !ScanGroups("1.", false);
    assert d[1..] == "" && !ScanGroups("", false);
    assert e[1..] == "1.2-rc" && !ScanGroups("1.2-rc", false);
  }

  // ---------------------------------------------------------------------
  // Choosing the version

  /** What running `git describe` produced; `stdout` is `None` when it is not UTF-8. */
  datatype GitOutput = SpawnFailed | Exited(success: bool, stdout: Option<string>)

  datatype BuildOutcome = Emitted(lines: seq<string>) | BuildPanic

  const EnvDirective: string := "cargo:rustc-env=APP_VERSION="

  const FallbackVersion: string := "0.0.0"

  /**
   * The version the build settles on, or `None` when `String::from_utf8(..)
   * .unwrap()` panics on a successful git run whose output is not UTF-8.
   */
  function ChooseVersion(refName: Option<string>, git: GitOutput): (r: Option<string>)
    ensures refName.Some? && MatchesTag(refName.value) ==> r == refName
    ensures r.None? <==> !(refName.Some? && MatchesTag(refName.value)) && git == Exited(true, None)
    ensures !(refName.Some? && MatchesTag(refName.value)) && git.Exited? && git.success && git.stdout.Some? ==>
              r == Some(Trim(git.stdout.value))
    ensures r.Some? ==> r.value == [] || (!IsWhitespace(r.value[0]) && !IsWhitespace(r.value[|r.value| - 1]))
  {
    if refName.Some? && MatchesTag(refName.value) then
      ScanEndsInDigit(refName.value[1..], false);
      assert refName.value[1..][|refName.value| - 2] == refName.value[|refName.value| - 1];
      refName
    else
      match git
      case Exited(true, Some(out)) =>
        TrimEdges(out);
        Some(Trim(out))
      case Exited(true, None) => None
      case _ => Some(FallbackVersion)
  }

  /** The build script's output lines to cargo. */
  function Build(refName: Option<string>, git: GitOutput): (r: BuildOutcome)
    ensures r.BuildPanic? <==> ChooseVersion(refName, git).None?
    ensures r.Emitted? ==>
              |r.lines| == 1 && StripPrefix(r.lines[0], EnvDirective) == ChooseVersion(refName, git)
  {
    match ChooseVersion(refName, git)
    case Some(v) =>
      assert (EnvDirective + v)[..|EnvDirective|] == EnvDirective;
      Emitted([EnvDirective + v])
    case None => BuildPanic
  }

  /** Without a matching ref name or a successful git run, the version is `0.0.0`. */
  lemma {:induction false} BuildFallback(refName: Option<string>, git: GitOutput)
    requires !(refName.Some? && MatchesTag(refName.value))
    requires !(git.Exited? && git.success)
    ensures ChooseVersion(refName, git) == Some(FallbackVersion)
    ensures Build(refName, git) == Emitted([EnvDirective + FallbackVersion])
  {
  }

  /** A non-matching ref name is ignored: only git's answer counts. */
  lemma {:induction false} RefNameIgnoredUnlessTag(n1: string, n2: string, git: GitOutput)
    requires !MatchesTag(n1) && !MatchesTag(n2)
    ensures ChooseVersion(Some(n1), git) == ChooseVersion(Some(n2), git) == ChooseVersion(None, git)
  {
  }

  // ---------------------------------------------------------------------
  // How the built-in version meets the update check

  /** The fallback `0.0.0` is read by the update check as version 0.0.0. */
  lemma {:induction false} FallbackParses()
    ensures ParseVersion(AdjustVersion(FallbackVersion)) == Ok(Version(0, 0, 0))
  {
    assert NatToString(0) == "0";
    assert Format(Version(0, 0, 0)) == FallbackVersion;
    AdjustFormatted(Version(0, 0, 0));
    ParseFormat(Version(0, 0, 0));
  }

  /**
   * The pattern admits any number of groups, but the update check reads at
   * most three: a program built from a ref name such as `v1.2.3.4` can
   * never learn of an update, because every comparison with its own
   * version is an error.
   */
  lemma {:induction false} LongTagNeverComparable(tag: string, candidate: string)
    requires MatchesTag(tag) && CountChar(tag, '.') >= 3
    ensures IsVersionNewer(candidate, tag).Err?
  {
    var t := tag[1..];
    assert tag == [tag[0]] + t;
    assert t != [] && IsAsciiDigit(t[0]);
    assert TrimStartMatches(t, 'v') == t;
    assert TrimStartMatches(tag, 'v') == t;
    CountCharAppend([tag[0]], t, '.');
    assert AdjustVersion(tag) == t;
    SplitCount(t, '.');
  }
}
