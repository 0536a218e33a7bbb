/**
 * Windows paths as Rust's `std::path` sees them: an optional drive prefix
 * (`C:`), an optional root separator, and the normal components between
 * separators. Two `PathBuf`s compare equal exactly when these agree, so
 * datatype equality is path equality.
 */
module WinPaths {
  import opened Common
  import opened Strings

  /** `drive` is stored upper-cased, as std's prefix parser does. */
  datatype WinPath = WinPath(drive: Option<char>, rooted: bool, parts: seq<string>)

  /** `PathBuf::new()`. */
  function EmptyPath(): WinPath { WinPath(None, false, []) }

  predicate IsSeparator(c: char) { c == '\\' || c == '/' }

  /** Both separators written as a backslash. */
  function UnifySeparators(s: string): (r: string)
    ensures |r| == |s|
  {
    if s == [] then [] else [if s[0] == '/' then '\\' else s[0]] + UnifySeparators(s[1..])
  }

  /** Empty and `.` segments are not components. */
  function KeepNormal(segments: seq<string>): (r: seq<string>)
  {
    if segments == [] then []
    else
      var rest := KeepNormal(segments[1..]);
      if segments[0] == [] || segments[0] == "." then rest else [segments[0]] + rest
  }

  function Components(s: string): seq<string> {
    KeepNormal(Split(UnifySeparators(s), '\\'))
  }

  predicate HasDrivePrefix(s: string) {
    |s| >= 2 && IsAsciiAlpha(s[0]) && s[1] == ':'
  }

  /** `Path::new(s)`, read as its components. */
  function Parse(s: string): WinPath {
    var rest := if HasDrivePrefix(s) then s[2..] else s;
    WinPath(if HasDrivePrefix(s) then Some(AsciiUpperChar(s[0])) else None,
            rest != [] && IsSeparator(rest[0]),
            Components(rest))
  }

  /**
   * `base.join(p)`, following `PathBuf::push` on Windows: a path with a
   * prefix replaces `base`; a path with a root but no prefix keeps only
   * `base`'s prefix; a relative path is appended (`C:` + `users` is the
   * drive-relative `C:users`, with no separator in between).
   */
  function Join(base: WinPath, p: WinPath): WinPath {
    if p.drive.Some? then p
    else if p.rooted then WinPath(base.drive, true, p.parts)
    else WinPath(base.drive, base.rooted, base.parts + p.parts)
  }

  /** `Path::join` with a string argument. */
  function JoinStr(base: WinPath, s: string): WinPath {
    Join(base, Parse(s))
  }

  /** `Path::file_name`: the last component, unless it is `..` or there is none. */
  function FileName(p: WinPath): (r: Option<string>)
    ensures r.Some? ==> |p.parts| > 0 && r.value == p.parts[|p.parts| - 1]
    ensures r.None? ==> p.parts == [] || p.parts[|p.parts| - 1] == ".."
  {
    if p.parts != [] && p.parts[|p.parts| - 1] != ".." then Some(p.parts[|p.parts| - 1]) else None
  }

  /** `PathBuf::pop`: drop the last component; a bare prefix or root stays as it is. */
  function Pop(p: WinPath): (r: WinPath)
    ensures r.drive == p.drive && r.rooted == p.rooted
    ensures p.parts != [] ==> r.parts + [p.parts[|p.parts| - 1]] == p.parts
    ensures p.parts == [] ==> r == p
  {
    if p.parts == [] then p else WinPath(p.drive, p.rooted, p.parts[..|p.parts| - 1])
  }

  /** Joining a relative path keeps the base's prefix and root and appends the components. */
  lemma {:induction false} JoinRelative(base: WinPath, s: string)
    requires !HasDrivePrefix(s) && (s == [] || !IsSeparator(s[0]))
    ensures JoinStr(base, s) == WinPath(base.drive, base.rooted, base.parts + Components(s))
  {
  }

  /** Joining a path that starts with a separator discards everything but the base's drive. */
  lemma {:induction false} JoinRooted(base: WinPath, s: string)
    requires s != [] && IsSeparator(s[0])
    ensures JoinStr(base, s) == WinPath(base.drive, true, Components(s))
  {
    assert !HasDrivePrefix(s);
  }

  lemma {:induction false} UnifyWithoutSlash(s: string)
    requires '/' !in s
    ensures UnifySeparators(s) == s
  {
    if s != [] {
      UnifyWithoutSlash(s[1..]);
      assert s == [s[0]] + s[1..];
    }
  }

  /** Joining a plain name appends it as one component. */
  lemma {:induction false} JoinPlain(base: WinPath, s: string)
    requires s != [] && s != "." && '\\' !in s && '/' !in s && !HasDrivePrefix(s)
    ensures JoinStr(base, s) == WinPath(base.drive, base.rooted, base.parts + [s])
  {
    ComponentsPlain(s);
    JoinRelative(base, s);
  }

  /** A name without separators that is not `.` is a single component. */
  lemma {:induction false} ComponentsPlain(s: string)
    requires s != [] && s != "." && '\\' !in s && '/' !in s
    ensures Components(s) == [s]
  {
    UnifyWithoutSlash(s);
    SplitNone(s, '\\');
    assert Split(UnifySeparators(s), '\\') == [s];
    assert [s][1..] == [];
    assert KeepNormal([s]) == [s] + KeepNormal([]);
  }

  /** The path text without its leading separators, which makes a rooted path relative. */
  function TrimLeadingSeparators(s: string): (r: string)
    ensures |r| <= |s| && r == s[|s| - |r|..]
    ensures r == [] || !IsSeparator(r[0])
    ensures forall i :: 0 <= i < |s| - |r| ==> IsSeparator(s[i])
  {
    if s != [] && IsSeparator(s[0]) then TrimLeadingSeparators(s[1..]) else s
  }

  /** Leading separators carry no components. */
  lemma {:induction false} ComponentsTrimLeading(s: string)
    ensures Components(TrimLeadingSeparators(s)) == Components(s)
  {
    if s != [] && IsSeparator(s[0]) {
      ComponentsTrimLeading(s[1..]);
      var u := UnifySeparators(s);
      assert u == ['\\'] + UnifySeparators(s[1..]);
      assert u[1..] == UnifySeparators(s[1..]);
      var sp := Split(u, '\\');
      assert sp == [[]] + Split(u[1..], '\\');
      assert sp[1..] == Split(u[1..], '\\');
    }
  }

  /** A separator alone has no components. */
  lemma ComponentsRoot()
    ensures Components("\\") == []
  {
    ComponentsTrimLeading("\\");
    assert TrimLeadingSeparators("\\") == [];
  }
}
