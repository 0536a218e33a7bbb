/**
 * The kiosk's configuration: which application to start and the password
 * that guards the kiosk window, stored per user in a TOML file. Paths are
 * resolved per user name; the file system is a map from path to stored
 * file.
 */
module MainConfig {
  import opened Common
  import opened Strings
  import opened WinPaths

  datatype MainConfig = MainConfig(clientApplication: Option<string>, password: Option<string>)

  /** `MainConfig::default()`: nothing configured. */
  function DefaultConfig(): MainConfig {
    MainConfig(None, None)
  }

  /** What `get_configuration_file_path` reads from the running session. */
  datatype ConfigEnv = ConfigEnv(
    confyPath: Option<string>,   // confy's configuration file of the running user, as text; None when confy fails
    homeDir: Option<string>,     // the running user's home directory, as text
    currentUser: string,         // the running user's name
    systemDrive: Option<string>) // %SystemDrive%, when set

  const DefaultSystemDrive: string := "C:"

  /** The directory under the system drive that holds the user profiles. */
  const UsersDir: string := "users"

  /** A lone separator: joined to a bare drive, it gives the drive's root. */
  const RootDir: string := "\\"

  /** The name refers to the running user: empty, or equal ignoring case. */
  predicate IsCurrentUser(userName: string, env: ConfigEnv) {
    userName == [] || AsciiLower(userName) == AsciiLower(env.currentUser)
  }

  /** Where a configuration path comes from, before another user's path is built. */
  datatype PathPlan =
    | NoPath
    | CurrentUserPath(path: WinPath)
    | OtherUserPath(drive: string, subPath: string)
    | StripPanic

  /**
   * The decision of `get_configuration_file_path`: confy's own path for
   * the running user; for another user, the part of confy's path below the
   * running user's home, to be re-rooted under the other user's profile;
   * the empty path when confy or the home directory is unknown. When the
   * home directory is not a prefix of confy's path, `strip_prefix(..)
   * .unwrap()` panics.
   */
  function PlanConfigPath(userName: string, env: ConfigEnv): (r: PathPlan)
    ensures r.CurrentUserPath? <==> env.confyPath.Some? && IsCurrentUser(userName, env)
    ensures r.NoPath? <==>
              env.confyPath.None? || (!IsCurrentUser(userName, env) && env.homeDir.None?)
    ensures r.OtherUserPath? ==>
              env.homeDir.Some? && env.confyPath == Some(env.homeDir.value + r.subPath)
              && r.drive == env.systemDrive.GetOr(DefaultSystemDrive)
  {
    match env.confyPath
    case None => NoPath
    case Some(current) =>
      if IsCurrentUser(userName, env) then CurrentUserPath(Parse(current))
      else
        match env.homeDir
        case None => NoPath
        case Some(home) =>
          match StripPrefix(current, home)
          case None => StripPanic
          case Some(sub) => OtherUserPath(env.systemDrive.GetOr(DefaultSystemDrive), sub)
  }

  /** `Path::new(drive).join("users").join(user).join(sub)`, as the code builds it. */
  function OtherUserPathAsWritten(drive: WinPath, userName: string, subPath: string): WinPath {
    JoinStr(JoinStr(JoinStr(drive, UsersDir), userName), subPath)
  }

  /** The same path with the drive's root added and the sub-path made relative. */
  function OtherUserPathCorrected(drive: WinPath, userName: string, subPath: string): WinPath {
    JoinStr(JoinStr(JoinStr(JoinStr(drive, RootDir), UsersDir), userName), TrimLeadingSeparators(subPath))
  }

  function Resolve(plan: PathPlan, userName: string, corrected: bool): Outcome<WinPath> {
    match plan
    case NoPath => Done(EmptyPath())
    case CurrentUserPath(p) => Done(p)
    case OtherUserPath(drive, sub) =>
      Done(if corrected then OtherUserPathCorrected(Parse(drive), userName, sub)
           else OtherUserPathAsWritten(Parse(drive), userName, sub))
    case StripPanic => Panicked
  }

  /** `get_configuration_file_path` exactly as written. */
  function ConfigFilePathAsWritten(userName: string, env: ConfigEnv): Outcome<WinPath> {
    Resolve(PlanConfigPath(userName, env), userName, false)
  }

  /** `get_configuration_file_path` with another user's path built as intended. */
  function ConfigFilePath(userName: string, env: ConfigEnv): Outcome<WinPath> {
    Resolve(PlanConfigPath(userName, env), userName, true)
  }

  // ---------------------------------------------------------------------
  // Properties of the path resolution

  /** The running user, named in any case or not named at all, gets confy's own path. */
  lemma {:induction false} CurrentUserGetsConfyPath(userName: string, env: ConfigEnv)
    requires env.confyPath.Some? && IsCurrentUser(userName, env)
    ensures ConfigFilePath(userName, env) == Done(Parse(env.confyPath.value))
    ensures ConfigFilePathAsWritten(userName, env) == Done(Parse(env.confyPath.value))
  {
  }

  /**
   * The two resolutions differ only for another user whose home directory
   * is known and starts confy's path: everywhere else, including for the
   * running user, the corrected resolution is the one the code computes.
   */
  lemma {:induction false} ResolutionsAgreeUnlessOtherUser(userName: string, env: ConfigEnv)
    requires env.confyPath.None? || IsCurrentUser(userName, env) || env.homeDir.None?
             || !StartsWith(env.confyPath.value, env.homeDir.value)
    ensures ConfigFilePath(userName, env) == ConfigFilePathAsWritten(userName, env)
  {
    assert !PlanConfigPath(userName, env).OtherUserPath?;
  }

  lemma {:induction false} CurrentUserIgnoresCase(name: string, current: string)
    requires name == "Kiosk" && current == "kiosk"
    ensures forall env: ConfigEnv :: env.currentUser == current ==> IsCurrentUser(name, env)
  {
    assert AsciiLower(name) == AsciiLower(current);
  }

  /** The running user's own configuration path: confy's path, or the empty path without one. */
  function OwnPath(env: ConfigEnv): WinPath {
    if env.confyPath.Some? then Parse(env.confyPath.value) else EmptyPath()
  }

  /** The running user's own path never panics: it needs no home directory. */
  lemma {:induction false} OwnPathResolves(env: ConfigEnv)
    ensures ConfigFilePath([], env) == Done(OwnPath(env))
  {
  }

  /** Without confy's path, or another user's path without a home directory, the path is empty. */
  lemma {:induction false} UnknownPathIsEmpty(userName: string, env: ConfigEnv)
    requires env.confyPath.None? || (!IsCurrentUser(userName, env) && env.homeDir.None?)
    ensures ConfigFilePath(userName, env) == Done(EmptyPath())
  {
  }

  /** For another user, confy's path must lie under the running user's home, or the call panics. */
  lemma {:induction false} ForeignConfyPathPanics(userName: string, env: ConfigEnv)
    requires env.confyPath.Some? && env.homeDir.Some? && !IsCurrentUser(userName, env)
    ensures ConfigFilePath(userName, env).Panicked? <==> !StartsWith(env.confyPath.value, env.homeDir.value)
  {
  }

  /** The running user's home is followed by a separator in confy's path. */
  predicate ConfyPathUnderHome(env: ConfigEnv) {
    env.confyPath.Some? && env.homeDir.Some?
    && StartsWith(env.confyPath.value, env.homeDir.value)
    && |env.confyPath.value| > |env.homeDir.value|
    && IsSeparator(env.confyPath.value[|env.homeDir.value|])
  }

  /** The part of confy's path below the running user's home. */
  function SubPath(env: ConfigEnv): string
    requires env.confyPath.Some? && env.homeDir.Some?
    requires StartsWith(env.confyPath.value, env.homeDir.value)
  {
    env.confyPath.value[|env.homeDir.value|..]
  }

  /** For another user, the plan re-roots the part of confy's path below the home directory. */
  lemma {:induction false} PlanForOtherUser(userName: string, env: ConfigEnv)
    requires env.confyPath.Some? && env.homeDir.Some?
    requires StartsWith(env.confyPath.value, env.homeDir.value)
    requires !IsCurrentUser(userName, env)
    ensures PlanConfigPath(userName, env) == OtherUserPath(env.systemDrive.GetOr(DefaultSystemDrive), SubPath(env))
  {
    assert StripPrefix(env.confyPath.value, env.homeDir.value) == Some(SubPath(env));
  }

  /** Joining a rooted sub-path keeps only the drive of what came before. */
  lemma {:induction false} AsWrittenDropsProfile(drive: WinPath, userName: string, subPath: string)
    requires PlainName(userName) && subPath != [] && IsSeparator(subPath[0])
    ensures OtherUserPathAsWritten(drive, userName, subPath) == WinPath(drive.drive, true, Components(subPath))
  {
    UsersDirPlain();
    JoinPlain(drive, UsersDir);
    JoinPlain(JoinStr(drive, UsersDir), userName);
    JoinRooted(JoinStr(JoinStr(drive, UsersDir), userName), subPath);
  }

  /**
   * The code as written: the part below the home directory starts with a
   * separator, so joining it discards `users\<name>` and keeps only the
   * drive. Every other user is sent to one and the same file.
   */
  lemma {:induction false} AsWrittenOtherUsersShareOnePath(env: ConfigEnv, u1: string, u2: string)
    requires ConfyPathUnderHome(env)
    requires PlainName(u1) && PlainName(u2)
    requires !IsCurrentUser(u1, env) && !IsCurrentUser(u2, env)
    ensures ConfigFilePathAsWritten(u1, env) == ConfigFilePathAsWritten(u2, env)
            == Done(WinPath(Parse(env.systemDrive.GetOr(DefaultSystemDrive)).drive, true, Components(SubPath(env))))
  {
    var drive := Parse(env.systemDrive.GetOr(DefaultSystemDrive));
    PlanForOtherUser(u1, env);
    PlanForOtherUser(u2, env);
    AsWrittenDropsProfile(drive, u1, SubPath(env));
    AsWrittenDropsProfile(drive, u2, SubPath(env));
  }

  /** A file name that `Path::join` treats as one relative component. */
  predicate PlainName(s: string) {
    s != [] && s != "." && '\\' !in s && '/' !in s && !HasDrivePrefix(s)
  }

  lemma UsersDirPlain()
    ensures PlainName(UsersDir)
  {
  }

  lemma {:induction false} JoinUsersDir(base: WinPath)
    ensures JoinStr(base, UsersDir) == WinPath(base.drive, base.rooted, base.parts + [UsersDir])
  {
    UsersDirPlain();
    JoinPlain(base, UsersDir);
  }

  /** Joining a lone separator to a path keeps its drive and roots it. */
  lemma {:induction false} JoinRoot(base: WinPath)
    ensures JoinStr(base, RootDir) == WinPath(base.drive, true, [])
  {
    ComponentsRoot();
    JoinRooted(base, RootDir);
  }

  /** The profile directory of a user, as the corrected path builds it. */
  lemma {:induction false} ProfilePathShape(drive: WinPath, userName: string)
    requires PlainName(userName)
    ensures JoinStr(JoinStr(JoinStr(drive, RootDir), UsersDir), userName)
            == WinPath(drive.drive, true, [UsersDir, userName])
  {
    var root := JoinStr(drive, RootDir);
    JoinRoot(drive);
    var users := JoinStr(root, UsersDir);
    JoinUsersDir(root);
    assert users == WinPath(drive.drive, true, [UsersDir]);
    JoinPlain(users, userName);
  }

  /**
   * The corrected path of another user is the running user's sub-path
   * under `<drive>\users\<name>`.
   */
  lemma {:induction false} OtherUserPathShape(drive: WinPath, userName: string, subPath: string)
    requires PlainName(userName) && !HasDrivePrefix(TrimLeadingSeparators(subPath))
    ensures OtherUserPathCorrected(drive, userName, subPath)
            == WinPath(drive.drive, true, [UsersDir, userName] + Components(subPath))
  {
    var profile := JoinStr(JoinStr(JoinStr(drive, RootDir), UsersDir), userName);
    ProfilePathShape(drive, userName);
    JoinRelative(profile, TrimLeadingSeparators(subPath));
    ComponentsTrimLeading(subPath);
  }

  /** Corrected, two different users never share a configuration file. */
  lemma {:induction false} CorrectedOtherUserPath(env: ConfigEnv, userName: string)
    requires env.confyPath.Some? && env.homeDir.Some?
    requires StartsWith(env.confyPath.value, env.homeDir.value)
    requires !HasDrivePrefix(TrimLeadingSeparators(SubPath(env)))
    requires PlainName(userName) && !IsCurrentUser(userName, env)
    ensures ConfigFilePath(userName, env)
            == Done(WinPath(Parse(env.systemDrive.GetOr(DefaultSystemDrive)).drive, true,
                            [UsersDir, userName] + Components(SubPath(env))))
  {
    PlanForOtherUser(userName, env);
    OtherUserPathShape(Parse(env.systemDrive.GetOr(DefaultSystemDrive)), userName, SubPath(env));
  }

  lemma {:induction false} OtherUsersSeparated(env: ConfigEnv, u1: string, u2: string)
    requires env.confyPath.Some? && env.homeDir.Some?
    requires StartsWith(env.confyPath.value, env.homeDir.value)
    requires !HasDrivePrefix(TrimLeadingSeparators(SubPath(env)))
    requires PlainName(u1) && PlainName(u2) && u1 != u2
    requires !IsCurrentUser(u1, env) && !IsCurrentUser(u2, env)
    ensures ConfigFilePath(u1, env) != ConfigFilePath(u2, env)
  {
    CorrectedOtherUserPath(env, u1);
    CorrectedOtherUserPath(env, u2);
    UserComponentDiffers(Parse(env.systemDrive.GetOr(DefaultSystemDrive)).drive, u1, u2, Components(SubPath(env)));
  }

  /** Paths that differ in the user's component differ. */
  lemma {:induction false} UserComponentDiffers(drive: Option<char>, u1: string, u2: string, rest: seq<string>)
    requires u1 != u2
    ensures WinPath(drive, true, [UsersDir, u1] + rest) != WinPath(drive, true, [UsersDir, u2] + rest)
  {
    assert ([UsersDir, u1] + rest)[1] == u1 && ([UsersDir, u2] + rest)[1] == u2;
  }

  // ---------------------------------------------------------------------
  // Loading and storing

  /** A configuration file either parses as TOML or does not. */
  datatype StoredFile = Parsed(config: MainConfig) | Unreadable

  datatype StoreError = StoreFailed

  /**
   * The configuration files seen by `ConfigManager`: `files` maps a path
   * to what is stored there, `readOnly` holds the paths a write fails on,
   * and `env` is the running session.
   */
  class ConfigStore {
    var files: map<WinPath, StoredFile>
    var readOnly: set<WinPath>
    const env: ConfigEnv

    constructor (env: ConfigEnv, files: map<WinPath, StoredFile>, readOnly: set<WinPath>)
      ensures this.env == env && this.files == files && this.readOnly == readOnly
    {
      this.env := env;
      this.files := files;
      this.readOnly := readOnly;
    }

    /** A write succeeds: the path is not the empty path and not write-protected. */
    predicate Writable(p: WinPath)
      reads this
    {
      p != EmptyPath() && p !in readOnly
    }

    /**
     * The configuration a load returns: the parsed file, or the default for
     * a missing or unreadable one. Nothing is ever read at the empty path.
     */
    function Current(p: WinPath): MainConfig
      reads this
    {
      if p != EmptyPath() && p in files && files[p].Parsed? then files[p].config else DefaultConfig()
    }

    /** What `load_config("")`, the running user's own configuration, returns. */
    function OwnConfig(): MainConfig
      reads this
    {
      Current(OwnPath(env))
    }

    /**
     * `confy::load_path(p).unwrap_or_default()`: a missing file is created
     * holding the default configuration (when it can be written); an
     * unreadable one is left alone and read as the default.
     */
    method LoadPath(p: WinPath) returns (config: MainConfig)
      modifies this
      ensures config == old(Current(p))
      ensures forall q :: Current(q) == old(Current(q))
      ensures readOnly == old(readOnly)
      ensures files == if p !in old(files) && old(Writable(p)) then old(files)[p := Parsed(DefaultConfig())] else old(files)
    {
      if p != EmptyPath() && p in files {
        config := if files[p].Parsed? then files[p].config else DefaultConfig();
      } else {
        config := DefaultConfig();
        if Writable(p) {
          files := files[p := Parsed(config)];
        }
      }
    }

    /** `confy::store_path(p, config)`. */
    method StorePath(p: WinPath, config: MainConfig) returns (r: Result<(), StoreError>)
      modifies this
      ensures r.Ok? <==> old(Writable(p))
      ensures readOnly == old(readOnly)
      ensures files == if old(Writable(p)) then old(files)[p := Parsed(config)] else old(files)
    {
      if Writable(p) {
        files := files[p := Parsed(config)];
        r := Ok(());
      } else {
        r := Err(StoreFailed);
      }
    }

    /** `load_config`: the configuration of the named user, or `Default` when there is none. */
    method LoadConfig(userName: string) returns (r: Outcome<MainConfig>)
      modifies this
      ensures ConfigFilePath(userName, env).Panicked? ==> r.Panicked? && unchanged(this)
      ensures ConfigFilePath(userName, env).Done? ==>
                var p := ConfigFilePath(userName, env).value;
                r == Done(old(Current(p))) && readOnly == old(readOnly)
                && files == if p !in old(files) && old(Writable(p)) then old(files)[p := Parsed(DefaultConfig())] else old(files)
      ensures forall q :: Current(q) == old(Current(q))
    {
      match ConfigFilePath(userName, env)
      case Panicked => r := Panicked;
      case Done(p) =>
        var config := LoadPath(p);
        r := Done(config);
    }

    /** `load_config("")`, for the running user, which never panics. */
    method LoadOwnConfig() returns (config: MainConfig)
      modifies this
      ensures config == old(OwnConfig())
      ensures forall q :: Current(q) == old(Current(q))
      ensures readOnly == old(readOnly)
    {
      OwnPathResolves(env);
      var r := LoadConfig([]);
      config := r.value;
    }

    /** `save_config`. */
    method SaveConfig(config: MainConfig, userName: string) returns (r: Outcome<Result<(), StoreError>>)
      modifies this
      ensures ConfigFilePath(userName, env).Panicked? ==> r.Panicked? && unchanged(this)
      ensures ConfigFilePath(userName, env).Done? ==>
                var p := ConfigFilePath(userName, env).value;
                r.Done? && (r.value.Ok? <==> old(Writable(p))) && readOnly == old(readOnly)
                && files == if old(Writable(p)) then old(files)[p := Parsed(config)] else old(files)
    {
      match ConfigFilePath(userName, env)
      case Panicked => r := Panicked;
      case Done(p) =>
        var stored := StorePath(p, config);
        r := Done(stored);
    }

    /**
     * `set_settings`: load the user's configuration, replace both fields
     * and store it, ignoring a failed store. Both fields are replaced, so
     * what was there before never matters: the user's file ends up holding
     * exactly the new settings, or nothing changes when it cannot be written.
     */
    method SetSettings(userName: string, application: string, newPassword: string) returns (r: Outcome<()>)
      modifies this
      ensures ConfigFilePath(userName, env).Panicked? ==> r.Panicked? && unchanged(this)
      ensures ConfigFilePath(userName, env).Done? ==>
                var p := ConfigFilePath(userName, env).value;
                r.Done? && readOnly == old(readOnly)
                && files == if old(Writable(p)) then old(files)[p := Parsed(MainConfig(Some(application), Some(newPassword)))]
                            else old(files)
      ensures ConfigFilePath(userName, env).Done? && old(Writable(ConfigFilePath(userName, env).value)) ==>
                Current(ConfigFilePath(userName, env).value) == MainConfig(Some(application), Some(newPassword))
    {
      var loaded := LoadConfig(userName);
      match loaded
      case Panicked => r := Panicked;
      case Done(config) =>
        var updated := config.(clientApplication := Some(application), password := Some(newPassword));
        var stored := SaveConfig(updated, userName);
        r := Done(());
    }

    /**
     * Load and save address the same file for the same user: loading right
     * after `set_settings` returns the settings just written, unless the
     * file could not be written.
     */
    method SetThenLoad(userName: string, application: string, newPassword: string) returns (r: Outcome<MainConfig>)
      modifies this
      ensures ConfigFilePath(userName, env).Panicked? ==> r.Panicked?
      ensures ConfigFilePath(userName, env).Done? && old(Writable(ConfigFilePath(userName, env).value)) ==>
                r == Done(MainConfig(Some(application), Some(newPassword)))
    {
      var written := SetSettings(userName, application, newPassword);
      r := LoadConfig(userName);
    }
  }
}
