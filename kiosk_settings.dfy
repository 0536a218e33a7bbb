// The settings session (src/win_kiosk_settings.rs): the user-information
// message, the shell registration written for a user, the scan for local
// users and the window's save and cancel handlers.

module KioskSettings {
  import opened Common
  import opened Strings
  import opened WinPaths
  import opened Release
  import opened MainConfig
  import opened UpdateCheck

  const ShortcutOnlyInfo: string := "Cannot set shell, only start in autostart"
  const SetShellInfo: string := "set shell"
  const PasswordRequired: string := "Password must be set."
  const ErrorPrefix: string := "Error: "
  const TitlePrefix: string := "Kiosk Settings "
  /** How `env::VarError::NotPresent` displays. */
  const EnvVarMissing: string := "environment variable not found"
  const StartupFolder: string := "\\AppData\\Roaming\\Microsoft\\Windows\\Start Menu\\Programs\\Startup\\"
  const LnkSuffix: string := ".lnk"
  const NtUserDat: string := "NTUSER.DAT"
  const WinlogonKey: string := "Software\\Microsoft\\Windows NT\\CurrentVersion\\Winlogon"
  const ShellValueName: string := "Shell"
  const TrueText: string := "True"

  // ---------------------------------------------------------------------
  // get_info and message_box_err

  /** `get_info`: the note shown for the selected user; the name is compared exactly. */
  function GetInfo(userName: string, currentUser: string): (r: string)
    ensures r == ShortcutOnlyInfo || r == SetShellInfo
    ensures r == ShortcutOnlyInfo <==> userName == [] || userName == currentUser
  {
    if userName == [] || currentUser == userName then ShortcutOnlyInfo else SetShellInfo
  }

  /**
   * A name that differs from the current user's only in ASCII case is
   * the current user for the configuration path but another user for
   * the information message.
   */
  lemma {:induction false} GetInfoIsCaseSensitive(userName: string, env: ConfigEnv)
    requires userName != [] && userName != env.currentUser
    requires AsciiLower(userName) == AsciiLower(env.currentUser)
    ensures IsCurrentUser(userName, env)
    ensures GetInfo(userName, env.currentUser) == SetShellInfo
  {
  }

  /** `message_box_err`: the text shown for an error. */
  function ErrorText(e: string): (r: string)
    ensures StripPrefix(r, ErrorPrefix) == Some(e)
  {
    ErrorPrefix + e
  }

  // ---------------------------------------------------------------------
  // is_local_user

  /**
   * `is_local_user`, given what running the PowerShell query gave: its
   * standard output, or `None` when it could not be run.
   */
  function IsLocalUser(output: Option<string>): (r: bool)
    ensures output.None? ==> !r
    ensures r ==> |output.value| >= |TrueText|
  {
    match output
    case None => false
    case Some(stdout) => Trim(stdout) == TrueText
  }

  /** The answer is read through any surrounding whitespace, such as the trailing line break. */
  lemma {:induction false} IsLocalUserPadded(pre: string, post: string)
    requires AllWhitespace(pre) && AllWhitespace(post)
    ensures IsLocalUser(Some(pre + TrueText + post))
  {
    TrimPadded(pre, TrueText, post);
  }

  /** Any other answer, including a different case, means "not a local user". */
  lemma {:induction false} IsLocalUserExact(stdout: string)
    requires stdout != [] && !IsWhitespace(stdout[0]) && !IsWhitespace(stdout[|stdout| - 1])
    ensures IsLocalUser(Some(stdout)) <==> stdout == TrueText
  {
    TrimPadded([], stdout, []);
    assert [] + stdout + [] == stdout;
  }

  // ---------------------------------------------------------------------
  // write_user_shell

  /** `Path::new(system_drive).join("users").join(user_name)`, for the parsed system drive. */
  function UserProfilePath(drive: WinPath, userName: string): WinPath {
    JoinStr(JoinStr(drive, UsersDir), userName)
  }

  /** The registry hive opened for a user: the user name is joined twice. */
  function HivePath(drive: WinPath, userName: string): WinPath {
    JoinStr(JoinStr(UserProfilePath(drive, userName), userName), NtUserDat)
  }

  /** The startup-folder shortcut for the running user. */
  function ShortcutPath(home: string, packageName: string): (r: string)
    ensures StripPrefix(r, home) == Some(StartupFolder + packageName + LnkSuffix)
  {
    assert home + StartupFolder + packageName + LnkSuffix == home + (StartupFolder + packageName + LnkSuffix);
    home + StartupFolder + packageName + LnkSuffix
  }

  /** The test that picks the shortcut branch. */
  predicate TakesShortcut(userName: string, drive: WinPath, home: WinPath) {
    userName == [] || UserProfilePath(drive, userName) == home
  }

  /** What registering the shell writes. */
  datatype ShellRegistration =
    | Shortcut(lnk: string, target: string)
    | HiveValue(hive: WinPath, subkey: string, valueName: string, value: string)

  /**
   * What the operating system answers while the shell is registered:
   * the executable's own path (`None` when it is unavailable), whether
   * the shortcut can be created, and the first error of opening the hive,
   * its Winlogon key or setting the value.
   */
  datatype ShellOs = ShellOs(currentExe: Option<string>, lnkCreated: bool, registryError: Option<string>)

  /**
   * `write_user_shell(user_name, application)`: a missing `SystemDrive`
   * is an error; a missing home directory panics; the empty name, or a
   * profile path equal to the home directory, gets a startup shortcut to
   * the executable (a failure there panics); any other name gets the
   * Winlogon `Shell` value set in its hive.
   */
  function WriteUserShell(userName: string, application: string, env: ConfigEnv, packageName: string, os: ShellOs)
    : Outcome<Result<ShellRegistration, string>>
  {
    match env.systemDrive
    case None => Done(Err(EnvVarMissing))
    case Some(sd) =>
      match env.homeDir
      case None => Panicked
      case Some(home) =>
        if TakesShortcut(userName, Parse(sd), Parse(home)) then
          if os.currentExe.Some? && os.lnkCreated then Done(Ok(Shortcut(ShortcutPath(home, packageName), os.currentExe.value)))
          else Panicked
        else if os.registryError.Some? then Done(Err(os.registryError.value))
        else Done(Ok(HiveValue(HivePath(Parse(sd), userName), WinlogonKey, ShellValueName, application)))
  }

  /**
   * A registration fails with an error only for a missing `SystemDrive`
   * or a registry failure on the hive branch; the shortcut branch never
   * reports an error (it panics instead).
   */
  lemma {:induction false} WriteUserShellErrors(userName: string, application: string, env: ConfigEnv, packageName: string, os: ShellOs)
    ensures var r := WriteUserShell(userName, application, env, packageName, os);
            r.Done? && r.value.Err? <==>
              env.systemDrive.None?
              || (env.homeDir.Some? && os.registryError.Some?
                  && !TakesShortcut(userName, Parse(env.systemDrive.value), Parse(env.homeDir.value)))
    ensures var r := WriteUserShell(userName, application, env, packageName, os);
            r.Done? && r.value.Err? ==>
              if env.systemDrive.None? then r.value.error == EnvVarMissing else Some(r.value.error) == os.registryError
  {
  }

  lemma NtUserDatPlain()
    ensures PlainName(NtUserDat)
  {
  }

  /** The hive sits under `users\<name>\<name>`, relative to the drive as given. */
  lemma {:induction false} HiveRepeatsName(d: WinPath, userName: string)
    requires PlainName(userName)
    ensures HivePath(d, userName) == WinPath(d.drive, d.rooted, d.parts + [UsersDir, userName, userName] + [NtUserDat])
  {
    var twice := JoinStr(UserProfilePath(d, userName), userName);
    TwiceShape(d, userName);
    JoinNtUserDat(twice);
  }

  lemma {:induction false} TwiceShape(d: WinPath, userName: string)
    requires PlainName(userName)
    ensures JoinStr(UserProfilePath(d, userName), userName) == WinPath(d.drive, d.rooted, d.parts + [UsersDir, userName, userName])
  {
    var profile := UserProfilePath(d, userName);
    ProfileShape(d, userName);
    JoinPlain(profile, userName);
  }

  lemma {:induction false} JoinNtUserDat(base: WinPath)
    ensures JoinStr(base, NtUserDat) == WinPath(base.drive, base.rooted, base.parts + [NtUserDat])
  {
    NtUserDatPlain();
    JoinPlain(base, NtUserDat);
  }

  lemma {:induction false} ProfileShape(d: WinPath, userName: string)
    requires PlainName(userName)
    ensures UserProfilePath(d, userName) == WinPath(d.drive, d.rooted, d.parts + [UsersDir, userName])
  {
    JoinUsersDir(d);
    var users := JoinStr(d, UsersDir);
    assert users == WinPath(d.drive, d.rooted, d.parts + [UsersDir]);
    JoinPlain(users, userName);
  }

  /**
   * With a bare drive such as `C:` the profile path is drive-relative, so
   * it never equals a rooted home directory: every non-empty plain name,
   * the current user's own included, goes to the registry branch.
   */
  lemma {:induction false} NamedUserNeverShortcut(d: WinPath, home: WinPath, userName: string)
    requires !d.rooted && home.rooted && PlainName(userName)
    ensures !TakesShortcut(userName, d, home)
  {
    ProfileShape(d, userName);
  }

  /**
   * The information message promises the current user only a startup
   * shortcut, yet for a bare system drive the user's own hive is written.
   */
  lemma {:induction false} CurrentUserGetsHive(env: ConfigEnv, application: string, packageName: string, os: ShellOs)
    requires env.systemDrive.Some? && env.homeDir.Some?
    requires !Parse(env.systemDrive.value).rooted && Parse(env.homeDir.value).rooted
    requires PlainName(env.currentUser) && os.registryError.None?
    ensures GetInfo(env.currentUser, env.currentUser) == ShortcutOnlyInfo
    ensures WriteUserShell(env.currentUser, application, env, packageName, os)
            == Done(Ok(HiveValue(HivePath(Parse(env.systemDrive.value), env.currentUser), WinlogonKey, ShellValueName, application)))
  {
    NamedUserNeverShortcut(Parse(env.systemDrive.value), Parse(env.homeDir.value), env.currentUser);
  }

  /** The empty name always gets the shortcut, pointing at the executable, in the home directory. */
  lemma {:induction false} EmptyNameGetsShortcut(application: string, env: ConfigEnv, packageName: string, os: ShellOs)
    requires env.systemDrive.Some? && env.homeDir.Some? && os.currentExe.Some? && os.lnkCreated
    ensures var r := WriteUserShell([], application, env, packageName, os);
            r == Done(Ok(Shortcut(ShortcutPath(env.homeDir.value, packageName), os.currentExe.value)))
            && StartsWith(r.value.value.lnk, env.homeDir.value)
  {
  }

  // ---------------------------------------------------------------------
  // list_local_users

  /** A directory entry under `users`: its name (`None` when it is not valid Unicode). */
  datatype DirEntry = DirEntry(fileName: Option<string>, isDir: bool, hasNtUserDat: bool)

  /** One step of reading the directory: an entry, or an error. */
  datatype ScanItem = Entry(entry: DirEntry) | EntryFailed

  /** What is found at `<SystemDrive>\users`. */
  datatype UsersScan = NoUsersDir | ReadDirFailed | Entries(items: seq<ScanItem>)

  /** The name a directory gives the user list; a name that is not valid Unicode becomes empty. */
  function EntryUserName(e: DirEntry): string {
    e.fileName.GetOr([])
  }

  /** The PowerShell answer for a name; a missing key is a query that could not be run. */
  function QueryOutput(powershell: map<string, string>, name: string): Option<string> {
    if name in powershell then Some(powershell[name]) else None
  }

  /** The filter: a directory holding `NTUSER.DAT` whose name is a local account. */
  predicate Kept(e: DirEntry, powershell: map<string, string>) {
    e.isDir && e.hasNtUserDat && IsLocalUser(QueryOutput(powershell, EntryUserName(e)))
  }

  /** The scan in directory order: the kept names, or `None` once an entry fails. */
  function ScanList(items: seq<ScanItem>, powershell: map<string, string>): Option<seq<string>>
    decreases |items|
  {
    if items == [] then Some([])
    else
      match ScanList(items[..|items| - 1], powershell)
      case None => None
      case Some(users) =>
        match items[|items| - 1]
        case EntryFailed => None
        case Entry(e) => Some(if Kept(e, powershell) then users + [EntryUserName(e)] else users)
  }

  /** The scan fails exactly when some entry fails. */
  lemma {:induction false} ScanListFails(items: seq<ScanItem>, powershell: map<string, string>)
    ensures ScanList(items, powershell).None? <==> exists i :: 0 <= i < |items| && items[i].EntryFailed?
    decreases |items|
  {
    if items != [] {
      var init := items[..|items| - 1];
      ScanListFails(init, powershell);
      assert forall i :: 0 <= i < |init| ==> init[i] == items[i];
    }
  }

  /** A name is listed exactly when some entry with that name passes the filter. */
  lemma {:induction false} ScanListMembers(items: seq<ScanItem>, powershell: map<string, string>, name: string)
    requires ScanList(items, powershell).Some?
    ensures name in ScanList(items, powershell).value
            <==> exists i :: 0 <= i < |items| && items[i].Entry? && Kept(items[i].entry, powershell)
                             && EntryUserName(items[i].entry) == name
    decreases |items|
  {
    if items != [] {
      var init := items[..|items| - 1];
      ScanListMembers(init, powershell, name);
      assert forall i :: 0 <= i < |init| ==> init[i] == items[i];
    }
  }

  /** The user list: the scan's kept names, the empty list without a `users` directory, or a panic. */
  function LocalUserList(systemDrive: Option<string>, scan: UsersScan, powershell: map<string, string>): Outcome<seq<string>> {
    if systemDrive.None? then Panicked
    else match scan
      case NoUsersDir => Done([])
      case ReadDirFailed => Panicked
      case Entries(items) => if ScanList(items, powershell).Some? then Done(ScanList(items, powershell).value) else Panicked
  }

  /**
   * `list_local_users().unwrap()`: a missing `SystemDrive` or a failed
   * read panics; no `users` directory gives the empty list; otherwise the
   * kept names in directory order.
   */
  method ListLocalUsers(systemDrive: Option<string>, scan: UsersScan, powershell: map<string, string>)
    returns (r: Outcome<seq<string>>)
    ensures r == LocalUserList(systemDrive, scan, powershell)
  {
    if systemDrive.None? {
      return Panicked;
    }
    match scan
    case NoUsersDir => r := Done([]);
    case ReadDirFailed => r := Panicked;
    case Entries(items) =>
      var users := ScanUsers(items, powershell);
      r := if users.Some? then Done(users.value) else Panicked;
  }

  /** The loop over the directory entries, pushing each kept name and stopping at a failed entry. */
  method ScanUsers(items: seq<ScanItem>, powershell: map<string, string>) returns (r: Option<seq<string>>)
    ensures r == ScanList(items, powershell)
  {
    var users: seq<string> := [];
    var i := 0;
    while i < |items|
      invariant 0 <= i <= |items|
      invariant ScanList(items[..i], powershell) == Some(users)
    {
      assert items[..i + 1][..i] == items[..i];
      if items[i].EntryFailed? {
        ScanListPrefixFails(items, i + 1, powershell);
        return None;
      }
      var e := items[i].entry;
      if e.isDir && e.hasNtUserDat {
        var name := EntryUserName(e);
        if IsLocalUser(QueryOutput(powershell, name)) {
          users := users + [name];
        }
      }
      i := i + 1;
    }
    assert items[..i] == items;
    r := Some(users);
  }

  /** A failure in a prefix fails the whole scan. */
  lemma {:induction false} ScanListPrefixFails(items: seq<ScanItem>, n: nat, powershell: map<string, string>)
    requires 0 < n <= |items| && items[n - 1].EntryFailed?
    ensures ScanList(items, powershell).None?
  {
    assert items[..n][n - 1].EntryFailed?;
    ScanListFails(items[..n], powershell);
    var i :| 0 <= i < n && items[..n][i].EntryFailed?;
    assert items[i].EntryFailed?;
    ScanListFails(items, powershell);
  }

  // ---------------------------------------------------------------------
  // The settings window

  /**
   * What the session finds in the operating system: the real elevation
   * result, the `users` directory, the PowerShell answers, the user the
   * selector starts on, the answers while registering the shell, the
   * package name, and the latest release `check_for_update` fetches
   * (`None` when the fetch fails).
   */
  datatype SettingsOs = SettingsOs(
    trueIsAdmin: bool,
    scan: UsersScan,
    powershell: map<string, string>,
    initialSelection: string,
    shellOs: ShellOs,
    packageName: string,
    latestRelease: Option<Release>)

  /** `std::env::current_exe()` as the path the update check downloads next to. */
  function CurrentExePath(os: SettingsOs): Option<WinPath> {
    match os.shellOs.currentExe
    case None => None
    case Some(exe) => Some(Parse(exe))
  }

  /** `write_user_shell(user_name, current_exe)`: a panic if the executable's path is unavailable. */
  function Registration(userName: string, env: ConfigEnv, os: SettingsOs): Outcome<Result<ShellRegistration, string>> {
    if os.shellOs.currentExe.None? then Panicked
    else WriteUserShell(userName, os.shellOs.currentExe.value, env, os.packageName, os.shellOs)
  }

  class SettingsWindow {
    var isAdmin: bool
    var titleText: string
    var users: seq<string>
    var selectedUser: string
    var userInfo: string
    var clientApplication: string
    var appPassword: string
    var dialogText: string
    var messageShown: bool
    var hidden: bool                           // the window was hidden, which ends the session
    var registrations: seq<ShellRegistration>  // shell registrations written, in order
    var downloads: seq<Download>               // downloads started, in order
    var panicked: bool                         // a panic ended the program
    const store: ConfigStore
    const os: SettingsOs

    /** `SettingsWindow::new()`: every property at its empty value, the selector on its first user. */
    constructor (store: ConfigStore, os: SettingsOs)
      ensures this.store == store && this.os == os
      ensures !isAdmin && titleText == [] && users == [] && selectedUser == os.initialSelection && userInfo == []
      ensures clientApplication == [] && appPassword == [] && dialogText == [] && !messageShown && !hidden
      ensures registrations == [] && downloads == [] && !panicked
    {
      this.store := store;
      this.os := os;
      isAdmin := false;
      titleText := [];
      users := [];
      selectedUser := os.initialSelection;
      userInfo := [];
      clientApplication := [];
      appPassword := [];
      dialogText := [];
      messageShown := false;
      hidden := false;
      registrations := [];
      downloads := [];
      panicked := false;
    }

    /**
     * The part of `run` before the event loop: admin controls are always
     * shown, whatever the real elevation; the user list is scanned only
     * when truly elevated and is otherwise just the running user; the
     * information follows the selection; the fields are prefilled from
     * the running user's configuration; then the update check starts the
     * download `UpdatePlan` decides on for the fetched release, the
     * running version and the executable's path, if any.
     */
    method Open(version: string)
      requires !panicked
      modifies this`isAdmin, this`titleText, this`users, this`panicked, this`userInfo
      modifies this`clientApplication, this`appPassword, this`downloads, store
      ensures isAdmin && titleText == TitlePrefix + version
      ensures forall q :: store.Current(q) == old(store.Current(q))
      ensures store.readOnly == old(store.readOnly)
      ensures var listed := LocalUserList(store.env.systemDrive, os.scan, os.powershell);
              if os.trueIsAdmin && listed.Panicked? then panicked
              else
                var config := old(store.OwnConfig());
                !panicked
                && users == (if os.trueIsAdmin then listed.value else [store.env.currentUser])
                && userInfo == GetInfo(selectedUser, store.env.currentUser)
                && clientApplication == config.clientApplication.GetOr(old(clientApplication))
                && appPassword == config.password.GetOr(old(appPassword))
                && var plan := UpdatePlan(os.latestRelease, version, CurrentExePath(os));
                   downloads == old(downloads) + (if plan.Some? then [plan.value] else [])
    {
      isAdmin := true;
      titleText := TitlePrefix + version;
      FillUsers();
      if panicked {
        return;
      }
      userInfo := GetInfo(selectedUser, store.env.currentUser);
      var config := store.LoadOwnConfig();
      Prefill(config);
      CheckForUpdate(version);
    }

    /** `check_for_update`: start the download `UpdatePlan` decides on, if any. */
    method CheckForUpdate(version: string)
      modifies this`downloads
      ensures var plan := UpdatePlan(os.latestRelease, version, CurrentExePath(os));
              downloads == old(downloads) + (if plan.Some? then [plan.value] else [])
    {
      var plan := UpdatePlan(os.latestRelease, version, CurrentExePath(os));
      if plan.Some? {
        downloads := downloads + [plan.value];
      }
    }

    /** The user list: the scan when truly elevated, otherwise just the running user. */
    method FillUsers()
      requires !panicked
      modifies this`users, this`panicked
      ensures var listed := LocalUserList(store.env.systemDrive, os.scan, os.powershell);
              if os.trueIsAdmin && listed.Panicked? then panicked && users == old(users)
              else !panicked && users == if os.trueIsAdmin then listed.value else [store.env.currentUser]
    {
      if os.trueIsAdmin {
        var listed := ListLocalUsers(store.env.systemDrive, os.scan, os.powershell);
        if listed.Panicked? {
          panicked := true;
          return;
        }
        users := listed.value;
      } else {
        users := [store.env.currentUser];
      }
    }

    /** The fields are prefilled with what a configuration holds. */
    method Prefill(config: MainConfig)
      modifies this`clientApplication, this`appPassword
      ensures clientApplication == config.clientApplication.GetOr(old(clientApplication))
      ensures appPassword == config.password.GetOr(old(appPassword))
    {
      if config.clientApplication.Some? {
        clientApplication := config.clientApplication.value;
      }
      if config.password.Some? {
        appPassword := config.password.value;
      }
    }

    /** `on_user_selected`: the information follows the selection. */
    method UserSelected(name: string)
      modifies this`selectedUser, this`userInfo
      ensures selectedUser == name && userInfo == GetInfo(name, store.env.currentUser)
    {
      selectedUser := name;
      userInfo := GetInfo(name, store.env.currentUser);
    }

    /** `on_search_clicked`: a picked file replaces the application path; a cancelled dialog changes nothing. */
    method SearchClicked(picked: Option<string>)
      modifies this`clientApplication
      ensures clientApplication == picked.GetOr(old(clientApplication))
    {
      if picked.Some? {
        clientApplication := picked.value;
      }
    }

    /** `on_request_cancel_close`: hide the window and write nothing. */
    method Cancel()
      modifies this`hidden
      ensures hidden
    {
      hidden := true;
    }

    /**
     * `on_request_save_close`: an empty password is refused with a
     * message, and nothing is written or hidden. Otherwise the settings
     * are stored for the selected user and the shell registered for the
     * running executable; an error is shown, and the window is hidden
     * whether or not the registration failed.
     */
    method Save()
      modifies this`dialogText, this`messageShown, this`hidden, this`registrations, this`panicked, store
      ensures store.readOnly == old(store.readOnly)
      ensures appPassword == [] ==>
                dialogText == PasswordRequired && messageShown
                && hidden == old(hidden) && registrations == old(registrations) && panicked == old(panicked)
                && store.files == old(store.files)
      ensures appPassword != [] ==>
                var path := ConfigFilePath(selectedUser, store.env);
                if path.Panicked? then
                  panicked && store.files == old(store.files)
                  && hidden == old(hidden) && registrations == old(registrations) && dialogText == old(dialogText)
                else
                  store.files == (if old(store.Writable(path.value))
                                  then old(store.files)[path.value := Parsed(MainConfig(Some(clientApplication), Some(appPassword)))]
                                  else old(store.files))
                  && ShowsRegistration(old(dialogText), old(messageShown), old(hidden), old(registrations), old(panicked))
    {
      if appPassword == [] {
        dialogText := PasswordRequired;
        messageShown := true;
        return;
      }
      var stored := store.SetSettings(selectedUser, clientApplication, appPassword);
      if stored.Panicked? {
        panicked := true;
        return;
      }
      RegisterShell();
    }

    /**
     * The window after registering the shell, from its fields before: a
     * panic; or the error shown; or the registration recorded; and the
     * window hidden in the last two cases.
     */
    predicate ShowsRegistration(dialogText0: string, messageShown0: bool, hidden0: bool,
                                registrations0: seq<ShellRegistration>, panicked0: bool)
      reads this
    {
      match Registration(selectedUser, store.env, os)
      case Panicked =>
        panicked && dialogText == dialogText0 && messageShown == messageShown0 && hidden == hidden0
        && registrations == registrations0
      case Done(Err(e)) =>
        dialogText == ErrorText(e) && messageShown && hidden && registrations == registrations0 && panicked == panicked0
      case Done(Ok(w)) =>
        registrations == registrations0 + [w] && hidden
        && dialogText == dialogText0 && messageShown == messageShown0 && panicked == panicked0
    }

    /** Registering the shell and showing the outcome. */
    method RegisterShell()
      modifies this`dialogText, this`messageShown, this`hidden, this`registrations, this`panicked
      ensures ShowsRegistration(old(dialogText), old(messageShown), old(hidden), old(registrations), old(panicked))
    {
      var w := Registration(selectedUser, store.env, os);
      if w.Panicked? {
        panicked := true;
        return;
      }
      if w.value.Err? {
        dialogText := ErrorText(w.value.error);
        messageShown := true;
      } else {
        registrations := registrations + [w.value.value];
      }
      hidden := true;
    }
  }
}
