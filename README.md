# winkioskshell: a Dafny model of the kiosk shell's decisions

winkioskshell is a Windows kiosk shell. At start-up it loads the running
user's configuration. If the configured application exists, it starts it
and supervises it in a full-screen kiosk window. If not, it opens a
settings window instead.

While the kiosk runs, a watcher thread does three things:

- it kills Explorer and Edge;
- it keeps the client application's window in front;
- it stops when a shared run flag is cleared.

The kiosk window can close itself or open the settings, behind a password.
It can also start the application again, with a check for an update, and
can request a reboot.

In the settings window an administrator can:

- choose a user and an application;
- set the kiosk password;
- register the kiosk as that user's shell, through a startup shortcut or
  the Winlogon `Shell` value in the user's registry hive.

The build script picks the version string from a CI tag, from
`git describe`, or from a fixed fallback.

The model has one module per source file. Shared modules sit beside
them.

- `Common`: Option, Result, and `Outcome` (a value, or a panic). Every
  `unwrap`/`expect` of the source that can fail is an explicit `Panicked`
  outcome.
- `Strings`: ASCII lower-casing, Rust's `trim` family, `split`,
  `strip_prefix` and character counting, each with its lemmas.
- `WinPaths`: Windows paths as the Rust standard library builds them.
  A path is a drive prefix, a rooted flag and its normal components.
  `Join` follows `PathBuf::push`: a rooted argument keeps only the base's
  prefix, and one with a prefix replaces the base.
- `Release` (src/release.rs): `AdjustVersion`, version triples with parse
  and format, `IsVersionNewer` and `IsUpdateAvailable`.
- `BuildScript` (build.rs): the tag regex `^v\d+(\.\d+)*$` as a scanner,
  the three-way version choice, and the emitted directive.
- `MainConfig` (src/mainconfig.rs): the default configuration and the
  per-user path resolution. The class `ConfigStore` has files as a
  `map` from path to stored file. Its methods are load, store, save,
  `set_settings`, and a set-then-load round trip.
- `UpdateCheck`: the decision of `check_for_update` in
  src/win_kiosk_shell.rs. It is a separate module because the Rust
  sources refer to each other in a cycle, and Dafny modules cannot.
- `KioskShell` (src/win_kiosk_shell.rs):
  - the deny list and the client name;
  - the password gate and `set_focus_to_application`;
  - one watcher iteration as a specification function over the process
    snapshot;
  - the class `Shell`. Its fields are the run flag, the process slot and
    the process table, among others. Its methods are the UI handlers, the
    watcher iteration and `run` with its shutdown order.
- `KioskSettings` (src/win_kiosk_settings.rs):
  - `get_info`, the error text and the `is_local_user` parse;
  - `write_user_shell` with its two branches and paths;
  - the `list_local_users` filter, as a loop proved against a
    specification function;
  - the class `SettingsWindow`. Its methods are opening with the forced
    admin flag, the selection, search, cancel and save handlers, and the
    shell registration.
- `Entry` (src/main.rs): the dispatch between the kiosk and the settings
  session.

Effects on the outside world are recorded, in order, in an action log or
in lists of registrations and downloads. Examples are kills, focus
changes, spawns, downloads, the settings session, the reboot request,
and the flag, join and wait of shutdown. The operating system's answers
are parameters. These include the process table, FindWindowA and the
foreground window, the programs a spawn succeeds on, and the fetched
release. They also include `current_exe`, the environment variables,
`home_dir`, `whoami`, confy's path, the `users` directory listing, the
PowerShell output, the file dialog and the registry/shortcut results.

## Model

| member | source | states |
|---|---|---|
| Strings.TrimPadded | src/win_kiosk_settings.rs:183 | trimming removes whitespace padding on both sides and leaves a word that does not start or end in whitespace unchanged |
| Strings.TrimStartRemovesBlank | src/win_kiosk_settings.rs:183 | the start of a text that trimming drops is White_Space only |
| Strings.TrimEndRemovesBlank | src/win_kiosk_settings.rs:183 | the end of a text that trimming drops is White_Space only |
| Strings.TrimBlank | src/win_kiosk_settings.rs:183 | a text of White_Space alone trims to the empty text |
| Strings.StripPrefix | src/mainconfig.rs:43 | `strip_prefix` succeeds iff the text starts with the prefix, and the rest appended to the prefix gives back the text |
| WinPaths.FileName | src/win_kiosk_shell.rs:84-85 | `Path::file_name`: the last normal component, and None for a path without one or ending in `..` |
| WinPaths.Pop | src/win_kiosk_shell.rs:194 | `PathBuf::pop` removes the last component and keeps drive and root; a path with no components is left unchanged |
| Release.AdjustVersionDropsLeadingV | src/release.rs:52 | every leading 'v' is removed: prefixing a 'v' does not change the result |
| Release.AdjustVersion | src/release.rs:51-60 | `adjust_version`: leading 'v's are stripped and the text padded to two dots; its contract is carried by AdjustVersionDropsLeadingV, AdjustNoDot, AdjustOneDot, AdjustTwoDots, AdjustVersionShape and AdjustVersionIdempotent |
| Release.AdjustNoDot | src/release.rs:53-57 | with no dot, ".0.0" is appended to the trimmed text |
| Release.AdjustOneDot | src/release.rs:53-56 | with one dot, ".0" is appended |
| Release.AdjustTwoDots | src/release.rs:53-58 | with two or more dots, the trimmed text is returned unchanged |
| Release.AdjustVersionShape | src/release.rs:51-60 | the output is non-empty, does not start with 'v', starts with the input stripped of its leading 'v's, and has that text's dots when there are two or more and exactly two otherwise |
| Release.PadVersionShape | src/release.rs:53-59 | padding a text without a leading 'v' gives a non-empty text without a leading 'v' that starts with the input, and leaves two or more dots as they are and makes exactly two otherwise |
| Release.AdjustVersionIdempotent | src/release.rs:51-60 | applying `adjust_version` twice equals applying it once |
| Release.AdjustVersionShortTag | src/release.rs:51-60 | a short tag `v1.<digit>`, such as "v1.2", gives `1.<digit>.0` |
| Release.AdjustVersionDigitTag | src/release.rs:51-60 | a one-digit tag `v<digit>`, such as "v2", gives `<digit>.0.0` |
| Release.AdjustVersionExampleFull | src/release.rs:51-60 | "v1.2.3" gives "1.2.3" |
| Release.AdjustMajorTag | src/release.rs:51-60 | "v<x>" normalises to the formatted version x.0.0 |
| Release.AdjustMinorTag | src/release.rs:51-60 | "v<x>.<y>" normalises to the formatted version x.y.0 |
| Release.AdjustFormatted | src/release.rs:51-60 | a formatted version is a fixed point of the normalisation |
| Release.NatToString | src/release.rs:38 | the decimal text of a number is a numeral whose value is the number, without a leading zero |
| Release.NumeralRoundTrip | src/release.rs:38 | a numeral is the decimal text of its value (which rules out leading zeros) |
| Release.ParseVersion | src/release.rs:38 | a parsed version is in range and formats back to the text; a failure is an error (whose payload, the text, stands in for semver's error kind and position) |
| Release.ParseFormat | src/release.rs:38 | parsing a formatted in-range version gives the version back |
| Release.ParseVersionExact | src/release.rs:38 | a text parses to a version iff it is exactly that version's format |
| Release.IsVersionNewerSpec | src/release.rs:36-44 | the comparison fails iff either adjusted side does not parse; when both parse it is Ok of the strict triple order |
| Release.IsVersionNewer | src/release.rs:36-44 | `is_version_newer`: both sides adjusted and parsed, candidate first, then compared; its contract is carried by IsVersionNewerSpec, IsVersionNewerParseError, IsVersionNewerIrreflexive, IsVersionNewerAsymmetric and IsVersionNewerTransitive |
| Release.IsVersionNewerFormatted | src/release.rs:36-44 | on formatted versions, with or without a 'v', the result is Ok of the strict order |
| Release.IsVersionNewerParseError | src/release.rs:38 | an unparsable candidate is an error, not false (the model's error carries the adjusted text in place of semver's error kind and position) |
| Release.IsVersionNewerExampleBump | src/release.rs:36-44 | "v1.3" is newer than "1.2.0" |
| Release.IsVersionNewerExampleSame | src/release.rs:36-44 | "v1.2" is not newer than "1.2.0" |
| Release.IsVersionNewerIrreflexive | src/release.rs:43 | no version is newer than itself |
| Release.IsVersionNewerAsymmetric | src/release.rs:43 | if x is newer than y, y is not newer than x |
| Release.IsVersionNewerTransitive | src/release.rs:43 | the newer-than relation is transitive |
| Release.NewerTransitive | src/release.rs:43 | the strict triple order is transitive |
| Release.IsUpdateAvailable | src/release.rs:46-49 | `is_update_available`: `is_version_newer` on the release's tag; its contract is carried by UpdateAvailableReadsTag |
| Release.UpdateAvailableReadsTag | src/release.rs:46-49 | `is_update_available` depends on the release only through its tag, and is the strict order on the tag's version |
| BuildScript.MatchesTagIsTagForm | build.rs:13 | the scanner accepts a text iff it is 'v' followed by dot-separated, non-empty digit groups |
| BuildScript.ScanGroupsSplit | build.rs:13 | the scanner agrees with splitting at dots and testing each group |
| BuildScript.MatchesTagExamples | build.rs:13 | "v1", "v1.2.3" and "v10.0" are accepted |
| BuildScript.MatchesTagCounterExamples | build.rs:13 | "1.2", "v1..2", "v1.", "v", "v1.2-rc" and "V1" are rejected |
| BuildScript.ChooseVersion | build.rs:16-27 | an accepted ref name is used verbatim; there is no version only when git exits successfully with output that is not UTF-8; otherwise a successful git run's output is used with the White_Space at both ends removed, so the version never starts or ends with White_Space |
| BuildScript.Build | build.rs:16-30 | the script panics exactly when no version is chosen; otherwise it emits exactly one `cargo:rustc-env=APP_VERSION=<version>` line |
| BuildScript.BuildFallback | build.rs:26 | with no accepted tag and no successful git run the version is "0.0.0" |
| BuildScript.RefNameIgnoredUnlessTag | build.rs:17-18 | a ref name the regex rejects is treated like no ref name at all |
| BuildScript.FallbackParses | build.rs:26 | the fallback "0.0.0" parses as version 0.0.0 |
| BuildScript.LongTagNeverComparable | build.rs:13 | a tag that the regex accepts but that has three or more dots makes every comparison against it an error |
| MainConfig.DefaultConfig | src/mainconfig.rs:12-19 | neither an application nor a password is configured; used by LoadPath for missing and unreadable files and by FirstStartOpensSettings |
| MainConfig.PlanConfigPath | src/mainconfig.rs:36-50 | confy's path is used iff confy knows it and the name is empty or the running user's, ignoring case; the empty path is used iff confy or the home directory is unknown; another user's plan carries the remainder of confy's path below the home directory and the system drive, defaulting to "C:" |
| MainConfig.CurrentUserGetsConfyPath | src/mainconfig.rs:39-40 | the empty name or the running user's name resolves to confy's own path |
| MainConfig.ResolutionsAgreeUnlessOtherUser | src/mainconfig.rs:36-50 | the corrected and the as-written resolution agree unless the user is another user whose home directory starts confy's path |
| MainConfig.CurrentUserIgnoresCase | src/mainconfig.rs:39 | "Kiosk" resolves as the running user "kiosk" |
| MainConfig.OwnPathResolves | src/mainconfig.rs:38-40 | the running user's own path, `load_config("")`, never panics |
| MainConfig.UnknownPathIsEmpty | src/mainconfig.rs:36-50 | without confy's path, or for another user without a home directory, the result is the empty path |
| MainConfig.ConfigFilePathAsWritten | src/mainconfig.rs:36-50 | `get_configuration_file_path` as written; its contract is carried by CurrentUserGetsConfyPath, UnknownPathIsEmpty, ForeignConfyPathPanics, PlanForOtherUser, AsWrittenDropsProfile and AsWrittenOtherUsersShareOnePath |
| MainConfig.ConfigFilePath | src/mainconfig.rs:36-50 | the same resolution with another user's path built as intended; its contract is carried by CurrentUserGetsConfyPath, ResolutionsAgreeUnlessOtherUser, CorrectedOtherUserPath and OtherUsersSeparated |
| MainConfig.ForeignConfyPathPanics | src/mainconfig.rs:43 | for another user, resolution panics iff confy's path does not start with the home directory |
| MainConfig.PlanForOtherUser | src/mainconfig.rs:42-46 | another user's plan is the system drive (or "C:") with the rest of confy's path below the home directory |
| MainConfig.AsWrittenDropsProfile | src/mainconfig.rs:45 | as written, joining a rest path that starts with a separator discards `<drive>\users\<name>` |
| MainConfig.AsWrittenOtherUsersShareOnePath | src/mainconfig.rs:42-46 | as written, all other users resolve to the same path |
| MainConfig.ProfilePathShape | src/mainconfig.rs:45 | the drive's `users\<name>` is the drive with those two components |
| MainConfig.OtherUserPathShape | src/mainconfig.rs:42-46 | the corrected path is the drive, `users`, the name, and the components of the rest path |
| MainConfig.CorrectedOtherUserPath | src/mainconfig.rs:42-46 | with the correction, another user's configuration lies under that user's profile |
| MainConfig.OtherUsersSeparated | src/mainconfig.rs:42-46 | with the correction, two different other users get different paths |
| MainConfig.ConfigStore.constructor | src/mainconfig.rs:21 | the store starts with the given files, protected paths and session |
| MainConfig.ConfigStore.LoadPath | src/mainconfig.rs:26 | the load returns the parsed file, or the default (no application and no password) for a missing or unreadable one; a missing writable file is created holding the default |
| MainConfig.ConfigStore.StorePath | src/mainconfig.rs:32 | a store succeeds iff the path is writable, and then replaces that file alone |
| MainConfig.ConfigStore.LoadConfig | src/mainconfig.rs:24-27 | `load_config` loads the path ConfigFilePath resolves for the user (the corrected path for another user, see Findings), creating a missing writable file with the default, and panics with nothing changed when resolution panics |
| MainConfig.ConfigStore.LoadOwnConfig | src/mainconfig.rs:24-27 | loading for the empty name returns the running user's configuration and never panics |
| MainConfig.ConfigStore.SaveConfig | src/mainconfig.rs:30-33 | `save_config` stores to the same path ConfigFilePath resolves that a load reads, succeeding iff it is writable, and panics with nothing changed when resolution panics |
| MainConfig.ConfigStore.SetSettings | src/mainconfig.rs:53-58 | both fields become Some of the given values in the file ConfigFilePath resolves for that user; a failed store is ignored; a resolution panic changes nothing |
| MainConfig.ConfigStore.SetThenLoad | src/mainconfig.rs:24-33 | a load after `set_settings` for the same user returns exactly the values just written, when the file ConfigFilePath resolves is writable |
| UpdateCheck.UpdatePlan | src/win_kiosk_shell.rs:188-202 | a download is planned exactly when a release was fetched, is newer, has an asset and the executable's path is known; it then fetches the first asset's URL into the executable's directory, whatever the tag's form |
| UpdateCheck.NoDownloadUnlessNewer | src/win_kiosk_shell.rs:191-192 | a release that is not newer, or whose comparison fails, is never downloaded |
| UpdateCheck.NoDownloadOfSameVersion | src/win_kiosk_shell.rs:191-192 | the release of the running version is not downloaded |
| UpdateCheck.DownloadOfNewerRelease | src/win_kiosk_shell.rs:188-202 | a newer release with assets is downloaded from its first asset's URL |
| UpdateCheck.DownloadTargetIsParent | src/win_kiosk_shell.rs:194-196 | the download goes to the executable's parent directory |
| UpdateCheck.NoDownloadWithoutInputs | src/win_kiosk_shell.rs:190-196 | no fetched release, no asset or no executable path means no download |
| KioskShell.ExplorerDenied | src/win_kiosk_shell.rs:93-94 | "Explorer.EXE" is killed |
| KioskShell.EdgeDenied | src/win_kiosk_shell.rs:95-96 | "MSEDGE.exe" is killed |
| KioskShell.Denied | src/win_kiosk_shell.rs:93-96 | a process is killed iff its ASCII-lower-cased name is "explorer.exe" or "msedge.exe"; its contract is carried by ExplorerDenied, EdgeDenied and NotepadAllowed |
| KioskShell.NotepadAllowed | src/win_kiosk_shell.rs:93-97 | "notepad.exe" is not killed |
| KioskShell.ClientName | src/win_kiosk_shell.rs:83-86 | the client name is known iff an application is configured and its path has a file name, and is that file name lower-cased |
| KioskShell.ClientNameIgnoresCase | src/win_kiosk_shell.rs:84-85 | two configured paths in the same directory whose file names differ only in ASCII case give the same client name, the lower-cased file name, which lower-casing again leaves unchanged |
| KioskShell.PasswordGateExact | src/win_kiosk_shell.rs:113-116 | the gate opens iff no password is stored or the entered text equals it exactly, with no trimming |
| KioskShell.SetFocusToApplication | src/win_kiosk_shell.rs:170-186 | an error iff no window has the name; SetForegroundWindow only for a found window that is not already in front |
| KioskShell.FocusIdempotent | src/win_kiosk_shell.rs:181-183 | once the client's window is in front, a further attempt raises nothing |
| KioskShell.PasswordAccepted | src/win_kiosk_shell.rs:113-115 | the gate of close and settings; its contract is carried by PasswordGateExact |
| KioskShell.WatchStep | src/win_kiosk_shell.rs:93-99 | the loop body for one process: kill when denied, otherwise one focus attempt when the client name is known; its contract is carried by WatchStepCounts and by Shell.WatchOne |
| KioskShell.WatchAll | src/win_kiosk_shell.rs:92-100 | one iteration over a snapshot, in its order; its contract is carried by WatchKillsDenied, WatchAttemptsPerSurvivor, WatchRaisesAtMostOnce, WatchAllFrom and Shell.WatchSnapshot |
| KioskShell.Survivors | src/win_kiosk_shell.rs:93-97 | the processes left after an iteration are exactly the ones whose names are not denied |
| KioskShell.WatchStepCounts | src/win_kiosk_shell.rs:93-99 | one process adds a kill iff it is denied, and otherwise one focus attempt when the client name is known |
| KioskShell.WatchKillsDenied | src/win_kiosk_shell.rs:93-97 | an iteration kills exactly the denied processes, in snapshot order |
| KioskShell.WatchAttemptsPerSurvivor | src/win_kiosk_shell.rs:98-99 | focus is attempted once per non-denied process when the client name is known, and never otherwise |
| KioskShell.WatchRaisesAtMostOnce | src/win_kiosk_shell.rs:98-99 | an iteration raises at most one window, only the client's, and the foreground changes only with a raise |
| KioskShell.WatchAllFrom | src/win_kiosk_shell.rs:92-100 | an iteration appends to the log what it would produce from an empty log |
| KioskShell.Shell.constructor | src/win_kiosk_shell.rs:74-76 | the child fills the slot; the flag is clear and the window shown |
| KioskShell.Shell.OnClose | src/win_kiosk_shell.rs:109-119 | the window hides iff the gate opens on the stored password; nothing else changes |
| KioskShell.Shell.OnSettings | src/win_kiosk_shell.rs:120-131 | behind the same gate a settings session runs and then the window hides; on failure neither happens |
| KioskShell.Shell.OnStartApp | src/win_kiosk_shell.rs:132-148 | no effect at all when the flag is clear; otherwise the configured program, or "" when none is configured, replaces the slot with a fresh process and an update check follows; a failed spawn panics |
| KioskShell.Shell.Spawn | src/win_kiosk_shell.rs:140-144 | the spawned child gets a fresh pid, enters the table and takes the slot |
| KioskShell.Shell.SpawnAndCheck | src/win_kiosk_shell.rs:143-146 | after a successful spawn and the update check, the log grows by the spawn and the planned download only, with no shutdown |
| KioskShell.Shell.CheckForUpdate | src/win_kiosk_shell.rs:188-202 | the download that the update decision names is started, and nothing else |
| KioskShell.Shell.OnReboot | src/win_kiosk_shell.rs:149-156 | a reboot is requested with no password gate |
| KioskShell.Shell.HandleEvent | src/win_kiosk_shell.rs:109-156 | a UI handler never touches the flag and never logs a shutdown step |
| KioskShell.Shell.HandleEvents | src/win_kiosk_shell.rs:159 | the event loop takes events until the batch is exhausted, stopping early only when the window is hidden or a handler has panicked; a hidden window or a panicked shell takes none and changes nothing; no event clears the flag or logs a shutdown step |
| KioskShell.Shell.WatchIteration | src/win_kiosk_shell.rs:90-100 | one iteration logs what the watch specification prescribes for the table snapshot and leaves the survivors in the table |
| KioskShell.Shell.WatchSnapshot | src/win_kiosk_shell.rs:93-99 | the loop over the snapshot returns exactly the survivors and moves the foreground and the log as the watch specification prescribes |
| KioskShell.Shell.WatchOne | src/win_kiosk_shell.rs:93-99 | the loop body for one process is one watch step |
| KioskShell.Shell.Run | src/win_kiosk_shell.rs:78-167 | the flag is tested before every iteration; after the UI ends, the log ends with clear flag, join, then wait on the slot's child, and no iteration or handler runs after the flag is cleared |
| KioskSettings.GetInfo | src/win_kiosk_settings.rs:118-125 | "Cannot set shell, only start in autostart" iff the name is empty or equals the running user exactly; "set shell" otherwise |
| KioskSettings.GetInfoIsCaseSensitive | src/win_kiosk_settings.rs:120 | a name equal to the running user's only when case is ignored counts as the running user for the configuration, but as another user for the information |
| KioskSettings.ErrorText | src/win_kiosk_settings.rs:107-110 | the message is "Error: " followed by the error |
| KioskSettings.IsLocalUser | src/win_kiosk_settings.rs:176-187 | a spawn failure gives false |
| KioskSettings.IsLocalUserPadded | src/win_kiosk_settings.rs:183 | "True" with whitespace around it is accepted |
| KioskSettings.IsLocalUserExact | src/win_kiosk_settings.rs:183 | unpadded output is accepted iff it is exactly "True" |
| KioskSettings.ShortcutPath | src/win_kiosk_settings.rs:135-138 | the shortcut is the home directory followed by `\AppData\Roaming\Microsoft\Windows\Start Menu\Programs\Startup\`, the package name and ".lnk" |
| KioskSettings.WriteUserShell | src/win_kiosk_settings.rs:127-150 | `write_user_shell`: the shortcut for the empty name or a profile equal to the home directory, otherwise the Winlogon value in the user's hive; its contract is carried by WriteUserShellErrors, HiveRepeatsName, NamedUserNeverShortcut, CurrentUserGetsHive and EmptyNameGetsShortcut |
| KioskSettings.WriteUserShellErrors | src/win_kiosk_settings.rs:127-150 | an error is returned iff `SystemDrive` is missing or a hive-branch registry step fails, and it is that error |
| KioskSettings.HiveRepeatsName | src/win_kiosk_settings.rs:142 | the hive is `<drive>\users\<name>\<name>\NTUSER.DAT`, with the name repeated |
| KioskSettings.ProfileShape | src/win_kiosk_settings.rs:129 | the profile path is `<drive>\users\<name>` |
| KioskSettings.NamedUserNeverShortcut | src/win_kiosk_settings.rs:129-132 | with a bare drive such as "C:" the profile path is never the rooted home, so a non-empty name never takes the shortcut branch |
| KioskSettings.CurrentUserGetsHive | src/win_kiosk_settings.rs:118-146 | with a bare drive letter as system drive, the running user's own name is shown the startup-only message, and registering writes the Winlogon value into the hive `<drive>users\<name>\<name>\NTUSER.DAT` (for `C:`, `C:users\...`) rather than a startup shortcut |
| KioskSettings.EmptyNameGetsShortcut | src/win_kiosk_settings.rs:132-140 | the empty name gets a startup shortcut under the home directory that targets the executable |
| KioskSettings.ScanList | src/win_kiosk_settings.rs:159-170 | the loop over the directory entries, as a specification; its contract is carried by ScanListFails, ScanListMembers, ScanListPrefixFails and ScanUsers |
| KioskSettings.LocalUserList | src/win_kiosk_settings.rs:152-174 | `list_local_users().unwrap()` as a specification; its contract is carried by ListLocalUsers |
| KioskSettings.ScanListFails | src/win_kiosk_settings.rs:159-160 | the scan fails iff some directory entry fails |
| KioskSettings.ScanListMembers | src/win_kiosk_settings.rs:161-167 | a name is listed iff some entry is a directory holding NTUSER.DAT, has that name and passes `is_local_user` |
| KioskSettings.ScanListPrefixFails | src/win_kiosk_settings.rs:159-160 | a failed entry fails the whole listing, whatever follows it |
| KioskSettings.ScanUsers | src/win_kiosk_settings.rs:159-171 | the loop over the entries computes the specified listing, in scan order |
| KioskSettings.ListLocalUsers | src/win_kiosk_settings.rs:152-174 | the listing panics without `SystemDrive`, is empty without a `users` directory, and fails when reading it fails |
| KioskSettings.SettingsWindow.constructor | src/win_kiosk_settings.rs:24 | every window property starts empty, except the selector, which starts on the given initial selection, and nothing is registered, downloaded or panicked |
| KioskSettings.SettingsWindow.Open | src/win_kiosk_settings.rs:23-102 | admin is always shown; the user list is the scan only when truly elevated (a failed scan panics) and otherwise the running user alone; the fields are prefilled from the running user's configuration; then the one download `UpdatePlan` decides on for the fetched release, the running version and the executable's path is started, or none |
| KioskSettings.SettingsWindow.CheckForUpdate | src/win_kiosk_settings.rs:102 | the settings session's update check starts exactly the download `UpdatePlan` decides on, the same decision the kiosk shell makes |
| KioskSettings.SettingsWindow.FillUsers | src/win_kiosk_settings.rs:31-38 | the scanned list when truly elevated, otherwise only the running user |
| KioskSettings.SettingsWindow.Prefill | src/win_kiosk_settings.rs:42-48 | a configured application or password replaces the field, and an absent one leaves it |
| KioskSettings.SettingsWindow.UserSelected | src/win_kiosk_settings.rs:51-61 | the information follows the selected user |
| KioskSettings.SettingsWindow.SearchClicked | src/win_kiosk_settings.rs:62-72 | a picked file replaces the application path, and a cancelled dialog changes nothing |
| KioskSettings.SettingsWindow.Cancel | src/win_kiosk_settings.rs:73-79 | the window hides, and nothing is written |
| KioskSettings.SettingsWindow.Save | src/win_kiosk_settings.rs:80-100 | an empty password shows "Password must be set." with nothing written or hidden; otherwise the settings are stored for the selected user, then the shell is registered, and the window hides even after an error |
| KioskSettings.SettingsWindow.RegisterShell | src/win_kiosk_settings.rs:92-97 | a registration error is shown as "Error: <e>"; a success is recorded; the window hides in both cases |
| Entry.Dispatch | src/main.rs:14-36 | the kiosk runs iff the configured path exists and starts; the settings run iff it does not exist; a failed start aborts with "The application could not be started." |
| Entry.NoApplicationOpensSettings | src/main.rs:18-25 | with no application configured the empty path is used, it does not exist, and the settings open |
| Entry.FirstStartOpensSettings | src/main.rs:15-25 | the default configuration opens the settings |
| Entry.Launch | src/main.rs:15 | the configuration is loaded for the empty user name, that is, the running user |

## Left out

- Unicode: `to_lowercase`, `to_ascii_lowercase` and the regex's `\d` are
  modelled on ASCII letters and digits. `trim` uses the full Unicode
  White_Space set, as Rust does.
- Release.ParseVersion: semver pre-release and build metadata are not
  modelled. A version is three plain decimal numbers, each at most
  2^64 - 1.
- `String::from_utf8_lossy` in `is_local_user` is not modelled: the
  PowerShell output is given as text.
- KioskShell.SetFocusToApplication: the panic of `CString::new` on a name
  containing NUL is not modelled.
- Network, registry, shortcut, PowerShell, process enumeration and kill,
  file dialog, reboot command and confy serialisation are operating-system
  calls. Their answers are parameters, and their effects are log entries.
- Concurrency and the one-second sleep: the watcher and the UI run as
  alternating steps in `Run` (a watcher iteration, then a batch of UI
  events). Interleavings inside an iteration are not modelled.
- The process table is not re-enumerated between iterations, apart from
  the kills and the spawns of the model. Processes started or stopped by
  others, failed kills and foreground changes made by other programs are
  not modelled.
- The settings session run from the kiosk window is recorded as one
  `SettingsSession` action. Its effects on the configuration inside the
  shell are not modelled.
- Path forms beyond drive letters and separators (UNC, verbatim `\\?\`,
  `.` components) are not modelled. The configuration store is keyed by
  exact path, so the file system's case-insensitivity is not captured.
- Elevation (src/win_elevation_functions.rs) is the input `trueIsAdmin`.
- The slint UI markup and event wiring are not modelled. UI properties are
  fields, and events are method calls.
- The package name `CARGO_PKG_NAME` is a parameter, because Cargo.toml is
  not part of this model. The user the selector starts on is a parameter
  too.
- `home_dir().to_str().unwrap()` and `current_exe().to_str()` are taken to
  succeed whenever the path is known.
- MainConfig.ConfigStore.LoadConfig: another user's file is looked up at
  the corrected path `<drive>\users\<name>\<rest>` (ConfigFilePath), not
  at `<drive>\<rest>`, which src/mainconfig.rs:45 builds for every other
  user alike (see Findings). The two agree in every other case
  (ResolutionsAgreeUnlessOtherUser), so every load for the running user,
  and so the kiosk shell and the program's start, are as written.
- MainConfig.ConfigStore.SaveConfig: stores another user's file at the
  corrected path, for the same reason as LoadConfig.
- MainConfig.ConfigStore.SetSettings: writes another user's settings to the
  corrected path, so the model does not show one user's settings
  overwriting another's, as the code as written does.
- MainConfig.ConfigStore.SetThenLoad: the round trip is stated through the
  corrected path only.
- KioskSettings.SettingsWindow.Save: the selected user's settings go to the
  corrected path, through SetSettings.
- KioskShell.WatchStep: every `SetForegroundWindow` call is taken to
  succeed, so after a raise the client's window is in front. The code
  ignores the call's result (src/win_kiosk_shell.rs:181-183). Windows may
  refuse the call, and then each later non-denied process of the same
  iteration raises again. Refused calls are not modelled.
- KioskShell.Shell.WatchOne: takes every raise to succeed, through
  WatchStep.
- KioskShell.WatchRaisesAtMostOnce: "at most one raise per iteration"
  holds only because every raise is taken to succeed. With refused calls
  the code raises once more for each later non-denied process.
- KioskShell.Shell.OnStartApp: a spawn failure is a panic of the program,
  and the empty program is never launchable.
- KioskShell.Shell.HandleEvent: its contract states what every handler
  keeps (the flag, a log without shutdown steps). Each handler's exact
  effect is stated by that handler's own method.
- KioskSettings.WriteUserShell: the function carries no `ensures` of its
  own. Its outcomes are stated by WriteUserShellErrors, HiveRepeatsName,
  NamedUserNeverShortcut, CurrentUserGetsHive and EmptyNameGetsShortcut.
- KioskSettings.IsLocalUser: its contract states only the failure case and
  a length bound. Acceptance of the exact and padded "True" is stated by
  IsLocalUserExact and IsLocalUserPadded.
- The resource and slint build steps of build.rs (lines 6-11) are not
  modelled.

## Findings

| source | as written | input that shows it | evidently intended | confidence | as-written member | corrected member |
|---|---|---|---|---|---|---|
| src/mainconfig.rs:43-45 | the remainder of confy's path below the home directory starts with `\`; `Path::join` with a rooted argument keeps only the drive, which drops `users\<name>` | home `C:\Users\kiosk`, confy path `C:\Users\kiosk\AppData\Roaming\winkioskshell\config.toml`, user names `alice` and `bob`: both resolve to `C:\AppData\Roaming\winkioskshell\config.toml` | the configuration of another user lies under `<SystemDrive>\users\<name>`, distinct per user | not executed | MainConfig.AsWrittenOtherUsersShareOnePath | MainConfig.OtherUsersSeparated |
