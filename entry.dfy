// The program entry (src/main.rs): start the configured application and
// supervise it with the kiosk shell, or open the settings when there is
// nothing to start.

module Entry {
  import opened Common
  import opened WinPaths
  import opened MainConfig
  import opened KioskShell

  const StartFailure: string := "The application could not be started."

  /** Which session the program runs, or the abort of a failed start. */
  datatype Session = KioskSession(child: Proc) | SettingsWindowSession | Aborted(message: string)

  /** `Path::exists`: the empty path never exists. */
  predicate Exists(p: WinPath, existing: set<WinPath>) {
    p != EmptyPath() && p in existing
  }

  /**
   * `main` after loading the running user's configuration: the configured
   * application (the empty path when there is none) is started when it
   * exists, and the kiosk shell supervises it; a failed start aborts;
   * otherwise the settings session runs.
   */
  function Dispatch(config: MainConfig, existing: set<WinPath>, launchable: set<string>, nextPid: nat): (r: Session)
    ensures var program := config.clientApplication.GetOr([]);
            (r.KioskSession? <==> Exists(Parse(program), existing) && program in launchable)
            && (r.SettingsWindowSession? <==> !Exists(Parse(program), existing))
            && (r.Aborted? <==> Exists(Parse(program), existing) && program !in launchable)
    ensures r.KioskSession? ==> r.child == Proc(nextPid, ProcessName(config.clientApplication.value))
    ensures r.Aborted? ==> r.message == StartFailure
  {
    var program := config.clientApplication.GetOr([]);
    if Exists(Parse(program), existing) then
      if program in launchable then KioskSession(Proc(nextPid, ProcessName(program))) else Aborted(StartFailure)
    else SettingsWindowSession
  }

  /** Without a configured application nothing is started: the settings session opens. */
  lemma {:induction false} NoApplicationOpensSettings(config: MainConfig, existing: set<WinPath>, launchable: set<string>, nextPid: nat)
    requires config.clientApplication.None?
    ensures Dispatch(config, existing, launchable, nextPid) == SettingsWindowSession
  {
    assert Parse([]) == EmptyPath();
  }

  /** The default configuration, which a first start sees, opens the settings. */
  lemma {:induction false} FirstStartOpensSettings(existing: set<WinPath>, launchable: set<string>, nextPid: nat)
    ensures Dispatch(DefaultConfig(), existing, launchable, nextPid) == SettingsWindowSession
  {
    NoApplicationOpensSettings(DefaultConfig(), existing, launchable, nextPid);
  }

  /**
   * The program's start: load the running user's configuration (which
   * may create its file) and dispatch on it.
   */
  method Launch(store: ConfigStore, existing: set<WinPath>, launchable: set<string>, nextPid: nat) returns (r: Session)
    modifies store
    ensures r == Dispatch(old(store.OwnConfig()), existing, launchable, nextPid)
    ensures forall q :: store.Current(q) == old(store.Current(q))
    ensures store.readOnly == old(store.readOnly)
  {
    var config := store.LoadOwnConfig();
    r := Dispatch(config, existing, launchable, nextPid);
  }
}
