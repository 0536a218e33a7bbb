/**
 * The kiosk shell (`WinKioskShell`): a full-screen window guarded by the
 * configured password, a watcher that on every round kills Explorer and
 * Edge and pulls the client application's window to the front, and the
 * supervised client process, which `Start` replaces.
 *
 * The watcher thread and the UI thread are run in one sequential loop:
 * each round is one watcher iteration followed by the UI events that
 * arrive before the watcher next tests the run flag. The operating system
 * is reached through oracles (`findWindow`, `launchable`, the fetched
 * release), and what the shell does to it is recorded, in order, in
 * `actions`.
 */
module KioskShell {
  import opened Common
  import opened Strings
  import opened WinPaths
  import opened Release
  import opened MainConfig
  import opened UpdateCheck

  /** A running process as the process table lists it. */
  datatype Proc = Proc(pid: nat, name: string)

  /** What the shell does to the outside world. */
  datatype Action =
    | Killed(pid: nat)
    | FocusAttempted(name: string)
    | Raised(window: nat)
    | Spawned(pid: nat, program: string)
    | DownloadStarted(download: Download)
    | SettingsSession
    | RebootRequested
    | FlagCleared
    | WatcherJoined
    | Waited(pid: nat)

  const ExplorerName: string := "explorer.exe"
  const EdgeName: string := "msedge.exe"

  /** The deny list, compared after ASCII lower-casing the process name. */
  predicate Denied(name: string) {
    AsciiLower(name) == ExplorerName || AsciiLower(name) == EdgeName
  }

  lemma {:induction false} ExplorerDenied(name: string)
    requires name == "Explorer.EXE"
    ensures Denied(name)
  {
    assert AsciiLower(name) == ExplorerName;
  }

  lemma {:induction false} EdgeDenied(name: string)
    requires name == "MSEDGE.exe"
    ensures Denied(name)
  {
    assert AsciiLower(name) == EdgeName;
  }

  lemma {:induction false} NotepadAllowed(name: string)
    requires name == "notepad.exe"
    ensures !Denied(name)
  {
    assert AsciiLower(name)[0] == 'n';
  }

  /**
   * The name the watcher looks for: the configured path's file name,
   * lower-cased, when a path is configured and it has a file name.
   */
  function ClientName(clientApplication: Option<string>): (r: Option<string>)
    ensures r.Some? <==> clientApplication.Some? && FileName(Parse(clientApplication.value)).Some?
    ensures r.Some? ==> r.value == AsciiLower(FileName(Parse(clientApplication.value)).value)
  {
    match clientApplication
    case None => None
    case Some(path) =>
      match FileName(Parse(path))
      case None => None
      case Some(name) => Some(AsciiLower(name))
  }

  /**
   * The client name does not depend on how the configured file name is
   * capitalised, and it is already lower-case, so lower-casing it again
   * for a comparison changes nothing.
   */
  lemma {:induction false} ClientNameIgnoresCase(p1: string, p2: string, dir: WinPath, n1: string, n2: string)
    requires Parse(p1) == WinPath(dir.drive, dir.rooted, dir.parts + [n1])
    requires Parse(p2) == WinPath(dir.drive, dir.rooted, dir.parts + [n2])
    requires n1 != ".." && n2 != ".." && AsciiLower(n1) == AsciiLower(n2)
    ensures ClientName(Some(p1)) == ClientName(Some(p2)) == Some(AsciiLower(n1))
    ensures AsciiLower(ClientName(Some(p1)).value) == ClientName(Some(p1)).value
  {
    assert FileName(Parse(p1)) == Some(n1);
    assert FileName(Parse(p2)) == Some(n2);
    AsciiLowerIdempotent(n1);
  }

  lemma {:induction false} AsciiLowerIdempotent(s: string)
    ensures AsciiLower(AsciiLower(s)) == AsciiLower(s)
  {
    var l := AsciiLower(s);
    assert forall i :: 0 <= i < |l| ==> AsciiLowerChar(l[i]) == l[i];
  }

  /** The gate of Close and Settings: no password stored, or exactly the stored text. */
  predicate PasswordAccepted(stored: Option<string>, entered: string) {
    stored.None? || stored.value == entered
  }

  lemma {:induction false} PasswordGateExact(stored: string, entered: string)
    ensures PasswordAccepted(Some(stored), entered) <==> entered == stored
    ensures PasswordAccepted(None, entered)
    ensures stored != [] ==> !PasswordAccepted(Some(stored), stored + " ") && !PasswordAccepted(Some(stored), [])
  {
    if stored != [] {
      assert |stored + " "| != |stored|;
    }
  }

  // ---------------------------------------------------------------------
  // set_focus_to_application

  const WindowNotFound: string := "Window not found."

  /** The outcome of one focus attempt; `raised` is the window passed to SetForegroundWindow. */
  datatype FocusResult = FocusResult(result: Result<(), string>, raised: Option<nat>)

  /**
   * `set_focus_to_application(name)`: `findWindow` answers FindWindowA
   * for a window title, `foreground` is GetForegroundWindow.
   */
  function SetFocusToApplication(findWindow: map<string, nat>, foreground: Option<nat>, name: string): (r: FocusResult)
    ensures r.result.Err? <==> name !in findWindow
    ensures r.result.Err? ==> r.result.error == WindowNotFound && r.raised.None?
    ensures r.raised.Some? <==> name in findWindow && foreground != Some(findWindow[name])
    ensures r.raised.Some? ==> r.raised.value == findWindow[name]
  {
    if name !in findWindow then FocusResult(Err(WindowNotFound), None)
    else
      var target := findWindow[name];
      if target != foreground.GetOr(target + 1) then FocusResult(Ok(()), Some(target))
      else FocusResult(Ok(()), None)
  }

  /** Once the client's window is in front, further attempts raise nothing. */
  lemma {:induction false} FocusIdempotent(findWindow: map<string, nat>, foreground: Option<nat>, name: string)
    requires SetFocusToApplication(findWindow, foreground, name).raised.Some?
    ensures var w := SetFocusToApplication(findWindow, foreground, name).raised;
            SetFocusToApplication(findWindow, w, name) == FocusResult(Ok(()), None)
  {
  }

  // ---------------------------------------------------------------------
  // One watcher iteration, as a specification

  /** What an iteration threads through its processes: the foreground window and the actions so far. */
  datatype WatchState = WatchState(foreground: Option<nat>, actions: seq<Action>)

  /** The loop body for one process of the snapshot. */
  function WatchStep(s: WatchState, p: Proc, clientName: Option<string>, findWindow: map<string, nat>): WatchState {
    if Denied(p.name) then WatchState(s.foreground, s.actions + [Killed(p.pid)])
    else
      match clientName
      case None => s
      case Some(n) =>
        var f := SetFocusToApplication(findWindow, s.foreground, n);
        match f.raised
        case Some(w) => WatchState(Some(w), s.actions + [FocusAttempted(n), Raised(w)])
        case None => WatchState(s.foreground, s.actions + [FocusAttempted(n)])
  }

  /** The iteration over a whole snapshot, in the snapshot's order. */
  function WatchAll(s: WatchState, procs: seq<Proc>, clientName: Option<string>, findWindow: map<string, nat>): WatchState
    decreases |procs|
  {
    if procs == [] then s
    else WatchStep(WatchAll(s, procs[..|procs| - 1], clientName, findWindow), procs[|procs| - 1], clientName, findWindow)
  }

  /** The processes a kill leaves alive, in order. */
  function Survivors(procs: seq<Proc>): (r: seq<Proc>)
    ensures |r| <= |procs|
    ensures forall i :: 0 <= i < |r| ==> r[i] in procs && !Denied(r[i].name)
    ensures forall i :: 0 <= i < |procs| && !Denied(procs[i].name) ==> procs[i] in r
    decreases |procs|
  {
    if procs == [] then []
    else
      var init := Survivors(procs[..|procs| - 1]);
      var last := procs[|procs| - 1];
      assert forall i :: 0 <= i < |procs| - 1 ==> procs[i] == procs[..|procs| - 1][i];
      if Denied(last.name) then init else init + [last]
  }

  /** The pids of the denied processes, in order. */
  function DeniedPids(procs: seq<Proc>): seq<nat>
    decreases |procs|
  {
    if procs == [] then []
    else
      var init := DeniedPids(procs[..|procs| - 1]);
      if Denied(procs[|procs| - 1].name) then init + [procs[|procs| - 1].pid] else init
  }

  /** The pids of the `Killed` actions, in order. */
  function KilledPids(actions: seq<Action>): seq<nat>
    decreases |actions|
  {
    if actions == [] then []
    else
      var init := KilledPids(actions[..|actions| - 1]);
      match actions[|actions| - 1]
      case Killed(pid) => init + [pid]
      case _ => init
  }

  function CountAttempts(actions: seq<Action>): nat
    decreases |actions|
  {
    if actions == [] then 0
    else CountAttempts(actions[..|actions| - 1]) + (if actions[|actions| - 1].FocusAttempted? then 1 else 0)
  }

  function CountRaised(actions: seq<Action>): nat
    decreases |actions|
  {
    if actions == [] then 0
    else CountRaised(actions[..|actions| - 1]) + (if actions[|actions| - 1].Raised? then 1 else 0)
  }

  lemma {:induction false} CountsAppend(a: seq<Action>, x: Action)
    ensures KilledPids(a + [x]) == KilledPids(a) + (if x.Killed? then [x.pid] else [])
    ensures CountAttempts(a + [x]) == CountAttempts(a) + (if x.FocusAttempted? then 1 else 0)
    ensures CountRaised(a + [x]) == CountRaised(a) + (if x.Raised? then 1 else 0)
  {
    assert (a + [x])[..|a|] == a;
  }

  /** What one step adds to the counts. */
  lemma {:induction false} WatchStepCounts(s: WatchState, p: Proc, clientName: Option<string>, findWindow: map<string, nat>)
    ensures var r := WatchStep(s, p, clientName, findWindow);
            KilledPids(r.actions) == KilledPids(s.actions) + (if Denied(p.name) then [p.pid] else [])
            && CountAttempts(r.actions) == CountAttempts(s.actions) + (if !Denied(p.name) && clientName.Some? then 1 else 0)
            && (if !Denied(p.name) && clientName.Some?
                   && SetFocusToApplication(findWindow, s.foreground, clientName.value).raised.Some?
                then CountRaised(r.actions) == CountRaised(s.actions) + 1
                     && r.foreground == Some(findWindow[clientName.value])
                else CountRaised(r.actions) == CountRaised(s.actions) && r.foreground == s.foreground)
  {
    if Denied(p.name) {
      CountsAppend(s.actions, Killed(p.pid));
    } else if clientName.Some? {
      var n := clientName.value;
      CountsAppend(s.actions, FocusAttempted(n));
      var f := SetFocusToApplication(findWindow, s.foreground, n);
      if f.raised.Some? {
        CountsAppend(s.actions + [FocusAttempted(n)], Raised(f.raised.value));
        assert s.actions + [FocusAttempted(n), Raised(f.raised.value)] == s.actions + [FocusAttempted(n)] + [Raised(f.raised.value)];
      }
    }
  }

  lemma {:induction false} WatchAllUnfold(s: WatchState, procs: seq<Proc>, clientName: Option<string>, findWindow: map<string, nat>)
    requires procs != []
    ensures WatchAll(s, procs, clientName, findWindow)
            == WatchStep(WatchAll(s, procs[..|procs| - 1], clientName, findWindow), procs[|procs| - 1], clientName, findWindow)
  {
  }

  /** Exactly the denied processes of the snapshot are killed, in snapshot order. */
  lemma {:induction false} WatchKillsDenied(fg: Option<nat>, procs: seq<Proc>, clientName: Option<string>, findWindow: map<string, nat>)
    ensures KilledPids(WatchAll(WatchState(fg, []), procs, clientName, findWindow).actions) == DeniedPids(procs)
    decreases |procs|
  {
    if procs != [] {
      var init := procs[..|procs| - 1];
      WatchKillsDenied(fg, init, clientName, findWindow);
      WatchAllUnfold(WatchState(fg, []), procs, clientName, findWindow);
      WatchStepCounts(WatchAll(WatchState(fg, []), init, clientName, findWindow), procs[|procs| - 1], clientName, findWindow);
    }
  }

  /** Every surviving process costs one focus attempt when the client name is known, none otherwise. */
  lemma {:induction false} WatchAttemptsPerSurvivor(fg: Option<nat>, procs: seq<Proc>, clientName: Option<string>, findWindow: map<string, nat>)
    ensures CountAttempts(WatchAll(WatchState(fg, []), procs, clientName, findWindow).actions)
            == if clientName.Some? then |Survivors(procs)| else 0
    decreases |procs|
  {
    if procs != [] {
      var init := procs[..|procs| - 1];
      WatchAttemptsPerSurvivor(fg, init, clientName, findWindow);
      WatchAllUnfold(WatchState(fg, []), procs, clientName, findWindow);
      WatchStepCounts(WatchAll(WatchState(fg, []), init, clientName, findWindow), procs[|procs| - 1], clientName, findWindow);
    }
  }

  /**
   * At most one window is raised per iteration, only the client's, and
   * none when no client name is known; the foreground changes only with a raise.
   */
  lemma {:induction false} WatchRaisesAtMostOnce(fg: Option<nat>, procs: seq<Proc>, clientName: Option<string>, findWindow: map<string, nat>)
    ensures var r := WatchAll(WatchState(fg, []), procs, clientName, findWindow);
            (CountRaised(r.actions) == 0 && r.foreground == fg)
            || (CountRaised(r.actions) == 1 && clientName.Some? && clientName.value in findWindow
                && r.foreground == Some(findWindow[clientName.value]))
    decreases |procs|
  {
    if procs != [] {
      var init := procs[..|procs| - 1];
      WatchRaisesAtMostOnce(fg, init, clientName, findWindow);
      WatchAllUnfold(WatchState(fg, []), procs, clientName, findWindow);
      WatchStepCounts(WatchAll(WatchState(fg, []), init, clientName, findWindow), procs[|procs| - 1], clientName, findWindow);
    }
  }

  lemma {:induction false} WatchAllNoShutdown(s: WatchState, procs: seq<Proc>, clientName: Option<string>, findWindow: map<string, nat>)
    requires NoShutdown(s.actions)
    ensures NoShutdown(WatchAll(s, procs, clientName, findWindow).actions)
    decreases |procs|
  {
    if procs != [] {
      WatchAllNoShutdown(s, procs[..|procs| - 1], clientName, findWindow);
    }
  }

  lemma {:induction false} WatchAllSnoc(s: WatchState, procs: seq<Proc>, i: nat, clientName: Option<string>, findWindow: map<string, nat>)
    requires i < |procs|
    ensures WatchAll(s, procs[..i + 1], clientName, findWindow) == WatchStep(WatchAll(s, procs[..i], clientName, findWindow), procs[i], clientName, findWindow)
  {
    assert procs[..i + 1][..i] == procs[..i];
    WatchAllUnfold(s, procs[..i + 1], clientName, findWindow);
  }

  lemma {:induction false} SurvivorsSnoc(procs: seq<Proc>, i: nat)
    requires i < |procs|
    ensures Survivors(procs[..i + 1]) == Survivors(procs[..i]) + (if Denied(procs[i].name) then [] else [procs[i]])
  {
    assert procs[..i + 1][..i] == procs[..i];
  }

  /** Running the watcher after earlier actions appends what it does from an empty log. */
  lemma {:induction false} WatchAllFrom(fg: Option<nat>, before: seq<Action>, procs: seq<Proc>, clientName: Option<string>, findWindow: map<string, nat>)
    ensures var r := WatchAll(WatchState(fg, []), procs, clientName, findWindow);
            WatchAll(WatchState(fg, before), procs, clientName, findWindow) == WatchState(r.foreground, before + r.actions)
    decreases |procs|
  {
    if procs != [] {
      var init := procs[..|procs| - 1];
      var last := procs[|procs| - 1];
      WatchAllFrom(fg, before, init, clientName, findWindow);
      WatchAllUnfold(WatchState(fg, []), procs, clientName, findWindow);
      WatchAllUnfold(WatchState(fg, before), procs, clientName, findWindow);
      var r := WatchAll(WatchState(fg, []), init, clientName, findWindow);
      StepFrom(r, before, last, clientName, findWindow);
    }
  }

  lemma {:induction false} StepFrom(r: WatchState, before: seq<Action>, p: Proc, clientName: Option<string>, findWindow: map<string, nat>)
    ensures var t := WatchStep(r, p, clientName, findWindow);
            WatchStep(WatchState(r.foreground, before + r.actions), p, clientName, findWindow) == WatchState(t.foreground, before + t.actions)
  {
    if Denied(p.name) {
      assert before + r.actions + [Killed(p.pid)] == before + (r.actions + [Killed(p.pid)]);
    } else if clientName.Some? {
      var n := clientName.value;
      var f := SetFocusToApplication(findWindow, r.foreground, n);
      if f.raised.Some? {
        assert before + r.actions + [FocusAttempted(n), Raised(f.raised.value)] == before + (r.actions + [FocusAttempted(n), Raised(f.raised.value)]);
      } else {
        assert before + r.actions + [FocusAttempted(n)] == before + (r.actions + [FocusAttempted(n)]);
      }
    }
  }

  // ---------------------------------------------------------------------
  // The shell

  /** No shutdown step among these actions. */
  predicate NoShutdown(actions: seq<Action>) {
    forall i :: 0 <= i < |actions| ==> !actions[i].FlagCleared? && !actions[i].WatcherJoined? && !actions[i].Waited?
  }

  /** `actions` extends `before` by actions that are not shutdown steps. */
  predicate ExtendsWithoutShutdown(before: seq<Action>, actions: seq<Action>) {
    |before| <= |actions| && actions[..|before|] == before && NoShutdown(actions[|before|..])
  }

  lemma {:induction false} ExtendsTransitive(a: seq<Action>, b: seq<Action>, c: seq<Action>)
    requires ExtendsWithoutShutdown(a, b) && ExtendsWithoutShutdown(b, c)
    ensures ExtendsWithoutShutdown(a, c)
  {
    assert c[..|b|][..|a|] == c[..|a|];
    assert forall i :: |a| <= i < |b| ==> c[i] == b[i];
  }

  lemma {:induction false} ExtendsAppend(a: seq<Action>, d: seq<Action>)
    requires NoShutdown(d)
    ensures ExtendsWithoutShutdown(a, a + d)
  {
    assert (a + d)[..|a|] == a && (a + d)[|a|..] == d;
  }

  /** A UI event of the kiosk window. */
  datatype UiEvent = TypePassword(text: string) | Close | Settings | Start | Reboot

  /** What the shell finds in the operating system when it starts. */
  datatype System = System(
    processes: seq<Proc>,            // the process table
    nextPid: nat,                    // the pid the next spawned process gets
    foreground: Option<nat>,         // GetForegroundWindow
    findWindow: map<string, nat>,    // FindWindowA, by window title
    launchable: set<string>,         // the programs a spawn succeeds on
    latestRelease: Option<Release>,  // get_latest_release, None when it fails
    currentExe: Option<WinPath>)     // env::current_exe

  /** The variable part of a shell, as one value. */
  datatype ShellState = ShellState(
    running: bool, slot: nat, table: seq<Proc>, nextPid: nat, hidden: bool,
    passwordText: string, foreground: Option<nat>, actions: seq<Action>, panicked: bool)

  /** The name a spawned program shows in the process table. */
  function ProcessName(program: string): string {
    FileName(Parse(program)).GetOr(program)
  }

  /** The action `check_for_update` adds: a download, if it decides on one. */
  function UpdateActions(plan: Option<Download>): seq<Action> {
    if plan.Some? then [DownloadStarted(plan.value)] else []
  }

  class Shell {
    var running: bool             // the watcher's run flag
    var slot: nat                 // the supervised child (`process`)
    var table: seq<Proc>
    var nextPid: nat
    var hidden: bool              // the kiosk window was hidden, which ends its event loop
    var passwordText: string      // the text in the password field
    var foreground: Option<nat>
    var actions: seq<Action>
    var panicked: bool            // a panic in a UI handler ended the program
    const version: string         // APP_VERSION, shown in the window
    const store: ConfigStore
    const findWindow: map<string, nat>
    const launchable: set<string>
    const updatePlan: Option<Download>  // what `check_for_update` decides, from the fetched release and the executable's path

    function State(): ShellState
      reads this
    {
      ShellState(running, slot, table, nextPid, hidden, passwordText, foreground, actions, panicked)
    }

    /** Every pid in use is below `nextPid`, so a spawned process gets a fresh one. */
    predicate Valid()
      reads this
    {
      slot < nextPid && forall i :: 0 <= i < |table| ==> table[i].pid < nextPid
    }

    /** `WinKioskShell::new(child)`. */
    constructor (child: Proc, sys: System, version: string, store: ConfigStore)
      requires child.pid < sys.nextPid && forall i :: 0 <= i < |sys.processes| ==> sys.processes[i].pid < sys.nextPid
      ensures Valid()
      ensures State() == ShellState(false, child.pid, sys.processes, sys.nextPid, false, [], sys.foreground, [], false)
      ensures this.version == version && this.store == store
      ensures findWindow == sys.findWindow && launchable == sys.launchable
      ensures updatePlan == UpdatePlan(sys.latestRelease, version, sys.currentExe)
    {
      running := false;
      slot := child.pid;
      table := sys.processes;
      nextPid := sys.nextPid;
      hidden := false;
      passwordText := [];
      foreground := sys.foreground;
      actions := [];
      panicked := false;
      this.version := version;
      this.store := store;
      findWindow := sys.findWindow;
      launchable := sys.launchable;
      updatePlan := UpdatePlan(sys.latestRelease, version, sys.currentExe);
    }

    /** `on_close`: hide the window, which ends the kiosk, when the password gate opens. */
    method OnClose()
      modifies this, store
      ensures State() == old(State()).(hidden := old(hidden) || PasswordAccepted(old(store.OwnConfig()).password, passwordText))
      ensures forall q :: store.Current(q) == old(store.Current(q))
      ensures store.readOnly == old(store.readOnly)
    {
      var config := store.LoadOwnConfig();
      if PasswordAccepted(config.password, passwordText) {
        hidden := true;
      }
    }

    /** `on_settings`: behind the same gate, run a settings session and then hide the window. */
    method OnSettings()
      modifies this, store
      ensures var open := PasswordAccepted(old(store.OwnConfig()).password, passwordText);
              State() == old(State()).(hidden := old(hidden) || open,
                                       actions := old(actions) + (if open then [SettingsSession] else []))
      ensures forall q :: store.Current(q) == old(store.Current(q))
      ensures store.readOnly == old(store.readOnly)
    {
      var config := store.LoadOwnConfig();
      if PasswordAccepted(config.password, passwordText) {
        actions := actions + [SettingsSession];
        hidden := true;
      }
    }

    /**
     * `on_start_app`: nothing once the flag is cleared; otherwise spawn the
     * configured program (the empty path when none is configured) into the
     * slot, in place of the previous child, which is left running, and
     * check for an update. A failed spawn panics.
     */
    method OnStartApp()
      requires Valid()
      modifies this, store
      ensures Valid()
      ensures !old(running) ==> State() == old(State()) && store.files == old(store.files)
      ensures old(running) ==>
                var program := old(store.OwnConfig()).clientApplication.GetOr([]);
                if program != [] && program in launchable then
                  State() == old(State()).(slot := old(nextPid), nextPid := old(nextPid) + 1,
                                           table := old(table) + [Proc(old(nextPid), ProcessName(program))],
                                           actions := old(actions) + [Spawned(old(nextPid), program)]
                                                      + UpdateActions(updatePlan))
                else State() == old(State()).(panicked := true)
      ensures running == old(running) && ExtendsWithoutShutdown(old(actions), actions)
      ensures forall q :: store.Current(q) == old(store.Current(q))
      ensures store.readOnly == old(store.readOnly)
    {
      if !running {
        ExtendsAppend(actions, []);
        return;
      }
      var config := store.LoadOwnConfig();
      var program := config.clientApplication.GetOr([]);
      if program != [] && program in launchable {
        SpawnAndCheck(program);
      } else {
        panicked := true;
        ExtendsAppend(actions, []);
      }
    }

    /** The successful branch of `on_start_app`: the spawn, then the update check. */
    method SpawnAndCheck(program: string)
      requires Valid()
      modifies this
      ensures Valid()
      ensures State() == old(State()).(slot := old(nextPid), nextPid := old(nextPid) + 1,
                                       table := old(table) + [Proc(old(nextPid), ProcessName(program))],
                                       actions := old(actions) + [Spawned(old(nextPid), program)]
                                                  + UpdateActions(updatePlan))
      ensures ExtendsWithoutShutdown(old(actions), actions)
    {
      Spawn(program);
      CheckForUpdate();
      ExtendsAppend(old(actions), [Spawned(old(nextPid), program)] + UpdateActions(updatePlan));
    }

    /** `Command::new(program).spawn()` succeeding: the child gets a fresh pid and takes the slot. */
    method Spawn(program: string)
      requires Valid()
      modifies this
      ensures Valid()
      ensures State() == old(State()).(slot := old(nextPid), nextPid := old(nextPid) + 1,
                                       table := old(table) + [Proc(old(nextPid), ProcessName(program))],
                                       actions := old(actions) + [Spawned(old(nextPid), program)])
    {
      var pid := nextPid;
      nextPid := nextPid + 1;
      table := table + [Proc(pid, ProcessName(program))];
      slot := pid;
      actions := actions + [Spawned(pid, program)];
    }

    /** `check_for_update`: start the download `UpdatePlan` decides on, if any. */
    method CheckForUpdate()
      modifies this
      ensures State() == old(State()).(actions := old(actions) + UpdateActions(updatePlan))
    {
      if updatePlan.Some? {
        actions := actions + [DownloadStarted(updatePlan.value)];
      }
    }

    /** `on_reboot`: ask for a restart, with no password gate. */
    method OnReboot()
      modifies this
      ensures State() == old(State()).(actions := old(actions) + [RebootRequested])
    {
      actions := actions + [RebootRequested];
    }

    method HandleEvent(e: UiEvent)
      requires Valid()
      modifies this, store
      ensures Valid()
      ensures running == old(running) && ExtendsWithoutShutdown(old(actions), actions)
      ensures old(panicked) ==> panicked
    {
      ghost var before := actions;
      match e
      case TypePassword(text) =>
        passwordText := text;
        ExtendsAppend(before, []);
      case Close =>
        OnClose();
        ExtendsAppend(before, []);
      case Settings =>
        OnSettings();
        ExtendsAppend(before, [SettingsSession]);
        ExtendsAppend(before, []);
      case Start =>
        OnStartApp();
      case Reboot =>
        OnReboot();
        ExtendsAppend(before, [RebootRequested]);
    }

    /**
     * The UI events up to the next flag test; the event loop stops once the
     * window is hidden or a handler has panicked, and `handled` counts the
     * events it took.
     */
    method HandleEvents(events: seq<UiEvent>) returns (handled: nat)
      requires Valid()
      modifies this, store
      ensures Valid()
      ensures running == old(running) && ExtendsWithoutShutdown(old(actions), actions)
      ensures old(panicked) ==> panicked
      ensures handled <= |events| && (handled < |events| ==> hidden || panicked)
      ensures old(hidden) || old(panicked) ==> handled == 0 && State() == old(State())
    {
      handled := 0;
      ExtendsAppend(actions, []);
      while handled < |events| && !hidden && !panicked
        invariant Valid() && handled <= |events|
        invariant running == old(running) && ExtendsWithoutShutdown(old(actions), actions)
        invariant old(panicked) ==> panicked
        invariant old(hidden) || old(panicked) ==> handled == 0 && State() == old(State())
      {
        ghost var before := actions;
        HandleEvent(events[handled]);
        ExtendsTransitive(old(actions), before, actions);
        handled := handled + 1;
      }
    }

    /**
     * One iteration of the watcher: every process of the snapshot whose
     * name is on the deny list is killed; for every other one, when the
     * client name is known, the client's window is brought to the front.
     */
    method WatchIteration(clientName: Option<string>)
      requires Valid()
      modifies this
      ensures Valid()
      ensures var r := WatchAll(WatchState(old(foreground), []), old(table), clientName, findWindow);
              State() == old(State()).(table := Survivors(old(table)), foreground := r.foreground,
                                       actions := old(actions) + r.actions)
      ensures ExtendsWithoutShutdown(old(actions), actions)
    {
      var snapshot := table;
      var survivors := WatchSnapshot(snapshot, clientName);
      table := survivors;
      WatchAllFrom(old(foreground), old(actions), snapshot, clientName, findWindow);
      ExtendsAppend([], []);
      WatchAllNoShutdown(WatchState(old(foreground), []), snapshot, clientName, findWindow);
      ExtendsAppend(old(actions), WatchAll(WatchState(old(foreground), []), snapshot, clientName, findWindow).actions);
    }

    /** The `for` loop over a snapshot of the process table; it returns the processes left alive. */
    method WatchSnapshot(snapshot: seq<Proc>, clientName: Option<string>) returns (survivors: seq<Proc>)
      modifies this`foreground, this`actions
      ensures survivors == Survivors(snapshot)
      ensures WatchState(foreground, actions) == WatchAll(WatchState(old(foreground), old(actions)), snapshot, clientName, findWindow)
    {
      survivors := [];
      var i := 0;
      while i < |snapshot|
        invariant 0 <= i <= |snapshot|
        invariant survivors == Survivors(snapshot[..i])
        invariant WatchState(foreground, actions) == WatchAll(WatchState(old(foreground), old(actions)), snapshot[..i], clientName, findWindow)
      {
        WatchAllSnoc(WatchState(old(foreground), old(actions)), snapshot, i, clientName, findWindow);
        SurvivorsSnoc(snapshot, i);
        var p := snapshot[i];
        WatchOne(p, clientName);
        if !Denied(p.name) {
          survivors := survivors + [p];
        }
        i := i + 1;
      }
      assert snapshot[..i] == snapshot;
    }

    /** The watcher's work on one process of the snapshot. */
    method WatchOne(p: Proc, clientName: Option<string>)
      modifies this`foreground, this`actions
      ensures WatchState(foreground, actions) == WatchStep(WatchState(old(foreground), old(actions)), p, clientName, findWindow)
    {
      if Denied(p.name) {
        actions := actions + [Killed(p.pid)];
      } else if clientName.Some? {
        var f := SetFocusToApplication(findWindow, foreground, clientName.value);
        actions := actions + [FocusAttempted(clientName.value)];
        if f.raised.Some? {
          foreground := f.raised;
          actions := actions + [Raised(f.raised.value)];
        }
      }
    }

    /**
     * `run`: set the flag, start the watcher (which derives the client
     * name once), and alternate watcher iterations with batches of UI
     * events until the window is hidden (or the events run out); then
     * clear the flag, join the watcher and wait for the child in the slot.
     * A panic in a handler ends the program before any of these.
     */
    method Run(batches: seq<seq<UiEvent>>)
      requires Valid() && !panicked
      modifies this, store
      ensures Valid()
      ensures !panicked ==>
                !running && |actions| >= |old(actions)| + 3
                && actions[|actions| - 3..] == [FlagCleared, WatcherJoined, Waited(slot)]
                && ExtendsWithoutShutdown(old(actions), actions[..|actions| - 3])
      ensures panicked ==> ExtendsWithoutShutdown(old(actions), actions)
    {
      running := true;
      var config := store.LoadOwnConfig();
      var clientName := ClientName(config.clientApplication);
      ExtendsAppend(actions, []);
      var i := 0;
      while running && !panicked
        invariant Valid() && 0 <= i <= |batches|
        invariant ExtendsWithoutShutdown(old(actions), actions)
        decreases |batches| - i, if running then 1 else 0
      {
        ghost var before := actions;
        WatchIteration(clientName);
        ExtendsTransitive(old(actions), before, actions);
        if i < |batches| {
          ghost var mid := actions;
          var handled := HandleEvents(batches[i]);
          ExtendsTransitive(old(actions), mid, actions);
          i := i + 1;
        }
        if hidden || i == |batches| {
          // The event loop has returned: the flag is stored false, so the
          // watcher begins no further iteration. The log records the store
          // together with the join and the wait below.
          running := false;
        }
      }
      if !panicked {
        ghost var body := actions;
        running := false;
        actions := actions + [FlagCleared, WatcherJoined, Waited(slot)];
        assert actions[..|actions| - 3] == body;
      }
    }
  }
}
