/**
 * `MudfishProcess`: detecting the Mudfish VPN process (`mudrun.exe`),
 * finding its launcher (the Start Menu shortcut, else the executable),
 * starting it and polling until it runs.
 */
module Process {
  import opened Common
  import opened Text
  import opened Platform

  const MudrunExe := "C:/Program Files (x86)/Mudfish Cloud VPN/mudrun.exe"
  const ProcessName := "mudrun.exe"
  /** What the shortcut path adds to the Programs folder. */
  const LauncherSuffix := "/Mudfish Cloud VPN/Mudfish Launcher.lnk"
  /** The `poll_time` default of `start_mudfish_launcher` and `poll_is_mudfish_running`, in seconds. */
  const DefaultPollTime := 10

  /** A process list shows Mudfish when some name is exactly `mudrun.exe`. */
  predicate Listed(names: seq<string>) {
    ProcessName in names
  }

  /** `Path(p).as_posix()` on Windows: backslashes become forward slashes. */
  function ToPosix(path: string): (r: string)
    ensures |r| == |path|
    ensures forall i :: 0 <= i < |path| ==> r[i] != '\\' && (path[i] != '\\' ==> r[i] == path[i])
  {
    seq(|path|, i requires 0 <= i < |path| => if path[i] == '\\' then '/' else path[i])
  }

  /** The launcher shortcut inside the Programs folder, with forward slashes. */
  function LnkPath(programsFolder: string): string {
    ToPosix(programsFolder) + LauncherSuffix
  }

  /** The shortcut path is never empty, has no backslash and ends with the launcher's name. */
  lemma LnkPathShape(programsFolder: string)
    ensures var p := LnkPath(programsFolder);
      && p != ""
      && (forall i :: 0 <= i < |p| ==> p[i] != '\\')
      && p[|p| - |LauncherSuffix|..] == LauncherSuffix
  {
    var p := LnkPath(programsFolder);
    forall i | 0 <= i < |p| ensures p[i] != '\\' {
      if i >= |programsFolder| {
        assert p[i] == LauncherSuffix[i - |programsFolder|];
      }
    }
  }

  /** The scans a poll of `n` rounds makes from scan `from`: up to the first one that lists Mudfish. */
  function PollChecks(table: nat -> seq<string>, from: nat, n: int): (checks: nat)
    ensures checks <= (if n > 0 then n else 0)
    decreases if n > 0 then n else 0
  {
    if n <= 0 then 0
    else if Listed(table(from)) then 1
    else 1 + PollChecks(table, from + 1, n - 1)
  }

  /** A poll of `n` rounds from scan `from` sees Mudfish. */
  predicate PollFinds(table: nat -> seq<string>, from: nat, n: int)
    decreases if n > 0 then n else 0
  {
    n > 0 && (Listed(table(from)) || PollFinds(table, from + 1, n - 1))
  }

  /** Scan number `s` lists Mudfish. */
  predicate ListedAt(table: nat -> seq<string>, s: nat) {
    Listed(table(s))
  }

  /** The poll succeeds iff one of the `n` scans it may make lists Mudfish. */
  lemma {:induction false} PollFindsIff(table: nat -> seq<string>, from: nat, n: int)
    ensures PollFinds(table, from, n) <==> exists s: nat | from <= s < from + n :: ListedAt(table, s)
    decreases if n > 0 then n else 0
  {
    if n > 0 {
      PollFindsIff(table, from + 1, n - 1);
      if exists s: nat | from <= s < from + n :: ListedAt(table, s) {
        var s: nat :| from <= s < from + n && ListedAt(table, s);
        if s > from {
          assert from + 1 <= s < from + 1 + (n - 1);
        }
      }
      if PollFinds(table, from, n) {
        if Listed(table(from)) {
          assert ListedAt(table, from);
        } else {
          var s: nat :| from + 1 <= s < from + 1 + (n - 1) && ListedAt(table, s);
          assert from <= s < from + n;
        }
      }
    }
  }

  /**
   * A successful poll stops at the first scan that lists Mudfish; a failed
   * one makes exactly `n` scans (none when `n` <= 0).
   */
  lemma {:induction false} PollChecksExact(table: nat -> seq<string>, from: nat, n: int)
    ensures var checks := PollChecks(table, from, n);
      && (PollFinds(table, from, n) ==> 1 <= checks && ListedAt(table, from + checks - 1))
      && (!PollFinds(table, from, n) ==> checks == (if n > 0 then n else 0))
      && (forall s: nat | from <= s < from + checks - 1 :: !ListedAt(table, s))
    decreases if n > 0 then n else 0
  {
    if n > 0 && !Listed(table(from)) {
      PollChecksExact(table, from + 1, n - 1);
    }
  }

  /** The requests of `m` poll rounds: one second of sleep before every scan. */
  function PollRounds(m: nat): seq<Event> {
    if m == 0 then [] else PollRounds(m - 1) + [Sleep(1), ScanProcesses]
  }

  lemma {:induction false} PollRoundsShape(m: nat)
    ensures |PollRounds(m)| == 2 * m
    ensures forall i | 0 <= i < m :: PollRounds(m)[2 * i] == Sleep(1) && PollRounds(m)[2 * i + 1] == ScanProcesses
  {
    if m > 0 {
      PollRoundsShape(m - 1);
      var r := PollRounds(m);
      forall i | 0 <= i < m ensures r[2 * i] == Sleep(1) && r[2 * i + 1] == ScanProcesses {
        if i < m - 1 {
          assert r[2 * i] == PollRounds(m - 1)[2 * i];
          assert r[2 * i + 1] == PollRounds(m - 1)[2 * i + 1];
        }
      }
    }
  }

  /** `find_mudfish_launcher`: the shortcut if it exists, else the executable, provided the choice exists. */
  function ChooseLauncher(pathExists: string -> bool, lnk: string): Option<string> {
    var chosen := if pathExists(lnk) then lnk else MudrunExe;
    if pathExists(chosen) then Some(chosen) else None
  }

  /** The shortcut wins whenever it exists; the executable is used only when the shortcut is missing. */
  lemma ChooseLauncherCases(pathExists: string -> bool, lnk: string)
    ensures pathExists(lnk) ==> ChooseLauncher(pathExists, lnk) == Some(lnk)
    ensures !pathExists(lnk) && pathExists(MudrunExe) ==> ChooseLauncher(pathExists, lnk) == Some(MudrunExe)
    ensures !pathExists(lnk) && !pathExists(MudrunExe) ==> ChooseLauncher(pathExists, lnk) == None
    ensures ChooseLauncher(pathExists, lnk).Some? ==> pathExists(ChooseLauncher(pathExists, lnk).value)
  {
  }

  /** The requests of `find_mudfish_launcher`: the Shell is asked only while the shortcut is not cached. */
  function FindEvents(shellQueried: bool, pathExists: string -> bool, lnk: string): seq<Event> {
    (if shellQueried then [ShellQuery] else []) + [Probe(lnk), Probe(if pathExists(lnk) then lnk else MudrunExe)]
  }

  class MudfishProcess {
    /** `_mudrun_exe`, set on first use. */
    var mudrunExeCache: Option<string>
    /** `_mudfish_launcher_lnk`, set on first use. */
    var launcherLnkCache: Option<string>
    const machine: Machine

    /** A cache is either empty or holds the value it stands for. */
    ghost predicate Valid()
      reads this
    {
      && (mudrunExeCache == None || mudrunExeCache == Some(MudrunExe))
      && (launcherLnkCache == None || launcherLnkCache == Some(LnkPath(machine.programsFolder)))
    }

    constructor (machine: Machine)
      ensures Valid() && this.machine == machine
      ensures mudrunExeCache == None && launcherLnkCache == None
    {
      this.machine := machine;
      mudrunExeCache := None;
      launcherLnkCache := None;
    }

    /** The `mudrun_exe` property: always `MUDRUN_EXE`, cached after the first use. */
    method MudrunExePath() returns (path: string)
      requires Valid()
      modifies this`mudrunExeCache
      ensures Valid()
      ensures path == MudrunExe && mudrunExeCache == Some(MudrunExe)
    {
      if !Present(mudrunExeCache) {
        mudrunExeCache := Some(MudrunExe);
      }
      path := mudrunExeCache.value;
    }

    /** The `mudfish_launcher_lnk` property: the Shell is asked once, then the cached path is returned. */
    method MudfishLauncherLnk() returns (path: string)
      requires Valid()
      modifies this`launcherLnkCache, machine
      ensures Valid()
      ensures path == LnkPath(machine.programsFolder) && launcherLnkCache == Some(path)
      ensures machine.scans == old(machine.scans)
      ensures machine.trace == old(machine.trace) + if old(launcherLnkCache).None? then [ShellQuery] else []
    {
      LnkPathShape(machine.programsFolder);
      if !Present(launcherLnkCache) {
        var folder := machine.ProgramsFolder();
        launcherLnkCache := Some(ToPosix(folder) + LauncherSuffix);
      }
      path := launcherLnkCache.value;
    }

    /** `is_mudfish_running`: one scan of the process table. */
    method IsMudfishRunning() returns (running: bool)
      modifies machine
      ensures running == Listed(machine.processTable(old(machine.scans)))
      ensures machine.scans == old(machine.scans) + 1
      ensures machine.trace == old(machine.trace) + [ScanProcesses]
    {
      var names := machine.ProcessNames();
      running := ProcessName in names;
    }

    /** `poll_is_mudfish_running`: up to `pollTime` rounds of one second of sleep then one scan. */
    method PollIsMudfishRunning(pollTime: int) returns (running: bool)
      modifies machine
      ensures running == PollFinds(machine.processTable, old(machine.scans), pollTime)
      ensures var checks := PollChecks(machine.processTable, old(machine.scans), pollTime);
        machine.scans == old(machine.scans) + checks && machine.trace == old(machine.trace) + PollRounds(checks)
    {
      ghost var s0 := machine.scans;
      var i := 0;
      while i < pollTime
        invariant 0 <= i && (pollTime > 0 ==> i <= pollTime)
        invariant machine.scans == s0 + i
        invariant machine.trace == old(machine.trace) + PollRounds(i)
        invariant PollFinds(machine.processTable, s0, pollTime) == PollFinds(machine.processTable, s0 + i, pollTime - i)
        invariant PollChecks(machine.processTable, s0, pollTime) == i + PollChecks(machine.processTable, s0 + i, pollTime - i)
      {
        machine.SleepFor(1);
        var found := IsMudfishRunning();
        if found {
          return true;
        }
        i := i + 1;
      }
      running := false;
    }

    /** `find_mudfish_launcher`: probe the shortcut, then the chosen path. */
    method FindMudfishLauncher() returns (launcher: Option<string>)
      requires Valid()
      modifies this, machine
      ensures Valid()
      ensures launcher == ChooseLauncher(machine.pathExists, LnkPath(machine.programsFolder))
      ensures launcherLnkCache == Some(LnkPath(machine.programsFolder))
      ensures mudrunExeCache == if machine.pathExists(LnkPath(machine.programsFolder)) then old(mudrunExeCache) else Some(MudrunExe)
      ensures machine.scans == old(machine.scans)
      ensures machine.trace == old(machine.trace) + FindEvents(old(launcherLnkCache).None?, machine.pathExists, LnkPath(machine.programsFolder))
    {
      ghost var t := machine.trace;
      ghost var queried := if launcherLnkCache.None? then [ShellQuery] else [];
      var lnk := MudfishLauncherLnk();
      var lnkExists := machine.Exists(lnk);
      var chosen: string;
      if lnkExists {
        chosen := MudfishLauncherLnk();
      } else {
        chosen := MudrunExePath();
      }
      var chosenExists := machine.Exists(chosen);
      assert machine.trace == t + (queried + [Probe(lnk), Probe(chosen)]);
      if !chosenExists {
        // The error message lists both locations, which reads both properties.
        var _ := MudfishLauncherLnk();
        var _ := MudrunExePath();
        return None;
      }
      launcher := Some(chosen);
    }

    /** `mudfish_launcher or self.find_mudfish_launcher()`. */
    method ResolveLauncher(mudfishLauncher: Option<string>) returns (launcher: Option<string>)
      requires Valid()
      modifies this, machine
      ensures Valid()
      ensures var lnk := LnkPath(machine.programsFolder);
        && launcher == (if Present(mudfishLauncher) then mudfishLauncher else ChooseLauncher(machine.pathExists, lnk))
        && machine.trace == old(machine.trace) + (if Present(mudfishLauncher) then [] else FindEvents(old(launcherLnkCache).None?, machine.pathExists, lnk))
        && machine.scans == old(machine.scans)
      ensures CachesAfter(!Present(mudfishLauncher), machine.pathExists(LnkPath(machine.programsFolder)), LnkPath(machine.programsFolder),
                          old(launcherLnkCache), old(mudrunExeCache), launcherLnkCache, mudrunExeCache)
    {
      if Present(mudfishLauncher) {
        launcher := mudfishLauncher;
      } else {
        launcher := FindMudfishLauncher();
      }
    }

    /** `os.startfile(path)`, then the poll unless it raised. */
    method LaunchAndPoll(path: string, pollTime: int) returns (ok: bool)
      modifies machine
      ensures var checks := PollChecks(machine.processTable, old(machine.scans), pollTime);
        if machine.startFileRaises(path) then
          && !ok
          && machine.trace == old(machine.trace) + [StartFile(path)]
          && machine.scans == old(machine.scans)
        else
          && ok == PollFinds(machine.processTable, old(machine.scans), pollTime)
          && machine.trace == old(machine.trace) + [StartFile(path)] + PollRounds(checks)
          && machine.scans == old(machine.scans) + checks
    {
      var raised := machine.StartFileAt(path);
      if raised {
        return false;
      }
      ok := PollIsMudfishRunning(pollTime);
    }

    /** `start_mudfish_launcher`: done if Mudfish already runs; otherwise launch the given path or the one found, then poll. */
    method StartMudfishLauncher(pollTime: int, mudfishLauncher: Option<string>) returns (ok: bool)
      requires Valid()
      modifies this, machine
      ensures Valid()
      ensures var plan := StartPlan(machine.processTable, machine.pathExists, machine.startFileRaises, machine.programsFolder,
                                    old(launcherLnkCache).Some?, old(machine.scans), pollTime, mudfishLauncher);
        && ok == plan.ok
        && machine.trace == old(machine.trace) + plan.events
        && machine.scans == old(machine.scans) + plan.scans
      ensures CachesAfter(!Listed(machine.processTable(old(machine.scans))) && !Present(mudfishLauncher),
                          machine.pathExists(LnkPath(machine.programsFolder)), LnkPath(machine.programsFolder),
                          old(launcherLnkCache), old(mudrunExeCache), launcherLnkCache, mudrunExeCache)
    {
      ghost var t0, s0, lnkCached := machine.trace, machine.scans, launcherLnkCache.Some?;
      ghost var plan := StartPlan(machine.processTable, machine.pathExists, machine.startFileRaises, machine.programsFolder,
                                  lnkCached, s0, pollTime, mudfishLauncher);
      var running := IsMudfishRunning();
      if running {
        assert plan == StartOutcome(true, None, [ScanProcesses], 1);
        return true;
      }
      ghost var lnk := LnkPath(machine.programsFolder);
      ghost var search := if Present(mudfishLauncher) then [] else FindEvents(!lnkCached, machine.pathExists, lnk);
      var launcherPath := ResolveLauncher(mudfishLauncher);
      ghost var searched := [ScanProcesses] + search;
      AppendAssociative(t0, [ScanProcesses], search);
      ok := LaunchResolved(launcherPath, pollTime);
      ghost var rest := LaunchPlan(machine.processTable, machine.startFileRaises, s0 + 1, pollTime, launcherPath);
      AppendAssociative(t0, searched, rest.events);
      assert plan == StartOutcome(rest.ok, launcherPath, searched + rest.events, 1 + rest.scans);
    }

    /** `if not launcher_path: return False`, then the launch and the poll. */
    method LaunchResolved(launcher: Option<string>, pollTime: int) returns (ok: bool)
      modifies machine
      ensures var rest := LaunchPlan(machine.processTable, machine.startFileRaises, old(machine.scans), pollTime, launcher);
        && ok == rest.ok
        && machine.trace == old(machine.trace) + rest.events
        && machine.scans == old(machine.scans) + rest.scans
    {
      if !Present(launcher) {
        return false;
      }
      ok := LaunchAndPoll(launcher.value, pollTime);
    }
  }

  /**
   * The two caches after a start or a launcher resolution: untouched unless
   * `find_mudfish_launcher` ran; after it, the shortcut path is cached, and so
   * is `mudrun.exe` when the shortcut does not exist.
   */
  ghost predicate CachesAfter(searched: bool, lnkExists: bool, lnk: string,
                              lnk0: Option<string>, exe0: Option<string>, lnk1: Option<string>, exe1: Option<string>)
  {
    if !searched then lnk1 == lnk0 && exe1 == exe0
    else lnk1 == Some(lnk) && exe1 == (if lnkExists then exe0 else Some(MudrunExe))
  }

  lemma AppendAssociative<T>(a: seq<T>, b: seq<T>, c: seq<T>)
    ensures (a + b) + c == a + (b + c)
  {
  }

  /** What one call of `start_mudfish_launcher` does: its result, its requests and the number of scans. */
  datatype StartOutcome = StartOutcome(ok: bool, launched: Option<string>, events: seq<Event>, scans: nat)

  /**
   * The outcome of `start_mudfish_launcher` from scan `s0`, given the
   * machine's oracles and whether the shortcut path was already cached.
   */
  function StartPlan(
    table: nat -> seq<string>, pathExists: string -> bool, startFileRaises: string -> bool, programsFolder: string,
    lnkCached: bool, s0: nat, pollTime: int, mudfishLauncher: Option<string>
  ): StartOutcome {
    if Listed(table(s0)) then StartOutcome(true, None, [ScanProcesses], 1)
    else
      var lnk := LnkPath(programsFolder);
      var search := if Present(mudfishLauncher) then [] else FindEvents(!lnkCached, pathExists, lnk);
      var launcher := if Present(mudfishLauncher) then mudfishLauncher else ChooseLauncher(pathExists, lnk);
      var rest := LaunchPlan(table, startFileRaises, s0 + 1, pollTime, launcher);
      StartOutcome(rest.ok, launcher, [ScanProcesses] + search + rest.events, 1 + rest.scans)
  }

  /**
   * The rest of `start_mudfish_launcher` once `launcher` is chosen and the
   * next scan is `s1`: give up without a launcher, launch it, then poll
   * unless the launch raised. `events` and `scans` count from there.
   */
  function LaunchPlan(table: nat -> seq<string>, startFileRaises: string -> bool, s1: nat, pollTime: int, launcher: Option<string>): StartOutcome {
    if !Present(launcher) then StartOutcome(false, launcher, [], 0)
    else if startFileRaises(launcher.value) then StartOutcome(false, launcher, [StartFile(launcher.value)], 0)
    else
      var checks := PollChecks(table, s1, pollTime);
      StartOutcome(PollFinds(table, s1, pollTime), launcher, [StartFile(launcher.value)] + PollRounds(checks), checks)
  }

  /** Already running: true after a single scan, with no search, launch or poll. */
  lemma AlreadyRunningShortCircuits(
    table: nat -> seq<string>, pathExists: string -> bool, startFileRaises: string -> bool, programsFolder: string,
    lnkCached: bool, s0: nat, pollTime: int, mudfishLauncher: Option<string>)
    requires Listed(table(s0))
    ensures var plan := StartPlan(table, pathExists, startFileRaises, programsFolder, lnkCached, s0, pollTime, mudfishLauncher);
      plan.ok && plan.events == [ScanProcesses] && plan.scans == 1
  {
  }

  predicate Searches(e: Event) {
    e.Probe? || e.ShellQuery?
  }

  /** A caller's launcher path is launched as-is, straight after the first scan: the search is not consulted. */
  lemma {:induction false} CallerLauncherNotSearched(
    table: nat -> seq<string>, pathExists: string -> bool, startFileRaises: string -> bool, programsFolder: string,
    lnkCached: bool, s0: nat, pollTime: int, mudfishLauncher: Option<string>)
    requires !Listed(table(s0)) && Present(mudfishLauncher)
    ensures var plan := StartPlan(table, pathExists, startFileRaises, programsFolder, lnkCached, s0, pollTime, mudfishLauncher);
      && plan.launched == mudfishLauncher
      && |plan.events| >= 2 && plan.events[..2] == [ScanProcesses, StartFile(mudfishLauncher.value)]
      && forall i | 0 <= i < |plan.events| :: !Searches(plan.events[i])
  {
    var plan := StartPlan(table, pathExists, startFileRaises, programsFolder, lnkCached, s0, pollTime, mudfishLauncher);
    var checks := PollChecks(table, s0 + 1, pollTime);
    PollRoundsShape(checks);
    if !startFileRaises(mudfishLauncher.value) {
      var head := [ScanProcesses, StartFile(mudfishLauncher.value)];
      assert plan.events == head + PollRounds(checks);
      forall i | 0 <= i < |plan.events| ensures !Searches(plan.events[i]) {
        if i >= 2 {
          var k := (i - 2) / 2;
          assert plan.events[i] == PollRounds(checks)[i - 2];
          assert i - 2 == 2 * k || i - 2 == 2 * k + 1;
        }
      }
    }
  }

  /** With no launcher found, nothing is launched and nothing is polled. */
  lemma {:induction false} NoLauncherNoLaunch(
    table: nat -> seq<string>, pathExists: string -> bool, startFileRaises: string -> bool, programsFolder: string,
    lnkCached: bool, s0: nat, pollTime: int)
    requires !Listed(table(s0)) && ChooseLauncher(pathExists, LnkPath(programsFolder)) == None
    ensures var plan := StartPlan(table, pathExists, startFileRaises, programsFolder, lnkCached, s0, pollTime, None);
      && !plan.ok && plan.launched == None && plan.scans == 1
      && forall i | 0 <= i < |plan.events| :: !plan.events[i].StartFile?
  {
  }

  /** A launch that raises `OSError` gives false, and the process table is not polled. */
  lemma {:induction false} LaunchErrorNoPoll(
    table: nat -> seq<string>, pathExists: string -> bool, startFileRaises: string -> bool, programsFolder: string,
    lnkCached: bool, s0: nat, pollTime: int, mudfishLauncher: Option<string>)
    requires var plan := StartPlan(table, pathExists, startFileRaises, programsFolder, lnkCached, s0, pollTime, mudfishLauncher);
      !Listed(table(s0)) && plan.launched.Some? && startFileRaises(plan.launched.value)
    ensures var plan := StartPlan(table, pathExists, startFileRaises, programsFolder, lnkCached, s0, pollTime, mudfishLauncher);
      && !plan.ok && plan.scans == 1
      && plan.events[|plan.events| - 1] == StartFile(plan.launched.value)
  {
  }

  /** `start_mudfish_launcher` reports true exactly when some scan it made listed Mudfish. */
  lemma {:induction false} StartOkMeansSeenRunning(
    table: nat -> seq<string>, pathExists: string -> bool, startFileRaises: string -> bool, programsFolder: string,
    lnkCached: bool, s0: nat, pollTime: int, mudfishLauncher: Option<string>)
    ensures var plan := StartPlan(table, pathExists, startFileRaises, programsFolder, lnkCached, s0, pollTime, mudfishLauncher);
      plan.ok <==> exists s: nat | s0 <= s < s0 + plan.scans :: ListedAt(table, s)
  {
    var plan := StartPlan(table, pathExists, startFileRaises, programsFolder, lnkCached, s0, pollTime, mudfishLauncher);
    if Listed(table(s0)) {
      assert ListedAt(table, s0);
    } else if plan.scans > 1 {
      var checks := PollChecks(table, s0 + 1, pollTime);
      PollChecksExact(table, s0 + 1, pollTime);
      PollFindsIff(table, s0 + 1, pollTime);
      if plan.ok {
        assert ListedAt(table, s0 + 1 + checks - 1);
      } else {
        forall s: nat | s0 <= s < s0 + plan.scans ensures !ListedAt(table, s) {
          if s > s0 {
            assert s0 + 1 <= s < s0 + 1 + pollTime;
          }
        }
      }
    } else {
      forall s: nat | s0 <= s < s0 + plan.scans ensures !ListedAt(table, s) {
        assert s == s0;
      }
    }
  }

  /** The scans of the source's unit tests: `mudrun.exe` is found, `other.exe` and an empty table are not. */
  lemma ProcessTableExamples()
    ensures Listed(["mudrun.exe"]) && !Listed(["other.exe"]) && !Listed([])
  {
    assert ["other.exe"][0] != ProcessName by {
      assert "other.exe"[0] != ProcessName[0];
    }
  }
}
