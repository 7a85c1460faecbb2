/**
  The Chrome process bookkeeping of utility_functions.py:
  `_find_cdp_chrome_pids`, `_kill_pids`, the launch command and the branch
  logic of `ensure_cdp_chrome_running`.

  The operating system is replaced by oracles: the process table is a
  sequence of entries, "is the process still there" and "did it survive the
  grace period" are sets of pids, and the answers of the DevTools probe, the
  port probe and `subprocess.Popen` are parameters.
 */
module Chrome {
  import opened Common

  // ---------------------------------------------------------------------
  // _find_cdp_chrome_pids
  // ---------------------------------------------------------------------

  /**
    One process of `psutil.process_iter`: its pid, name and command line as
    psutil reports them (None where it reports nothing), or a process that
    raises NoSuchProcess or AccessDenied when read.
   */
  datatype ProcEntry =
    | Listed(pid: int, name: Option<string>, cmdline: Option<seq<string>>)
    | Vanished

  /** `(name or "").lower()` contains "chrome", "msedge" or "chromium". */
  predicate IsChromeName(name: Option<string>)
  {
    var n := LowerStr(name.GetOr(""));
    Contains(n, "chrome") || Contains(n, "msedge") || Contains(n, "chromium")
  }

  /** `" ".join(cmdline or [])` */
  function CommandLine(cmdline: Option<seq<string>>): string
  {
    JoinSpace(cmdline.GetOr([]))
  }

  function PortFlag(port: int): string
  {
    "--remote-debugging-port=" + IntToString(port)
  }

  /** `user_data_dir` used as a condition: given and not empty. */
  predicate Given(userDataDir: Option<string>)
  {
    userDataDir.Some? && userDataDir.value != ""
  }

  /** The test a listed process passes to be counted as "our" CDP Chrome. */
  predicate Qualifies(p: ProcEntry, port: int, userDataDir: Option<string>)
  {
    && p.Listed?
    && IsChromeName(p.name)
    && var line := CommandLine(p.cmdline);
       || Contains(line, PortFlag(port))
       || (Given(userDataDir) && Contains(line, "--user-data-dir=\"" + userDataDir.value + "\""))
       || (Given(userDataDir) && Contains(line, "--user-data-dir=" + userDataDir.value))
  }

  /** The pids appended to `hits`, in process-table order. */
  function Hits(procs: seq<ProcEntry>, port: int, userDataDir: Option<string>): (hits: seq<int>)
    ensures forall pid :: pid in hits <==> exists p :: p in procs && Qualifies(p, port, userDataDir) && p.pid == pid
  {
    if procs == [] then []
    else
      var last := procs[|procs| - 1];
      assert forall p :: p in procs <==> p in procs[..|procs| - 1] || p == last;
      Hits(procs[..|procs| - 1], port, userDataDir) + (if Qualifies(last, port, userDataDir) then [last.pid] else [])
  }

  /** Every element is smaller than every later one. */
  predicate StrictlyAscending(s: seq<int>)
  {
    forall i, j :: 0 <= i < j < |s| ==> s[i] < s[j]
  }

  /** Put `x` into an ascending list unless it is already there. */
  function InsertAscending(x: int, s: seq<int>): (r: seq<int>)
    requires StrictlyAscending(s)
    ensures StrictlyAscending(r)
    ensures forall y :: y in r <==> y == x || y in s
  {
    if s == [] then [x]
    else if x < s[0] then [x] + s
    else if x == s[0] then s
    else
      var r := InsertAscending(x, s[1..]);
      assert forall k :: 0 <= k < |r| ==> s[0] < r[k] by {
        forall k | 0 <= k < |r|
          ensures s[0] < r[k]
        {
          assert r[k] in r;
          if r[k] != x {
            var j :| 0 <= j < |s[1..]| && s[1..][j] == r[k];
            assert s[j + 1] == r[k];
          }
        }
      }
      [s[0]] + r
  }

  /** `sorted(set(hits))` */
  function SortedSet(hits: seq<int>): (r: seq<int>)
    ensures StrictlyAscending(r)
    ensures forall x :: x in r <==> x in hits
  {
    if hits == [] then []
    else
      assert forall x :: x in hits <==> x in hits[..|hits| - 1] || x == hits[|hits| - 1];
      InsertAscending(hits[|hits| - 1], SortedSet(hits[..|hits| - 1]))
  }

  /** What `_find_cdp_chrome_pids(port, user_data_dir)` returns. */
  function CdpPids(procs: seq<ProcEntry>, port: int, userDataDir: Option<string>): seq<int>
  {
    SortedSet(Hits(procs, port, userDataDir))
  }

  /** The scan over the process table, then the de-duplicating sort. */
  method FindCdpChromePids(procs: seq<ProcEntry>, port: int, userDataDir: Option<string>) returns (pids: seq<int>)
    ensures pids == CdpPids(procs, port, userDataDir)
  {
    var hits := [];
    for i := 0 to |procs|
      invariant hits == Hits(procs[..i], port, userDataDir)
    {
      assert procs[..i + 1][..i] == procs[..i];
      var p := procs[i];
      if p.Vanished? {
        continue;
      }
      var name := LowerStr(p.name.GetOr(""));
      if !Contains(name, "chrome") && !Contains(name, "msedge") && !Contains(name, "chromium") {
        continue;
      }
      var cmdline := JoinSpace(p.cmdline.GetOr([]));
      if Contains(cmdline, PortFlag(port)) {
        hits := hits + [p.pid];
        continue;
      }
      if Given(userDataDir) && Contains(cmdline, "--user-data-dir=\"" + userDataDir.value + "\"") {
        hits := hits + [p.pid];
        continue;
      }
      if Given(userDataDir) && Contains(cmdline, "--user-data-dir=" + userDataDir.value) {
        hits := hits + [p.pid];
      }
    }
    assert procs[..|procs|] == procs;
    pids := SortedSet(hits);
  }

  /**
    The result is strictly ascending, and a pid is in it exactly when some
    listed Chrome-named process with that pid carries the port flag or,
    when a profile directory is given, its `--user-data-dir` flag.
   */
  lemma CdpPidsCharacterised(procs: seq<ProcEntry>, port: int, userDataDir: Option<string>)
    ensures StrictlyAscending(CdpPids(procs, port, userDataDir))
    ensures forall pid :: pid in CdpPids(procs, port, userDataDir) <==>
                          exists p :: p in procs && Qualifies(p, port, userDataDir) && p.pid == pid
  {
  }

  /** Without a profile directory, only the port flag makes a process ours. */
  lemma PortFlagOnlyWithoutProfile(p: ProcEntry, port: int)
    ensures Qualifies(p, port, None) <==> p.Listed? && IsChromeName(p.name) && Contains(CommandLine(p.cmdline), PortFlag(port))
    ensures Qualifies(p, port, Some("")) == Qualifies(p, port, None)
  {
  }

  /** The flag of port `10 * port + digit` is the flag of `port` followed by one more digit. */
  lemma PortFlagAppendDigit(port: nat, digit: nat)
    requires 1 <= port && digit < 10
    ensures PortFlag(10 * port + digit) == PortFlag(port) + [DigitChar(digit)]
  {
    var n := 10 * port + digit;
    assert n / 10 == port && n % 10 == digit;
    assert NatToString(n) == NatToString(port) + [DigitChar(digit)];
  }

  /**
    The port flag is looked for as a substring, so a Chrome whose command
    line carries a longer port that starts with the same digits (9222 for
    922) also counts as ours.
   */
  lemma PortFlagMatchesLongerPort(p: ProcEntry, port: nat, digit: nat)
    requires p.Listed? && IsChromeName(p.name) && 1 <= port && digit < 10
    requires Contains(CommandLine(p.cmdline), PortFlag(10 * port + digit))
    ensures Qualifies(p, port, None)
  {
    PortFlagAppendDigit(port, digit);
    ContainsPrefixOfPattern(CommandLine(p.cmdline), PortFlag(port), [DigitChar(digit)]);
  }

  // ---------------------------------------------------------------------
  // _kill_pids
  // ---------------------------------------------------------------------

  /** A signal `_kill_pids` sends: `terminate()` or, after the grace period, `kill()`. */
  datatype Signal = Terminate(pid: int) | Kill(pid: int)

  /** The pids for which `psutil.Process(pid)` succeeds. */
  function Existing(pids: seq<int>, running: set<int>): (procs: seq<int>)
    ensures forall p :: p in procs <==> p in pids && p in running
  {
    if pids == [] then []
    else
      var last := pids[|pids| - 1];
      assert forall p :: p in pids <==> p in pids[..|pids| - 1] || p == last;
      Existing(pids[..|pids| - 1], running) + (if last in running then [last] else [])
  }

  /** `terminate()` on every process, in order. */
  function Terminations(procs: seq<int>): (s: seq<Signal>)
    ensures |s| == |procs| && forall i :: 0 <= i < |s| ==> s[i] == Terminate(procs[i])
  {
    seq(|procs|, i requires 0 <= i < |procs| => Terminate(procs[i]))
  }

  /**
    `kill()` on every process still alive after the grace period. psutil
    gathers `alive` in a set, so the order is not fixed in the source; the
    model sends the kills in the order of `procs`, and its contract speaks
    of membership only.
   */
  function Kills(procs: seq<int>, survivors: set<int>): (s: seq<Signal>)
    ensures forall g :: g in s <==> g.Kill? && g.pid in procs && g.pid in survivors
  {
    if procs == [] then []
    else
      var last := procs[|procs| - 1];
      assert forall p :: p in procs <==> p in procs[..|procs| - 1] || p == last;
      Kills(procs[..|procs| - 1], survivors) + (if last in survivors then [Kill(last)] else [])
  }

  /**
    Every existing process is terminated, in the order of `pids`, then the
    survivors are killed (in that order here, in any order in the source).
   */
  function KillSignals(pids: seq<int>, running: set<int>, survivors: set<int>): seq<Signal>
  {
    Terminations(Existing(pids, running)) + Kills(Existing(pids, running), survivors)
  }

  /**
    `_kill_pids(pids)`: `running` is the set of pids that still exist when
    looked up, `survivors` those that outlive `terminate()` and the grace
    period. Returns the signals sent, in order.
   */
  method KillPids(pids: seq<int>, running: set<int>, survivors: set<int>) returns (signals: seq<Signal>)
    ensures pids == [] ==> signals == []
    ensures signals == KillSignals(pids, running, survivors)
  {
    if pids == [] {
      return [];
    }
    var procs := [];
    for i := 0 to |pids|
      invariant procs == Existing(pids[..i], running)
    {
      assert pids[..i + 1][..i] == pids[..i];
      if pids[i] in running {
        procs := procs + [pids[i]];
      }
    }
    assert pids[..|pids|] == pids;
    signals := [];
    for i := 0 to |procs|
      invariant signals == Terminations(procs[..i])
    {
      signals := signals + [Terminate(procs[i])];
    }
    assert procs[..|procs|] == procs;
    var alive := [];
    for i := 0 to |procs|
      invariant alive == Kills(procs[..i], survivors)
    {
      assert procs[..i + 1][..i] == procs[..i];
      if procs[i] in survivors {
        alive := alive + [Kill(procs[i])];
      }
    }
    assert procs[..|procs|] == procs;
    signals := signals + alive;
  }

  /**
    Only the listed pids are signalled; every existing one is terminated,
    and a pid is killed only after it was terminated.
   */
  lemma KillPidsSignals(pids: seq<int>, running: set<int>, survivors: set<int>)
    ensures var signals := KillSignals(pids, running, survivors);
            && (pids == [] ==> signals == [])
            && (forall g :: g in signals ==> g.pid in pids && g.pid in running)
            && (forall p :: p in pids && p in running ==> Terminate(p) in signals)
            && (forall j :: 0 <= j < |signals| && signals[j].Kill? ==>
                  exists i :: 0 <= i < j && signals[i] == Terminate(signals[j].pid))
  {
    var procs := Existing(pids, running);
    var signals := Terminations(procs) + Kills(procs, survivors);
    var t := Terminations(procs);
    forall j | 0 <= j < |signals| && signals[j].Kill?
      ensures exists i :: 0 <= i < j && signals[i] == Terminate(signals[j].pid)
    {
      assert j >= |t|;
      assert signals[j] in Kills(procs, survivors);
      var i :| 0 <= i < |procs| && procs[i] == signals[j].pid;
      assert signals[i] == t[i];
    }
    forall p | p in pids && p in running
      ensures Terminate(p) in signals
    {
      var i :| 0 <= i < |procs| && procs[i] == p;
      assert signals[i] == t[i];
    }
    forall g | g in signals
      ensures g.pid in pids && g.pid in running
    {
      if g in t {
        var i :| 0 <= i < |t| && t[i] == g;
        assert procs[i] in procs;
      }
    }
  }

  // ---------------------------------------------------------------------
  // ensure_cdp_chrome_running
  // ---------------------------------------------------------------------

  /**
    The reasons `ensure_cdp_chrome_running` gives up, each with what its
    message is made of; `Message` renders the text the "error" entry holds.
   */
  datatype Failure =
    | NonCdp(port: int)                                            // the port is held by some other program
    | Busy(port: int)                                              // our Chrome holds it but does not answer
    | NoExecutable                                                 // no Chrome to launch
    | LaunchFailed(reason: string)                                 // Popen raised
    | NotUp(port: int, timeoutText: string, lastErr: Option<Error>)  // DevTools never answered

  /** The diagnostics dict; `error` holds the failure whose `Message` is the "error" entry. */
  datatype Diag = Diag(ok: bool, endpoint: string, pid: Option<int>, launched: bool, killed: seq<int>, error: Option<Failure>)

  /** `f"http://127.0.0.1:{port}"` */
  function Endpoint(port: int): string
  {
    "http://127.0.0.1:" + IntToString(port)
  }

  /** The default profile directory `~/.cdp_chrome_profile` (POSIX separator). */
  function ProfileDir(userDataDir: Option<string>, home: string): string
  {
    match userDataDir
    case Some(d) => d
    case None => home + "/.cdp_chrome_profile"
  }

  /** `base_cmd`, extended by the extra arguments. */
  function LaunchCommand(chromePath: string, port: int, userDataDir: string, extraArgs: Option<seq<string>>): (cmd: seq<string>)
    ensures |cmd| == 6 + |extraArgs.GetOr([])| && cmd[0] == chromePath
    ensures cmd[1] == PortFlag(port) && cmd[2] == "--user-data-dir=" + userDataDir
    ensures cmd[3] == "--remote-allow-origins=" + Endpoint(port)
    ensures cmd[4] == "--no-first-run" && cmd[5] == "--no-default-browser-check"
    ensures cmd[6..] == extraArgs.GetOr([])
  {
    [ chromePath,
      PortFlag(port),
      "--user-data-dir=" + userDataDir,
      "--remote-allow-origins=" + Endpoint(port),
      "--no-first-run",
      "--no-default-browser-check"
    ] + extraArgs.GetOr([])
  }

  /** A Chrome started with the launch command is found again by the pid filter, by port and by profile. */
  lemma LaunchedChromeIsFound(pid: int, name: string, chromePath: string, port: int, userDataDir: string,
                              extraArgs: Option<seq<string>>, otherPort: int)
    requires IsChromeName(Some(name))
    ensures var p := Listed(pid, Some(name), Some(LaunchCommand(chromePath, port, userDataDir, extraArgs)));
            && Qualifies(p, port, None)
            && (userDataDir != "" ==> Qualifies(p, otherPort, Some(userDataDir)))
  {
    var cmd := LaunchCommand(chromePath, port, userDataDir, extraArgs);
    JoinSpaceContains(cmd, 1);
    JoinSpaceContains(cmd, 2);
  }

  /** The text of the "error" entry; `str(None)` is "None". */
  function Message(f: Failure): string
  {
    match f
    case NonCdp(port) => "Port " + IntToString(port) + " in use by a non-CDP process."
    case Busy(port) =>
      "Port " + IntToString(port) + " busy and CDP Chrome unreachable; set kill_if_unreachable=True or choose another port."
    case NoExecutable => "Chrome executable not found. Supply chrome_path or install Chrome."
    case LaunchFailed(reason) => "Failed to launch Chrome: " + reason
    case NotUp(port, timeoutText, lastErr) =>
      "DevTools endpoint didn't come up on port " + IntToString(port) + " within " + timeoutText
      + "s. Last error: " + (match lastErr case None => "None" case Some(e) => e.msg)
  }

  /** Some probe before the deadline answered. */
  predicate CameUp(polls: seq<Result<bool>>)
  {
    Ok(true) in polls
  }

  /** The exception of the last probe that raised one. */
  function LastError(polls: seq<Result<bool>>): (e: Option<Error>)
    ensures e.None? <==> forall j :: 0 <= j < |polls| ==> polls[j].Ok?
    ensures e.Some? ==> exists k :: && 0 <= k < |polls| && polls[k] == Err(e.value)
                                    && forall j :: k < j < |polls| ==> polls[j].Ok?
  {
    if polls == [] then None
    else
      var init := polls[..|polls| - 1];
      assert forall j :: 0 <= j < |init| ==> init[j] == polls[j];
      match polls[|polls| - 1]
      case Err(e) => Some(e)
      case Ok(_) => LastError(init)
  }

  /** The wait for the DevTools endpoint: True at the first successful probe. */
  method AwaitDevtools(polls: seq<Result<bool>>) returns (ok: bool, lastErr: Option<Error>)
    ensures ok <==> CameUp(polls)
    ensures !ok ==> lastErr == LastError(polls)
  {
    ok := false;
    lastErr := None;
    var i := 0;
    while i < |polls|
      invariant 0 <= i <= |polls|
      invariant Ok(true) !in polls[..i]
      invariant lastErr == LastError(polls[..i])
    {
      assert polls[..i + 1][..i] == polls[..i];
      match polls[i] {
        case Ok(up) =>
          if up {
            ok := true;
            return;
          }
        case Err(e) =>
          lastErr := Some(e);
      }
      i := i + 1;
    }
    assert polls[..i] == polls;
  }

  /** The oracle answers `ensure_cdp_chrome_running` acts on. */
  datatype World = World(
    devtoolsUp: bool,                 // the first DevTools probe
    portInUse: bool,                  // the port probe
    procs: seq<ProcEntry>,            // the process table
    running: set<int>,                // pids that still exist when killed
    survivors: set<int>,              // pids that outlive terminate()
    foundExecutable: Option<string>,  // find_chrome_executable()
    pathExists: bool,                 // os.path.exists(chrome_path)
    launch: Result<int>,              // the spawned pid, or Popen's exception
    polls: seq<Result<bool>>,         // the probes that fit before the deadline
    home: string)                     // the home directory

  /** The diagnostics before any step has run. */
  function Initial(port: int): Diag
  {
    Diag(false, Endpoint(port), None, false, [], None)
  }

  /** The executable `ensure_cdp_chrome_running` launches, when there is one. */
  function ChosenPath(chromePath: Option<string>, w: World): Option<string>
  {
    var path := if chromePath.None? then w.foundExecutable else chromePath;
    if path.None? || path.value == "" || !w.pathExists then None else path
  }

  /** Steps 3 and 4 from the diagnostics `d0`: the new diagnostics and the command line launched. */
  function LaunchOutcome(chromePath: Option<string>, port: int, profile: string, extraArgs: Option<seq<string>>,
                         timeoutText: string, w: World, d0: Diag): (Diag, Option<seq<string>>)
  {
    match ChosenPath(chromePath, w)
    case None => (d0.(error := Some(NoExecutable)), None)
    case Some(path) =>
      var cmd := Some(LaunchCommand(path, port, profile, extraArgs));
      match w.launch
      case Err(e) => (d0.(error := Some(LaunchFailed(e.msg))), cmd)
      case Ok(pid) =>
        var d1 := d0.(launched := true, pid := Some(pid));
        if CameUp(w.polls) then (d1.(ok := true), cmd)
        else (d1.(error := Some(NotUp(port, timeoutText, LastError(w.polls)))), cmd)
  }

  /** What `ensure_cdp_chrome_running(...)` returns, with the signals it sends and the command it launches. */
  function Ensure(chromePath: Option<string>, port: int, userDataDir: Option<string>, extraArgs: Option<seq<string>>,
                  timeoutText: string, killIfUnreachable: bool, w: World): (Diag, seq<Signal>, Option<seq<string>>)
  {
    var profile := ProfileDir(userDataDir, w.home);
    var pids := CdpPids(w.procs, port, Some(profile));
    if w.devtoolsUp then
      (Initial(port).(ok := true, pid := if pids == [] then None else Some(pids[0])), [], None)
    else if w.portInUse && pids == [] then
      (Initial(port).(error := Some(NonCdp(port))), [], None)
    else if w.portInUse && !killIfUnreachable then
      (Initial(port).(error := Some(Busy(port))), [], None)
    else
      var signals := if w.portInUse then KillSignals(pids, w.running, w.survivors) else [];
      var d0 := Initial(port).(killed := if w.portInUse then pids else []);
      var (diag, launched) := LaunchOutcome(chromePath, port, profile, extraArgs, timeoutText, w, d0);
      (diag, signals, launched)
  }

  /** Steps 3 and 4: choose the executable, launch it and wait for DevTools. */
  method LaunchAndWait(chromePath: Option<string>, port: int, profile: string, extraArgs: Option<seq<string>>,
                       timeoutText: string, w: World, diag0: Diag)
    returns (diag: Diag, launched: Option<seq<string>>)
    ensures (diag, launched) == LaunchOutcome(chromePath, port, profile, extraArgs, timeoutText, w, diag0)
  {
    diag := diag0;
    launched := None;
    var path := if chromePath.None? then w.foundExecutable else chromePath;
    if path.None? || path.value == "" || !w.pathExists {
      diag := diag.(error := Some(NoExecutable));
      return;
    }

    var cmd := LaunchCommand(path.value, port, profile, extraArgs);
    launched := Some(cmd);
    if w.launch.Err? {
      diag := diag.(error := Some(LaunchFailed(w.launch.error.msg)));
      return;
    }
    diag := diag.(launched := true, pid := Some(w.launch.value));

    var ok, lastErr := AwaitDevtools(w.polls);
    if !ok {
      diag := diag.(error := Some(NotUp(port, timeoutText, lastErr)));
      return;
    }
    diag := diag.(ok := true);
  }

  /**
    `ensure_cdp_chrome_running(...)`: the diagnostics dict filled in step by
    step, the signals sent to our unreachable Chrome and the command line
    launched, if any.
   */
  method EnsureCdpChromeRunning(chromePath: Option<string>, port: int, userDataDir: Option<string>,
                                extraArgs: Option<seq<string>>, timeoutText: string,
                                killIfUnreachable: bool, w: World)
    returns (diag: Diag, signals: seq<Signal>, launched: Option<seq<string>>)
    ensures (diag, signals, launched) == Ensure(chromePath, port, userDataDir, extraArgs, timeoutText, killIfUnreachable, w)
  {
    diag := Initial(port);
    signals := [];
    launched := None;
    var profile := ProfileDir(userDataDir, w.home);

    // 1) DevTools already answers
    if w.devtoolsUp {
      diag := diag.(ok := true);
      var pids := FindCdpChromePids(w.procs, port, Some(profile));
      diag := diag.(pid := if pids == [] then None else Some(pids[0]));
      return;
    }

    // 2) the port is busy without DevTools
    if w.portInUse {
      var cdpPids := FindCdpChromePids(w.procs, port, Some(profile));
      if cdpPids != [] && killIfUnreachable {
        signals := KillPids(cdpPids, w.running, w.survivors);
        diag := diag.(killed := cdpPids);
      } else if cdpPids != [] {
        diag := diag.(error := Some(Busy(port)));
        return;
      } else {
        diag := diag.(error := Some(NonCdp(port)));
        return;
      }
    }

    // 3) and 4) launch and wait
    diag, launched := LaunchAndWait(chromePath, port, profile, extraArgs, timeoutText, w, diag);
  }

  lemma LaunchOutcomeReportsError(chromePath: Option<string>, port: int, profile: string, extraArgs: Option<seq<string>>,
                                  timeoutText: string, w: World, d0: Diag)
    requires !d0.ok && d0.error == None
    ensures var (diag, _) := LaunchOutcome(chromePath, port, profile, extraArgs, timeoutText, w, d0);
            diag.endpoint == d0.endpoint && (diag.ok <==> diag.error == None)
  {
  }

  /** The endpoint is always reported, and `error` is set exactly when `ok` is not. */
  lemma EnsureReportsEndpointAndError(chromePath: Option<string>, port: int, userDataDir: Option<string>,
                                      extraArgs: Option<seq<string>>, timeoutText: string, killIfUnreachable: bool, w: World)
    ensures var diag := Ensure(chromePath, port, userDataDir, extraArgs, timeoutText, killIfUnreachable, w).0;
            diag.endpoint == Endpoint(port) && (diag.ok <==> diag.error == None)
  {
    var profile := ProfileDir(userDataDir, w.home);
    var pids := CdpPids(w.procs, port, Some(profile));
    var e := Ensure(chromePath, port, userDataDir, extraArgs, timeoutText, killIfUnreachable, w);
    if w.devtoolsUp || (w.portInUse && (pids == [] || !killIfUnreachable)) {
      assert e.0.endpoint == Endpoint(port) && (e.0.ok <==> e.0.error == None);
    } else {
      var d0 := Initial(port).(killed := if w.portInUse then pids else []);
      LaunchOutcomeReportsError(chromePath, port, profile, extraArgs, timeoutText, w, d0);
      assert e.0 == LaunchOutcome(chromePath, port, profile, extraArgs, timeoutText, w, d0).0;
    }
  }

  /** When DevTools already answers: ok, nothing launched or killed, the lowest pid of ours reported. */
  lemma EnsureWhenAlreadyUp(chromePath: Option<string>, port: int, userDataDir: Option<string>,
                            extraArgs: Option<seq<string>>, timeoutText: string, killIfUnreachable: bool, w: World)
    requires w.devtoolsUp
    ensures var (diag, signals, launched) := Ensure(chromePath, port, userDataDir, extraArgs, timeoutText, killIfUnreachable, w);
            var pids := CdpPids(w.procs, port, Some(ProfileDir(userDataDir, w.home)));
            && diag.ok && !diag.launched && diag.killed == [] && signals == [] && launched == None
            && (diag.pid.Some? <==> pids != [])
            && (diag.pid.Some? ==> forall q :: q in pids ==> diag.pid.value <= q)
  {
    var pids := CdpPids(w.procs, port, Some(ProfileDir(userDataDir, w.home)));
    assert forall j :: 0 < j < |pids| ==> pids[0] < pids[j];
  }

  /**
    A busy port without DevTools: our Chrome is killed and relaunched only
    when allowed; otherwise nothing is launched and the error says why.
   */
  lemma EnsureWhenPortBusy(chromePath: Option<string>, port: int, userDataDir: Option<string>,
                           extraArgs: Option<seq<string>>, timeoutText: string, killIfUnreachable: bool, w: World)
    requires !w.devtoolsUp && w.portInUse
    ensures var (diag, signals, launched) := Ensure(chromePath, port, userDataDir, extraArgs, timeoutText, killIfUnreachable, w);
            var pids := CdpPids(w.procs, port, Some(ProfileDir(userDataDir, w.home)));
            && (pids == [] ==> !diag.ok && diag.error == Some(NonCdp(port)) && signals == [] && launched == None)
            && (pids != [] && !killIfUnreachable ==>
                  !diag.ok && diag.error == Some(Busy(port)) && signals == [] && launched == None)
            && (pids != [] && killIfUnreachable ==>
                  diag.killed == pids && signals == KillSignals(pids, w.running, w.survivors))
  {
    var profile := ProfileDir(userDataDir, w.home);
    var pids := CdpPids(w.procs, port, Some(profile));
    if pids != [] && killIfUnreachable {
      var d0 := Initial(port).(killed := pids);
      LaunchOutcomeKeepsKilled(chromePath, port, profile, extraArgs, timeoutText, w, d0);
    }
  }

  /** The launch step leaves the list of killed pids as it found it. */
  lemma LaunchOutcomeKeepsKilled(chromePath: Option<string>, port: int, profile: string, extraArgs: Option<seq<string>>,
                                 timeoutText: string, w: World, d0: Diag)
    ensures LaunchOutcome(chromePath, port, profile, extraArgs, timeoutText, w, d0).0.killed == d0.killed
  {
  }

  /**
    Once the launch is reached: no executable means an error without a
    launch; otherwise the launch command is built from the chosen path, the
    port and the profile, and a successful spawn is reported with its pid.
   */
  lemma EnsureLaunch(chromePath: Option<string>, port: int, userDataDir: Option<string>,
                     extraArgs: Option<seq<string>>, timeoutText: string, killIfUnreachable: bool, w: World)
    requires !w.devtoolsUp
    requires !w.portInUse || (CdpPids(w.procs, port, Some(ProfileDir(userDataDir, w.home))) != [] && killIfUnreachable)
    ensures var (diag, _, launched) := Ensure(chromePath, port, userDataDir, extraArgs, timeoutText, killIfUnreachable, w);
            && (ChosenPath(chromePath, w).None? ==> launched == None && !diag.ok && diag.error == Some(NoExecutable))
            && (ChosenPath(chromePath, w).Some? ==>
                  launched == Some(LaunchCommand(ChosenPath(chromePath, w).value, port, ProfileDir(userDataDir, w.home), extraArgs)))
            && (diag.launched <==> launched.Some? && w.launch.Ok?)
            && (diag.launched ==> diag.pid == Some(w.launch.value))
  {
    var profile := ProfileDir(userDataDir, w.home);
    var pids := CdpPids(w.procs, port, Some(profile));
    var d0 := Initial(port).(killed := if w.portInUse then pids else []);
    LaunchOutcomeLaunches(chromePath, port, profile, extraArgs, timeoutText, w, d0);
    var e := Ensure(chromePath, port, userDataDir, extraArgs, timeoutText, killIfUnreachable, w);
    assert (e.0, e.2) == LaunchOutcome(chromePath, port, profile, extraArgs, timeoutText, w, d0);
  }

  /** The launch step on its own: what is launched, and when a launch is reported. */
  lemma LaunchOutcomeLaunches(chromePath: Option<string>, port: int, profile: string, extraArgs: Option<seq<string>>,
                              timeoutText: string, w: World, d0: Diag)
    requires !d0.launched && !d0.ok
    ensures var (diag, launched) := LaunchOutcome(chromePath, port, profile, extraArgs, timeoutText, w, d0);
            && (ChosenPath(chromePath, w).None? ==> launched == None && !diag.ok && diag.error == Some(NoExecutable))
            && (ChosenPath(chromePath, w).Some? ==>
                  launched == Some(LaunchCommand(ChosenPath(chromePath, w).value, port, profile, extraArgs)))
            && (diag.launched <==> launched.Some? && w.launch.Ok?)
            && (diag.launched ==> diag.pid == Some(w.launch.value))
  {
  }

  /** `ok` is reported only after a successful DevTools probe, either the first one or one after the launch. */
  lemma EnsureOkOnlyAfterProbe(chromePath: Option<string>, port: int, userDataDir: Option<string>,
                               extraArgs: Option<seq<string>>, timeoutText: string, killIfUnreachable: bool, w: World)
    ensures var (diag, _, launched) := Ensure(chromePath, port, userDataDir, extraArgs, timeoutText, killIfUnreachable, w);
            && (diag.ok <==> w.devtoolsUp || (launched.Some? && w.launch.Ok? && CameUp(w.polls)))
            && (launched.Some? && w.launch.Ok? && !CameUp(w.polls) ==>
                  diag.error == Some(NotUp(port, timeoutText, LastError(w.polls))))
  {
    var profile := ProfileDir(userDataDir, w.home);
    var pids := CdpPids(w.procs, port, Some(profile));
    var e := Ensure(chromePath, port, userDataDir, extraArgs, timeoutText, killIfUnreachable, w);
    if w.devtoolsUp {
      assert e.0.ok && e.2 == None;
    } else if w.portInUse && pids == [] {
      assert !e.0.ok && e.2 == None;
    } else if w.portInUse && !killIfUnreachable {
      assert !e.0.ok && e.2 == None;
    } else {
      var d0 := Initial(port).(killed := if w.portInUse then pids else []);
      LaunchOutcomeOkAfterProbe(chromePath, port, profile, extraArgs, timeoutText, w, d0);
      assert (e.0, e.2) == LaunchOutcome(chromePath, port, profile, extraArgs, timeoutText, w, d0);
    }
  }

  /** After the launch step, `ok` means the launched Chrome answered a probe. */
  lemma LaunchOutcomeOkAfterProbe(chromePath: Option<string>, port: int, profile: string, extraArgs: Option<seq<string>>,
                                  timeoutText: string, w: World, d0: Diag)
    requires !d0.ok
    ensures var (diag, launched) := LaunchOutcome(chromePath, port, profile, extraArgs, timeoutText, w, d0);
            && (diag.ok <==> launched.Some? && w.launch.Ok? && CameUp(w.polls))
            && (launched.Some? && w.launch.Ok? && !CameUp(w.polls) ==>
                  diag.error == Some(NotUp(port, timeoutText, LastError(w.polls))))
  {
  }
}
