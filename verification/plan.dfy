/**
 * What `setup` does to the worker, as values: the calls it makes (in order),
 * the result it reaches, and the filesystem it leaves behind.
 *
 * Foreign operations (`io.which`, `exec.exec`, `fs.mkdtempSync`, `fs.mkdirSync`,
 * `fs.symlinkSync`, `core.addPath`) are events; what the worker does in response is
 * fixed by a `Host` value: which tools are on its PATH, which commands exit non-zero,
 * which directory or link creations throw (EACCES, EPERM), whether its temporary
 * directory exists.
 */
module Plan {
  import opened Wrappers
  import opened Platform
  import opened Inputs

  /** A path as its segments; `path.join(a, b)` is `a + [b]`. */
  type Path = seq<string>

  datatype Arg = Lit(text: string) | PathArg(path: Path)

  datatype Event =
    | MkdTemp(parent: Path, prefix: string, suffix: string)  // mkdtempSync(parent/prefix), picking `suffix`
    | Which(tool: string)                                     // io.which(tool, true)
    | Exec(program: Path, args: seq<Arg>)                     // exec.exec(program, args)
    | MkDir(dir: Path)                                        // fs.mkdirSync(dir)
    | Symlink(target: Path, link: Path)                       // fs.symlinkSync(target, link)
    | AddPath(dir: Path)                                      // core.addPath(dir)

  datatype Entry = Directory | Link(target: Path)

  type FileSystem = map<Path, Entry>

  /** The worker as `setup` finds it. */
  datatype Host = Host(
    platform: string,              // os.platform()
    tmpDir: Path,                  // os.tmpdir()
    inputs: map<string, string>,   // the action's inputs, as core.getInput returns them
    onPath: map<string, Path>,     // what io.which resolves each tool name to
    failing: set<Event>)           // the commands that exit non-zero and the fs calls that throw

  datatype Error =
    | InvalidInput(message: string)
    | NotFound(tool: string)
    | CommandFailed(command: Event)
    | NoTempDir(dir: Path)

  /** The calls an operation makes, in order, and what it returns or throws. */
  datatype Effect<+R> = Effect(calls: seq<Event>, result: Result<R, Error>)

  // ---------------------------------------------------------------------------
  // The filesystem

  predicate IsDir(fs: FileSystem, p: Path) {
    p in fs && fs[p] == Directory
  }

  /**
   * `p` is a directory, or a link to one: the system temp dir may be reached
   * through a link (as `/tmp` is on macOS), which `fs.mkdtempSync` follows.
   */
  predicate ResolvesToDir(fs: FileSystem, p: Path) {
    IsDir(fs, p) || (p in fs && fs[p].Link? && IsDir(fs, fs[p].target))
  }

  /** A system temp dir reached through a link to a directory is used like the directory itself. */
  lemma LinkedTmpDirIsUsed(host: Host, fs: FileSystem, python: string, version: string, suffix: string, target: Path)
    requires host.tmpDir in fs && fs[host.tmpDir] == Link(target) && IsDir(fs, target)
    requires MkdTemp(host.tmpDir, TempPrefix, suffix) !in host.failing
    ensures TempCreated(host, fs, suffix)
    ensures IsDir(InstallFs(host, fs, python, version, suffix), TempDir(host.tmpDir, suffix))
  {
  }

  /** Neither `d` nor anything below it exists: what mkdtemp guarantees of the name it picks. */
  predicate NamesNothing(fs: FileSystem, d: Path) {
    forall p :: p in fs ==> !(d <= p)
  }

  // ---------------------------------------------------------------------------
  // Names (lib/setup.js:19-23, 49-57, 81-84)

  const TempPrefix: string := "setup-sam-"

  /** The directory `mkdirTemp` creates. */
  function TempDir(tmpDir: Path, suffix: string): Path {
    tmpDir + [TempPrefix + suffix]
  }

  /** `mkdirTemp` succeeds: the system temp dir exists and creating the new directory in it does not throw. */
  predicate TempCreated(host: Host, fs: FileSystem, suffix: string) {
    ResolvesToDir(fs, host.tmpDir) && !Fails(host.failing, MkdTemp(host.tmpDir, TempPrefix, suffix))
  }

  function VenvDir(temp: Path): Path {
    temp + [".venv"]
  }

  function VenvBin(temp: Path, platform: string): Path {
    VenvDir(temp) + [VenvBinDir(platform)]
  }

  function VenvPython(temp: Path, platform: string): Path {
    VenvBin(temp, platform) + ["python"]
  }

  /** The separate directory that only holds the link to the executable. */
  function LinkDir(temp: Path): Path {
    temp + ["bin"]
  }

  /** The directory added to PATH is not the venv's own executable directory. */
  lemma LinkDirIsNotVenvBin(temp: Path, platform: string)
    ensures LinkDir(temp) != VenvBin(temp, platform)
    ensures !(LinkDir(temp) <= VenvBin(temp, platform)) && !(VenvBin(temp, platform) <= LinkDir(temp))
  {
    assert LinkDir(temp)[|temp|] == "bin" != ".venv" == VenvBin(temp, platform)[|temp|];
  }

  // ---------------------------------------------------------------------------
  // The steps (lib/setup.js:34-35, 61-78, 82-84)

  function VenvSteps(interpreter: Path, venv: Path): seq<Event> {
    [ Exec(interpreter, [Lit("--version")]),
      Exec(interpreter, [Lit("-m"), Lit("venv"), PathArg(venv)]) ]
  }

  function PipInstall(packages: seq<Arg>): seq<Arg> {
    [Lit("-m"), Lit("pip"), Lit("install"), Lit("--upgrade")] + packages
  }

  function PipSteps(python: Path, version: string): seq<Event> {
    [ Exec(python, PipInstall([Lit("pip")])),
      Exec(python, PipInstall([Lit("setuptools"), Lit("wheel")])),
      Exec(python, PipInstall([Lit(PackageSpec(version))])) ]
  }

  function LinkSteps(temp: Path, platform: string): seq<Event> {
    var sam := SamExecutable(platform);
    [ MkDir(LinkDir(temp)),
      Symlink(VenvBin(temp, platform) + [sam], LinkDir(temp) + [sam]) ]
  }

  /** The steps after the virtual environment exists. */
  function InstallSteps(temp: Path, platform: string, version: string): seq<Event> {
    PipSteps(VenvPython(temp, platform), version) + LinkSteps(temp, platform)
  }

  // ---------------------------------------------------------------------------
  // Running a chain of awaited calls

  /**
   * A call that throws: a command that exits non-zero, a directory or link
   * creation refused by the filesystem (EACCES, EPERM, EROFS, ENOSPC), or a PATH
   * addition that cannot write its file. Whether io.which finds a tool is
   * decided by `Host.onPath` instead.
   */
  predicate Fails(failing: set<Event>, e: Event) {
    !e.Which? && e in failing
  }

  predicate AllSucceed(failing: set<Event>, steps: seq<Event>) {
    forall i :: 0 <= i < |steps| ==> !Fails(failing, steps[i])
  }

  /**
   * Awaiting the steps one after the other: a step that throws ends the chain,
   * its error is the chain's error, and no later step is made.
   */
  function Run(failing: set<Event>, steps: seq<Event>): Effect<()>
    decreases |steps|
  {
    if steps == [] then Effect([], Success(()))
    else if Fails(failing, steps[0]) then Effect([steps[0]], Failure(CommandFailed(steps[0])))
    else
      var rest := Run(failing, steps[1..]);
      Effect([steps[0]] + rest.calls, rest.result)
  }

  /** The calls a chain makes are a prefix of its steps. */
  lemma {:induction false} RunPrefix(failing: set<Event>, steps: seq<Event>)
    ensures var e := Run(failing, steps);
            |e.calls| <= |steps| && e.calls == steps[..|e.calls|]
    decreases |steps|
  {
    if steps != [] && !Fails(failing, steps[0]) {
      RunPrefix(failing, steps[1..]);
    }
  }

  /** A chain succeeds exactly when no step fails, and then it made them all. */
  lemma {:induction false} RunSucceedsIff(failing: set<Event>, steps: seq<Event>)
    ensures var e := Run(failing, steps);
            && (e.result.Success? <==> AllSucceed(failing, steps))
            && (e.result.Success? ==> e.calls == steps)
    decreases |steps|
  {
    if steps != [] && !Fails(failing, steps[0]) {
      RunSucceedsIff(failing, steps[1..]);
      assert AllSucceed(failing, steps) <==> AllSucceed(failing, steps[1..]) by {
        if AllSucceed(failing, steps[1..]) {
          forall i | 0 < i < |steps| ensures !Fails(failing, steps[i]) { assert steps[i] == steps[1..][i - 1]; }
        }
      }
    }
  }

  /** A failed chain ends with the first failing step, and reports its error. */
  lemma {:induction false} RunFailsLast(failing: set<Event>, steps: seq<Event>)
    ensures var e := Run(failing, steps);
            e.result.Failure? ==>
              && |e.calls| > 0
              && Fails(failing, e.calls[|e.calls| - 1])
              && e.result.error == CommandFailed(e.calls[|e.calls| - 1])
              && AllSucceed(failing, e.calls[..|e.calls| - 1])
    decreases |steps|
  {
    if steps != [] && !Fails(failing, steps[0]) {
      var rest := Run(failing, steps[1..]);
      RunFailsLast(failing, steps[1..]);
      var e := Run(failing, steps);
      if e.result.Failure? {
        var k := |e.calls| - 1;
        assert e.calls == [steps[0]] + rest.calls;
        forall i | 0 <= i < k ensures !Fails(failing, e.calls[..k][i]) {
          if i > 0 { assert e.calls[..k][i] == rest.calls[..k - 1][i - 1]; }
        }
      }
    }
  }

  /**
   * The calls a chain makes are a prefix of its steps; it succeeds exactly when
   * no step fails, and then it made them all; otherwise it ends with the first
   * failing step, whose error it reports.
   */
  lemma RunMakesPrefix(failing: set<Event>, steps: seq<Event>)
    ensures var e := Run(failing, steps);
            && |e.calls| <= |steps| && e.calls == steps[..|e.calls|]
            && (e.result.Success? <==> AllSucceed(failing, steps))
            && (e.result.Success? ==> e.calls == steps)
            && (e.result.Failure? ==>
                  && |e.calls| > 0
                  && Fails(failing, e.calls[|e.calls| - 1])
                  && e.result.error == CommandFailed(e.calls[|e.calls| - 1])
                  && AllSucceed(failing, e.calls[..|e.calls| - 1]))
  {
    RunPrefix(failing, steps);
    RunSucceedsIff(failing, steps);
    RunFailsLast(failing, steps);
  }

  /** The chain stops at its first failing step, having made every step up to it. */
  lemma {:induction false} RunStopsAt(failing: set<Event>, steps: seq<Event>, k: nat)
    requires k < |steps| && Fails(failing, steps[k])
    requires forall i :: 0 <= i < k ==> !Fails(failing, steps[i])
    ensures Run(failing, steps) == Effect(steps[..k + 1], Failure(CommandFailed(steps[k])))
    decreases k
  {
    if k > 0 {
      RunStopsAt(failing, steps[1..], k - 1);
      assert [steps[0]] + steps[1..][..k] == steps[..k + 1];
    }
  }

  lemma RunAllSucceed(failing: set<Event>, steps: seq<Event>)
    requires AllSucceed(failing, steps)
    ensures Run(failing, steps) == Effect(steps, Success(()))
  {
    RunMakesPrefix(failing, steps);
  }

  /** Running `a + b` is running `a`, then `b` only if all of `a` succeeded. */
  lemma {:induction false} RunAppend(failing: set<Event>, a: seq<Event>, b: seq<Event>)
    ensures Run(failing, a + b) ==
            if Run(failing, a).result.Failure? then Run(failing, a)
            else Effect(a + Run(failing, b).calls, Run(failing, b).result)
    decreases |a|
  {
    if a == [] {
      assert a + b == b;
    } else {
      assert (a + b)[0] == a[0] && (a + b)[1..] == a[1..] + b;
      RunAppend(failing, a[1..], b);
      assert [a[0]] + a[1..] == a;
    }
  }

  // ---------------------------------------------------------------------------
  // The three operations as values

  /** `createPythonVenv(python, venvPath)` (lib/setup.js:31-36). */
  function VenvEffect(host: Host, python: string, venv: Path): Effect<()> {
    if python !in host.onPath then Effect([Which(python)], Failure(NotFound(python)))
    else
      var run := Run(host.failing, VenvSteps(host.onPath[python], venv));
      Effect([Which(python)] + run.calls, run.result)
  }

  /** `installSamCli(python, version)` (lib/setup.js:45-87), with mkdtemp picking `suffix`. */
  function InstallEffect(host: Host, fs: FileSystem, python: string, version: string, suffix: string): Effect<Path> {
    var mk := MkdTemp(host.tmpDir, TempPrefix, suffix);
    if !ResolvesToDir(fs, host.tmpDir) then Effect([mk], Failure(NoTempDir(host.tmpDir)))
    else if Fails(host.failing, mk) then Effect([mk], Failure(CommandFailed(mk)))
    else
      var temp := TempDir(host.tmpDir, suffix);
      var venv := VenvEffect(host, python, VenvDir(temp));
      if venv.result.Failure? then Effect([mk] + venv.calls, Failure(venv.result.error))
      else
        var run := Run(host.failing, InstallSteps(temp, host.platform, version));
        Effect([mk] + venv.calls + run.calls,
               if run.result.Success? then Success(LinkDir(temp)) else Failure(run.result.error))
  }

  /** The version `setup` validates (lib/setup.js:107). */
  function VersionInput(host: Host): Result<string, string> {
    GetInput(host.inputs, "version", VersionPattern, "1.*")
  }

  /** The interpreter `setup` validates (lib/setup.js:109-110). */
  function PythonInput(host: Host): Result<string, string> {
    GetInput(host.inputs, "python", LinePattern, DefaultPython(host.platform))
  }

  /** `setup()` (lib/setup.js:106-114). */
  function SetupEffect(host: Host, fs: FileSystem, suffix: string): Effect<()> {
    match VersionInput(host)
    case Failure(m) => Effect([], Failure(InvalidInput(m)))
    case Success(version) =>
      match PythonInput(host)
      case Failure(m) => Effect([], Failure(InvalidInput(m)))
      case Success(python) =>
        var install := InstallEffect(host, fs, python, version, suffix);
        match install.result
        case Failure(e) => Effect(install.calls, Failure(e))
        case Success(dir) =>
          var add := AddPath(dir);
          Effect(install.calls + [add], if Fails(host.failing, add) then Failure(CommandFailed(add)) else Success(()))
  }

  /** Once the virtual environment exists, the rest of `installSamCli` is the chain of install steps. */
  lemma InstallAfterVenv(host: Host, fs: FileSystem, python: string, version: string, suffix: string)
    requires TempCreated(host, fs, suffix)
    requires VenvEffect(host, python, VenvDir(TempDir(host.tmpDir, suffix))).result.Success?
    ensures var temp := TempDir(host.tmpDir, suffix);
            var head := [MkdTemp(host.tmpDir, TempPrefix, suffix)] + VenvEffect(host, python, VenvDir(temp)).calls;
            var run := Run(host.failing, InstallSteps(temp, host.platform, version));
            && InstallEffect(host, fs, python, version, suffix)
               == Effect(head + run.calls, if run.result.Success? then Success(LinkDir(temp)) else Failure(run.result.error))
            && InstallFs(host, fs, python, version, suffix) == LinkFs(host.failing, fs[temp := Directory], temp, host.platform, version)
  {
  }

  /** The install steps one by one. */
  lemma InstallStepsShape(temp: Path, platform: string, version: string)
    ensures var steps := InstallSteps(temp, platform, version);
            var python := temp + [".venv", VenvBinDir(platform), "python"];
            var sam := SamExecutable(platform);
            && |steps| == 5 && steps == [steps[0], steps[1], steps[2], steps[3], steps[4]]
            && PipSteps(VenvPython(temp, platform), version) == steps[..3]
            && LinkSteps(temp, platform) == steps[3..]
            && steps[0] == Exec(python, [Lit("-m"), Lit("pip"), Lit("install"), Lit("--upgrade"), Lit("pip")])
            && steps[1] == Exec(python, [Lit("-m"), Lit("pip"), Lit("install"), Lit("--upgrade"), Lit("setuptools"), Lit("wheel")])
            && steps[2] == Exec(python, [Lit("-m"), Lit("pip"), Lit("install"), Lit("--upgrade"), Lit(PackageSpec(version))])
            && steps[3] == MkDir(temp + ["bin"])
            && steps[4] == Symlink(temp + [".venv", VenvBinDir(platform), sam], temp + ["bin", sam])
  {
    assert temp + [".venv"] + [VenvBinDir(platform)] + ["python"] == temp + [".venv", VenvBinDir(platform), "python"];
    assert temp + [".venv"] + [VenvBinDir(platform)] + [SamExecutable(platform)] == temp + [".venv", VenvBinDir(platform), SamExecutable(platform)];
    assert temp + ["bin"] + [SamExecutable(platform)] == temp + ["bin", SamExecutable(platform)];
  }

  /** Below a directory that names nothing, nothing exists; and neither does anything below a path below it. */
  lemma FreshBelow(fs: FileSystem, d: Path, rest: seq<string>)
    requires NamesNothing(fs, d)
    ensures d + rest !in fs
    ensures NamesNothing(fs, d + rest)
  {
    assert d <= d + rest;
  }

  /**
   * The filesystem the link steps leave: nothing new when mkdir throws; otherwise
   * the link directory, holding the link unless the symlink threw.
   */
  function LinkedFs(failing: set<Event>, fs: FileSystem, temp: Path, platform: string): FileSystem {
    var sam := SamExecutable(platform);
    var link := LinkSteps(temp, platform);
    if Fails(failing, link[0]) then fs
    else if Fails(failing, link[1]) then fs[LinkDir(temp) := Directory]
    else fs[LinkDir(temp) := Directory][LinkDir(temp) + [sam] := Link(VenvBin(temp, platform) + [sam])]
  }

  /** The filesystem the install steps leave: the pip runs change nothing modelled; the link steps run only after all of them pass. */
  function LinkFs(failing: set<Event>, fs: FileSystem, temp: Path, platform: string, version: string): FileSystem {
    if AllSucceed(failing, PipSteps(VenvPython(temp, platform), version)) then LinkedFs(failing, fs, temp, platform) else fs
  }

  /** The filesystem `installSamCli` leaves: the temp dir, then whatever the install steps made. */
  function InstallFs(host: Host, fs: FileSystem, python: string, version: string, suffix: string): FileSystem {
    if !TempCreated(host, fs, suffix) then fs
    else
      var temp := TempDir(host.tmpDir, suffix);
      var withTemp := fs[temp := Directory];
      if VenvEffect(host, python, VenvDir(temp)).result.Failure? then withTemp
      else LinkFs(host.failing, withTemp, temp, host.platform, version)
  }

  /** The install steps either all succeed and leave the link, or fail and leave at most an empty link directory. */
  lemma LinkFsFollowsRun(failing: set<Event>, fs: FileSystem, temp: Path, platform: string, version: string)
    ensures var run := Run(failing, InstallSteps(temp, platform, version));
            var sam := SamExecutable(platform);
            var after := LinkFs(failing, fs, temp, platform, version);
            && (run.result.Success? ==>
                  after == fs[LinkDir(temp) := Directory][LinkDir(temp) + [sam] := Link(VenvBin(temp, platform) + [sam])])
            && (run.result.Failure? ==> after == fs || after == fs[LinkDir(temp) := Directory])
  {
    var pip := PipSteps(VenvPython(temp, platform), version);
    var link := LinkSteps(temp, platform);
    RunMakesPrefix(failing, pip + link);
    AllSucceedAppend(failing, pip, link);
    assert AllSucceed(failing, link) <==> !Fails(failing, link[0]) && !Fails(failing, link[1]);
  }

  /** The filesystem `setup` leaves: untouched when an input is malformed. */
  function SetupFs(host: Host, fs: FileSystem, suffix: string): FileSystem {
    if InputsValid(host) then InstallFs(host, fs, PythonInput(host).value, VersionInput(host).value, suffix) else fs
  }

  // ---------------------------------------------------------------------------
  // What `setup` guarantees

  predicate InputsValid(host: Host) {
    VersionInput(host).Success? && PythonInput(host).Success?
  }

  /** Every call `installSamCli` can make, in order; `interpreter` is what io.which returned. */
  function InstallPlan(host: Host, suffix: string, version: string, python: string, interpreter: Path): seq<Event> {
    var temp := TempDir(host.tmpDir, suffix);
    [MkdTemp(host.tmpDir, TempPrefix, suffix), Which(python)]
    + VenvSteps(interpreter, VenvDir(temp))
    + InstallSteps(temp, host.platform, version)
  }

  /** Every call `setup` can make once its inputs are valid: the install plan, then one PATH addition. */
  function SetupPlan(host: Host, suffix: string, version: string, python: string, interpreter: Path): seq<Event> {
    InstallPlan(host, suffix, version, python, interpreter) + [AddPath(LinkDir(TempDir(host.tmpDir, suffix)))]
  }

  /** Whatever io.which resolved the interpreter to (any path when it did not). */
  function Resolved(host: Host, python: string): Path {
    if python in host.onPath then host.onPath[python] else [python]
  }

  /**
   * A malformed input stops `setup` before any call: no temporary directory,
   * no command, no PATH change. The version is checked first.
   */
  lemma InvalidInputRunsNothing(host: Host, fs: FileSystem, suffix: string)
    ensures var e := SetupEffect(host, fs, suffix);
            && (e.calls == [] <==> !InputsValid(host))
            && (VersionInput(host).Failure? ==> e.result == Failure(InvalidInput(MismatchMessage("version", VersionPattern))))
            && (VersionInput(host).Success? && PythonInput(host).Failure? ==>
                  e.result == Failure(InvalidInput(MismatchMessage("python", LinePattern))))
  {
  }

  /** Absent inputs never fail validation: the defaults "1.*" and python/python3 match their patterns. */
  lemma DefaultsAreValid(host: Host)
    requires host.inputs == map[]
    ensures VersionInput(host) == Success("1.*")
    ensures PythonInput(host) == Success(DefaultPython(host.platform))
  {
    assert Matches(VersionPattern, "1.*") by {
      assert forall i :: 0 <= i < |"1.*"| ==> IsVersionChar("1.*"[i]);
    }
  }

  lemma AllSucceedAppend(failing: set<Event>, a: seq<Event>, b: seq<Event>)
    ensures AllSucceed(failing, a + b) <==> AllSucceed(failing, a) && AllSucceed(failing, b)
  {
    if AllSucceed(failing, a) && AllSucceed(failing, b) {
      forall i | 0 <= i < |a + b| ensures !Fails(failing, (a + b)[i]) {
        if i >= |a| { assert (a + b)[i] == b[i - |a|]; }
      }
    }
    if AllSucceed(failing, a + b) {
      forall i | 0 <= i < |a| ensures !Fails(failing, a[i]) { assert a[i] == (a + b)[i]; }
      forall i | 0 <= i < |b| ensures !Fails(failing, b[i]) { assert b[i] == (a + b)[i + |a|]; }
    }
  }

  /** With the temp dir in place and the interpreter found, `installSamCli` is one chain of awaited steps. */
  lemma InstallIsOneChain(host: Host, fs: FileSystem, python: string, version: string, suffix: string)
    requires TempCreated(host, fs, suffix) && python in host.onPath
    ensures var temp := TempDir(host.tmpDir, suffix);
            var all := Run(host.failing, VenvSteps(host.onPath[python], VenvDir(temp)) + InstallSteps(temp, host.platform, version));
            InstallEffect(host, fs, python, version, suffix) ==
              Effect([MkdTemp(host.tmpDir, TempPrefix, suffix), Which(python)] + all.calls,
                     if all.result.Success? then Success(LinkDir(temp)) else Failure(all.result.error))
  {
    var temp := TempDir(host.tmpDir, suffix);
    var mk := MkdTemp(host.tmpDir, TempPrefix, suffix);
    var venvSteps := VenvSteps(host.onPath[python], VenvDir(temp));
    var rest := InstallSteps(temp, host.platform, version);
    var v := Run(host.failing, venvSteps);
    var r := Run(host.failing, rest);
    var e := InstallEffect(host, fs, python, version, suffix);
    assert VenvEffect(host, python, VenvDir(temp)) == Effect([Which(python)] + v.calls, v.result);
    assert [mk] + ([Which(python)] + v.calls) == [mk, Which(python)] + v.calls;
    if v.result.Failure? {
      assert e == Effect([mk, Which(python)] + v.calls, Failure(v.result.error));
    } else {
      RunMakesPrefix(host.failing, venvSteps);
      assert e == Effect([mk, Which(python)] + v.calls + r.calls,
                         if r.result.Success? then Success(LinkDir(temp)) else Failure(r.result.error));
      assert [mk, Which(python)] + v.calls + r.calls == [mk, Which(python)] + (venvSteps + r.calls);
    }
    RunAppend(host.failing, venvSteps, rest);
  }

  lemma PrefixAfterHead<T>(head: seq<T>, a: seq<T>, b: seq<T>)
    requires a <= b
    ensures head + a <= head + b
  {
    assert (head + b)[..|head + a|] == head + b[..|a|];
  }

  /**
   * Every run of `installSamCli` is a prefix of the install plan; it succeeds
   * exactly when the temp dir exists, the interpreter is found and no command
   * fails, and then it made every call of the plan and returns `<temp>/bin`.
   */
  lemma InstallFollowsPlan(host: Host, fs: FileSystem, python: string, version: string, suffix: string)
    ensures var plan := InstallPlan(host, suffix, version, python, Resolved(host, python));
            var e := InstallEffect(host, fs, python, version, suffix);
            && e.calls <= plan
            && (e.result.Success? <==>
                  ResolvesToDir(fs, host.tmpDir) && python in host.onPath && AllSucceed(host.failing, plan))
            && (e.result.Success? ==> e.calls == plan && e.result.value == LinkDir(TempDir(host.tmpDir, suffix)))
  {
    var temp := TempDir(host.tmpDir, suffix);
    var steps := VenvSteps(Resolved(host, python), VenvDir(temp)) + InstallSteps(temp, host.platform, version);
    var head := [MkdTemp(host.tmpDir, TempPrefix, suffix), Which(python)];
    assert InstallPlan(host, suffix, version, python, Resolved(host, python)) == head + steps;
    AllSucceedAppend(host.failing, head, steps);
    if TempCreated(host, fs, suffix) && python in host.onPath {
      InstallIsOneChain(host, fs, python, version, suffix);
      RunMakesPrefix(host.failing, steps);
      PrefixAfterHead(head, Run(host.failing, steps).calls, steps);
    } else if ResolvesToDir(fs, host.tmpDir) && Fails(host.failing, head[0]) {
      assert !AllSucceed(host.failing, head);
    }
  }

  /**
   * Every run of `setup` with valid inputs is a prefix of the one plan; it
   * succeeds exactly when no call of that plan fails, and then it made them all.
   */
  lemma SetupFollowsPlan(host: Host, fs: FileSystem, suffix: string)
    requires InputsValid(host)
    ensures var version := VersionInput(host).value;
            var python := PythonInput(host).value;
            var plan := SetupPlan(host, suffix, version, python, Resolved(host, python));
            var e := SetupEffect(host, fs, suffix);
            && e.calls <= plan
            && (e.result.Success? <==>
                  ResolvesToDir(fs, host.tmpDir) && python in host.onPath && AllSucceed(host.failing, plan))
            && (e.result.Success? ==> e.calls == plan)
  {
    var version := VersionInput(host).value;
    var python := PythonInput(host).value;
    var body := InstallPlan(host, suffix, version, python, Resolved(host, python));
    var plan := SetupPlan(host, suffix, version, python, Resolved(host, python));
    InstallFollowsPlan(host, fs, python, version, suffix);
    var add := AddPath(LinkDir(TempDir(host.tmpDir, suffix)));
    AllSucceedAppend(host.failing, body, [add]);
    assert AllSucceed(host.failing, [add]) <==> !Fails(host.failing, add) by { assert [add][0] == add; }
  }

  /** The number of PATH additions among some calls. */
  function AddPathCount(calls: seq<Event>): nat
    decreases |calls|
  {
    if calls == [] then 0 else (if calls[0].AddPath? then 1 else 0) + AddPathCount(calls[1..])
  }

  lemma {:induction false} AddPathCountAppend(a: seq<Event>, b: seq<Event>)
    ensures AddPathCount(a + b) == AddPathCount(a) + AddPathCount(b)
    decreases |a|
  {
    if a == [] {
      assert a + b == b;
    } else {
      assert (a + b)[1..] == a[1..] + b;
      AddPathCountAppend(a[1..], b);
    }
  }

  lemma {:induction false} NoAddPathInPrefix(calls: seq<Event>, steps: seq<Event>)
    requires calls <= steps
    requires forall i :: 0 <= i < |steps| ==> !steps[i].AddPath?
    ensures AddPathCount(calls) == 0
    decreases |calls|
  {
    if calls != [] {
      assert calls[1..] <= steps[1..];
      forall i | 0 <= i < |steps[1..]| ensures !steps[1..][i].AddPath? { assert steps[1..][i] == steps[i + 1]; }
      NoAddPathInPrefix(calls[1..], steps[1..]);
    }
  }

  /** The inputs are valid and `installSamCli` resolves. */
  predicate InstallSucceeds(host: Host, fs: FileSystem, suffix: string) {
    InputsValid(host) && InstallEffect(host, fs, PythonInput(host).value, VersionInput(host).value, suffix).result.Success?
  }

  /**
   * core.addPath is called exactly once when `installSamCli` resolved, as the
   * last call and with `<temp>/bin`, and never otherwise; `setup` succeeds
   * exactly when, in addition, that call does not throw, and otherwise reports
   * its error.
   */
  lemma AddPathOnceAfterInstall(host: Host, fs: FileSystem, suffix: string)
    ensures var e := SetupEffect(host, fs, suffix);
            var add := AddPath(LinkDir(TempDir(host.tmpDir, suffix)));
            && AddPathCount(e.calls) == (if InstallSucceeds(host, fs, suffix) then 1 else 0)
            && (InstallSucceeds(host, fs, suffix) ==> |e.calls| > 0 && e.calls[|e.calls| - 1] == add)
            && (e.result.Success? <==> InstallSucceeds(host, fs, suffix) && !Fails(host.failing, add))
            && (InstallSucceeds(host, fs, suffix) && Fails(host.failing, add) ==> e.result == Failure(CommandFailed(add)))
  {
    if InputsValid(host) {
      var version := VersionInput(host).value;
      var python := PythonInput(host).value;
      var temp := TempDir(host.tmpDir, suffix);
      var install := InstallEffect(host, fs, python, version, suffix);
      var body := InstallPlan(host, suffix, version, python, Resolved(host, python));
      InstallFollowsPlan(host, fs, python, version, suffix);
      assert forall i :: 0 <= i < |body| ==> !body[i].AddPath?;
      NoAddPathInPrefix(install.calls, body);
      if install.result.Success? {
        AddPathCountAppend(install.calls, [AddPath(LinkDir(temp))]);
      }
    }
  }

  /** The layout of a fresh temp dir once `bin` and the link inside it exist. */
  lemma {:induction false} LinkLayout(fs: FileSystem, temp: Path, sam: string, target: Path)
    requires NamesNothing(fs, temp)
    ensures var after := fs[temp := Directory][temp + ["bin"] := Directory][temp + ["bin"] + [sam] := Link(target)];
            && (forall p :: p in fs ==> p in after && after[p] == fs[p])
            && (forall p :: p in after && p !in fs ==> temp <= p)
            && (forall p :: p in after && temp + ["bin"] < p ==> p == temp + ["bin"] + [sam])
  {
    var bin := temp + ["bin"];
    var after := fs[temp := Directory][bin := Directory][bin + [sam] := Link(target)];
    assert temp <= bin && temp <= bin + [sam];
    forall p | p in after && bin < p ensures p == bin + [sam] {
      assert temp <= p by { assert p[..|temp|] == bin[..|temp|]; }
    }
  }

  /** `setup` changes no existing entry and adds entries only inside its fresh temporary directory. */
  lemma SetupFsStaysInside(host: Host, fs: FileSystem, suffix: string)
    requires NamesNothing(fs, TempDir(host.tmpDir, suffix))
    ensures var temp := TempDir(host.tmpDir, suffix);
            var after := SetupFs(host, fs, suffix);
            && (forall p :: p in fs ==> p in after && after[p] == fs[p])
            && (forall p :: p in after && p !in fs ==> temp <= p)
  {
    var temp := TempDir(host.tmpDir, suffix);
    var sam := SamExecutable(host.platform);
    FreshBelow(fs, temp, []);
    assert temp + [] == temp;
    LinkLayout(fs, temp, sam, VenvBin(temp, host.platform) + [sam]);
    if InputsValid(host) && TempCreated(host, fs, suffix) {
      var python := PythonInput(host).value;
      var version := VersionInput(host).value;
      if VenvEffect(host, python, VenvDir(temp)).result.Success? {
        InstallAfterVenv(host, fs, python, version, suffix);
        LinkFsFollowsRun(host.failing, fs[temp := Directory], temp, host.platform, version);
      }
    }
  }

  /**
   * Once `installSamCli` resolved, the temp dir holds `bin`, and `bin` holds
   * exactly one entry: a link named after the executable that points into the
   * venv's own executable directory. Otherwise `bin` is either absent or empty.
   */
  lemma SetupFsLinkDir(host: Host, fs: FileSystem, suffix: string)
    requires NamesNothing(fs, TempDir(host.tmpDir, suffix))
    ensures var temp := TempDir(host.tmpDir, suffix);
            var after := SetupFs(host, fs, suffix);
            var sam := SamExecutable(host.platform);
            && (InstallSucceeds(host, fs, suffix) ==>
                  && IsDir(after, temp)
                  && IsDir(after, LinkDir(temp))
                  && LinkDir(temp) + [sam] in after
                  && after[LinkDir(temp) + [sam]] == Link(VenvBin(temp, host.platform) + [sam])
                  && (forall p :: p in after && LinkDir(temp) < p ==> p == LinkDir(temp) + [sam]))
            && (!InstallSucceeds(host, fs, suffix) ==>
                  LinkDir(temp) !in after
                  || (IsDir(after, LinkDir(temp)) && forall p :: p in after ==> !(LinkDir(temp) < p)))
  {
    var temp := TempDir(host.tmpDir, suffix);
    var sam := SamExecutable(host.platform);
    FreshBelow(fs, temp, ["bin"]);
    LinkLayout(fs, temp, sam, VenvBin(temp, host.platform) + [sam]);
    if InputsValid(host) && TempCreated(host, fs, suffix) {
      var python := PythonInput(host).value;
      var version := VersionInput(host).value;
      if VenvEffect(host, python, VenvDir(temp)).result.Success? {
        InstallAfterVenv(host, fs, python, version, suffix);
        LinkFsFollowsRun(host.failing, fs[temp := Directory], temp, host.platform, version);
        forall p | p in fs ensures !(LinkDir(temp) < p) {
          assert temp <= LinkDir(temp);
        }
      }
    }
  }

  /**
   * What `setup` leaves on disk: no existing entry changes, new entries lie
   * inside the temp dir, and `bin` holds exactly the link once `installSamCli`
   * resolved and is absent or empty otherwise.
   */
  lemma SetupFilesystem(host: Host, fs: FileSystem, suffix: string)
    requires NamesNothing(fs, TempDir(host.tmpDir, suffix))
    ensures var temp := TempDir(host.tmpDir, suffix);
            var after := SetupFs(host, fs, suffix);
            var sam := SamExecutable(host.platform);
            && (forall p :: p in fs ==> p in after && after[p] == fs[p])
            && (forall p :: p in after && p !in fs ==> temp <= p)
            && (InstallSucceeds(host, fs, suffix) ==>
                  && IsDir(after, temp)
                  && IsDir(after, LinkDir(temp))
                  && LinkDir(temp) + [sam] in after
                  && after[LinkDir(temp) + [sam]] == Link(VenvBin(temp, host.platform) + [sam])
                  && (forall p :: p in after && LinkDir(temp) < p ==> p == LinkDir(temp) + [sam]))
            && (!InstallSucceeds(host, fs, suffix) ==>
                  LinkDir(temp) !in after
                  || (IsDir(after, LinkDir(temp)) && forall p :: p in after ==> !(LinkDir(temp) < p)))
  {
    SetupFsStaysInside(host, fs, suffix);
    SetupFsLinkDir(host, fs, suffix);
  }

  /**
   * When creating the temp dir throws (an unwritable, read-only or full system
   * temp dir), `setup` rejects with that error after that one call and leaves the
   * filesystem as it was.
   */
  lemma TempDirFailureStopsSetup(host: Host, fs: FileSystem, suffix: string)
    requires InputsValid(host) && ResolvesToDir(fs, host.tmpDir)
    requires MkdTemp(host.tmpDir, TempPrefix, suffix) in host.failing
    ensures var e := SetupEffect(host, fs, suffix);
            && e.calls == [MkdTemp(host.tmpDir, TempPrefix, suffix)]
            && e.result == Failure(CommandFailed(MkdTemp(host.tmpDir, TempPrefix, suffix)))
            && SetupFs(host, fs, suffix) == fs
  {
  }

  /**
   * When only the symlink throws (EPERM without the symlink privilege on Windows),
   * `setup` rejects with that error, never adds to PATH, and leaves `<temp>/bin`
   * behind, empty.
   */
  lemma SymlinkFailureLeavesEmptyBin(host: Host, fs: FileSystem, suffix: string)
    requires NamesNothing(fs, TempDir(host.tmpDir, suffix))
    requires InputsValid(host) && TempCreated(host, fs, suffix) && PythonInput(host).value in host.onPath
    requires var temp := TempDir(host.tmpDir, suffix);
             var sam := SamExecutable(host.platform);
             host.failing == {Symlink(VenvBin(temp, host.platform) + [sam], LinkDir(temp) + [sam])}
    ensures var temp := TempDir(host.tmpDir, suffix);
            var sam := SamExecutable(host.platform);
            var e := SetupEffect(host, fs, suffix);
            var after := SetupFs(host, fs, suffix);
            && e.result == Failure(CommandFailed(Symlink(VenvBin(temp, host.platform) + [sam], LinkDir(temp) + [sam])))
            && AddPathCount(e.calls) == 0
            && IsDir(after, LinkDir(temp))
            && (forall p :: p in after ==> !(LinkDir(temp) < p))
  {
    var temp := TempDir(host.tmpDir, suffix);
    var python := PythonInput(host).value;
    var version := VersionInput(host).value;
    var steps := InstallSteps(temp, host.platform, version);
    InstallStepsShape(temp, host.platform, version);
    RunStopsAt(host.failing, steps, 4);
    var venvSteps := VenvSteps(host.onPath[python], VenvDir(temp));
    assert !Fails(host.failing, venvSteps[0]) && !Fails(host.failing, venvSteps[1]);
    RunAllSucceed(host.failing, venvSteps);
    InstallAfterVenv(host, fs, python, version, suffix);
    SetupFilesystem(host, fs, suffix);
    AddPathOnceAfterInstall(host, fs, suffix);
  }

  /**
   * On success the calls are, in order: mkdtemp, which, `--version`, `-m venv`,
   * the three pip invocations (pip, then setuptools and wheel, then the package,
   * all on the venv's interpreter, the last pinning `aws-sam-cli==<version>`),
   * mkdir, symlink, addPath.
   */
  lemma SuccessfulSetupCalls(host: Host, fs: FileSystem, suffix: string)
    requires SetupEffect(host, fs, suffix).result.Success?
    ensures InputsValid(host) && PythonInput(host).value in host.onPath
    ensures var c := SetupEffect(host, fs, suffix).calls;
            var temp := TempDir(host.tmpDir, suffix);
            var py := VenvPython(temp, host.platform);
            var interpreter := host.onPath[PythonInput(host).value];
            var pip := [Lit("-m"), Lit("pip"), Lit("install"), Lit("--upgrade")];
            && |c| == 10
            && c[0] == MkdTemp(host.tmpDir, TempPrefix, suffix) && c[1] == Which(PythonInput(host).value)
            && c[2] == Exec(interpreter, [Lit("--version")])
            && c[3] == Exec(interpreter, [Lit("-m"), Lit("venv"), PathArg(VenvDir(temp))])
            && c[4] == Exec(py, pip + [Lit("pip")])
            && c[5] == Exec(py, pip + [Lit("setuptools"), Lit("wheel")])
            && c[6] == Exec(py, pip + [Lit(PackageName + "==" + VersionInput(host).value)])
            && c[7] == MkDir(LinkDir(temp))
            && c[8] == Symlink(VenvBin(temp, host.platform) + [SamExecutable(host.platform)],
                               LinkDir(temp) + [SamExecutable(host.platform)])
            && c[9] == AddPath(LinkDir(temp))
  {
    SetupFollowsPlan(host, fs, suffix);
  }

  /**
   * The interpreter io.which is asked for is the `python` input unchanged, or
   * the platform's default when that input is empty.
   */
  lemma WhichGetsInterpreter(host: Host, fs: FileSystem, suffix: string)
    requires InputsValid(host) && TempCreated(host, fs, suffix)
    ensures var c := SetupEffect(host, fs, suffix).calls;
            var raw := Raw(host.inputs, "python");
            && |c| >= 2
            && (raw != "" ==> c[1] == Which(raw))
            && (raw == "" ==> c[1] == Which(DefaultPython(host.platform)))
  {
  }

  /**
   * An empty version reaches pip as `aws-sam-cli==1.*`, never as the bare
   * package name.
   */
  lemma EmptyVersionPinsWildcard(host: Host, fs: FileSystem, suffix: string)
    requires Raw(host.inputs, "version") == ""
    requires SetupEffect(host, fs, suffix).result.Success?
    ensures var c := SetupEffect(host, fs, suffix).calls;
            && |c| == 10 && c[6].Exec? && |c[6].args| == 5
            && c[6].args[4] == Lit("aws-sam-cli==1.*")
            && c[6].args[4] != Lit(PackageName)
  {
    SuccessfulSetupCalls(host, fs, suffix);
  }
}
