/**
 * The action's entry point and its two helpers (lib/setup.js:31-36, 45-87, 106-114),
 * step by step against a `Runner`. Each is proved to act exactly as its
 * description in `Plan` says; what those descriptions guarantee is proved there.
 */
module Setup {
  import opened Wrappers
  import opened Platform
  import opened Inputs
  import opened Plan
  import opened Worker

  /** `createPythonVenv(python, venvPath)`. */
  method CreatePythonVenv(runner: Runner, python: string, venvPath: Path) returns (r: Result<(), Error>)
    modifies runner`calls
    ensures var e := VenvEffect(runner.host, python, venvPath);
            runner.calls == old(runner.calls) + e.calls && r == e.result
  {
    var pythonPath := runner.Which(python);
    if pythonPath.Failure? {
      return Failure(pythonPath.error);
    }
    ghost var steps := VenvSteps(pythonPath.value, venvPath);
    var ok := runner.Exec(pythonPath.value, [Lit("--version")]);
    if ok.Failure? {
      return ok;
    }
    assert Run(runner.host.failing, steps[1..]) == Run(runner.host.failing, [steps[1]]);
    ok := runner.Exec(pythonPath.value, [Lit("-m"), Lit("venv"), PathArg(venvPath)]);
    return ok;
  }

  /** The three pip invocations of `installSamCli` on the venv's interpreter (lib/setup.js:61-78). */
  method PipUpgrade(runner: Runner, pythonPath: Path, version: string) returns (r: Result<(), Error>)
    modifies runner`calls
    ensures var run := Run(runner.host.failing, PipSteps(pythonPath, version));
            runner.calls == old(runner.calls) + run.calls && r == run.result
  {
    ghost var steps := PipSteps(pythonPath, version);
    ghost var failing := runner.host.failing;
    assert |steps| == 3;
    assert steps[0] == Exec(pythonPath, [Lit("-m"), Lit("pip"), Lit("install"), Lit("--upgrade"), Lit("pip")]);
    assert steps[1] == Exec(pythonPath, [Lit("-m"), Lit("pip"), Lit("install"), Lit("--upgrade"), Lit("setuptools"), Lit("wheel")]);
    assert steps[2] == Exec(pythonPath, [Lit("-m"), Lit("pip"), Lit("install"), Lit("--upgrade"), Lit(PackageSpec(version))]);
    r := runner.Exec(pythonPath, [Lit("-m"), Lit("pip"), Lit("install"), Lit("--upgrade"), Lit("pip")]);
    if r.Failure? {
      RunStopsAt(failing, steps, 0);
      return;
    }
    r := runner.Exec(pythonPath, [Lit("-m"), Lit("pip"), Lit("install"), Lit("--upgrade"), Lit("setuptools"), Lit("wheel")]);
    if r.Failure? {
      RunStopsAt(failing, steps, 1);
      return;
    }
    r := runner.Exec(pythonPath, [Lit("-m"), Lit("pip"), Lit("install"), Lit("--upgrade"), Lit(PackageSpec(version))]);
    if r.Failure? {
      RunStopsAt(failing, steps, 2);
      return;
    }
    assert runner.calls == old(runner.calls) + [steps[0], steps[1], steps[2]];
    RunAllSucceed(failing, steps);
  }

  /** The link directory `<temp>/bin` and the one link in it (lib/setup.js:81-86). */
  method LinkSam(runner: Runner, temp: Path) returns (r: Result<Path, Error>)
    requires IsDir(runner.fs, temp) && NamesNothing(runner.fs, LinkDir(temp))
    modifies runner
    ensures var run := Run(runner.host.failing, LinkSteps(temp, runner.host.platform));
            && runner.calls == old(runner.calls) + run.calls
            && r == (if run.result.Success? then Success(LinkDir(temp)) else Failure(run.result.error))
    ensures runner.fs == LinkedFs(runner.host.failing, old(runner.fs), temp, runner.host.platform)
  {
    var platform := runner.host.platform;
    ghost var steps := LinkSteps(temp, platform);
    ghost var failing := runner.host.failing;
    var binPath := temp + [".venv"] + [VenvBinDir(platform)];
    var sam := SamExecutable(platform);
    assert binPath + [sam] == VenvBin(temp, platform) + [sam];
    var symlinkPath := temp + ["bin"];
    FreshBelow(runner.fs, symlinkPath, []);
    var ok := runner.MkDir(temp, "bin");
    if ok.Failure? {
      RunStopsAt(failing, steps, 0);
      return Failure(ok.error);
    }
    FreshBelow(old(runner.fs), symlinkPath, [sam]);
    ok := runner.Symlink(binPath + [sam], symlinkPath, sam);
    if ok.Failure? {
      RunStopsAt(failing, steps, 1);
      return Failure(ok.error);
    }
    assert runner.calls == old(runner.calls) + [steps[0], steps[1]];
    RunAllSucceed(failing, steps);
    return Success(symlinkPath);
  }

  /** The part of `installSamCli` after the virtual environment exists (lib/setup.js:53-86). */
  method PipInstallAndLink(runner: Runner, temp: Path, version: string) returns (r: Result<Path, Error>)
    requires IsDir(runner.fs, temp) && NamesNothing(runner.fs, LinkDir(temp))
    modifies runner
    ensures var run := Run(runner.host.failing, InstallSteps(temp, runner.host.platform, version));
            && runner.calls == old(runner.calls) + run.calls
            && r == (if run.result.Success? then Success(LinkDir(temp)) else Failure(run.result.error))
    ensures runner.fs == LinkFs(runner.host.failing, old(runner.fs), temp, runner.host.platform, version)
  {
    var platform := runner.host.platform;
    ghost var failing := runner.host.failing;
    var binPath := temp + [".venv"] + [VenvBinDir(platform)];
    var pythonPath := binPath + ["python"];
    ghost var pip := PipSteps(pythonPath, version);
    RunMakesPrefix(failing, pip);
    RunAppend(failing, pip, LinkSteps(temp, platform));
    var ok := PipUpgrade(runner, pythonPath, version);
    if ok.Failure? {
      return Failure(ok.error);
    }
    r := LinkSam(runner, temp);
  }

  /** `installSamCli(python, version)`; mkdtemp picks `suffix`. */
  method InstallSamCli(runner: Runner, python: string, version: string, suffix: string) returns (r: Result<Path, Error>)
    requires NamesNothing(runner.fs, TempDir(runner.host.tmpDir, suffix))
    modifies runner
    ensures var e := InstallEffect(runner.host, old(runner.fs), python, version, suffix);
            runner.calls == old(runner.calls) + e.calls && r == e.result
    ensures runner.fs == InstallFs(runner.host, old(runner.fs), python, version, suffix)
  {
    ghost var fs0 := runner.fs;
    var tempPath := runner.MkdTemp(runner.host.tmpDir, TempPrefix, suffix);
    if tempPath.Failure? {
      return Failure(tempPath.error);
    }
    var temp := tempPath.value;

    var venv := CreatePythonVenv(runner, python, temp + [".venv"]);
    if venv.Failure? {
      return Failure(venv.error);
    }

    InstallAfterVenv(runner.host, fs0, python, version, suffix);
    FreshBelow(fs0, temp, ["bin"]);
    r := PipInstallAndLink(runner, temp, version);
  }

  /**
   * `setup()`: validate the version, then the interpreter, install, and add the
   * link directory to PATH. mkdtemp picks `suffix`.
   */
  method Setup(runner: Runner, suffix: string) returns (r: Result<(), Error>)
    requires NamesNothing(runner.fs, TempDir(runner.host.tmpDir, suffix))
    modifies runner
    ensures var e := SetupEffect(runner.host, old(runner.fs), suffix);
            runner.calls == old(runner.calls) + e.calls && r == e.result
    ensures runner.fs == SetupFs(runner.host, old(runner.fs), suffix)
  {
    var version := GetInput(runner.host.inputs, "version", VersionPattern, "1.*");
    if version.Failure? {
      return Failure(InvalidInput(version.error));
    }
    var defaultPython := DefaultPython(runner.host.platform);
    var python := GetInput(runner.host.inputs, "python", LinePattern, defaultPython);
    if python.Failure? {
      return Failure(InvalidInput(python.error));
    }

    var binPath := InstallSamCli(runner, python.value, version.value, suffix);
    if binPath.Failure? {
      return Failure(binPath.error);
    }
    r := runner.AddPath(binPath.value);
  }
}
