# setup-sam: a Dafny model of the install action

This project models `lib/setup.js` of the `aws-actions/setup-sam` GitHub Action.
The action installs the AWS SAM CLI on a CI worker and puts it on PATH. It
reads two inputs, `version` and `python`. Each input falls back to a default
when empty and is checked against a regular expression. The action then:

1. creates a fresh temporary directory;
2. resolves the interpreter with `io.which`;
3. runs `--version` and `-m venv` with it;
4. runs three `pip install --upgrade` commands on the venv's interpreter (pip, then
   setuptools and wheel, then `aws-sam-cli==<version>`);
5. creates a separate `bin` directory in the temp dir, holding one symlink to the
   `sam` executable;
6. adds that directory to PATH.

How the model is laid out:

- `wrappers.dfy` (`Wrappers`): `Option`, `Result`.
- `inputs.dfy` (`Inputs`): `getInput`. Both patterns, `/^[\d.*]+$/` and `/^.+$/`,
  are read as character classes: one or more characters, anchored, no flags. So
  `\d` is ASCII `0`-`9`, and `.` excludes `\n`, `\r`, U+2028 and U+2029. The lemma
  `MatchesIsOneOrMore` ties this reading to a left-to-right reading of `C+`.
- `platform.dfy` (`Platform`): `isWindows` and the three names that depend on it,
  plus the pip requirement `aws-sam-cli==<version>` and its inverse.
- `plan.dfy` (`Plan`): the worker as a value (`Host`), the foreign calls as
  `Event`s, and each of `createPythonVenv`, `installSamCli` and `setup` as a
  function. Each function gives the calls made (in order), the result, and the
  filesystem left behind. The lemmas about those functions are the guarantees.
- `worker.dfy` (`Worker`): class `Runner`, the CI worker. It keeps the ordered
  record of calls it received and its filesystem. Its methods are the foreign
  primitives: `fs.mkdtempSync`, `io.which`, `exec.exec`, `fs.mkdirSync`,
  `fs.symlinkSync` and `core.addPath`.
- `setup.dfy` (`Setup`): `createPythonVenv`, `installSamCli` and `setup`, written
  step by step against a `Runner`. Each is proved to do exactly what its `Plan`
  function says.

Paths are lists of segments, so `path.join(a, b)` is `a + [b]`. An await that
throws ends the chain, and its error becomes the operation's `Failure`.

The code and the action's own test disagree on one point, and the model follows
the code. The test at `test/setup.test.js:64-67` expects a bare `aws-sam-cli`
argument when the version is empty. The code defaults the version to `1.*`
(`lib/setup.js:107`) and always passes `aws-sam-cli==<version>`
(`lib/setup.js:77`). `EmptyVersionPinsWildcard` states what the code does.

## Model

| member | source | states |
|---|---|---|
| `Inputs.GetInput` | lib/setup.js:98-104 | an accepted value matches the pattern; it is the raw input when that is non-empty and the default when it is empty; otherwise the result is the `<name> doesn't match <pattern>` message |
| `Inputs.Defaulted` | lib/setup.js:99 | `core.getInput(name) \|\| defaultValue`: the default is taken exactly when the input is "" or absent |
| `Inputs.Raw` | lib/setup.js:99 | an input the workflow does not set reads as "" |
| `Inputs.MismatchMessage` | lib/setup.js:101 | the thrown message starts with the input's name and ends with the pattern's text |
| `Inputs.PatternText` | lib/setup.js:101 | a pattern renders in the message as `/.../` |
| `Inputs.MatchesIsOneOrMore` | lib/setup.js:100 | the character-class reading of `^[C]+$` agrees with its left-to-right reading, for every string |
| `Inputs.GetInputIdempotent` | lib/setup.js:98-104 | feeding an accepted value back as the input returns the same value |
| `Inputs.VersionInputAccepted` | lib/setup.js:107 | the version is accepted iff it is empty or every character is an ASCII digit, `.` or `*`; empty yields `1.*`; a non-empty accepted version is returned unchanged |
| `Inputs.LineInputAccepted` | lib/setup.js:110 | with a non-empty default free of line terminators, the interpreter is accepted iff it is empty or has no line terminator; empty yields the default |
| `Inputs.VersionExamples` | test/setup.test.js:35-86 | `1.2.*` and `1.2.3` (the test's accepted versions) are accepted unchanged; `not valid` and `not\|valid` fail, with the exact message that lib/setup.js:101 builds, `version doesn't match /^[\d.*]+$/` |
| `Inputs.SuppliedInterpreterExample` | test/setup.test.js:40-44 | `/root/Python 1.2.3` is accepted and returned unchanged |
| `Platform.DefaultPython` | lib/setup.js:109 | `python` exactly on `win32`, `python3` on every other platform |
| `Platform.VenvBinDir` | lib/setup.js:53 | `Scripts` exactly on `win32`, `bin` otherwise |
| `Platform.SamExecutable` | lib/setup.js:83 | `sam.exe` exactly on `win32`, `sam` otherwise |
| `Platform.NamesSwitchTogether` | lib/setup.js:12-14 | the three names are decided by the one platform test and switch together |
| `Platform.PackageSpec` | lib/setup.js:77 | the requirement is `aws-sam-cli`, then `==`, then exactly the version |
| `Platform.SpecVersion` | lib/setup.js:77 | a requirement read back has the `aws-sam-cli==` prefix |
| `Platform.SpecRoundTrip` | lib/setup.js:77 | reading a built requirement back yields the version it was built from |
| `Platform.SpecRoundTripBack` | lib/setup.js:77 | rebuilding from a read-back version reproduces the requirement |
| `Platform.PackageSpecNeverBare` | lib/setup.js:77 | for every version the requirement differs from the bare `aws-sam-cli` |
| `Plan.LinkDirIsNotVenvBin` | lib/setup.js:53-81 | the directory put on PATH, `<temp>/bin` (line 81), is neither the venv's executable directory `<temp>/.venv/<binDir>` (lines 53-54) nor a prefix of it, and the reverse also holds |
| `Plan.RunPrefix` | lib/setup.js:57-78 | the calls a chain of awaited steps makes are a prefix of its steps |
| `Plan.RunSucceedsIff` | lib/setup.js:57-78 | a chain succeeds iff none of its steps fails, and then it made every step |
| `Plan.RunFailsLast` | lib/setup.js:57-78 | a failed chain's last call is a failing step whose error it reports, after only non-failing steps |
| `Plan.RunMakesPrefix` | lib/setup.js:57-78 | a chain of awaited commands makes a prefix of its steps; it succeeds iff no step fails, and then it made them all; otherwise it ends at the first failing step and reports that step's error |
| `Plan.RunStopsAt` | lib/setup.js:61-78 | when step k is the first that fails, exactly steps 0..k are made and step k's error is reported |
| `Plan.RunAllSucceed` | lib/setup.js:61-78 | when no step fails, every step is made and the chain succeeds |
| `Plan.RunAppend` | lib/setup.js:50-78 | running two chains one after the other runs the second only if the first succeeded |
| `Plan.InstallIsOneChain` | lib/setup.js:45-78 | once the temp dir exists and the interpreter is found, `installSamCli` is the venv commands followed by the install steps, as one chain |
| `Plan.InstallAfterVenv` | lib/setup.js:53-86 | after the venv exists, the calls and the result of `installSamCli` are those of the install steps, and the filesystem is the temp dir plus what those steps made |
| `Plan.InstallStepsShape` | lib/setup.js:57-84 | the five install steps: three pip commands on `<venv>/<binDir>/python`, then mkdir `<temp>/bin`, then the symlink |
| `Plan.FreshBelow` | lib/setup.js:22 | nothing exists below a freshly created directory |
| `Plan.InvalidInputRunsNothing` | lib/setup.js:106-110 | setup makes no call at all iff an input is malformed; the version is checked first, and its message is reported |
| `Plan.DefaultsAreValid` | lib/setup.js:107-110 | with no inputs set, the version is `1.*` and the interpreter is the platform default, and both pass validation |
| `Plan.InstallFollowsPlan` | lib/setup.js:45-87 | every run of `installSamCli` is a prefix of its plan; it succeeds iff the temp dir exists, the interpreter is found and no creation of the temp dir, command, directory or link fails; on success it made the whole plan and returns `<temp>/bin` |
| `Plan.SetupFollowsPlan` | lib/setup.js:106-114 | with valid inputs, every run of `setup` is a prefix of the one plan; it succeeds iff the system temp dir resolves to a directory, the interpreter is found and no call of the plan fails, the final `core.addPath` included; then it made the whole plan |
| `Plan.AddPathOnceAfterInstall` | lib/setup.js:112-113 | `core.addPath(<temp>/bin)` is called exactly once, as the last call, when `installSamCli` resolved, and never otherwise; setup succeeds iff, in addition, that call does not throw, and otherwise rejects with its error |
| `Plan.AddPathCountAppend` | lib/setup.js:113 | PATH additions over two call lists add up |
| `Plan.NoAddPathInPrefix` | lib/setup.js:45-87 | a prefix of steps that contain no PATH addition contains none either |
| `Plan.LinkLayout` | lib/setup.js:81-84 | in a fresh temp dir, after mkdir and symlink, `bin` holds exactly the one link; all other entries are unchanged; new entries are all inside the temp dir |
| `Plan.SetupFilesystem` | lib/setup.js:46-86 | setup changes no existing entry and adds only entries inside its temp dir; once `installSamCli` resolved, `<temp>/bin` holds exactly one entry, `<sam>` linking to `<temp>/.venv/<binDir>/<sam>`; otherwise `<temp>/bin` is absent or an empty directory |
| `Plan.SetupFsStaysInside` | lib/setup.js:46-84 | setup changes no existing entry and every entry it adds lies inside its temp dir |
| `Plan.SetupFsLinkDir` | lib/setup.js:81-86 | `<temp>/bin` holds exactly the one link once `installSamCli` resolved, and is absent or empty otherwise |
| `Plan.LinkFsFollowsRun` | lib/setup.js:61-84 | when the install steps all succeed, they leave `<temp>/bin` holding the link; when one fails, they leave either nothing new or an empty `<temp>/bin` |
| `Plan.TempDirFailureStopsSetup` | lib/setup.js:22-46 | when creating the temp dir throws, setup rejects with that error after that one call and leaves the filesystem unchanged |
| `Plan.SymlinkFailureLeavesEmptyBin` | lib/setup.js:81-113 | when only `fs.symlinkSync` throws, setup rejects with that error, never calls `core.addPath`, and leaves `<temp>/bin` behind, empty |
| `Plan.SuccessfulSetupCalls` | lib/setup.js:22-113 | on success there are exactly ten calls, each pinned: mkdtemp of `<tmpdir>/setup-sam-`, which, `--version`, `-m venv <temp>/.venv`, pip, setuptools+wheel, `aws-sam-cli==<version>` (all three pip runs on the venv interpreter), mkdir `<temp>/bin`, the symlink `<temp>/bin/<sam>` to `<temp>/.venv/<binDir>/<sam>`, addPath `<temp>/bin` |
| `Plan.WhichGetsInterpreter` | lib/setup.js:32-110 | once the temp dir is created, `io.which` (line 32) is asked for the `python` input unchanged, or for the platform default (lines 109-110) when that input is empty |
| `Plan.EmptyVersionPinsWildcard` | lib/setup.js:77-107 | with an empty version, which defaults to `1.*` (line 107), a successful run passes `aws-sam-cli==1.*` (line 77) and never the bare package name |
| `Platform.IsWindows` | lib/setup.js:12-14 | no contract of its own: `os.platform() === "win32"`; `DefaultPython`, `VenvBinDir`, `SamExecutable` and `NamesSwitchTogether` state what depends on it |
| `Inputs.Matches` | lib/setup.js:100 | no contract of its own: `pattern.test` of an anchored one-or-more class; `MatchesIsOneOrMore` ties it to the left-to-right reading, `GetInput` and `VersionInputAccepted` state its use |
| `Plan.LinkedTmpDirIsUsed` | lib/setup.js:22 | a system temp dir that is a link to a directory (as `/tmp` on macOS) is followed: mkdtemp succeeds and the temp dir is created |
| `Plan.Run` | lib/setup.js:50-78 | no contract of its own: a chain of awaited calls; `RunPrefix`, `RunSucceedsIff`, `RunFailsLast`, `RunStopsAt`, `RunAllSucceed` and `RunAppend` state its behaviour |
| `Plan.VenvEffect` | lib/setup.js:31-36 | no contract of its own: the calls and result of `createPythonVenv`; `Setup.CreatePythonVenv` is proved equal to it, and `InstallIsOneChain` and `SuccessfulSetupCalls` state its calls |
| `Plan.InstallEffect` | lib/setup.js:45-87 | no contract of its own: the calls and result of `installSamCli`; `Setup.InstallSamCli` is proved equal to it; `InstallFollowsPlan`, `InstallIsOneChain` and `InstallAfterVenv` state its behaviour |
| `Plan.SetupEffect` | lib/setup.js:106-114 | no contract of its own: the calls and result of `setup`; `Setup.Setup` is proved equal to it; `SetupFollowsPlan`, `InvalidInputRunsNothing`, `AddPathOnceAfterInstall` and `SuccessfulSetupCalls` state its behaviour |
| `Plan.InstallFs` | lib/setup.js:46-84 | no contract of its own: the filesystem `installSamCli` leaves; `Setup.InstallSamCli` is proved to leave it; `InstallAfterVenv` and `LinkFsFollowsRun` state it |
| `Plan.SetupFs` | lib/setup.js:106-114 | no contract of its own: the filesystem `setup` leaves; `Setup.Setup` is proved to leave it; `SetupFilesystem` states it |
| `Plan.VersionInput` | lib/setup.js:107 | no contract of its own: the validated `version` input with default `1.*`; `VersionInputAccepted` and `DefaultsAreValid` state it |
| `Plan.PythonInput` | lib/setup.js:109-110 | no contract of its own: the validated `python` input with the platform default; `LineInputAccepted`, `DefaultsAreValid` and `WhichGetsInterpreter` state it |
| `Worker.Runner.MkdTemp` | lib/setup.js:19-23 | records the call; creates and returns `<tmpdir>/setup-sam-<suffix>` when the system temp dir is a directory or a link to one; otherwise throws with nothing created: `NoTempDir` when that dir is missing, or the call's own error when the host makes the creation fail |
| `Worker.Runner.Which` | lib/setup.js:32 | records the lookup; returns the tool's path or fails with `NotFound` |
| `Worker.Runner.Exec` | lib/setup.js:34 | records the command; fails with that command when it exits non-zero |
| `Worker.Runner.MkDir` | lib/setup.js:82 | records the call; adds the directory, or throws with nothing created when the host makes it fail |
| `Worker.Runner.Symlink` | lib/setup.js:84 | records the call; adds the link, or throws with nothing created when the host makes it fail |
| `Worker.Runner.AddPath` | lib/setup.js:113 | records the PATH addition; throws with the call's own error when the host makes it fail |
| `Setup.CreatePythonVenv` | lib/setup.js:31-36 | makes exactly the calls `VenvEffect` gives, which, `--version` and `-m venv`, stopping at the first failure, and returns its result |
| `Setup.PipUpgrade` | lib/setup.js:61-78 | runs pip, then setuptools and wheel, then `aws-sam-cli==<version>` on the given interpreter, stopping at the first failure and reporting its error |
| `Setup.LinkSam` | lib/setup.js:81-86 | creates `<temp>/bin`, then the link `<sam>` in it to the venv's executable, stopping at the first throw; the filesystem is `LinkedFs`, i.e. nothing new, an empty `<temp>/bin`, or `<temp>/bin` with the link |
| `Setup.PipInstallAndLink` | lib/setup.js:53-86 | makes the install steps up to the first failure and returns its error, or `<temp>/bin` on success; the filesystem is `LinkFs`: `<temp>/bin` only once every pip run passed and mkdir succeeded, the link inside it once the symlink succeeded too |
| `Setup.InstallSamCli` | lib/setup.js:45-87 | its calls, result and filesystem are exactly `InstallEffect` and `InstallFs` |
| `Setup.Setup` | lib/setup.js:106-114 | its calls, result and filesystem are exactly `SetupEffect` and `SetupFs` |

## Left out

- Real side effects are not modelled. Process execution, `io.which`, the
  filesystem calls and `core.addPath` are recorded as `Event`s on a `Runner`, and
  their outcomes come from the `Host` value. What `python -m venv` and `pip`
  write to disk is not modelled, so the symlink's target is only a path.
- `Worker.Runner.MkdTemp`: the random suffix is a parameter. That it names
  nothing yet is a precondition, standing for `fs.mkdtempSync`'s uniqueness
  guarantee. Its other throws (`EACCES`, `EROFS`, `ENOSPC`) are modelled: the
  host's `failing` set decides them. A system temp dir that is a link is followed
  one level only, and the new directory is recorded under the linked name, not
  under the link's target: the aliasing of the two names is not captured.
- `Worker.Runner.MkDir`, `Worker.Runner.Symlink`: the `EEXIST` and `ENOENT`
  throws of `fs.mkdirSync`/`fs.symlinkSync` are preconditions, not error paths.
  `setup` only calls them inside its fresh temp dir, and `InstallSamCli` proves
  they hold there. Every other throw (`EACCES`, `EPERM`) is modelled: the host's
  `failing` set decides it.
- `io.which` and `exec.exec` failures carry the tool or the command, not those
  libraries' message text. `index.js` (forwarding the message to
  `core.setFailed`) is not part of this model.
- `core.getInput`'s whitespace trimming is not modelled. `Host.inputs` holds
  values as that call returns them.
- `path.join` normalisation (`.`/`..`, separators per platform) is not modelled.
  Paths are segment lists.
- The `console.log` lines in `mkdirTemp` are left out; they do nothing observable.
- Strings are sequences of Unicode scalar values, while JavaScript strings are
  UTF-16. Lone surrogates, which `.` also matches, cannot be written.
- The prebuilt-archive installer, the release-index lookup, the cache, and the
  architecture and minimum-version gate are not in `lib/setup.js`, so they are
  not modelled.
