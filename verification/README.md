# venv dispatcher — a Dafny model

`venv` looks at the current directory of a Python project and sets up a
virtual environment the way the project's conventions suggest. It checks, in
a fixed order, for an existing `.venv` or `venv` directory, a
`requirements_dev.txt` or `requirements.txt` file, and a `pyproject.toml`
(with `setup.cfg` or `setup.py` beside it, or else a Poetry or Flit build
backend named inside it). Then it runs `python -m venv`, `pip`, `poetry` or
`flit`. When nothing is detected, the `--create`/`--abort` flags or an
interactive prompt decide.

This project models that logic as pure functions over data:

- `Files`: the filesystem as a value, with its `Exists`, `DirExists` and
  `ReadFile` queries, and the two probes `CwdHasFile` and `CwdHasDir`. The
  probes fold every query error into `false`.
- `Manifest`, `Poetry`, `Flit`: the build-backend classifiers. A file's
  contents are represented by what the TOML decoder makes of them: either a
  decoding error, or the optional `build-system.build-backend` string.
- `Python`, `Poetry`, `Flit`: the command wrappers, as records. Each record
  holds the program, the argument list and the working directory, plus the
  message the wrapper puts in front of a failure's cause.
- `Exec`: running a list of commands against an exit-status oracle. The
  first failing command ends the run, and no later command is started.
- `Cli`: `App.Run`.
  - `Decide` turns the working directory, the flags, the filesystem and the
    prompt's answer into a decision: an error, "already present", "aborted",
    or an ordered plan of commands.
  - It also records the queries made on the way (probes, manifest reads, the
    prompt), in order.
  - `Run` then executes the plan and reports the error, whether "Done" was
    printed, the queries, and the commands started.
  - Go's expressionless `switch` is modelled once, by `FirstMatch`: the first
    case whose guard holds runs, and later guards are never evaluated.
- `CliProperties`: the dispatcher's promises, stated over all inputs.

Outside effects are inputs:
- the working directory, or the error obtaining it;
- the filesystem value;
- the prompt's answer, or its error;
- the oracle that says how each command exits.

## Model

| member | source | states |
|---|---|---|
| Exec.Execute | cli/cli.go:153-161 | steps start in order; the run stops at the first failing step with that step's wrapped error, and no later step starts; no error exactly when every step succeeds |
| Exec.ExecuteStopsInPrefix | cli/cli.go:187-195 | when a step of a plan's prefix fails, running the whole plan is running the prefix alone: no later step starts |
| Exec.WrapperReportsFailure | pkg/python/python.go:46-53 | a single wrapper starts its one command and returns nil on success, or an error carrying its context and the cause on failure |
| Files.Exists | cli/files.go:7 | the filesystem's existence query: an error exactly on a stat failure; true exactly for an entry, file or directory, whose stat succeeds |
| Files.DirExists | cli/files.go:19 | the filesystem's directory query: an error exactly on a stat failure; true exactly for a directory whose stat succeeds |
| Files.ReadFile | pkg/poetry/poetry.go:50-53 | succeeds exactly on an existing, readable entry that is not a directory, and yields its contents |
| Files.CwdHasFile | cli/files.go:5-13 | true exactly when the name exists (file or directory) and stat does not fail; a stat error gives false and is not propagated |
| Files.CwdHasDir | cli/files.go:17-25 | true exactly when the name is a directory and stat does not fail; a stat error gives false |
| Files.CreatedFileIsFound | cli/files_test.go:22-35 | a created file makes `CwdHasFile` true and `CwdHasDir` false |
| Files.AbsentNameIsNotFound | cli/files_test.go:37-43 | on an empty filesystem both probes are false for any name |
| Files.CreatedDirIsFound | cli/files_test.go:52-64 | a created directory makes `CwdHasDir` true, and `CwdHasFile` too |
| Files.StatErrorReadsAsAbsent | cli/files.go:7-10 | when stat fails on a name, the queries report the error and both probes report false |
| Manifest.BuildBackend | pkg/poetry/poetry.go:47-57 | succeeds exactly on a readable, well-formed manifest and yields its backend, or the empty string when none is declared; a read failure gives the read error for that path, a malformed document the decoding error |
| Manifest.Classify | pkg/poetry/poetry.go:47-60 | matches exactly when the manifest declares the marker; an error comes with false; no error exactly when the manifest decodes |
| Manifest.AtMostOneMarkerMatches | pkg/flit/flit.go:59 | two different markers never both match one manifest |
| Python.JoinPath | pkg/python/python.go:33 | the joined path starts with the directory, ends with the relative path, and has exactly one separator between them when the directory does not end in one |
| Python.NewPythonCmd | pkg/python/python.go:21-28 | the program is `python` from the search path, the arguments are the caller's unchanged, and the command runs in `cwd` |
| Python.NewVenvCmd | pkg/python/python.go:32-40 | the program is `.venv/bin/python` joined onto `cwd`, the arguments are the caller's unchanged, and the command runs in `cwd` |
| Python.CreateVenv | pkg/python/python.go:46-53 | the command line is `python -m venv .venv`, in `cwd`, with context "could not create virtual environment" |
| Python.UpdateSeeds | pkg/python/python.go:56-63 | the environment's interpreter (`.venv/bin/python` joined onto `cwd`) runs `-m pip install --upgrade pip setuptools wheel` in `cwd`, with context "could not update seeds" |
| Python.InstallRequirements | pkg/python/python.go:67-74 | the environment's interpreter (`.venv/bin/python` joined onto `cwd`) runs `-m pip install -r file` in `cwd`, with context "could not update seeds" |
| Python.Install | pkg/python/python.go:78-87 | the environment's interpreter (`.venv/bin/python` joined onto `cwd`) runs `-m pip install` followed by the caller's arguments unchanged and in order, in `cwd` |
| Python.InstallArgsRoundTrip | pkg/python/python.go:79-81 | the caller's arguments are recovered from the command `Install` builds |
| Python.RequirementsAreAPipInstall | pkg/python/python.go:68-70 | `InstallRequirements(f)` runs the same command as `Install(["-r", f])`, and fails with `UpdateSeeds`'s message |
| Python.OnlyCreateVenvUsesPathPython | pkg/python/python.go:21-40 | `CreateVenv` uses `python` from the search path; the other three use the environment's interpreter, all by the same path |
| Poetry.Install | pkg/poetry/poetry.go:36-43 | the command line is `poetry install`, in `cwd`, with context "could not create poetry environment" |
| Poetry.IsPoetryFile | pkg/poetry/poetry.go:47-60 | true exactly when the manifest declares `poetry.core.masonry.api`; an error comes with false; no error exactly when the manifest reads and decodes |
| Poetry.PoetryBackendRecognised | pkg/poetry/poetry_test.go:124-146 | a manifest declaring the Poetry backend gives (true, no error) |
| Poetry.OtherBackendRejected | pkg/poetry/poetry_test.go:148-169 | any other backend, or none, gives (false, no error) |
| Poetry.BrokenManifestIsError | pkg/poetry/poetry.go:50-57 | an unreadable manifest gives (false, read error for that path); a malformed one gives (false, decoding error) |
| Flit.Install | pkg/flit/flit.go:36-43 | the command line is `flit install --deps develop --symlink --python .venv/bin/python`, in `cwd`, with context "could not create flit environment" |
| Flit.IsFlitFile | pkg/flit/flit.go:47-60 | true exactly when the manifest declares `flit.buildapi`; an error comes with false; no error exactly when the manifest reads and decodes |
| Flit.BrokenManifestIsError | pkg/flit/flit.go:50-57 | an unreadable manifest gives (false, read error for that path); a malformed one gives (false, decoding error) |
| Cli.FirstMatch | cli/cli.go:138-149 | the chosen case's guard holds and every earlier guard fails; the default case is chosen only when no guard holds |
| Cli.Select | cli/cli.go:138-177 | each top-level branch is taken exactly when its detector holds and every higher-priority detector fails, in the order `.venv`, `venv`, `requirements_dev.txt`, `requirements.txt`, `pyproject.toml`, nothing |
| Cli.DecidePyProject | cli/cli.go:180-244 | a plan runs only in `cwd`; the only errors are manifest read or decoding errors; the prompt is never shown |
| Cli.DecideUndetected | cli/cli.go:246-298 | any plan is exactly create-then-upgrade-seeds; the prompt is shown exactly when neither flag is given; every error comes from the prompt |
| Cli.Decide | cli/cli.go:133-300 | both flags give the flag error with no query; every planned command runs in `cwd`; "already present" exactly when a `.venv` or `venv` directory is found; the prompt only when nothing is detected and no flag is given |
| Cli.Run | cli/cli.go:125-306 | "Done" never comes with an error; without a working directory the lookup error is returned and nothing runs; a refusal's error is returned with nothing run; for a plan, no error exactly when every step succeeded; a command runs only with a working directory, compatible flags and no existing environment; every command runs in the working directory |
| CliProperties.CwdErrorComesFirst | cli/cli.go:128-131 | a working-directory error ends the run with no query and no command |
| CliProperties.ConflictingFlagsRejectedFirst | cli/cli.go:133-136 | `--create` with `--abort` is an error before any probe, manifest read, prompt or command |
| CliProperties.ExistingEnvironmentKept | cli/cli.go:139-147 | an existing `.venv` (or else `venv`) directory gives success with "Done" and no command, whatever else is present, after only the directory probes |
| CliProperties.RequirementsPlanChosen | cli/cli.go:149-175 | a requirements file gives exactly CreateVenv, UpdateSeeds, InstallRequirements(file); `requirements_dev.txt` wins over `requirements.txt` |
| CliProperties.SetuptoolsPlanChosen | cli/cli.go:180-211 | `pyproject.toml` with `setup.cfg` gives CreateVenv, UpdateSeeds, Install(`-e .[dev]`); with only `setup.py`, Install(`-e .`); only probes are made |
| CliProperties.ManifestDecides | cli/cli.go:213-243 | a lone `pyproject.toml` that does not read or decode gives its error; the Poetry backend gives only `poetry install`; else the Flit backend gives only `flit install`; any other backend gives an empty plan |
| CliProperties.UnrecognisedManifestSucceedsSilently | cli/cli.go:227-243 | a lone manifest naming neither backend gives success with "Done" and no command |
| CliProperties.NeverPoetryAndFlit | pkg/flit/flit.go:16 | no manifest is both a Poetry and a Flit manifest |
| CliProperties.FlagsActAsAnswers | cli/cli.go:252-292 | on every filesystem, `--create` decides like answering "Create a new Environment" and `--abort` like answering "Abort" |
| CliProperties.PromptAnswers | cli/cli.go:268-296 | with nothing detected and no flag, the user is prompted; the outcome is an error exactly when the answer is not one of the two options; a prompt failure is returned; "Create a new Environment" gives create-then-upgrade-seeds |
| CliProperties.AbortIsQuietSuccess | cli/cli.go:253-256 | aborting, by flag or by answer, succeeds with no command and no "Done" |
| CliProperties.FailureHaltsBranch | cli/cli.go:187-195 | in every branch the started commands are a prefix of the plan; no error, and "Done", exactly when every step succeeded; on error all but the last started command succeeded, the last failed, and the error is that step's context with the failure's cause |
| CliProperties.SetupFailureSkipsInstall | cli/cli.go:167-175 | when creating the environment or upgrading its seeds fails, the install step never starts and the run returns that error |
| CliProperties.DoneMeansCompleted | cli/cli.go:302-305 | "Done" is reported exactly when an environment already existed or the plan ran to completion |
| CliProperties.EmptyDirectoryAbortScenario | cli/cli.go:246-292 | an empty directory with the answer "Abort": all five detectors probed, then the prompt; no command; success without "Done" |
| CliProperties.RequirementsOnlyScenario | cli/cli.go:163-175 | a directory with only `requirements.txt`, all commands succeeding: exactly three commands, `python -m venv .venv`, the seed upgrade, then `pip install -r requirements.txt`; then "Done" |

## Left out

- TOML decoding (the go-toml library) is a foreign library. A file's contents are represented by the decoder's result: a decoding error, or the optional build-backend string. A field of the wrong type counts as a decoding error.
- Process spawning, stream wiring and the replaceable `pythonCommand`/`poetryCommand`/`flitCommand` variables are left out. Commands are records, and how each one exits comes from an oracle. Spawn failure and non-zero exit are one `Failed` status, as in the source.
- Python.JoinPath: joins with one `/`. This equals `filepath.Join` for the clean, absolute directory the working-directory lookup returns. Path cleaning (`.`, `..`, repeated separators) is not modelled.
- The interactive prompt's rendering is left out. Its answer, or its failure, is an input.
- The working-directory lookup is an input, including its error. The process environment and the `VENV_DEBUG` switch are left out: the switch only enables debug logging.
- Logging, the informational and warning messages, colour, and the help and version text are output formatting. Only "Done" is modelled, as the `done` flag of a run.
- Error message texts are left out. Errors are structured values; each constructor's comment gives its text. The dispatcher's `fmt.Errorf("%w", err)` re-wrapping does not change the message, so it is the identity here.
- The command-line entry point (`cmd/venv/main.go`) is plain flag parsing and exit codes. The unused cobra skeleton (`cli/cmd/root.go`) and the outdated probe variant (`cli/venv.go`) are not part of this model.
- The two classifiers read the same snapshot of the filesystem. So `IsFlitFile`'s error path after `IsPoetryFile` succeeded is kept but unreachable. A file changing between the two reads is not modelled.
- Probes leaving the filesystem unchanged needs no statement: they are pure functions of a filesystem value.

## Behaviour of the code that is easy to miss

- A directory holding only `requirements.txt` starts three commands: the seed upgrade comes between creating the environment and installing from the file.
- `cwdHasFile` is true for a directory of that name too, because it uses `Exists`.
- The "Done" confirmation is also printed when an environment already exists and when a lone `pyproject.toml` matches neither backend.
