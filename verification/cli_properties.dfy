/** What the dispatcher promises, stated over all inputs: branch priority,
    the exact plan of each branch, the flag and prompt fallbacks, and the
    stop-at-first-failure rule. */
module CliProperties {
  import opened Common
  import opened Exec
  import opened Files
  import opened Manifest
  import Python
  import Poetry
  import Flit
  import opened Cli

  predicate NoConflict(flags: Flags) {
    !(flags.create && flags.abort)
  }

  /** Failing to obtain the working directory ends the run before anything
      else happens. */
  lemma CwdErrorComesFirst(env: Environment, flags: Flags, oracle: Cmd -> Status)
    requires env.cwd.Err?
    ensures Run(env, flags, oracle) == Outcome(Some(CwdUnavailable(env.cwd.cause)), false, [], [])
  {
  }

  /** `--create` with `--abort` is an error before any probe, classification,
      prompt or command. */
  lemma ConflictingFlagsRejectedFirst(env: Environment, oracle: Cmd -> Status)
    requires env.cwd.Ok?
    ensures Run(env, Flags(true, true), oracle) == Outcome(Some(ConflictingFlags), false, [], [])
  {
  }

  /** An existing `.venv` or `venv` directory wins over every file: nothing is
      run, the run succeeds with "Done", and no probe after the matching one
      is made. */
  lemma ExistingEnvironmentKept(env: Environment, flags: Flags, oracle: Cmd -> Status)
    requires env.cwd.Ok? && NoConflict(flags) && EnvironmentPresent(env.fs)
    ensures Decide(env.cwd.value, flags, env.fs, env.answer).decision
              == AlreadyPresent(if CwdHasDir(env.fs, ".venv") then ".venv" else "venv")
    ensures Run(env, flags, oracle) ==
              Outcome(None, true,
                      if CwdHasDir(env.fs, ".venv") then [Probed(DirProbe(".venv"))]
                      else [Probed(DirProbe(".venv")), Probed(DirProbe("venv"))],
                      [])
  {
  }

  /** A requirements file (`requirements_dev.txt` before `requirements.txt`)
      yields exactly: create the environment, upgrade its seeds, install from
      that file. */
  lemma RequirementsPlanChosen(cwd: string, flags: Flags, fs: FileSystem, answer: Answer, file: string)
    requires NoConflict(flags) && !EnvironmentPresent(fs)
    requires || (file == "requirements_dev.txt" && CwdHasFile(fs, "requirements_dev.txt"))
             || (file == "requirements.txt" && !CwdHasFile(fs, "requirements_dev.txt") && CwdHasFile(fs, "requirements.txt"))
    ensures Decide(cwd, flags, fs, answer).decision ==
              Plan([Python.CreateVenv(cwd), Python.UpdateSeeds(cwd), Python.InstallRequirements(cwd, file)])
  {
  }

  /** With `pyproject.toml` and a setuptools file: create, upgrade seeds, then
      an editable install, with the `dev` extras only when `setup.cfg` is
      there (it wins over `setup.py`). The manifest is not read. */
  lemma SetuptoolsPlanChosen(cwd: string, flags: Flags, fs: FileSystem, answer: Answer)
    requires NoConflict(flags) && !EnvironmentPresent(fs) && !RequirementsPresent(fs)
    requires CwdHasFile(fs, "pyproject.toml")
    requires CwdHasFile(fs, "setup.cfg") || CwdHasFile(fs, "setup.py")
    ensures Decide(cwd, flags, fs, answer).decision ==
              Plan([Python.CreateVenv(cwd), Python.UpdateSeeds(cwd),
                    Python.Install(cwd, if CwdHasFile(fs, "setup.cfg") then ["-e", ".[dev]"] else ["-e", "."])])
    ensures forall q | q in Decide(cwd, flags, fs, answer).queries :: q.Probed?
  {
    var guards := Evaluate(fs, SetupProbes);
    assert guards == [CwdHasFile(fs, SetupCfg), CwdHasFile(fs, SetupPy)];
    var k := FirstMatch(guards);
    assert guards[1] ==> k <= 1;
    assert k == if CwdHasFile(fs, SetupCfg) then 0 else 1;
    var d := DecidePyProject(cwd, fs);
    assert d.queries == Consulted(SetupProbes, k);
  }

  /** `pyproject.toml` alone: the manifest decides. A read or decoding error
      is returned with nothing run; the Poetry backend gives only
      `poetry install`, else the Flit backend only `flit install`; any other
      backend gives an empty plan. */
  lemma ManifestDecides(cwd: string, flags: Flags, fs: FileSystem, answer: Answer)
    requires NoConflict(flags) && !EnvironmentPresent(fs) && !RequirementsPresent(fs)
    requires CwdHasFile(fs, "pyproject.toml") && !CwdHasFile(fs, "setup.cfg") && !CwdHasFile(fs, "setup.py")
    ensures var d := Decide(cwd, flags, fs, answer).decision;
            && (!Decodes(fs, "pyproject.toml") ==> d == Refuse(BuildBackend(fs, "pyproject.toml").error))
            && (DeclaresBackend(fs, "pyproject.toml", "poetry.core.masonry.api") ==> d == Plan([Poetry.Install(cwd)]))
            && (DeclaresBackend(fs, "pyproject.toml", "flit.buildapi") ==> d == Plan([Flit.Install(cwd)]))
            && ((&& Decodes(fs, "pyproject.toml")
                 && !DeclaresBackend(fs, "pyproject.toml", "poetry.core.masonry.api")
                 && !DeclaresBackend(fs, "pyproject.toml", "flit.buildapi")) ==> d == Plan([]))
  {
    var guards := Evaluate(fs, SetupProbes);
    assert guards == [CwdHasFile(fs, SetupCfg), CwdHasFile(fs, SetupPy)];
    assert FirstMatch(guards) == 2;
    AtMostOneMarkerMatches(fs, PyProjectToml, Poetry.Marker, Flit.Marker);
    var poetry := Poetry.IsPoetryFile(fs, PyProjectToml);
    var flit := Flit.IsFlitFile(fs, PyProjectToml);
    if !poetry.matches && flit.matches {
      assert FirstMatch([poetry.matches, flit.matches]) == 1;
    }
  }

  /** A manifest that names neither backend ends the run successfully, with
      "Done" and no command at all. */
  lemma UnrecognisedManifestSucceedsSilently(env: Environment, flags: Flags, oracle: Cmd -> Status)
    requires env.cwd.Ok? && NoConflict(flags) && Select(env.fs) == PyProject
    requires !CwdHasFile(env.fs, "setup.cfg") && !CwdHasFile(env.fs, "setup.py")
    requires Decodes(env.fs, "pyproject.toml")
    requires !DeclaresBackend(env.fs, "pyproject.toml", "poetry.core.masonry.api")
    requires !DeclaresBackend(env.fs, "pyproject.toml", "flit.buildapi")
    ensures Run(env, flags, oracle).err == None
    ensures Run(env, flags, oracle).done
    ensures Run(env, flags, oracle).ran == []
  {
    ManifestDecides(env.cwd.value, flags, env.fs, env.answer);
  }

  /** A manifest is never both a Poetry and a Flit manifest. */
  lemma NeverPoetryAndFlit(fs: FileSystem, path: string)
    ensures !(Poetry.IsPoetryFile(fs, path).matches && Flit.IsFlitFile(fs, path).matches)
  {
    AtMostOneMarkerMatches(fs, path, Poetry.Marker, Flit.Marker);
  }

  /** The flags are the prompt's answers given in advance: `--create` acts as
      choosing "Create a new Environment" and `--abort` as choosing "Abort",
      on every filesystem. */
  lemma FlagsActAsAnswers(cwd: string, fs: FileSystem, answer: Answer)
    ensures Decide(cwd, Flags(true, false), fs, answer).decision
              == Decide(cwd, Flags(false, false), fs, Chose("Create a new Environment")).decision
    ensures Decide(cwd, Flags(false, true), fs, answer).decision
              == Decide(cwd, Flags(false, false), fs, Chose("Abort")).decision
  {
  }

  /** Only when nothing is detected and neither flag is given is the user
      prompted; the two offered options are the only answers that do not
      end in an error. */
  lemma PromptAnswers(cwd: string, fs: FileSystem, answer: Answer)
    requires Select(fs) == Undetected
    ensures Prompted in Decide(cwd, Flags(false, false), fs, answer).queries
    ensures (Decide(cwd, Flags(false, false), fs, answer).decision.Refuse?
             <==> !(answer.Chose? && (answer.option == "Create a new Environment" || answer.option == "Abort")))
    ensures answer.PromptError? ==>
              Decide(cwd, Flags(false, false), fs, answer).decision == Refuse(PromptFailed(answer.cause))
    ensures answer == Chose("Create a new Environment") ==>
              Decide(cwd, Flags(false, false), fs, answer).decision == Plan([Python.CreateVenv(cwd), Python.UpdateSeeds(cwd)])
  {
  }

  /** Aborting, by flag or by answer, succeeds without a command and without
      "Done". */
  lemma AbortIsQuietSuccess(env: Environment, flags: Flags, oracle: Cmd -> Status)
    requires env.cwd.Ok? && NoConflict(flags) && Select(env.fs) == Undetected
    requires flags.abort || (!flags.create && env.answer == Chose("Abort"))
    ensures Run(env, flags, oracle).err == None
    ensures !Run(env, flags, oracle).done
    ensures Run(env, flags, oracle).ran == []
  {
  }

  /** Whatever the branch, its steps run in order, the first failing step's
      error is returned and no later step is started, and "Done" is reported
      exactly when every step succeeded. */
  lemma FailureHaltsBranch(env: Environment, flags: Flags, oracle: Cmd -> Status)
    requires env.cwd.Ok?
    ensures var d := Decide(env.cwd.value, flags, env.fs, env.answer).decision;
            var o := Run(env, flags, oracle);
            d.Plan? ==>
              && |o.ran| <= |d.steps|
              && (forall i | 0 <= i < |o.ran| :: o.ran[i] == d.steps[i].cmd)
              && (o.done <==> AllSucceed(d.steps, oracle))
              && (o.err.None? <==> AllSucceed(d.steps, oracle))
              && (o.done ==> |o.ran| == |d.steps|)
              && (o.err.Some? ==>
                    && 0 < |o.ran|
                    && (forall i | 0 <= i < |o.ran| - 1 :: oracle(o.ran[i]).Succeeded?)
                    && oracle(o.ran[|o.ran| - 1]).Failed?
                    && o.err.value == CommandFailed(d.steps[|o.ran| - 1].context, oracle(o.ran[|o.ran| - 1]).cause))
  {
  }

  /** When creating the environment or upgrading its seeds fails, the
      install step of a requirements or setuptools plan never starts: the run
      is that of the first two steps alone. */
  lemma SetupFailureSkipsInstall(cwd: string, install: Step, oracle: Cmd -> Status)
    requires oracle(Python.CreateVenv(cwd).cmd).Failed? || oracle(Python.UpdateSeeds(cwd).cmd).Failed?
    ensures Execute(CreatePlan(cwd) + [install], oracle) == Execute(CreatePlan(cwd), oracle)
    ensures |Execute(CreatePlan(cwd) + [install], oracle).ran| <= 2
    ensures Execute(CreatePlan(cwd) + [install], oracle).failure.Some?
  {
    assert CreatePlan(cwd)[0] == Python.CreateVenv(cwd) && CreatePlan(cwd)[1] == Python.UpdateSeeds(cwd);
    ExecuteStopsInPrefix(CreatePlan(cwd), [install], oracle);
  }

  /** "Done" is reported exactly when an existing environment was found, or
      the chosen plan ran to completion. */
  lemma DoneMeansCompleted(env: Environment, flags: Flags, oracle: Cmd -> Status)
    ensures Run(env, flags, oracle).done <==>
              && env.cwd.Ok?
              && var d := Decide(env.cwd.value, flags, env.fs, env.answer).decision;
                 d.AlreadyPresent? || (d.Plan? && AllSucceed(d.steps, oracle))
  {
  }

  /** An empty directory, no flags, "Abort" chosen: every detector is probed,
      the user is prompted, nothing is run, and the run succeeds. */
  lemma EmptyDirectoryAbortScenario(cwd: string, oracle: Cmd -> Status)
    ensures Run(Environment(Ok(cwd), Empty, Chose("Abort")), Flags(false, false), oracle) ==
              Outcome(None, false,
                      [Probed(DirProbe(".venv")), Probed(DirProbe("venv")), Probed(FileProbe("requirements_dev.txt")),
                       Probed(FileProbe("requirements.txt")), Probed(FileProbe("pyproject.toml")), Prompted],
                      [])
  {
    assert Select(Empty) == Undetected;
  }

  /** A directory holding only `requirements.txt`, every command succeeding:
      three commands run, in this order, and the run reports "Done". */
  lemma RequirementsOnlyScenario(cwd: string, oracle: Cmd -> Status)
    requires forall c :: oracle(c).Succeeded?
    ensures var o := Run(Environment(Ok(cwd), CreateFile(Empty, "requirements.txt"), Chose("Abort")), Flags(false, false), oracle);
            && o.err == None && o.done
            && |o.ran| == 3
            && Argv(o.ran[0]) == ["python", "-m", "venv", ".venv"]
            && o.ran[1].args == ["-m", "pip", "install", "--upgrade", "pip", "setuptools", "wheel"]
            && o.ran[2].args == ["-m", "pip", "install", "-r", "requirements.txt"]
            && Python.UsesVenvPython(o.ran[1]) && Python.UsesVenvPython(o.ran[2])
  {
    var fs := CreateFile(Empty, "requirements.txt");
    assert Select(fs) == Requirements;
    RequirementsPlanChosen(cwd, Flags(false, false), fs, Chose("Abort"), "requirements.txt");
  }
}
