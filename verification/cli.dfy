/** The dispatcher behind `venv`: decide from what the project root holds,
    the two flags and, when nothing is detected, the prompt's answer, what to
    do; then run the chosen commands. */
module Cli {
  import opened Common
  import opened Exec
  import opened Files
  import opened Manifest
  import Python
  import Poetry
  import Flit

  const ReqTxt := "requirements.txt"
  const ReqDev := "requirements_dev.txt"
  const PyProjectToml := "pyproject.toml"
  const VenvDir := "venv"
  const DotVenvDir := ".venv"
  const SetupCfg := "setup.cfg"
  const SetupPy := "setup.py"
  const CreateNewOption := "Create a new Environment"
  const AbortOption := "Abort"

  /** The `--create` and `--abort` flags. */
  datatype Flags = Flags(create: bool, abort: bool)

  /** What the interactive prompt returns: the selected option, or the error
      raised when it could not be shown or read. */
  datatype Answer = Chose(option: string) | PromptError(cause: string)

  /** Everything outside the program that `Run` consults: the working
      directory (or the error obtaining it), the filesystem, and the answer the
      user would give if prompted. */
  datatype Environment = Environment(cwd: Fallible<string>, fs: FileSystem, answer: Answer)

  /** A probe of the project root. */
  datatype Probe = DirProbe(name: string) | FileProbe(name: string)

  function Holds(fs: FileSystem, p: Probe): bool {
    match p
    case DirProbe(name) => CwdHasDir(fs, name)
    case FileProbe(name) => CwdHasFile(fs, name)
  }

  /** What the dispatcher asks of the outside world before running anything,
      in order: a probe, a read of the manifest by the classifier for the
      given marker, or the interactive prompt. */
  datatype Query = Probed(probe: Probe) | ReadManifest(marker: string) | Prompted

  /** The case that Go's expressionless `switch` runs: the first guard that
      holds, or `|guards|` (the `default` case) when none does. Guards after
      the chosen one are never evaluated. */
  function FirstMatch(guards: seq<bool>): (k: nat)
    ensures k <= |guards|
    ensures k < |guards| ==> guards[k]
    ensures forall j | 0 <= j < k :: !guards[j]
  {
    if guards == [] then 0
    else if guards[0] then 0
    else 1 + FirstMatch(guards[1..])
  }

  function Evaluate(fs: FileSystem, probes: seq<Probe>): (bs: seq<bool>)
    ensures |bs| == |probes|
    ensures forall i | 0 <= i < |probes| :: bs[i] == Holds(fs, probes[i])
  {
    seq(|probes|, i requires 0 <= i < |probes| => Holds(fs, probes[i]))
  }

  /** The probes a `switch` over `probes` evaluates when case `k` is chosen:
      every guard up to and including the chosen one. */
  function Consulted(probes: seq<Probe>, k: nat): (qs: seq<Query>)
    ensures |qs| == if k < |probes| then k + 1 else |probes|
    ensures forall i | 0 <= i < |qs| :: qs[i] == Probed(probes[i])
  {
    var n := if k < |probes| then k + 1 else |probes|;
    seq(n, i requires 0 <= i < n => Probed(probes[i]))
  }

  /** The top-level cases of the dispatcher, in priority order. */
  datatype Branch = ExistingDotVenv | ExistingVenv | DevRequirements | Requirements | PyProject | Undetected

  const Detectors: seq<Probe> :=
    [DirProbe(DotVenvDir), DirProbe(VenvDir), FileProbe(ReqDev), FileProbe(ReqTxt), FileProbe(PyProjectToml)]

  /** A virtual environment directory is already there. */
  predicate EnvironmentPresent(fs: FileSystem) {
    CwdHasDir(fs, DotVenvDir) || CwdHasDir(fs, VenvDir)
  }

  /** A requirements file is there. */
  predicate RequirementsPresent(fs: FileSystem) {
    CwdHasFile(fs, ReqDev) || CwdHasFile(fs, ReqTxt)
  }

  /** The top-level case taken: the first detector that holds, in the order
      `.venv`, `venv`, `requirements_dev.txt`, `requirements.txt`,
      `pyproject.toml`. */
  function Select(fs: FileSystem): (b: Branch)
    ensures b == ExistingDotVenv <==> CwdHasDir(fs, DotVenvDir)
    ensures b == ExistingVenv <==> !CwdHasDir(fs, DotVenvDir) && CwdHasDir(fs, VenvDir)
    ensures b == DevRequirements <==> !EnvironmentPresent(fs) && CwdHasFile(fs, ReqDev)
    ensures b == Requirements <==> !EnvironmentPresent(fs) && !CwdHasFile(fs, ReqDev) && CwdHasFile(fs, ReqTxt)
    ensures b == PyProject <==> !EnvironmentPresent(fs) && !RequirementsPresent(fs) && CwdHasFile(fs, PyProjectToml)
    ensures b == Undetected <==> !EnvironmentPresent(fs) && !RequirementsPresent(fs) && !CwdHasFile(fs, PyProjectToml)
  {
    var guards := Evaluate(fs, Detectors);
    assert guards == [CwdHasDir(fs, DotVenvDir), CwdHasDir(fs, VenvDir), CwdHasFile(fs, ReqDev),
                      CwdHasFile(fs, ReqTxt), CwdHasFile(fs, PyProjectToml)];
    var k := FirstMatch(guards);
    assert 1 <= k ==> !guards[0];
    assert 2 <= k ==> !guards[1];
    assert 3 <= k ==> !guards[2];
    assert 4 <= k ==> !guards[3];
    assert 5 <= k ==> !guards[4];
    if k == 0 then ExistingDotVenv
    else if k == 1 then ExistingVenv
    else if k == 2 then DevRequirements
    else if k == 3 then Requirements
    else if k == 4 then PyProject
    else Undetected
  }

  /** The position of a branch in the priority order, which is also the
      position of its detector. */
  function Rank(b: Branch): (k: nat)
    ensures k <= |Detectors|
  {
    match b
    case ExistingDotVenv => 0
    case ExistingVenv => 1
    case DevRequirements => 2
    case Requirements => 3
    case PyProject => 4
    case Undetected => 5
  }

  /** What `Run` settles on before running any command. */
  datatype Decision =
    | Refuse(err: Error)             // an error, with no command run
    | AlreadyPresent(dir: string)    // an environment exists: nothing to do
    | Aborted                        // the user chose to abort
    | Plan(steps: seq<Step>)         // run these steps in order, then report "Done"

  datatype Dispatch = Dispatch(decision: Decision, queries: seq<Query>)

  /** Create the environment and upgrade its seed packages. */
  function CreatePlan(cwd: string): seq<Step> {
    [Python.CreateVenv(cwd), Python.UpdateSeeds(cwd)]
  }

  /** ... then install from a requirements file. */
  function RequirementsPlan(cwd: string, file: string): seq<Step> {
    CreatePlan(cwd) + [Python.InstallRequirements(cwd, file)]
  }

  /** ... then `pip install` the given arguments. */
  function SetuptoolsPlan(cwd: string, installArgs: seq<string>): seq<Step> {
    CreatePlan(cwd) + [Python.Install(cwd, installArgs)]
  }

  ghost predicate InCwd(steps: seq<Step>, cwd: string) {
    forall i | 0 <= i < |steps| :: steps[i].cmd.dir == cwd
  }

  const SetupProbes: seq<Probe> := [FileProbe(SetupCfg), FileProbe(SetupPy)]

  /** The `pyproject.toml` case: a setuptools file decides first (`setup.cfg`
      before `setup.py`); otherwise the manifest is classified, Poetry first.
      A manifest of neither kind leaves nothing to do. */
  function DecidePyProject(cwd: string, fs: FileSystem): (d: Dispatch)
    ensures d.decision.Plan? ==> InCwd(d.decision.steps, cwd)
    ensures d.decision.Refuse? ==> d.decision.err.ReadFailed? || d.decision.err.ParseFailed?
    ensures Prompted !in d.queries
  {
    var k := FirstMatch(Evaluate(fs, SetupProbes));
    var looked := Consulted(SetupProbes, k);
    if k == 0 then
      Dispatch(Plan(SetuptoolsPlan(cwd, ["-e", ".[dev]"])), looked)
    else if k == 1 then
      Dispatch(Plan(SetuptoolsPlan(cwd, ["-e", "."])), looked)
    else
      var poetry := Poetry.IsPoetryFile(fs, PyProjectToml);
      match poetry.err
      case Some(e) => Dispatch(Refuse(e), looked + [ReadManifest(Poetry.Marker)])
      case None =>
        var flit := Flit.IsFlitFile(fs, PyProjectToml);
        var read := looked + [ReadManifest(Poetry.Marker), ReadManifest(Flit.Marker)];
        match flit.err
        case Some(e) => Dispatch(Refuse(e), read)
        case None =>
          var t := FirstMatch([poetry.matches, flit.matches]);
          if t == 0 then Dispatch(Plan([Poetry.Install(cwd)]), read)
          else if t == 1 then Dispatch(Plan([Flit.Install(cwd)]), read)
          else Dispatch(Plan([]), read)
  }

  /** Nothing detected: `--abort`, then `--create`, decide; without either the
      prompt's answer does, and an answer that is neither option is an error. */
  function DecideUndetected(cwd: string, flags: Flags, answer: Answer): (d: Dispatch)
    ensures d.decision.Plan? ==> d.decision.steps == CreatePlan(cwd)
    ensures Prompted in d.queries <==> !flags.abort && !flags.create
    ensures d.decision.Refuse? ==> Prompted in d.queries
  {
    var guards := [flags.abort, flags.create];
    var k := FirstMatch(guards);
    assert k == 2 ==> !guards[0] && !guards[1];
    if k == 0 then Dispatch(Aborted, [])
    else if k == 1 then Dispatch(Plan(CreatePlan(cwd)), [])
    else
      match answer
      case PromptError(cause) => Dispatch(Refuse(PromptFailed(cause)), [Prompted])
      case Chose(option) =>
        if option == CreateNewOption then Dispatch(Plan(CreatePlan(cwd)), [Prompted])
        else if option == AbortOption then Dispatch(Aborted, [Prompted])
        else Dispatch(Refuse(UnrecognisedOption(option)), [Prompted])
  }

  /** `App.Run` up to its first command: the flag check, then one branch of
      the decision tree. */
  function Decide(cwd: string, flags: Flags, fs: FileSystem, answer: Answer): (d: Dispatch)
    ensures flags.create && flags.abort ==> d == Dispatch(Refuse(ConflictingFlags), [])
    ensures d.decision.Plan? ==> InCwd(d.decision.steps, cwd)
    ensures d.decision.AlreadyPresent? <==> !(flags.create && flags.abort) && EnvironmentPresent(fs)
    ensures Prompted in d.queries ==> !flags.create && !flags.abort && Select(fs) == Undetected
  {
    if flags.create && flags.abort then
      Dispatch(Refuse(ConflictingFlags), [])
    else
      var b := Select(fs);
      var looked := Consulted(Detectors, Rank(b));
      match b
      case ExistingDotVenv => Dispatch(AlreadyPresent(DotVenvDir), looked)
      case ExistingVenv => Dispatch(AlreadyPresent(VenvDir), looked)
      case DevRequirements => Dispatch(Plan(RequirementsPlan(cwd, ReqDev)), looked)
      case Requirements => Dispatch(Plan(RequirementsPlan(cwd, ReqTxt)), looked)
      case PyProject =>
        var d := DecidePyProject(cwd, fs);
        Dispatch(d.decision, looked + d.queries)
      case Undetected =>
        var d := DecideUndetected(cwd, flags, answer);
        Dispatch(d.decision, looked + d.queries)
  }

  /** The observable end of a run: the error returned, whether "Done" was
      reported, what was asked of the environment, and which commands were
      started. */
  datatype Outcome = Outcome(err: Option<Error>, done: bool, queries: seq<Query>, ran: seq<Cmd>)

  /** `App.Run`: a working-directory error first, then the decision, then the
      plan's steps against the exit-status oracle; "Done" only when a branch
      completes without error. */
  function Run(env: Environment, flags: Flags, oracle: Cmd -> Status): (o: Outcome)
    ensures o.done ==> o.err.None?
    ensures o.ran != [] ==> env.cwd.Ok? && !(flags.create && flags.abort) && !EnvironmentPresent(env.fs)
    ensures env.cwd.Ok? ==> forall i | 0 <= i < |o.ran| :: o.ran[i].dir == env.cwd.value
    ensures env.cwd.Err? ==> o.err == Some(CwdUnavailable(env.cwd.cause)) && !o.done && o.ran == []
    ensures env.cwd.Ok? && Decide(env.cwd.value, flags, env.fs, env.answer).decision.Refuse? ==>
              var d := Decide(env.cwd.value, flags, env.fs, env.answer);
              o == Outcome(Some(d.decision.err), false, d.queries, [])
    ensures env.cwd.Ok? && Decide(env.cwd.value, flags, env.fs, env.answer).decision.Plan? ==>
              (o.err.None? <==> AllSucceed(Decide(env.cwd.value, flags, env.fs, env.answer).decision.steps, oracle))
  {
    match env.cwd
    case Err(cause) => Outcome(Some(CwdUnavailable(cause)), false, [], [])
    case Ok(cwd) =>
      var d := Decide(cwd, flags, env.fs, env.answer);
      match d.decision
      case Refuse(e) => Outcome(Some(e), false, d.queries, [])
      case AlreadyPresent(_) => Outcome(None, true, d.queries, [])
      case Aborted => Outcome(None, false, d.queries, [])
      case Plan(steps) =>
        var x := Execute(steps, oracle);
        Outcome(x.failure, x.failure.None?, d.queries, x.ran)
  }
}
