/** The commands that create a standard virtual environment named `.venv`
    and install into it with pip. */
module Python {
  import opened Common
  import opened Exec

  /** The interpreter found on the search path. */
  const PathPython := "python"
  /** The environment's interpreter, relative to the project root. */
  const VenvPython := ".venv/bin/python"
  /** The fixed front of every pip invocation. */
  const PipInstall: seq<string> := ["-m", "pip", "install"]

  /** `filepath.Join(dir, rel)` for a clean directory and a clean relative
      path, which is what the program passes: the two joined by exactly one
      separator. */
  function JoinPath(dir: string, rel: string): (p: string)
    ensures |p| >= |dir| + |rel|
    ensures p[..|dir|] == dir
    ensures p[|p| - |rel|..] == rel
    ensures |p| <= |dir| + 1 + |rel|
    ensures dir != "" && dir[|dir| - 1] != '/' ==> |p| == |dir| + 1 + |rel| && p[|dir|] == '/'
  {
    if dir == "" || dir[|dir| - 1] == '/' then dir + rel else dir + "/" + rel
  }

  /** `newPythonCmd`: the interpreter on the search path, in `cwd`. */
  function NewPythonCmd(cwd: string, args: seq<string>): (c: Cmd)
    ensures c.program == "python"
    ensures c.args == args
    ensures c.dir == cwd
  {
    Cmd(PathPython, args, cwd)
  }

  /** `newVenvCmd`: the environment's interpreter, by its path under `cwd`, in `cwd`. */
  function NewVenvCmd(cwd: string, args: seq<string>): (c: Cmd)
    ensures c.program == JoinPath(cwd, ".venv/bin/python")
    ensures c.args == args
    ensures c.dir == cwd
  {
    Cmd(JoinPath(cwd, VenvPython), args, cwd)
  }

  /** The command runs the interpreter of the environment under its own
      working directory, named by joining the two paths. */
  ghost predicate UsesVenvPython(c: Cmd) {
    c.program == JoinPath(c.dir, VenvPython)
  }

  /** `CreateVenv`: `python -m venv .venv` in the project root. */
  function CreateVenv(cwd: string): (s: Step)
    ensures Argv(s.cmd) == ["python", "-m", "venv", ".venv"]
    ensures s.cmd.dir == cwd
    ensures s.context == "could not create virtual environment"
  {
    Step(NewPythonCmd(cwd, ["-m", "venv", ".venv"]), "could not create virtual environment")
  }

  /** `UpdateSeeds`: upgrade pip, setuptools and wheel with the environment's interpreter. */
  function UpdateSeeds(cwd: string): (s: Step)
    ensures UsesVenvPython(s.cmd) && s.cmd.dir == cwd
    ensures s.cmd.args == ["-m", "pip", "install", "--upgrade", "pip", "setuptools", "wheel"]
    ensures s.context == "could not update seeds"
  {
    Step(NewVenvCmd(cwd, ["-m", "pip", "install", "--upgrade", "pip", "setuptools", "wheel"]), "could not update seeds")
  }

  /** `InstallRequirements`: `pip install -r file` with the environment's
      interpreter. Its failure message is the one `UpdateSeeds` uses. */
  function InstallRequirements(cwd: string, file: string): (s: Step)
    ensures UsesVenvPython(s.cmd) && s.cmd.dir == cwd
    ensures s.cmd.args == ["-m", "pip", "install", "-r", file]
    ensures s.context == "could not update seeds"
  {
    Step(NewVenvCmd(cwd, ["-m", "pip", "install", "-r", file]), "could not update seeds")
  }

  /** Go's `%v` rendering of a string slice: the elements separated by
      single spaces, in brackets. */
  function ShowList(xs: seq<string>): string {
    "[" + JoinWords(xs) + "]"
  }

  function JoinWords(xs: seq<string>): string
    decreases |xs|
  {
    if xs == [] then ""
    else if |xs| == 1 then xs[0]
    else xs[0] + " " + JoinWords(xs[1..])
  }

  /** `Install`: `pip install` with the environment's interpreter; the
      caller's arguments follow the fixed prefix unchanged and in order. */
  function Install(cwd: string, installArgs: seq<string>): (s: Step)
    ensures UsesVenvPython(s.cmd) && s.cmd.dir == cwd
    ensures |s.cmd.args| == |PipInstall| + |installArgs|
    ensures s.cmd.args[..|PipInstall|] == PipInstall
    ensures s.cmd.args[|PipInstall|..] == installArgs
    ensures s.context == "could not install " + ShowList(installArgs)
  {
    Step(NewVenvCmd(cwd, PipInstall + installArgs), "could not install " + ShowList(installArgs))
  }

  /** The arguments a `pip install` command passes after the fixed prefix,
      if it is one. */
  function InstallArgs(c: Cmd): Option<seq<string>> {
    if |c.args| >= |PipInstall| && c.args[..|PipInstall|] == PipInstall then Some(c.args[|PipInstall|..])
    else None
  }

  /** The caller's arguments can be read back from the command `Install`
      builds, so different arguments never yield the same command. */
  lemma InstallArgsRoundTrip(cwd: string, installArgs: seq<string>)
    ensures InstallArgs(Install(cwd, installArgs).cmd) == Some(installArgs)
  {
  }

  /** `InstallRequirements` runs the same command as `Install` with
      `-r file`, and on failure reports what `UpdateSeeds` reports. */
  lemma RequirementsAreAPipInstall(cwd: string, file: string)
    ensures InstallRequirements(cwd, file).cmd == Install(cwd, ["-r", file]).cmd
    ensures InstallRequirements(cwd, file).context == UpdateSeeds(cwd).context
  {
  }

  /** Only `CreateVenv` uses the interpreter on the search path; every other
      command uses the environment's one, by the same path. */
  lemma OnlyCreateVenvUsesPathPython(cwd: string, file: string, installArgs: seq<string>)
    ensures CreateVenv(cwd).cmd.program == PathPython
    ensures UpdateSeeds(cwd).cmd.program != PathPython
    ensures InstallRequirements(cwd, file).cmd.program == UpdateSeeds(cwd).cmd.program
    ensures Install(cwd, installArgs).cmd.program == UpdateSeeds(cwd).cmd.program
  {
  }
}
