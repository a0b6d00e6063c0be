/** Flit projects: recognising one from its manifest, and `flit install`. */
module Flit {
  import opened Common
  import opened Exec
  import opened Files
  import opened Manifest

  /** The build backend that marks a Flit project. */
  const Marker := "flit.buildapi"

  /** `Install`: a development install with symlinks into the environment,
      whose interpreter is named relative to the project root. */
  function Install(cwd: string): (s: Step)
    ensures Argv(s.cmd) == ["flit", "install", "--deps", "develop", "--symlink", "--python", ".venv/bin/python"]
    ensures s.cmd.dir == cwd
    ensures s.context == "could not create flit environment"
  {
    Step(Cmd("flit", ["install", "--deps", "develop", "--symlink", "--python", ".venv/bin/python"], cwd),
         "could not create flit environment")
  }

  /** `IsFlitFile`: true exactly when the manifest at `path` declares the
      Flit backend; a read or decoding error comes back with false. */
  function IsFlitFile(fs: FileSystem, path: string): (v: Verdict)
    ensures v.matches <==> DeclaresBackend(fs, path, "flit.buildapi")
    ensures v.err.Some? ==> !v.matches
    ensures v.err.None? <==> Decodes(fs, path)
  {
    Classify(fs, path, Marker)
  }

  /** A manifest that cannot be read, or that does not decode, is an error
      with false. */
  lemma BrokenManifestIsError(fs: FileSystem, path: string, cause: string)
    ensures IsFlitFile(WithFile(fs, path, Unreadable(cause)), path)
              == Verdict(false, Some(ReadFailed(path, cause)))
    ensures IsFlitFile(WithFile(fs, path, Readable(Malformed(cause))), path)
              == Verdict(false, Some(ParseFailed(cause)))
  {
  }
}
