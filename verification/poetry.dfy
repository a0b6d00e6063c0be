/** Poetry projects: recognising one from its manifest, and `poetry install`. */
module Poetry {
  import opened Common
  import opened Exec
  import opened Files
  import opened Manifest

  /** The build backend that marks a Poetry project. */
  const Marker := "poetry.core.masonry.api"

  /** `Install`: `poetry install` in the project root. */
  function Install(cwd: string): (s: Step)
    ensures Argv(s.cmd) == ["poetry", "install"]
    ensures s.cmd.dir == cwd
    ensures s.context == "could not create poetry environment"
  {
    Step(Cmd("poetry", ["install"], cwd), "could not create poetry environment")
  }

  /** `IsPoetryFile`: true exactly when the manifest at `path` declares the
      Poetry backend; a read or decoding error comes back with false. */
  function IsPoetryFile(fs: FileSystem, path: string): (v: Verdict)
    ensures v.matches <==> DeclaresBackend(fs, path, "poetry.core.masonry.api")
    ensures v.err.Some? ==> !v.matches
    ensures v.err.None? <==> Decodes(fs, path)
  {
    Classify(fs, path, Marker)
  }

  /** A manifest declaring the Poetry backend is a Poetry file, without error. */
  lemma PoetryBackendRecognised(fs: FileSystem, path: string)
    ensures IsPoetryFile(WithFile(fs, path, Readable(Decoded(Some(Marker)))), path) == Verdict(true, None)
  {
  }

  /** Any other backend, or none at all, is not a Poetry file, and not an error. */
  lemma OtherBackendRejected(fs: FileSystem, path: string, backend: Option<string>)
    requires backend != Some(Marker)
    ensures IsPoetryFile(WithFile(fs, path, Readable(Decoded(backend))), path) == Verdict(false, None)
  {
  }

  /** A manifest that cannot be read, or that does not decode, is an error
      with false: there is no silent fallback. */
  lemma BrokenManifestIsError(fs: FileSystem, path: string, cause: string)
    ensures IsPoetryFile(WithFile(fs, path, Unreadable(cause)), path)
              == Verdict(false, Some(ReadFailed(path, cause)))
    ensures IsPoetryFile(WithFile(fs, path, Readable(Malformed(cause))), path)
              == Verdict(false, Some(ParseFailed(cause)))
  {
  }
}
