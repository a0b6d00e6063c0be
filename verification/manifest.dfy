/** The shared part of the Poetry and Flit classifiers: read the manifest,
    decode it into the program's `pyProjectTOML` record, and compare its
    `build-system.build-backend` field with a marker. */
module Manifest {
  import opened Common
  import opened Files

  /** The path names a file whose contents can be read and decoded. */
  ghost predicate Decodes(fs: FileSystem, path: string) {
    && path in fs.entries
    && fs.entries[path].File?
    && fs.entries[path].contents.Readable?
    && fs.entries[path].contents.toml.Decoded?
  }

  /** The path names a readable, well-formed manifest whose build backend, as
      the decoded record holds it, is `backend`. A manifest without the field
      leaves the record's empty string in place. */
  ghost predicate DeclaresBackend(fs: FileSystem, path: string, backend: string) {
    Decodes(fs, path) && fs.entries[path].contents.toml.buildBackend.GetOr("") == backend
  }

  /** The build backend named by the manifest at `path`, or the read or
      decoding error. */
  function BuildBackend(fs: FileSystem, path: string): (r: Result<string>)
    ensures r.Success? <==> Decodes(fs, path)
    ensures r.Success? ==> DeclaresBackend(fs, path, r.value)
    ensures ReadFile(fs, path).Err? ==> r == Failure(ReadFailed(path, ReadFile(fs, path).cause))
    ensures ReadFile(fs, path).Ok? && ReadFile(fs, path).value.Malformed? ==>
              r == Failure(ParseFailed(ReadFile(fs, path).value.cause))
  {
    match ReadFile(fs, path)
    case Err(cause) => Failure(ReadFailed(path, cause))
    case Ok(Malformed(cause)) => Failure(ParseFailed(cause))
    case Ok(Decoded(backend)) => Success(backend.GetOr(""))
  }

  /** Go's `(bool, error)` answer of a classifier: an error always comes with
      false. */
  datatype Verdict = Verdict(matches: bool, err: Option<Error>)

  /** `IsPoetryFile` and `IsFlitFile` with the marker as a parameter. */
  function Classify(fs: FileSystem, path: string, marker: string): (v: Verdict)
    ensures v.err.Some? ==> !v.matches
    ensures v.err.None? <==> Decodes(fs, path)
    ensures v.matches <==> DeclaresBackend(fs, path, marker)
    ensures BuildBackend(fs, path).Failure? ==> v.err == Some(BuildBackend(fs, path).error)
  {
    match BuildBackend(fs, path)
    case Failure(e) => Verdict(false, Some(e))
    case Success(backend) => Verdict(backend == marker, None)
  }

  /** A manifest declares at most one backend, so at most one of two
      different markers can match it. */
  lemma AtMostOneMarkerMatches(fs: FileSystem, path: string, m1: string, m2: string)
    requires m1 != m2
    ensures !(Classify(fs, path, m1).matches && Classify(fs, path, m2).matches)
  {
  }
}
