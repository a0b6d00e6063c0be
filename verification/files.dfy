/** The filesystem as the program sees it through its filesystem abstraction,
    and the two probes the dispatcher asks it (`cwdHasFile`, `cwdHasDir`). */
module Files {
  import opened Common

  /** What the TOML decoder makes of a file's bytes when it fills in the
      program's `pyProjectTOML` record: either a decoding error, or the
      `build-system.build-backend` value if the document has one. No other
      part of the program looks at a file's contents, so a file is represented
      by this decoding alone. */
  datatype Toml = Malformed(cause: string) | Decoded(buildBackend: Option<string>)

  /** A file's contents, or the error reading them reports. */
  datatype Contents = Unreadable(cause: string) | Readable(toml: Toml)

  datatype Entry = Dir | File(contents: Contents)

  /** The entries of the project root, by relative name, and the names on
      which `stat` fails with an error other than "does not exist"
      (permission denied and the like). */
  datatype FileSystem = FileSystem(entries: map<string, Entry>, statErrors: map<string, string>)

  datatype StatResult = Found(entry: Entry) | NotFound | StatFailed(cause: string)

  function Stat(fs: FileSystem, path: string): StatResult {
    if path in fs.statErrors then StatFailed(fs.statErrors[path])
    else if path in fs.entries then Found(fs.entries[path])
    else NotFound
  }

  /** The filesystem's `Exists`: true for any entry, file or directory;
      "does not exist" is a plain false, any other stat error is returned. */
  function Exists(fs: FileSystem, path: string): (r: Fallible<bool>)
    ensures r.Err? <==> path in fs.statErrors
    ensures r == Ok(true) <==> path in fs.entries && path !in fs.statErrors
  {
    match Stat(fs, path)
    case StatFailed(cause) => Err(cause)
    case Found(_) => Ok(true)
    case NotFound => Ok(false)
  }

  /** The filesystem's `DirExists`: true only for a directory; an existing
      file is a plain false. */
  function DirExists(fs: FileSystem, path: string): (r: Fallible<bool>)
    ensures r.Err? <==> path in fs.statErrors
    ensures r == Ok(true) <==> path in fs.entries && fs.entries[path].Dir? && path !in fs.statErrors
  {
    match Stat(fs, path)
    case StatFailed(cause) => Err(cause)
    case Found(e) => Ok(e.Dir?)
    case NotFound => Ok(false)
  }

  /** The filesystem's `ReadFile`: the contents of an existing, readable,
      non-directory entry; every other case is an error. */
  function ReadFile(fs: FileSystem, path: string): (r: Fallible<Toml>)
    ensures r.Ok? <==> path in fs.entries && fs.entries[path].File? && fs.entries[path].contents.Readable?
    ensures r.Ok? ==> r.value == fs.entries[path].contents.toml
  {
    if path !in fs.entries then Err("file does not exist")
    else match fs.entries[path]
      case Dir => Err("is a directory")
      case File(Unreadable(cause)) => Err(cause)
      case File(Readable(toml)) => Ok(toml)
  }

  /** `cwdHasFile`: true exactly when `Exists` answers true without error;
      an error is folded into false and never reaches the caller. Note that a
      directory of that name counts too. */
  function CwdHasFile(fs: FileSystem, path: string): (r: bool)
    ensures r <==> path in fs.entries && path !in fs.statErrors
    ensures Exists(fs, path).Err? ==> !r
  {
    match Exists(fs, path)
    case Err(_) => false
    case Ok(found) => found
  }

  /** `cwdHasDir`: true exactly when `DirExists` answers true without error;
      an error is folded into false. */
  function CwdHasDir(fs: FileSystem, path: string): (r: bool)
    ensures r <==> path in fs.entries && fs.entries[path].Dir? && path !in fs.statErrors
    ensures DirExists(fs, path).Err? ==> !r
  {
    match DirExists(fs, path)
    case Err(_) => false
    case Ok(found) => found
  }

  /** An in-memory filesystem with nothing in it. */
  const Empty := FileSystem(map[], map[])

  /** The filesystem with the entry at `path` replaced by a file with the
      given contents. */
  function WithFile(fs: FileSystem, path: string, contents: Contents): FileSystem {
    fs.(entries := fs.entries[path := File(contents)])
  }

  /** `Create`: a new, empty file (an empty document decodes with no backend). */
  function CreateFile(fs: FileSystem, name: string): FileSystem {
    WithFile(fs, name, Readable(Decoded(None)))
  }

  /** `Mkdir`: a new directory. */
  function Mkdir(fs: FileSystem, name: string): FileSystem {
    fs.(entries := fs.entries[name := Dir])
  }

  /** A created file is found; the probe reports true. */
  lemma CreatedFileIsFound(fs: FileSystem, name: string)
    requires name !in fs.statErrors
    ensures CwdHasFile(CreateFile(fs, name), name)
    ensures !CwdHasDir(CreateFile(fs, name), name)
  {
  }

  /** A name nothing was created under is not found. */
  lemma AbsentNameIsNotFound(name: string)
    ensures !CwdHasFile(Empty, name)
    ensures !CwdHasDir(Empty, name)
  {
  }

  /** A created directory is found by both probes: `Exists` does not tell a
      file from a directory. */
  lemma CreatedDirIsFound(fs: FileSystem, name: string)
    requires name !in fs.statErrors
    ensures CwdHasDir(Mkdir(fs, name), name)
    ensures CwdHasFile(Mkdir(fs, name), name)
  {
  }

  /** A stat error is never propagated: both probes answer false, whatever
      the entry is. */
  lemma StatErrorReadsAsAbsent(fs: FileSystem, name: string)
    requires name in fs.statErrors
    ensures !CwdHasFile(fs, name) && !CwdHasDir(fs, name)
    ensures Exists(fs, name).Err? && DirExists(fs, name).Err?
  {
  }
}
