/** Shared wrappers and the error taxonomy of the venv command-line tool. */
module Common {

  /** An optional value. */
  datatype Option<+T> = None | Some(value: T) {
    function GetOr(default: T): T {
      match this
      case Some(v) => v
      case None => default
    }
  }

  /** The `(value, error)` pair a collaborator outside the program returns
      (the operating system, the filesystem): `cause` is the underlying
      error's text. */
  datatype Fallible<+T> = Ok(value: T) | Err(cause: string)

  /** Every error the program itself can return from `App.Run`. Each
      constructor's comment gives the message the program formats. */
  datatype Error =
    | CwdUnavailable(cause: string)            // "could not get cwd: <cause>"
    | ConflictingFlags                         // "--create and --abort are mutually exclusive"
    | ReadFailed(path: string, cause: string)  // "could not read <path>: <cause>"
    | ParseFailed(cause: string)               // "could not unmarshall toml data: <cause>"
    | CommandFailed(context: string, cause: string) // "<context>: <cause>", set by each command wrapper
    | PromptFailed(cause: string)              // "could not generate prompt: <cause>"
    | UnrecognisedOption(option: string)       // "somehow entered an unrecognised option in prompt: <option>"

  /** A computation of this program that either yields a value or one of its errors. */
  datatype Result<+T> = Success(value: T) | Failure(error: Error)
}
