/** Shared vocabulary of the CI script model: optional values, the fatal
    errors that end the script with exit code 1, and a result type that
    carries either a value or one of those errors. */
module Base {

  /** A value that may be absent, as a JSON key that may be missing. */
  datatype Option<T> = None | Some(value: T) {

    /** The value, or `default` when absent (Python's `dict.get(key, default)`). */
    function GetOr(default: T): T {
      match this
      case Some(v) => v
      case None => default
    }
  }

  /** Every way the script terminates with exit code 1. They differ only in
      the message the script logs. */
  datatype Fatal =
    | MissingCredential     // the credential variable is unset or empty
    | TriggerRequestFailed  // the trigger POST raised or returned an error status (4xx/5xx)
    | TriggerParseFailed    // a key or the first run is missing from the trigger body
    | NoRunUrl              // the run's poll URL is empty
    | PollRequestFailed     // a poll GET raised or returned an error status (4xx/5xx)
    | PollTimeout           // the attempt ceiling was reached while still in progress

  /** Either a value or the fatal error that stopped the script. */
  datatype Result<T> = Ok(value: T) | Err(error: Fatal)

  /** The process exit code of a normal completion, whatever the test verdict. */
  const ExitSuccess: nat := 0

  /** The process exit code of every fatal error. */
  const ExitFailure: nat := 1

  /** Python's `s.startswith(prefix)`. */
  predicate StartsWith(s: string, prefix: string) {
    |prefix| <= |s| && s[..|prefix|] == prefix
  }
}
