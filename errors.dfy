/** Failure-carrying values shared by every module.

    The Python code reports failures by raising exceptions; the model returns
    them instead.  `Exc` names the exception class that the source raises (or
    lets propagate); exception messages and logging are not modelled. */
module Errors {

  datatype Option<+T> = None | Some(value: T)

  /** The exception classes the modelled code raises or lets through. */
  datatype Exc =
    | TypeError
    | ValueError
    | KeyError
    | IndexError
    | AttributeError
    | RuntimeError
    | PermissionError
    | TimeoutError
    | FileNotFoundError
    | FileExistsError
    | OSError
    | CalledProcessError
    | AuthenticationException
    | SSHException
    | PexpectTimeout

  /** A value, or the exception raised instead of returning it. */
  datatype Result<+T> = Ok(value: T) | Err(error: Exc)

  /** Completion of a procedure that returns None in the source. */
  datatype Outcome = Pass | Fail(error: Exc)

  /** Python truthiness of an optional string: None and "" are falsy. */
  predicate Truthy(s: Option<string>) {
    s.Some? && s.value != ""
  }
}
