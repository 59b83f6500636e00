/** Option for the source's nullable references, Result and Outcome for the
    exceptions its entry points throw, and the exceptions themselves. */
module Wrappers {

  datatype Option<+T> = None | Some(value: T)

  /** The exceptions the modelled code throws, with the parameter name it
      reports where it reports one. */
  datatype Error =
    | ArgumentNull(paramName: string)
    | Argument(paramName: string, message: string)
    | FileNotFound(fileName: string)
    | NotSupported
    | CredentialNotFound
    | CredentialConfiguration
    | NullReference

  datatype Result<+T> = Ok(value: T) | Err(error: Error)

  /** A call that returns nothing but may throw. */
  datatype Outcome = Pass | Fail(error: Error)

  /** .NET's string.IsNullOrEmpty on a nullable string. */
  predicate IsNullOrEmpty(s: Option<string>)
  {
    s.None? || s.value == ""
  }
}
