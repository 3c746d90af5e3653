/** Error values returned by the tunnel configuration code, and the two
    wrappers (Option for a nil-able Go `error`, Result for a value-or-error
    pair) used throughout the model. */
module Errors {

  /** A Go value that may be nil: `None` is nil. */
  datatype Option<+T> = None | Some(value: T)

  /** A Go `(value, error)` pair where exactly one side is meaningful. */
  datatype Result<+T> = Ok(value: T) | Err(error: Error)

  /** Every error the run-configuration code can return. Wrapping errors
      (`fmt.Errorf("...: %v", err)`) keep their cause. */
  datatype Error =
    | SSHConfDecode(reason: string)           // the ssh config file opened but did not decode
    | SSHConfParse(cause: Error)              // makeRunConfig's wrapper around a parseSSHConf failure
    | NoHost
    | NoUser
    | NoPort
    | NoKeyFiles
    | KnownHostsFailed(reason: string)        // knownhosts.New failed; its error is passed on unchanged
    | ClientConfigFailed(cause: Error)        // makeRunConfig's wrapper around a makeClientConfig failure
  {
    /** The text of the error as the Go code formats it. A wrapping error
        ends with the text of its cause, as `%v` prints it. */
    function Message(): (m: string)
      ensures (SSHConfParse? || ClientConfigFailed?) ==>
                |cause.Message()| < |m| && m[|m| - |cause.Message()|..] == cause.Message()
      ensures KnownHostsFailed? ==> m == reason
    {
      match this
      case SSHConfDecode(reason) => "could not decode ssh config: " + reason
      case SSHConfParse(cause) => "could not parse SSH config: " + cause.Message()
      case NoHost => "no host specified."
      case NoUser => "no user specified."
      case NoPort => "no port specified."
      case NoKeyFiles => "no key files found."
      case KnownHostsFailed(reason) => reason
      case ClientConfigFailed(cause) => "could not make client config: " + cause.Message()
    }
  }
}
