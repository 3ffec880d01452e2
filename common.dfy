/**
 * Values shared by every module: optional values, results, and the errors the
 * plugin raises (as thrown exceptions or HAP status codes).
 */
module Common {

  /** A JavaScript value that may be `null` or `undefined`. */
  datatype Option<+T> = None | Some(value: T)
  {
    function GetOr(default: T): T
    {
      match this
      case Some(v) => v
      case None => default
    }
  }

  /** Everything the modelled code can throw. */
  datatype Error =
    | NotSetUp                      // 'Ability has not yet been setup'
    | ServiceCommunicationFailure   // HAPStatus.SERVICE_COMMUNICATION_FAILURE
    | ServiceAlreadyExists          // the host refuses a second service of one type and subtype
    | DuplicateAccessory(id: string)
    | DuplicateDelegate(model: string)

  /** The value of an operation that either returns or throws. */
  datatype Result<+T> = Ok(value: T) | Err(error: Error)

  /** The value of an operation that returns nothing or throws. */
  datatype Outcome = Pass | Fail(error: Error)
}
