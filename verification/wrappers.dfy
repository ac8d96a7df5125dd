/** Optional values and the outcome of a service call. */
module Wrappers {

  datatype Option<T> = None | Some(value: T) {
    function GetOr(default: T): T {
      if Some? then value else default
    }
  }

  /** The two kinds of exception the services throw: NestJS's
      `BadRequestException` and a plain `Error`, each with its message. */
  datatype Fault = BadRequest(message: string) | Failure(message: string)

  /** What an async service method settles to: a value, or a thrown fault. */
  datatype Result<T> = Ok(value: T) | Err(fault: Fault)
}
