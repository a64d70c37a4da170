/** The shared `util` project: Java's nullable references, the exception
    taxonomy the services throw, and the structured HTTP error body. */
module Util {

  /** A Java reference that may be `null`. */
  datatype Option<T> = None | Some(value: T)

  /** The exceptions that cross the modelled code. */
  datatype Error =
    | InvalidInput(message: string)       // InvalidInputException, answered with 422
    | NotFound(message: string)           // NotFoundException, answered with 404
    | EventProcessing(message: string)    // EventProcessingException, thrown by a consumer
    | HttpResponse(status: int, body: string, message: string)
                                          // WebClientResponseException: a non-2xx answer
    | NullReference                       // NullPointerException from dereferencing `null`
    | Failure(description: string)        // any other RuntimeException (a broken binder, a timeout)

  /** A call that returns a value or throws. */
  datatype Result<T> = Ok(value: T) | Err(error: Error)

  /** A `void` call that completes or throws. */
  datatype Outcome = Done | Failed(error: Error)

  /** HttpErrorInfo, the JSON error body every service answers with; its timestamp
      is a clock reading and is not modelled. */
  datatype HttpErrorInfo = HttpErrorInfo(httpStatus: int, path: string, message: string)
}
