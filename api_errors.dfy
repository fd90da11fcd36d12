/**
 * The `ApiError` statuses the account handlers throw, and the tagged result that
 * stands for "the handler returned a response" or "the handler threw".
 */
module ApiErrors {

  datatype Status =
    | BadRequest    // 400
    | Unauthorized  // 401
    | Forbidden     // 403
    | NotFound      // 404
    | Conflict      // 409
    | ServerError   // 500: an explicit ApiError(500) or an error that is not an ApiError

  datatype Result<+T> = Ok(value: T) | Err(status: Status)
}
