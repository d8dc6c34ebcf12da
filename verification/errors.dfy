/** The application error the blog store and the webhook registry throw: a
    message, one of the application's error codes, and an HTTP status. */
module Errors {

  datatype ErrorCode = NotFound | DatabaseError | IntegrationError | AiProcessingError

  datatype AppError = AppError(message: string, code: ErrorCode, status: int)
}
