/**
 * The error records the services return (internal/utils/error.go). Each
 * constructor fills in a fixed application code, a fixed HTTP status and a
 * fixed error-type tag; the service name, read from the environment once in
 * the source, is a parameter here.
 */
module Errors {
  import opened Basics

  /** The `net/http` status constants the constructors use. */
  const StatusBadRequest := 400
  const StatusUnauthorized := 401
  const StatusNotFound := 404
  const StatusConflict := 409
  const StatusInternalServerError := 500

  datatype CustomError = CustomError(
    message: string,
    errorCode: int,
    errorType: string,
    httpStatusCode: int,
    service: string,
    success: bool)
  {
    /** What `err.Error()` prints. */
    function Error(): string {
      message
    }
  }

  function NewUnauthorizedError(service: string, message: string): (e: CustomError)
    ensures e.errorCode == 401 && e.httpStatusCode == StatusUnauthorized
    ensures e.errorType == "VALIDATION_ERROR"
    ensures e.message == message && e.service == service && !e.success
  {
    CustomError(message, 401, "VALIDATION_ERROR", StatusUnauthorized, service, false)
  }

  function NewBadRequestError(service: string, message: string): (e: CustomError)
    ensures e.errorCode == 400 && e.httpStatusCode == StatusBadRequest
    ensures e.errorType == "VALIDATION_ERROR"
    ensures e.message == message && e.service == service && !e.success
  {
    CustomError(message, 400, "VALIDATION_ERROR", StatusBadRequest, service, false)
  }

  function NewConflictError(service: string, message: string): (e: CustomError)
    ensures e.errorCode == 409 && e.httpStatusCode == StatusConflict
    ensures e.errorType == "CONFLICT_ERROR"
    ensures e.message == message && e.service == service && !e.success
  {
    CustomError(message, 409, "CONFLICT_ERROR", StatusConflict, service, false)
  }

  function NewInternalServerError(service: string, message: string): (e: CustomError)
    ensures e.errorCode == 500 && e.httpStatusCode == StatusInternalServerError
    ensures e.errorType == "VALIDATION_ERROR"
    ensures e.message == message && e.service == service && !e.success
  {
    CustomError(message, 500, "VALIDATION_ERROR", StatusInternalServerError, service, false)
  }

  function NewUnauthenticatedError(service: string, message: string): (e: CustomError)
    ensures e.errorCode == 401 && e.httpStatusCode == StatusUnauthorized
    ensures e.errorType == "VALIDATION_ERROR"
    ensures e.message == message && e.service == service && !e.success
  {
    CustomError(message, 401, "VALIDATION_ERROR", StatusUnauthorized, service, false)
  }

  function NewNotFoundError(service: string, message: string): (e: CustomError)
    ensures e.errorCode == 404 && e.httpStatusCode == StatusNotFound
    ensures e.errorType == "VALIDATION_ERROR"
    ensures e.message == message && e.service == service && !e.success
  {
    CustomError(message, 404, "VALIDATION_ERROR", StatusNotFound, service, false)
  }

  /** The classification a caller reads back from a record. */
  datatype ErrorClass = Unauthorized | BadRequest | NotFound | Conflict | InternalServer

  function Classify(e: CustomError): (c: Option<ErrorClass>)
  {
    if e.errorCode != e.httpStatusCode || e.success then None
    else if e.errorCode == 409 && e.errorType == "CONFLICT_ERROR" then Some(Conflict)
    else if e.errorType != "VALIDATION_ERROR" then None
    else if e.errorCode == 400 then Some(BadRequest)
    else if e.errorCode == 401 then Some(Unauthorized)
    else if e.errorCode == 404 then Some(NotFound)
    else if e.errorCode == 500 then Some(InternalServer)
    else None
  }

  /**
   * Every constructor keeps its message verbatim as `Error()`, reports failure,
   * agrees on application code and HTTP status, and is told apart from the
   * others by `Classify` (the two 401 constructors fall in one class).
   */
  lemma ConstructorsClassify(service: string, message: string)
    ensures var es := [NewUnauthorizedError(service, message), NewBadRequestError(service, message),
                       NewConflictError(service, message), NewInternalServerError(service, message),
                       NewUnauthenticatedError(service, message), NewNotFoundError(service, message)];
            forall i | 0 <= i < |es| ::
              es[i].Error() == message && !es[i].success && es[i].errorCode == es[i].httpStatusCode
    ensures Classify(NewUnauthorizedError(service, message)) == Some(Unauthorized)
    ensures Classify(NewBadRequestError(service, message)) == Some(BadRequest)
    ensures Classify(NewConflictError(service, message)) == Some(Conflict)
    ensures Classify(NewInternalServerError(service, message)) == Some(InternalServer)
    ensures Classify(NewUnauthenticatedError(service, message)) == Some(Unauthorized)
    ensures Classify(NewNotFoundError(service, message)) == Some(NotFound)
  {
  }

  /** `NewUnauthorizedError` and `NewUnauthenticatedError` build the same record. */
  lemma UnauthorizedIsUnauthenticated(service: string, message: string)
    ensures NewUnauthorizedError(service, message) == NewUnauthenticatedError(service, message)
  {
  }
}
