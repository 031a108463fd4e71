/** The `{success, message, data, error}` envelope every endpoint returns (backend/utils/responses.py). */
module Responses {
  import opened Wrappers

  datatype Response<+D, +E> = Response(success: bool, message: string, data: Option<D>, error: Option<E>)

  const ValidationFailed := "Validation failed"
  const DefaultResource := "Resource"
  const DefaultServerError := "Internal server error"

  /** An envelope the client can trust: a success carries no error, a failure carries no data. */
  predicate WellFormed<D, E>(r: Response<D, E>) {
    (r.success ==> r.error.None?) && (!r.success ==> r.data.None?)
  }

  function CreateResponse<D, E>(success: bool, message: string, data: Option<D>, error: Option<E>): (r: Response<D, E>)
    ensures r.success == success && r.message == message && r.data == data && r.error == error
  {
    Response(success, message, data, error)
  }

  function SuccessResponse<D>(message: string, data: Option<D>): (r: Response<D, string>)
    ensures r.success && r.message == message && r.data == data
    ensures WellFormed(r)
  {
    CreateResponse(true, message, data, None)
  }

  function ErrorResponse<D>(message: string, error: Option<string>): (r: Response<D, string>)
    ensures !r.success && r.message == message && r.error == error
    ensures WellFormed(r)
  {
    CreateResponse(false, message, None, error)
  }

  /** The error field holds the list of validation errors. */
  function ValidationErrorResponse<D, E>(errors: seq<E>): (r: Response<D, seq<E>>)
    ensures !r.success && r.message == ValidationFailed && r.error == Some(errors)
    ensures WellFormed(r)
  {
    CreateResponse(false, ValidationFailed, None, Some(errors))
  }

  /** "<resource> not found"; callers that name no resource get "Resource". */
  function NotFoundResponse<D>(resource: Option<string>): (r: Response<D, string>)
    ensures !r.success && r.error == Some("NOT_FOUND")
    ensures r.message == resource.GetOr(DefaultResource) + " not found"
    ensures WellFormed(r)
  {
    CreateResponse(false, resource.GetOr(DefaultResource) + " not found", None, Some("NOT_FOUND"))
  }

  function UnauthorizedResponse<D>(): (r: Response<D, string>)
    ensures !r.success && r.message == "Unauthorized access" && r.error == Some("UNAUTHORIZED")
    ensures WellFormed(r)
  {
    CreateResponse(false, "Unauthorized access", None, Some("UNAUTHORIZED"))
  }

  function ForbiddenResponse<D>(): (r: Response<D, string>)
    ensures !r.success && r.message == "Access forbidden" && r.error == Some("FORBIDDEN")
    ensures WellFormed(r)
  {
    CreateResponse(false, "Access forbidden", None, Some("FORBIDDEN"))
  }

  /** The message is the caller's, "Internal server error" by default. */
  function InternalServerErrorResponse<D>(errorMessage: Option<string>): (r: Response<D, string>)
    ensures !r.success && r.error == Some("INTERNAL_SERVER_ERROR")
    ensures r.message == errorMessage.GetOr(DefaultServerError)
    ensures WellFormed(r)
  {
    CreateResponse(false, errorMessage.GetOr(DefaultServerError), None, Some("INTERNAL_SERVER_ERROR"))
  }

  /** The fixed error builders are told apart by their error codes. */
  lemma ErrorCodesDistinct<D>(resource: Option<string>, errorMessage: Option<string>)
    ensures NotFoundResponse<D>(resource).error != UnauthorizedResponse<D>().error
    ensures NotFoundResponse<D>(resource).error != ForbiddenResponse<D>().error
    ensures NotFoundResponse<D>(resource).error != InternalServerErrorResponse<D>(errorMessage).error
    ensures UnauthorizedResponse<D>().error != ForbiddenResponse<D>().error
    ensures UnauthorizedResponse<D>().error != InternalServerErrorResponse<D>(errorMessage).error
    ensures ForbiddenResponse<D>().error != InternalServerErrorResponse<D>(errorMessage).error
  {
    assert "NOT_FOUND"[0] != "UNAUTHORIZED"[0];
    assert "FORBIDDEN"[0] != "INTERNAL_SERVER_ERROR"[0];
    assert "NOT_FOUND"[0] != "INTERNAL_SERVER_ERROR"[0];
  }
}
