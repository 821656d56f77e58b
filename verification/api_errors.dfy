/**
 * Error classification of app/api/errors.ts: an HTTP client failure becomes
 * one of three exception kinds. `handleApiError` always throws; here it returns
 * the exception it throws, together with whether it first asked for a new
 * token (the refresh itself, and its swallowed failure, are outside the model).
 */
module ApiErrors {
  import opened Wrappers

  /** `Record<string, string[]>`: messages per form field. */
  type FieldErrors = map<string, seq<string>>

  /** The parts of a response body the handlers read: `data?.message` and `data?.errors`. */
  datatype ResponseBody = ResponseBody(message: Option<string>, errors: Option<FieldErrors>)

  /** `error.response`: the status and the body (`None` when the body is null or undefined). */
  datatype ErrorResponse = ErrorResponse(status: int, data: Option<ResponseBody>)

  /** The client's error: its message, and the response when the server answered at all. */
  datatype AxiosError = AxiosError(message: Option<string>, response: Option<ErrorResponse>)

  /** `ApiError` of app/api/types.ts. */
  datatype ApiError = ApiError(message: string, status: Option<int>, errors: Option<FieldErrors>)

  /** The three exception classes; `UnauthorizedException` is the subclass of `ApiException` for 401. */
  datatype Exception =
    | ApiException(message: string, status: Option<int>, errors: Option<FieldErrors>, originalError: AxiosError)
    | NetworkException(message: string, originalError: AxiosError)
    | UnauthorizedException(message: string, status: Option<int>, errors: Option<FieldErrors>, originalError: AxiosError)

  /** What `handleApiError` does: whether it requested a token refresh, and what it throws. */
  datatype Handled = Handled(refreshAttempted: bool, thrown: Exception)

  const NetworkErrorMessage := "Network error. Please check your connection."
  const GenericErrorMessage := "An error occurred"
  const UnauthorizedMessage := "Unauthorized. Please login again."
  const ForbiddenMessage := "Forbidden. You do not have permission."
  const NotFoundMessage := "Resource not found."
  const ValidationMessage := "Validation error."
  const ServerErrorMessage := "Server error. Please try again later."

  /** `new NetworkException(message, original)`: the default message applies only to `undefined`. */
  function NewNetworkException(message: Option<string>, originalError: AxiosError): (e: Exception)
    ensures e.NetworkException? && e.originalError == originalError
    ensures message.Some? ==> e.message == message.value
    ensures message.None? ==> e.message == NetworkErrorMessage
  {
    NetworkException(message.GetOr(NetworkErrorMessage), originalError)
  }

  /** `new UnauthorizedException(message, original)`: status 401 and no field errors. */
  function NewUnauthorizedException(message: string, originalError: AxiosError): (e: Exception)
    ensures e.UnauthorizedException? && e.message == message && e.originalError == originalError
    ensures e.status == Some(401) && e.errors == None
  {
    UnauthorizedException(message, Some(401), None, originalError)
  }

  function BodyMessage(data: Option<ResponseBody>): Option<string> {
    if data.Some? then data.value.message else None
  }

  function BodyErrors(data: Option<ResponseBody>): Option<FieldErrors> {
    if data.Some? then data.value.errors else None
  }

  /**
   * parseApiError: the status and field errors of the response, and a message
   * chosen in a fixed order of precedence, so that it is never empty.
   * With a response: the body's message, else the client's message, else the
   * generic text. Without one: the client's message, else the network text.
   * A message counts only when it is a non-empty string.
   */
  function ParseApiError(error: AxiosError): (r: ApiError)
    ensures r.message != ""
    ensures error.response.None? ==> r.status == None && r.errors == None
    ensures error.response.None? && Truthy(error.message) ==> r.message == error.message.value
    ensures error.response.None? && !Truthy(error.message) ==> r.message == NetworkErrorMessage
    ensures error.response.Some? ==>
              r.status == Some(error.response.value.status)
              && r.errors == BodyErrors(error.response.value.data)
    ensures error.response.Some? && Truthy(BodyMessage(error.response.value.data)) ==>
              r.message == BodyMessage(error.response.value.data).value
    ensures error.response.Some? && !Truthy(BodyMessage(error.response.value.data)) && Truthy(error.message) ==>
              r.message == error.message.value
    ensures error.response.Some? && !Truthy(BodyMessage(error.response.value.data)) && !Truthy(error.message) ==>
              r.message == GenericErrorMessage
  {
    match error.response
    case None =>
      ApiError(StringOr(error.message, NetworkErrorMessage), None, None)
    case Some(response) =>
      var message := StringOr(BodyMessage(response.data), StringOr(error.message, GenericErrorMessage));
      ApiError(message, Some(response.status), BodyErrors(response.data))
  }

  /** handleApiError: every path throws; the kind is decided by the presence of a response and its status. */
  function HandleApiError(error: AxiosError): (h: Handled)
    ensures h.thrown.originalError == error
    ensures h.thrown.NetworkException? <==> error.response.None?
    ensures h.thrown.UnauthorizedException? <==> error.response.Some? && error.response.value.status == 401
    ensures h.refreshAttempted <==> h.thrown.UnauthorizedException?
    ensures error.response.Some? ==> h.thrown.status == Some(error.response.value.status)
    ensures !h.thrown.NetworkException? && h.thrown.errors.Some? ==>
              error.response.value.status !in {401, 403, 404, 500}
  {
    match error.response
    case None =>
      Handled(false, NewNetworkException(error.message, error))
    case Some(response) =>
      var status := response.status;
      if status == 401 then
        Handled(true, NewUnauthorizedException(UnauthorizedMessage, error))
      else if status == 403 then
        Handled(false, ApiException(ForbiddenMessage, Some(403), None, error))
      else if status == 404 then
        Handled(false, ApiException(NotFoundMessage, Some(404), None, error))
      else if status == 422 then
        Handled(false, ApiException(ValidationMessage, Some(422), BodyErrors(response.data), error))
      else if status == 500 then
        Handled(false, ApiException(ServerErrorMessage, Some(500), None, error))
      else
        var apiError := ParseApiError(error);
        Handled(false, ApiException(apiError.message, Some(status), apiError.errors, error))
  }

  // ---------------------------------------------------------------------------
  // The status table

  /** No response: a network exception carrying the client's message (the default only when it has none). */
  lemma NoResponseIsNetwork(error: AxiosError)
    requires error.response.None?
    ensures HandleApiError(error).thrown.NetworkException?
    ensures HandleApiError(error).thrown.message == if error.message.Some? then error.message.value else NetworkErrorMessage
  {
  }

  /** 401 refreshes the token first, then throws the unauthorized exception with status 401 and no field errors. */
  lemma UnauthorizedAfterRefresh(error: AxiosError)
    requires error.response.Some? && error.response.value.status == 401
    ensures HandleApiError(error) == Handled(true, UnauthorizedException(UnauthorizedMessage, Some(401), None, error))
  {
  }

  /** 403, 404 and 500 have fixed messages, keep their status and carry no field errors. */
  lemma FixedMessageStatuses(error: AxiosError)
    requires error.response.Some? && error.response.value.status in {403, 404, 500}
    ensures var t := HandleApiError(error).thrown;
            && t.ApiException?
            && t.errors == None
            && t.message == match error.response.value.status
                            case 403 => ForbiddenMessage
                            case 404 => NotFoundMessage
                            case _ => ServerErrorMessage
  {
  }

  /** 422 is a validation error that passes on the body's field errors. */
  lemma ValidationKeepsFieldErrors(error: AxiosError)
    requires error.response.Some? && error.response.value.status == 422
    ensures HandleApiError(error).thrown
         == ApiException(ValidationMessage, Some(422), BodyErrors(error.response.value.data), error)
  {
  }

  /** Every other status is reported with parseApiError's message, status and field errors. */
  lemma OtherStatusesUseParsedError(error: AxiosError)
    requires error.response.Some? && error.response.value.status !in {401, 403, 404, 422, 500}
    ensures var t := HandleApiError(error).thrown;
            var parsed := ParseApiError(error);
            t == ApiException(parsed.message, parsed.status, parsed.errors, error)
  {
  }

  /**
   * Every exception thrown for a response has a non-empty message. Without a
   * response, an empty client message is passed on as it is, whereas
   * parseApiError would replace it with the network default.
   */
  lemma ThrownMessages(error: AxiosError)
    ensures error.response.Some? ==> HandleApiError(error).thrown.message != ""
    ensures error.response.None? && error.message == Some("") ==>
              HandleApiError(error).thrown.message == ""
              && ParseApiError(error).message == NetworkErrorMessage
  {
    var _ := ParseApiError(error);
  }

  /**
   * A non-empty body message decides the reported message whatever the client
   * says; otherwise the client's message matters only through whether it is
   * empty.
   */
  lemma ParsedMessagePrecedence(a: AxiosError, b: AxiosError)
    requires a.response == b.response
    ensures a.response.Some? && Truthy(BodyMessage(a.response.value.data)) ==> ParseApiError(a) == ParseApiError(b)
    ensures !Truthy(a.message) && !Truthy(b.message) ==> ParseApiError(a) == ParseApiError(b)
  {
  }
}
