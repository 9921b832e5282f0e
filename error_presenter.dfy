/** How errors become HTTP responses (api/shared/error_presenter.rs): the
    mapping from a domain error code to a status and message, the fixed
    responses for bad requests and denied access, and the 401 responses of
    the authentication failures. */
module ErrorPresenter {
  import opened Wrappers
  import opened JwtClaims

  type U16 = x: int | 0 <= x < 0x1_0000

  /** An HTTP status code, as its numeric value. */
  type StatusCode = U16

  const BadRequest: StatusCode := 400
  const Unauthorized: StatusCode := 401
  const Forbidden: StatusCode := 403
  const NotFoundStatus: StatusCode := 404
  const InternalServerError: StatusCode := 500

  const UnknownErrorMessage: string := "Error: an unknown error occured"
  const PermissionDeniedMessage: string := "Permission denied"

  /** A JSON value, kept opaque. */
  datatype JsonValue = JsonValue(text: string)

  /** A domain error as `map_io_error` reads it: its code and its message. */
  datatype ApiError = ApiError(code: int, message: string)

  /** `ErrorResponse`: the status, the message and optional data. */
  datatype ErrorResponse = ErrorResponse(code: StatusCode, message: string, data: Option<JsonValue>)

  /** The JSON bodies: `ErrorPresenter` and `ErrorMessage`. */
  datatype PresentedError = PresentedError(code: U16, message: string, data: Option<JsonValue>)
  datatype ErrorMessage = ErrorMessage(code: Option<U16>, message: Option<string>, data: Option<JsonValue>)

  /** An HTTP response: a status and a JSON body. */
  datatype HttpResponse<B> = HttpResponse(status: StatusCode, body: B)

  /** `ErrorResponse::status_code` */
  function StatusCodeOf(e: ErrorResponse): (s: StatusCode)
    ensures s == e.code
  {
    e.code
  }

  /** `ErrorResponse::error_response`: the body repeats the status and the
      message; the data is never sent. */
  function RenderErrorResponse(e: ErrorResponse): (r: HttpResponse<PresentedError>)
    ensures r.status == StatusCodeOf(e) && r.body.code == r.status
    ensures r.body.message == e.message && r.body.data.None?
  {
    var code := StatusCodeOf(e);
    HttpResponse(code, PresentedError(code, e.message, None))
  }

  predicate IsClientErrorCode(code: int)
  {
    code == 400 || code == 401 || code == 403 || code == 404
  }

  /** `map_io_error`: 400, 401, 403 and 404 keep their status and message;
      every other code becomes 500 with a fixed message; no data. */
  function MapIoError(e: ApiError): (r: ErrorResponse)
    ensures IsClientErrorCode(e.code) ==> r.code == e.code && r.message == e.message
    ensures !IsClientErrorCode(e.code) ==> r.code == 500 && r.message == "Error: an unknown error occured"
    ensures r.data.None?
  {
    match e.code
    case 400 => ErrorResponse(BadRequest, e.message, None)
    case 401 => ErrorResponse(Unauthorized, e.message, None)
    case 403 => ErrorResponse(Forbidden, e.message, None)
    case 404 => ErrorResponse(NotFoundStatus, e.message, None)
    case _ => ErrorResponse(InternalServerError, UnknownErrorMessage, None)
  }

  /** Mapping is idempotent: a mapped error mapped once more is unchanged. */
  lemma MapIoErrorIdempotent(e: ApiError)
    ensures var r := MapIoError(e); MapIoError(ApiError(r.code, r.message)) == r
  {
  }

  /** `map_io_error_default`: 400 with the message as given. */
  function MapIoErrorDefault(message: string): (r: ErrorResponse)
    ensures r.code == 400 && r.message == message && r.data.None?
  {
    ErrorResponse(BadRequest, message, None)
  }

  /** `auth_default`: 401 "Permission denied". */
  function AuthDefault(): (r: ErrorResponse)
    ensures r.code == 401 && r.message == "Permission denied" && r.data.None?
  {
    ErrorResponse(Unauthorized, PermissionDeniedMessage, None)
  }

  /** `ClientError::status_code`: every authentication failure is 401. */
  function ClientErrorStatus(e: ClientError): (s: StatusCode)
    ensures s == 401
  {
    Unauthorized
  }

  /** `ClientError::error_response`: a 401 whose body repeats the status;
      decoding and algorithm failures say "Bad credentials", a missing token
      "Requires authentication", and NotFound passes its message through. */
  function ClientErrorResponse(e: ClientError): (r: HttpResponse<ErrorMessage>)
    ensures r.status == ClientErrorStatus(e) && r.body.code == Some(r.status) && r.body.data.None?
    ensures e.Authentication? ==> r.body.message == Some("Requires authentication")
    ensures e.Decode? || e.UnsupportedAlgortithm? ==> r.body.message == Some("Bad credentials")
    ensures e.NotFound? ==> r.body.message == Some(e.message)
  {
    var body :=
      match e
      case Authentication => ErrorMessage(Some(Unauthorized), Some("Requires authentication"), None)
      case Decode(_) => ErrorMessage(Some(Unauthorized), Some("Bad credentials"), None)
      case NotFound(msg) => ErrorMessage(Some(Unauthorized), Some(msg), None)
      case UnsupportedAlgortithm(_) => ErrorMessage(Some(Unauthorized), Some("Bad credentials"), None);
    HttpResponse(ClientErrorStatus(e), body)
  }

  /** A request the extractor refuses is answered 401: "Requires
      authentication" without a bearer token, "Bad credentials" when the token
      does not decode. */
  lemma ExtractorFailuresAre401(header: Option<string>, secret: Jwt.Secret, decode: Jwt.Decoder<Claims>)
    requires FromRequest(header, secret, decode).Failure?
    ensures var r := ClientErrorResponse(FromRequest(header, secret, decode).error);
      r.status == 401
      && r.body.message == (if BearerToken(header).None? then Some("Requires authentication") else Some("Bad credentials"))
  {
  }
}
