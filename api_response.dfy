/** The response envelope `ApiResponse<T>` and its companion factories
    (src/main/kotlin/com/re100io/common/ApiResponse.kt). Every factory builds one
    immutable envelope; none of them sets `traceId`. The wall-clock `timestamp`
    default is the parameter `now`. */
module ApiResponses {
  import opened Wrappers
  import opened Jvm
  import opened ApiCodes

  datatype ApiResponse<T> = ApiResponse(
    success: bool,
    code: Int32,
    message: string,
    data: Option<T>,
    timestamp: Timestamp,
    traceId: Option<string>)

  /** The shape every failure envelope has: not successful, no data, no trace id. */
  predicate IsErrorEnvelope<T>(r: ApiResponse<T>) {
    !r.success && r.data.None? && r.traceId.None?
  }

  /** The default message of `success(data, message)`. */
  const SuccessMessage: string := "操作成功"

  /** `success(data, message = "操作成功")`: a successful envelope with code SUCCESS. */
  function Success<T>(now: Timestamp, data: Option<T> := None, message: string := SuccessMessage): (r: ApiResponse<T>)
    ensures r.success && r.data == data && r.message == message && r.traceId.None?
    ensures r.code == ApiCode.Success.Code()
  {
    ApiResponse(true, ApiCode.Success.Code(), message, data, now, None)
  }

  /** `success(code, data, message)`: a successful envelope with the entry's code and,
      unless a message is given, the entry's message. The flag is `true` whatever band
      the entry is in. */
  function SuccessWith<T>(now: Timestamp, code: ApiCode, data: Option<T> := None, message: Option<string> := None): (r: ApiResponse<T>)
    ensures r.success && r.data == data && r.traceId.None?
    ensures r.code == code.Code()
    ensures message.Some? ==> r.message == message.value
    ensures message.None? ==> r.message == code.Message()
  {
    ApiResponse(true, code.Code(), message.GetOr(code.Message()), data, now, None)
  }

  /** `error(message, code = 500)`: a failure envelope with a raw integer code. */
  function Error<T>(now: Timestamp, message: string, code: Int32 := ApiCode.InternalError.Code()): (r: ApiResponse<T>)
    ensures IsErrorEnvelope(r) && r.code == code && r.message == message
  {
    ApiResponse(false, code, message, None, now, None)
  }

  /** `error(apiCode, message)`: a failure envelope with the entry's code and,
      unless a message is given, the entry's message. */
  function ErrorWith<T>(now: Timestamp, apiCode: ApiCode, message: Option<string> := None): (r: ApiResponse<T>)
    ensures IsErrorEnvelope(r)
    ensures r.code == apiCode.Code()
    ensures message.Some? ==> r.message == message.value
    ensures message.None? ==> r.message == apiCode.Message()
  {
    ApiResponse(false, apiCode.Code(), message.GetOr(apiCode.Message()), None, now, None)
  }

  /** `validationError(message)`: the failure envelope for VALIDATION_ERROR. */
  function ValidationError<T>(now: Timestamp, message: string): (r: ApiResponse<T>)
    ensures r == ErrorWith(now, ApiCode.ValidationError, Some(message))
    ensures r.code == 1001
  {
    ApiResponse(false, ApiCode.ValidationError.Code(), message, None, now, None)
  }

  /** `notFound(message = "资源不存在")`. */
  function NotFound<T>(now: Timestamp, message: string := "资源不存在"): (r: ApiResponse<T>)
    ensures r == ErrorWith(now, ApiCode.NotFound, Some(message))
    ensures r.code == 404
  {
    ApiResponse(false, ApiCode.NotFound.Code(), message, None, now, None)
  }

  /** `unauthorized(message = "未授权访问")`. */
  function Unauthorized<T>(now: Timestamp, message: string := "未授权访问"): (r: ApiResponse<T>)
    ensures r == ErrorWith(now, ApiCode.Unauthorized, Some(message))
    ensures r.code == 401
  {
    ApiResponse(false, ApiCode.Unauthorized.Code(), message, None, now, None)
  }

  /** `forbidden(message = "禁止访问")`. */
  function Forbidden<T>(now: Timestamp, message: string := "禁止访问"): (r: ApiResponse<T>)
    ensures r == ErrorWith(now, ApiCode.Forbidden, Some(message))
    ensures r.code == 403
  {
    ApiResponse(false, ApiCode.Forbidden.Code(), message, None, now, None)
  }

  /** The default messages of `notFound`, `unauthorized` and `forbidden` are the
      canonical messages of their entries, so called without a message they equal
      `error(apiCode)`; `success()` likewise equals `success(SUCCESS)`. */
  lemma DefaultMessagesAreCanonical<T>(now: Timestamp)
    ensures NotFound<T>(now) == ErrorWith(now, ApiCode.NotFound)
    ensures Unauthorized<T>(now) == ErrorWith(now, ApiCode.Unauthorized)
    ensures Forbidden<T>(now) == ErrorWith(now, ApiCode.Forbidden)
    ensures Success<T>(now) == SuccessWith(now, ApiCode.Success)
  {
    assert ApiCode.NotFound.Message() == "资源不存在";
    assert ApiCode.Unauthorized.Message() == "未授权访问";
    assert ApiCode.Forbidden.Message() == "禁止访问";
    assert ApiCode.Success.Message() == SuccessMessage;
  }

  /** The envelope's flag is chosen by the factory, not derived from the code:
      `success(BAD_REQUEST)` is flagged successful with a client-error code, and
      `error("...", 200)` is flagged failed with a success code. */
  lemma SuccessFlagIndependentOfCode<T>(now: Timestamp, message: string)
    ensures SuccessWith<T>(now, ApiCode.BadRequest).success && IsClientError(SuccessWith<T>(now, ApiCode.BadRequest).code)
    ensures !Error<T>(now, message, 200).success && IsSuccess(Error<T>(now, message, 200).code)
  {
  }
}
