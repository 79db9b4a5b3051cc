/** `GlobalExceptionHandler` (src/main/kotlin/com/re100io/exception/GlobalExceptionHandler.kt):
    the single boundary that turns every error into one HTTP status and one
    envelope. Each `handle*` function is a function here; `Handle` is the
    dispatch Spring performs by exception class, over a flat `Failure` datatype
    with one variant per handler. Logging, the handlers' only side effect, is
    not modelled. */
module GlobalExceptionHandler {
  import opened Wrappers
  import opened Jvm
  import opened Text
  import opened ApiCodes
  import opened ApiResponses
  import opened BusinessExceptions

  // ---------------------------------------------------------------------------
  // Errors and responses

  /** A `FieldError` of a binding result: the field and its (nullable) default message. */
  datatype FieldError = FieldError(field: string, defaultMessage: Option<string>)

  /** A bean-validation `ConstraintViolation`: its property path and message. */
  datatype ConstraintViolation = ConstraintViolation(propertyPath: string, message: string)

  /** The exception kinds the handler has a method for. Where a handler ignores the
      exception's own text, the variant still carries it, so that the model can
      show the text does not reach the client. */
  datatype Failure =
    | Business(exception: BusinessException)
    | MethodArgumentNotValid(fieldErrors: seq<FieldError>)
    | Bind(fieldErrors: seq<FieldError>)
    | ConstraintViolations(violations: seq<ConstraintViolation>)
    | MissingServletRequestParameter(parameterName: string)
    | MethodArgumentTypeMismatch(name: string, requiredType: Option<string>)
    | HttpMessageNotReadable(detail: Option<string>)
    | HttpRequestMethodNotSupported(httpMethod: string)
    | NoHandlerFound(requestUrl: string)
    | DuplicateKey(detail: Option<string>)
    | DataIntegrityViolation(detail: Option<string>)
    | Sql(detail: Option<string>)
    | Runtime(detail: Option<string>)
    | Other(detail: Option<string>)

  /** The envelope type of every handler, `ApiResponse<Nothing>`: its data is always absent. */
  type Body = ApiResponse<()>

  /** `ResponseEntity<ApiResponse<Nothing>>`: an HTTP status and an optional body. */
  datatype ResponseEntity = ResponseEntity(status: int, body: Option<Body>)

  // Spring `HttpStatus` values the handler produces.
  const StatusOk := 200
  const StatusBadRequest := 400
  const StatusUnauthorized := 401
  const StatusForbidden := 403
  const StatusNotFound := 404
  const StatusMethodNotAllowed := 405
  const StatusConflict := 409
  const StatusTooManyRequests := 429
  const StatusInternalServerError := 500

  /** The codes `getHttpStatus` passes through as their own HTTP status. */
  function PassThroughCodes(): set<int> {
    {ApiCode.NotFound.Code(), ApiCode.Unauthorized.Code(), ApiCode.Forbidden.Code(),
     ApiCode.Conflict.Code(), ApiCode.TooManyRequests.Code()}
  }

  /** `getHttpStatus(code)`: a first-match chain from a body code to an HTTP status.
      Its contract describes the result band by band, independently of the chain. */
  function GetHttpStatus(code: int): (status: int)
    ensures status == StatusOk <==> IsSuccess(code)
    ensures status == StatusInternalServerError <==> IsServerError(code)
    ensures code in PassThroughCodes() <==> status in PassThroughCodes()
    ensures code in PassThroughCodes() ==> status == code
    ensures status == StatusBadRequest <==> !IsSuccess(code) && !IsServerError(code) && code !in PassThroughCodes()
  {
    if IsSuccess(code) then StatusOk
    else if code == ApiCode.NotFound.Code() then StatusNotFound
    else if code == ApiCode.Unauthorized.Code() then StatusUnauthorized
    else if code == ApiCode.Forbidden.Code() then StatusForbidden
    else if code == ApiCode.Conflict.Code() then StatusConflict
    else if code == ApiCode.TooManyRequests.Code() then StatusTooManyRequests
    else if IsClientError(code) then StatusBadRequest
    else if IsServerError(code) then StatusInternalServerError
    else StatusBadRequest
  }

  /** Every business code, among them USER_NOT_FOUND (2001) and DATABASE_ERROR (1002),
      is answered with HTTP 400. */
  lemma BusinessCodesAreBadRequest(code: int)
    requires IsBusinessError(code)
    ensures GetHttpStatus(code) == StatusBadRequest
  {
  }

  // ---------------------------------------------------------------------------
  // Listing messages: a fixed prefix and "item, item, ..." in input order

  const ItemSeparator := ", "

  /** `"$prefix${items.joinToString(", ")}"`. */
  function ListingMessage(prefix: string, items: seq<string>): string {
    prefix + Join(items, ItemSeparator)
  }

  /** A listing message starts with its prefix. */
  lemma ListingMessageStartsWithPrefix(prefix: string, items: seq<string>)
    ensures |prefix| <= |ListingMessage(prefix, items)|
    ensures ListingMessage(prefix, items)[..|prefix|] == prefix
  {
    var message := prefix + Join(items, ItemSeparator);
    assert message[..|prefix|] == prefix;
  }

  /** In a listing message the `i`-th item stands right after the prefix and the
      earlier items with their separators. */
  lemma ListingMessagePlacesItems(prefix: string, items: seq<string>, i: nat)
    requires i < |items|
    ensures var at := |prefix| + ItemStart(items, ItemSeparator, i);
      && at + |items[i]| <= |ListingMessage(prefix, items)|
      && ListingMessage(prefix, items)[at .. at + |items[i]|] == items[i]
  {
    var joined := Join(items, ItemSeparator);
    var at := |prefix| + ItemStart(items, ItemSeparator, i);
    JoinPlacesItems(items, ItemSeparator, i);
    SliceOfRight(prefix, joined, at, at + |items[i]|);
  }

  /** In a listing message every item but the last is followed by ", ". */
  lemma ListingMessageSeparatesItems(prefix: string, items: seq<string>, i: nat)
    requires i + 1 < |items|
    ensures var after := |prefix| + ItemStart(items, ItemSeparator, i) + |items[i]|;
      && after + |ItemSeparator| <= |ListingMessage(prefix, items)|
      && ListingMessage(prefix, items)[after .. after + |ItemSeparator|] == ItemSeparator
  {
    var joined := Join(items, ItemSeparator);
    var message := prefix + joined;
    assert ListingMessage(prefix, items) == message;
    var after := |prefix| + ItemStart(items, ItemSeparator, i) + |items[i]|;
    JoinSeparatesItems(items, ItemSeparator, i);
    SliceOfRight(prefix, joined, after, after + |ItemSeparator|);
  }

  /** `"${it.field}: ${it.defaultMessage}"`. */
  function FieldErrorItem(e: FieldError): string {
    e.field + ": " + Interpolate(e.defaultMessage)
  }

  /** `fieldErrors.map { ... }`. */
  function FieldErrorItems(errors: seq<FieldError>): (items: seq<string>)
    ensures |items| == |errors|
    ensures forall i :: 0 <= i < |errors| ==> items[i] == FieldErrorItem(errors[i])
  {
    seq(|errors|, i requires 0 <= i < |errors| => FieldErrorItem(errors[i]))
  }

  /** `"${it.propertyPath}: ${it.message}"`. */
  function ViolationItem(v: ConstraintViolation): string {
    v.propertyPath + ": " + v.message
  }

  /** `constraintViolations.map { ... }`. */
  function ViolationItems(violations: seq<ConstraintViolation>): (items: seq<string>)
    ensures |items| == |violations|
    ensures forall i :: 0 <= i < |violations| ==> items[i] == ViolationItem(violations[i])
  {
    seq(|violations|, i requires 0 <= i < |violations| => ViolationItem(violations[i]))
  }

  const ValidationPrefix := "参数验证失败: "
  const BindPrefix := "参数绑定失败: "
  const ConstraintPrefix := "参数约束违反: "

  // ---------------------------------------------------------------------------
  // Handlers

  /** `handleBusinessException`: the exception's own code and message, with the
      HTTP status `getHttpStatus` derives from the code. */
  function HandleBusinessException(e: BusinessException, now: Timestamp): (r: ResponseEntity)
    ensures r.status == GetHttpStatus(e.code.Code())
    ensures r.body.Some? && IsErrorEnvelope(r.body.value)
    ensures r.body.value.code == e.code.Code() && r.body.value.message == e.message
  {
    ResponseEntity(GetHttpStatus(e.code.Code()), Some(ErrorWith(now, e.code, Some(e.message))))
  }

  /** `handleValidationException`: 400 and VALIDATION_ERROR, listing every field error. */
  function HandleValidationException(errors: seq<FieldError>, now: Timestamp): (r: ResponseEntity)
    ensures r.status == StatusBadRequest
    ensures r.body == Some(ErrorWith(now, ApiCode.ValidationError, Some(ListingMessage(ValidationPrefix, FieldErrorItems(errors)))))
  {
    var message := ValidationPrefix + Join(FieldErrorItems(errors), ", ");
    ResponseEntity(StatusBadRequest, Some(ErrorWith(now, ApiCode.ValidationError, Some(message))))
  }

  /** `handleBindException`: as validation failures, with its own prefix. */
  function HandleBindException(errors: seq<FieldError>, now: Timestamp): (r: ResponseEntity)
    ensures r.status == StatusBadRequest
    ensures r.body == Some(ErrorWith(now, ApiCode.ValidationError, Some(ListingMessage(BindPrefix, FieldErrorItems(errors)))))
  {
    var message := BindPrefix + Join(FieldErrorItems(errors), ", ");
    ResponseEntity(StatusBadRequest, Some(ErrorWith(now, ApiCode.ValidationError, Some(message))))
  }

  /** `handleConstraintViolationException`: lists every violated property. */
  function HandleConstraintViolationException(violations: seq<ConstraintViolation>, now: Timestamp): (r: ResponseEntity)
    ensures r.status == StatusBadRequest
    ensures r.body == Some(ErrorWith(now, ApiCode.ValidationError, Some(ListingMessage(ConstraintPrefix, ViolationItems(violations)))))
  {
    var message := ConstraintPrefix + Join(ViolationItems(violations), ", ");
    ResponseEntity(StatusBadRequest, Some(ErrorWith(now, ApiCode.ValidationError, Some(message))))
  }

  const MissingParameterPrefix := "缺少必需参数: "

  /** `handleMissingParameterException`: 400 and BAD_REQUEST, naming the parameter. */
  function HandleMissingParameterException(parameterName: string, now: Timestamp): (r: ResponseEntity)
    ensures r.status == StatusBadRequest && r.body.Some? && IsErrorEnvelope(r.body.value)
    ensures r.body.value.code == ApiCode.BadRequest.Code()
    ensures |r.body.value.message| >= |MissingParameterPrefix|
    ensures r.body.value.message[..|MissingParameterPrefix|] == MissingParameterPrefix
    ensures r.body.value.message[|MissingParameterPrefix|..] == parameterName
  {
    var message := MissingParameterPrefix + parameterName;
    ResponseEntity(StatusBadRequest, Some(ErrorWith(now, ApiCode.BadRequest, Some(message))))
  }

  const TypeMismatchPrefix := "参数类型错误: "
  const TypeMismatchInfix := " 应为 "

  /** `handleTypeMismatchException`: 400 and BAD_REQUEST, naming the parameter and
      the simple name of the required type ("null" when unknown). */
  function HandleTypeMismatchException(name: string, requiredType: Option<string>, now: Timestamp): (r: ResponseEntity)
    ensures r.status == StatusBadRequest && r.body.Some? && IsErrorEnvelope(r.body.value)
    ensures r.body.value.code == ApiCode.BadRequest.Code()
    ensures r.body.value.message == TypeMismatchPrefix + name + TypeMismatchInfix + Interpolate(requiredType)
  {
    var message := TypeMismatchPrefix + name + TypeMismatchInfix + Interpolate(requiredType);
    ResponseEntity(StatusBadRequest, Some(ErrorWith(now, ApiCode.BadRequest, Some(message))))
  }

  /** `handleHttpMessageNotReadableException`: 400, BAD_REQUEST and a fixed message. */
  function HandleHttpMessageNotReadableException(now: Timestamp): (r: ResponseEntity)
    ensures r.status == StatusBadRequest
    ensures r.body == Some(ErrorWith(now, ApiCode.BadRequest, Some("请求体格式错误")))
  {
    ResponseEntity(StatusBadRequest, Some(ErrorWith(now, ApiCode.BadRequest, Some("请求体格式错误"))))
  }

  const MethodNotSupportedPrefix := "不支持的请求方法: "

  /** `handleMethodNotSupportedException`: 405 and METHOD_NOT_ALLOWED, naming the method. */
  function HandleMethodNotSupportedException(httpMethod: string, now: Timestamp): (r: ResponseEntity)
    ensures r.status == StatusMethodNotAllowed && r.body.Some? && IsErrorEnvelope(r.body.value)
    ensures r.body.value.code == ApiCode.MethodNotAllowed.Code()
    ensures |r.body.value.message| >= |MethodNotSupportedPrefix|
    ensures r.body.value.message[..|MethodNotSupportedPrefix|] == MethodNotSupportedPrefix
    ensures r.body.value.message[|MethodNotSupportedPrefix|..] == httpMethod
  {
    var message := MethodNotSupportedPrefix + httpMethod;
    ResponseEntity(StatusMethodNotAllowed, Some(ErrorWith(now, ApiCode.MethodNotAllowed, Some(message))))
  }

  /** `handleNoHandlerFoundException`: the NOT_FOUND envelope is built and then
      discarded; the response is a bare 404 without a body. */
  function HandleNoHandlerFoundException(requestUrl: string, now: Timestamp): (r: ResponseEntity)
    ensures r.status == StatusNotFound && r.body.None?
  {
    var discarded: Body := ErrorWith(now, ApiCode.NotFound, Some("请求的资源不存在: " + requestUrl));
    ResponseEntity(StatusNotFound, None)
  }

  const UsernameTakenMessage := "用户名已存在"
  const EmailTakenMessage := "邮箱已存在"
  const DataTakenMessage := "数据已存在"

  /** The message `handleDuplicateKeyException` chooses by sniffing the database's
      error text: "username" (any case) wins over "email"; otherwise, or without a
      text, a generic message. */
  function DuplicateKeyMessage(detail: Option<string>): (m: string)
    ensures m == UsernameTakenMessage || m == EmailTakenMessage || m == DataTakenMessage
    ensures detail.None? ==> m == DataTakenMessage
  {
    if detail.Some? && Contains(detail.value, "username", true) then UsernameTakenMessage
    else if detail.Some? && Contains(detail.value, "email", true) then EmailTakenMessage
    else DataTakenMessage
  }

  /** The duplicate-key message names the username exactly when the text mentions
      it somewhere, and names the email exactly when the text mentions the email
      and nowhere the username. */
  lemma DuplicateKeyMessageChoice(detail: Option<string>)
    ensures DuplicateKeyMessage(detail) == UsernameTakenMessage <==>
      detail.Some? && exists i :: MatchesAt(detail.value, "username", i, true)
    ensures DuplicateKeyMessage(detail) == EmailTakenMessage <==>
      detail.Some? && (forall i :: !MatchesAt(detail.value, "username", i, true))
                   && exists i :: MatchesAt(detail.value, "email", i, true)
  {
    if detail.Some? {
      ContainsIffOccurs(detail.value, "username", true);
      ContainsIffOccurs(detail.value, "email", true);
    }
  }

  /** `handleDuplicateKeyException`: 409 and CONFLICT with the sniffed message. */
  function HandleDuplicateKeyException(detail: Option<string>, now: Timestamp): (r: ResponseEntity)
    ensures r.status == StatusConflict
    ensures r.body == Some(ErrorWith(now, ApiCode.Conflict, Some(DuplicateKeyMessage(detail))))
  {
    ResponseEntity(StatusConflict, Some(ErrorWith(now, ApiCode.Conflict, Some(DuplicateKeyMessage(detail)))))
  }

  /** `handleDataIntegrityViolationException`: 400 and DATA_INTEGRITY_ERROR. */
  function HandleDataIntegrityViolationException(now: Timestamp): (r: ResponseEntity)
    ensures r.status == StatusBadRequest
    ensures r.body == Some(ErrorWith(now, ApiCode.DataIntegrityError, Some("数据完整性约束违反")))
  {
    ResponseEntity(StatusBadRequest, Some(ErrorWith(now, ApiCode.DataIntegrityError, Some("数据完整性约束违反"))))
  }

  /** `handleSQLException`: 500 and DATABASE_ERROR with a fixed message. */
  function HandleSqlException(now: Timestamp): (r: ResponseEntity)
    ensures r.status == StatusInternalServerError
    ensures r.body == Some(ErrorWith(now, ApiCode.DatabaseError, Some("数据库操作失败")))
  {
    ResponseEntity(StatusInternalServerError, Some(ErrorWith(now, ApiCode.DatabaseError, Some("数据库操作失败"))))
  }

  /** `handleRuntimeException`: 500 and INTERNAL_ERROR with a fixed message. */
  function HandleRuntimeException(now: Timestamp): (r: ResponseEntity)
    ensures r.status == StatusInternalServerError
    ensures r.body == Some(ErrorWith(now, ApiCode.InternalError, Some("系统运行异常")))
  {
    ResponseEntity(StatusInternalServerError, Some(ErrorWith(now, ApiCode.InternalError, Some("系统运行异常"))))
  }

  /** `handleException`: 500 and INTERNAL_ERROR with a fixed message. */
  function HandleException(now: Timestamp): (r: ResponseEntity)
    ensures r.status == StatusInternalServerError
    ensures r.body == Some(ErrorWith(now, ApiCode.InternalError, Some("系统内部错误")))
  {
    ResponseEntity(StatusInternalServerError, Some(ErrorWith(now, ApiCode.InternalError, Some("系统内部错误"))))
  }

  /** The statuses the handler can answer with. */
  function HandlerStatuses(): set<int> {
    {StatusOk, StatusBadRequest, StatusUnauthorized, StatusForbidden, StatusNotFound,
     StatusMethodNotAllowed, StatusConflict, StatusTooManyRequests, StatusInternalServerError}
  }

  /** The whole boundary: every failure is answered with exactly one status and,
      except for an unmapped route, one failure envelope. */
  function Handle(f: Failure, now: Timestamp): (r: ResponseEntity)
    ensures r.status in HandlerStatuses()
    ensures r.body.None? <==> f.NoHandlerFound?
    ensures r.body.Some? ==> IsErrorEnvelope(r.body.value) && r.body.value.timestamp == now
  {
    match f
    case Business(e) => HandleBusinessException(e, now)
    case MethodArgumentNotValid(errors) => HandleValidationException(errors, now)
    case Bind(errors) => HandleBindException(errors, now)
    case ConstraintViolations(violations) => HandleConstraintViolationException(violations, now)
    case MissingServletRequestParameter(name) => HandleMissingParameterException(name, now)
    case MethodArgumentTypeMismatch(name, requiredType) => HandleTypeMismatchException(name, requiredType, now)
    case HttpMessageNotReadable(_) => HandleHttpMessageNotReadableException(now)
    case HttpRequestMethodNotSupported(httpMethod) => HandleMethodNotSupportedException(httpMethod, now)
    case NoHandlerFound(url) => HandleNoHandlerFoundException(url, now)
    case DuplicateKey(detail) => HandleDuplicateKeyException(detail, now)
    case DataIntegrityViolation(_) => HandleDataIntegrityViolationException(now)
    case Sql(_) => HandleSqlException(now)
    case Runtime(_) => HandleRuntimeException(now)
    case Other(_) => HandleException(now)
  }

  /** 5xx answers do not depend on the exception's own text: nothing internal
      leaks to the client. */
  lemma ServerErrorsHideDetail(a: Option<string>, b: Option<string>, now: Timestamp)
    ensures Handle(Sql(a), now) == Handle(Sql(b), now)
    ensures Handle(Runtime(a), now) == Handle(Runtime(b), now)
    ensures Handle(Other(a), now) == Handle(Other(b), now)
  {
    assert Handle(Sql(a), now) == HandleSqlException(now) == Handle(Sql(b), now);
    assert Handle(Runtime(a), now) == HandleRuntimeException(now) == Handle(Runtime(b), now);
    assert Handle(Other(a), now) == HandleException(now) == Handle(Other(b), now);
  }

  /** The fixed-message 400 answers do not depend on the exception's text either. */
  lemma ClientErrorsHideDetail(a: Option<string>, b: Option<string>, now: Timestamp)
    ensures Handle(DataIntegrityViolation(a), now) == Handle(DataIntegrityViolation(b), now)
    ensures Handle(HttpMessageNotReadable(a), now) == Handle(HttpMessageNotReadable(b), now)
  {
    assert Handle(DataIntegrityViolation(a), now) == HandleDataIntegrityViolationException(now)
        == Handle(DataIntegrityViolation(b), now);
    assert Handle(HttpMessageNotReadable(a), now) == HandleHttpMessageNotReadableException(now)
        == Handle(HttpMessageNotReadable(b), now);
  }

  /** A validation failure's message lists every offending field as "field: message",
      in input order, separated by ", ", after the fixed prefix. */
  lemma ValidationMessageListsFields(errors: seq<FieldError>, now: Timestamp, i: nat)
    requires i < |errors|
    ensures var message := Handle(MethodArgumentNotValid(errors), now).body.value.message;
      var at := |ValidationPrefix| + ItemStart(FieldErrorItems(errors), ItemSeparator, i);
      && message[..|ValidationPrefix|] == ValidationPrefix
      && at + |FieldErrorItem(errors[i])| <= |message|
      && message[at .. at + |FieldErrorItem(errors[i])|] == FieldErrorItem(errors[i])
  {
    ListingMessageStartsWithPrefix(ValidationPrefix, FieldErrorItems(errors));
    ListingMessagePlacesItems(ValidationPrefix, FieldErrorItems(errors), i);
  }

  /** The same code, two statuses: DATABASE_ERROR raised as a business exception is
      answered 400, the same code produced by an SQL failure is answered 500. */
  lemma DatabaseErrorStatusDependsOnOrigin(detail: Option<string>, now: Timestamp)
    ensures Handle(Business(OfCode(ApiCode.DatabaseError)), now).status == StatusBadRequest
    ensures Handle(Sql(detail), now).status == StatusInternalServerError
    ensures Handle(Business(OfCode(ApiCode.DatabaseError)), now).body.value.code == ApiCode.DatabaseError.Code()
    ensures Handle(Sql(detail), now).body.value.code == ApiCode.DatabaseError.Code()
  {
    var e := OfCode(ApiCode.DatabaseError);
    assert Handle(Business(e), now) == HandleBusinessException(e, now);
    assert IsBusinessError(ApiCode.DatabaseError.Code());
    assert Handle(Sql(detail), now) == HandleSqlException(now);
  }
}
