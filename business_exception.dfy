/** `BusinessException` (src/main/kotlin/com/re100io/exception/BusinessException.kt):
    a domain error bound to an `ApiCode`, with a message and an optional cause.
    The four constructors and every companion factory are functions returning the
    exception value; throwing it is the caller's business. */
module BusinessExceptions {
  import opened Wrappers
  import opened Jvm
  import opened Text
  import opened ApiCodes

  /** The `Throwable` a business exception wraps; only its own message is kept. */
  datatype Cause = Cause(message: Option<string>)

  datatype BusinessException = BusinessException(code: ApiCode, message: string, cause: Option<Cause>)

  // ---------------------------------------------------------------------------
  // Constructors

  /** `BusinessException(code)`: the message is the entry's canonical message. */
  function OfCode(code: ApiCode): (e: BusinessException)
    ensures e.code == code && e.message == code.Message() && e.cause.None?
  {
    BusinessException(code, code.Message(), None)
  }

  /** `BusinessException(code, message)`: both kept as given. */
  function WithMessage(code: ApiCode, message: string): (e: BusinessException)
    ensures e.code == code && e.message == message && e.cause.None?
  {
    BusinessException(code, message, None)
  }

  /** `BusinessException(code, message, cause)`. */
  function WithMessageAndCause(code: ApiCode, message: string, cause: Cause): (e: BusinessException)
    ensures e.code == code && e.message == message && e.cause == Some(cause)
  {
    BusinessException(code, message, Some(cause))
  }

  /** `BusinessException(code, cause)`: the canonical message, not the cause's. */
  function WithCause(code: ApiCode, cause: Cause): (e: BusinessException)
    ensures e.code == code && e.message == code.Message() && e.cause == Some(cause)
  {
    BusinessException(code, code.Message(), Some(cause))
  }

  // ---------------------------------------------------------------------------
  // Companion factories

  const UserNotFoundPrefix: string := "用户不存在: "
  const UsernameExistsPrefix: string := "用户名已存在: "
  const EmailExistsPrefix: string := "邮箱已存在: "
  const UserDisabledPrefix: string := "用户已被禁用: "

  /** `userNotFound(userId)`: names the id when there is one. */
  function UserNotFound(userId: Option<Long> := None): (e: BusinessException)
    ensures e.code == ApiCode.UserNotFound && e.cause.None?
    ensures userId.None? ==> e.message == "用户不存在"
    ensures userId.Some? ==> e.message == UserNotFoundPrefix + Decimal(userId.value)
  {
    var message := if userId.Some? then UserNotFoundPrefix + Decimal(userId.value) else "用户不存在";
    WithMessage(ApiCode.UserNotFound, message)
  }

  /** The id named in a `userNotFound` message can be read back from it, so
      exceptions for different ids have different messages. */
  lemma UserNotFoundNamesId(id: Long)
    ensures |UserNotFound(Some(id)).message| > |UserNotFoundPrefix|
    ensures ParseDecimal(UserNotFound(Some(id)).message[|UserNotFoundPrefix|..]) == Some(id)
  {
    var m := UserNotFound(Some(id)).message;
    assert m[|UserNotFoundPrefix|..] == Decimal(id);
    DecimalRoundTrip(id);
  }

  /** `usernameExists(username)`: the message ends with the username. */
  function UsernameExists(username: string): (e: BusinessException)
    ensures e.code == ApiCode.UsernameExists && e.cause.None?
    ensures |e.message| >= |UsernameExistsPrefix| && e.message[..|UsernameExistsPrefix|] == UsernameExistsPrefix
    ensures e.message[|UsernameExistsPrefix|..] == username
  {
    WithMessage(ApiCode.UsernameExists, UsernameExistsPrefix + username)
  }

  /** `emailExists(email)`: the message ends with the email. */
  function EmailExists(email: string): (e: BusinessException)
    ensures e.code == ApiCode.EmailExists && e.cause.None?
    ensures |e.message| >= |EmailExistsPrefix| && e.message[..|EmailExistsPrefix|] == EmailExistsPrefix
    ensures e.message[|EmailExistsPrefix|..] == email
  {
    WithMessage(ApiCode.EmailExists, EmailExistsPrefix + email)
  }

  /** `userDisabled(username)`: the message ends with the username. */
  function UserDisabled(username: string): (e: BusinessException)
    ensures e.code == ApiCode.UserDisabled && e.cause.None?
    ensures |e.message| >= |UserDisabledPrefix| && e.message[..|UserDisabledPrefix|] == UserDisabledPrefix
    ensures e.message[|UserDisabledPrefix|..] == username
  {
    WithMessage(ApiCode.UserDisabled, UserDisabledPrefix + username)
  }

  /** `invalidPassword()`: the canonical INVALID_PASSWORD message. */
  function InvalidPassword(): (e: BusinessException)
    ensures e == OfCode(ApiCode.InvalidPassword)
  {
    BusinessException(ApiCode.InvalidPassword, ApiCode.InvalidPassword.Message(), None)
  }

  /** `userStatusError(message)`. */
  function UserStatusError(message: string): (e: BusinessException)
    ensures e == WithMessage(ApiCode.UserStatusError, message)
  {
    BusinessException(ApiCode.UserStatusError, message, None)
  }

  /** `dataNotFound(message = "数据不存在")`. */
  function DataNotFound(message: string := "数据不存在"): (e: BusinessException)
    ensures e == WithMessage(ApiCode.DataNotFound, message)
  {
    BusinessException(ApiCode.DataNotFound, message, None)
  }

  /** `dataExists(message = "数据已存在")`. */
  function DataExists(message: string := "数据已存在"): (e: BusinessException)
    ensures e == WithMessage(ApiCode.DataExists, message)
  {
    BusinessException(ApiCode.DataExists, message, None)
  }

  /** `dataFormatError(message = "数据格式错误")`. */
  function DataFormatError(message: string := "数据格式错误"): (e: BusinessException)
    ensures e == WithMessage(ApiCode.DataFormatError, message)
  {
    BusinessException(ApiCode.DataFormatError, message, None)
  }

  /** `validationError(message)`. */
  function ValidationError(message: string): (e: BusinessException)
    ensures e == WithMessage(ApiCode.ValidationError, message)
  {
    BusinessException(ApiCode.ValidationError, message, None)
  }

  /** `permissionDenied(message = "权限不足")`: bound to USER_PERMISSION_DENIED. */
  function PermissionDenied(message: string := "权限不足"): (e: BusinessException)
    ensures e == WithMessage(ApiCode.UserPermissionDenied, message)
  {
    BusinessException(ApiCode.UserPermissionDenied, message, None)
  }

  /** `systemMaintenance()`: the canonical SYSTEM_MAINTENANCE message. */
  function SystemMaintenance(): (e: BusinessException)
    ensures e == OfCode(ApiCode.SystemMaintenance)
  {
    BusinessException(ApiCode.SystemMaintenance, ApiCode.SystemMaintenance.Message(), None)
  }

  /** `tooManyRequests()`: the canonical TOO_MANY_REQUESTS message. */
  function TooManyRequests(): (e: BusinessException)
    ensures e == OfCode(ApiCode.TooManyRequests)
  {
    BusinessException(ApiCode.TooManyRequests, ApiCode.TooManyRequests.Message(), None)
  }

  /** `externalServiceError(message)`. */
  function ExternalServiceError(message: string): (e: BusinessException)
    ensures e == WithMessage(ApiCode.ExternalServiceError, message)
  {
    BusinessException(ApiCode.ExternalServiceError, message, None)
  }

  /** The default messages of `dataNotFound`, `dataExists` and `dataFormatError` are
      their entries' canonical messages; the default of `permissionDenied` ("权限不足")
      is not the canonical USER_PERMISSION_DENIED message ("用户权限不足"). */
  lemma FactoryDefaultMessages()
    ensures DataNotFound() == OfCode(ApiCode.DataNotFound)
    ensures DataExists() == OfCode(ApiCode.DataExists)
    ensures DataFormatError() == OfCode(ApiCode.DataFormatError)
    ensures PermissionDenied() != OfCode(ApiCode.UserPermissionDenied)
  {
    assert ApiCode.DataNotFound.Message() == "数据不存在";
    assert ApiCode.DataExists.Message() == "数据已存在";
    assert ApiCode.DataFormatError.Message() == "数据格式错误";
    assert ApiCode.UserPermissionDenied.Message() == "用户权限不足";
    assert |PermissionDenied().message| != |ApiCode.UserPermissionDenied.Message()|;
  }
}
