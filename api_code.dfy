/** The status-code table `ApiCode` (src/main/kotlin/com/re100io/common/ApiCode.kt):
    an enumeration of (code, message) pairs in the bands 200-299 (success),
    400-499 (client error), 500-599 (server error) and 1000 and above (business),
    with the range predicates and the reverse lookup `fromCode`. */
module ApiCodes {
  import opened Wrappers

  datatype ApiCode =
    | Success
    | Created
    | Updated
    | Deleted
    | BadRequest
    | Unauthorized
    | Forbidden
    | NotFound
    | MethodNotAllowed
    | RequestTimeout
    | Conflict
    | PayloadTooLarge
    | TooManyRequests
    | InternalError
    | NotImplemented
    | ServiceUnavailable
    | GatewayTimeout
    | ValidationError
    | DatabaseError
    | ExternalServiceError
    | CacheError
    | FileError
    | UserNotFound
    | UsernameExists
    | EmailExists
    | UserDisabled
    | InvalidPassword
    | UserStatusError
    | UserPermissionDenied
    | UserLoginExpired
    | UserBatchOperationFailed
    | UserDataFormatError
    | InvalidToken
    | TokenExpired
    | RefreshTokenFailed
    | LoginFailed
    | LogoutFailed
    | DataNotFound
    | DataExists
    | DataFormatError
    | DataIntegrityError
    | DataVersionConflict
    | DataImportFailed
    | DataExportFailed
    | SystemMaintenance
    | SystemConfigError
    | SystemResourceInsufficient
    | SystemRateLimit
    | SystemCircuitBreaker
  {
    /** The entry's numeric code. */
    function Code(): int {
      match this
      case Success => 200
      case Created => 201
      case Updated => 202
      case Deleted => 204
      case BadRequest => 400
      case Unauthorized => 401
      case Forbidden => 403
      case NotFound => 404
      case MethodNotAllowed => 405
      case RequestTimeout => 408
      case Conflict => 409
      case PayloadTooLarge => 413
      case TooManyRequests => 429
      case InternalError => 500
      case NotImplemented => 501
      case ServiceUnavailable => 503
      case GatewayTimeout => 504
      case ValidationError => 1001
      case DatabaseError => 1002
      case ExternalServiceError => 1003
      case CacheError => 1004
      case FileError => 1005
      case UserNotFound => 2001
      case UsernameExists => 2002
      case EmailExists => 2003
      case UserDisabled => 2004
      case InvalidPassword => 2005
      case UserStatusError => 2006
      case UserPermissionDenied => 2007
      case UserLoginExpired => 2008
      case UserBatchOperationFailed => 2009
      case UserDataFormatError => 2010
      case InvalidToken => 3001
      case TokenExpired => 3002
      case RefreshTokenFailed => 3003
      case LoginFailed => 3004
      case LogoutFailed => 3005
      case DataNotFound => 4001
      case DataExists => 4002
      case DataFormatError => 4003
      case DataIntegrityError => 4004
      case DataVersionConflict => 4005
      case DataImportFailed => 4006
      case DataExportFailed => 4007
      case SystemMaintenance => 5001
      case SystemConfigError => 5002
      case SystemResourceInsufficient => 5003
      case SystemRateLimit => 5004
      case SystemCircuitBreaker => 5005
    }

    /** The entry's canonical message. */
    function Message(): string {
      match this
      case Success => "操作成功"
      case Created => "创建成功"
      case Updated => "更新成功"
      case Deleted => "删除成功"
      case BadRequest => "请求参数错误"
      case Unauthorized => "未授权访问"
      case Forbidden => "禁止访问"
      case NotFound => "资源不存在"
      case MethodNotAllowed => "请求方法不支持"
      case RequestTimeout => "请求超时"
      case Conflict => "资源冲突"
      case PayloadTooLarge => "请求实体过大"
      case TooManyRequests => "请求频率过高"
      case InternalError => "服务器内部错误"
      case NotImplemented => "功能未实现"
      case ServiceUnavailable => "服务不可用"
      case GatewayTimeout => "网关超时"
      case ValidationError => "参数验证失败"
      case DatabaseError => "数据库操作失败"
      case ExternalServiceError => "外部服务调用失败"
      case CacheError => "缓存操作失败"
      case FileError => "文件操作失败"
      case UserNotFound => "用户不存在"
      case UsernameExists => "用户名已存在"
      case EmailExists => "邮箱已存在"
      case UserDisabled => "用户已被禁用"
      case InvalidPassword => "密码错误"
      case UserStatusError => "用户状态异常"
      case UserPermissionDenied => "用户权限不足"
      case UserLoginExpired => "用户登录过期"
      case UserBatchOperationFailed => "用户批量操作失败"
      case UserDataFormatError => "用户数据格式错误"
      case InvalidToken => "Token无效"
      case TokenExpired => "Token已过期"
      case RefreshTokenFailed => "刷新Token失败"
      case LoginFailed => "登录失败"
      case LogoutFailed => "登出失败"
      case DataNotFound => "数据不存在"
      case DataExists => "数据已存在"
      case DataFormatError => "数据格式错误"
      case DataIntegrityError => "数据完整性错误"
      case DataVersionConflict => "数据版本冲突"
      case DataImportFailed => "数据导入失败"
      case DataExportFailed => "数据导出失败"
      case SystemMaintenance => "系统维护中"
      case SystemConfigError => "系统配置错误"
      case SystemResourceInsufficient => "系统资源不足"
      case SystemRateLimit => "系统限流"
      case SystemCircuitBreaker => "系统熔断"
    }
  }

  /** `ApiCode.values()`: every entry, in declaration order, grouped as the
      declaration groups them. */
  function Values(): seq<ApiCode> {
    SuccessCodes() + ClientErrorCodes() + ServerErrorCodes() + GeneralBusinessCodes()
    + UserCodes() + AuthCodes() + DataCodes() + SystemCodes()
  }

  /** The success band, 200-299. */
  function SuccessCodes(): seq<ApiCode> {
    [
      Success, Created, Updated, Deleted
    ]
  }

  /** The client-error band, 400-499. */
  function ClientErrorCodes(): seq<ApiCode> {
    [
      BadRequest, Unauthorized, Forbidden, NotFound, MethodNotAllowed, RequestTimeout, Conflict,
      PayloadTooLarge, TooManyRequests
    ]
  }

  /** The server-error band, 500-599. */
  function ServerErrorCodes(): seq<ApiCode> {
    [
      InternalError, NotImplemented, ServiceUnavailable, GatewayTimeout
    ]
  }

  /** General business codes, 1001-1005. */
  function GeneralBusinessCodes(): seq<ApiCode> {
    [
      ValidationError, DatabaseError, ExternalServiceError, CacheError, FileError
    ]
  }

  /** User codes, 2001-2010. */
  function UserCodes(): seq<ApiCode> {
    [
      UserNotFound, UsernameExists, EmailExists, UserDisabled, InvalidPassword, UserStatusError,
      UserPermissionDenied, UserLoginExpired, UserBatchOperationFailed, UserDataFormatError
    ]
  }

  /** Authentication codes, 3001-3005. */
  function AuthCodes(): seq<ApiCode> {
    [
      InvalidToken, TokenExpired, RefreshTokenFailed, LoginFailed, LogoutFailed
    ]
  }

  /** Data codes, 4001-4007. */
  function DataCodes(): seq<ApiCode> {
    [
      DataNotFound, DataExists, DataFormatError, DataIntegrityError, DataVersionConflict,
      DataImportFailed, DataExportFailed
    ]
  }

  /** System codes, 5001-5005. */
  function SystemCodes(): seq<ApiCode> {
    [
      SystemMaintenance, SystemConfigError, SystemResourceInsufficient, SystemRateLimit,
      SystemCircuitBreaker
    ]
  }

  /** `find { it.code == code }` over a list of entries: the first entry carrying `code`. */
  function Find(entries: seq<ApiCode>, code: int): (r: Option<ApiCode>)
    decreases |entries|
    ensures r.Some? ==> r.value.Code() == code
    ensures r.Some? ==> exists i :: 0 <= i < |entries| && entries[i] == r.value
                                    && forall j :: 0 <= j < i ==> entries[j].Code() != code
    ensures r.None? ==> forall i :: 0 <= i < |entries| ==> entries[i].Code() != code
  {
    if |entries| == 0 then None
    else if entries[0].Code() == code then Some(entries[0])
    else
      var r := Find(entries[1..], code);
      assert r.Some? ==> exists i :: 0 < i < |entries| && entries[i] == r.value
                                     && forall j :: 0 <= j < i ==> entries[j].Code() != code;
      r
  }

  /** `ApiCode.fromCode(code)`: an entry it returns carries that code, and it is the
      first such entry of `values()`. */
  function FromCode(code: int): (r: Option<ApiCode>)
    ensures r.Some? ==> r.value.Code() == code && r.value in Values()
  {
    Find(Values(), code)
  }

  /** `ApiCode.isSuccess`: the HTTP 2xx class. */
  function IsSuccess(code: int): (b: bool)
    ensures b <==> code / 100 == 2
  {
    200 <= code <= 299
  }

  /** `ApiCode.isClientError`: the HTTP 4xx class, which no success code is in. */
  function IsClientError(code: int): (b: bool)
    ensures b <==> code / 100 == 4
    ensures b ==> !IsSuccess(code)
  {
    400 <= code <= 499
  }

  /** `ApiCode.isServerError`: the HTTP 5xx class, which no success or client-error
      code is in. */
  function IsServerError(code: int): (b: bool)
    ensures b <==> code / 100 == 5
    ensures b ==> !IsSuccess(code) && !IsClientError(code)
  {
    500 <= code <= 599
  }

  /** `ApiCode.isBusinessError`: a business code is in no other band. */
  function IsBusinessError(code: int): (b: bool)
    ensures b ==> !IsSuccess(code) && !IsClientError(code) && !IsServerError(code)
  {
    code >= 1000
  }

  /** How many of the four classification predicates hold of `code`. */
  function BandCount(code: int): nat {
    (if IsSuccess(code) then 1 else 0) + (if IsClientError(code) then 1 else 0)
    + (if IsServerError(code) then 1 else 0) + (if IsBusinessError(code) then 1 else 0)
  }

  /** The four bands are disjoint: no integer is classified twice. */
  lemma BandsDisjoint(code: int)
    ensures BandCount(code) <= 1
  {
  }

  /** Every entry's code lies in exactly one documented band. */
  lemma EntryInOneBand(e: ApiCode)
    ensures BandCount(e.Code()) == 1
  {
  }

  /** `values()` lists every entry. */
  lemma ValuesComplete(e: ApiCode)
    ensures e in Values()
  {
    assert || e in SuccessCodes() || e in ClientErrorCodes() || e in ServerErrorCodes()
           || e in GeneralBusinessCodes() || e in UserCodes() || e in AuthCodes()
           || e in DataCodes() || e in SystemCodes();
  }

  /** The table read from code to entry, one literal case per code: a proof device
      that turns "no two entries share a code" into one check per entry. */
  ghost function EntryWithCode(code: int): Option<ApiCode> {
    match code
    case 200 => Some(Success)
    case 201 => Some(Created)
    case 202 => Some(Updated)
    case 204 => Some(Deleted)
    case 400 => Some(BadRequest)
    case 401 => Some(Unauthorized)
    case 403 => Some(Forbidden)
    case 404 => Some(NotFound)
    case 405 => Some(MethodNotAllowed)
    case 408 => Some(RequestTimeout)
    case 409 => Some(Conflict)
    case 413 => Some(PayloadTooLarge)
    case 429 => Some(TooManyRequests)
    case 500 => Some(InternalError)
    case 501 => Some(NotImplemented)
    case 503 => Some(ServiceUnavailable)
    case 504 => Some(GatewayTimeout)
    case 1001 => Some(ValidationError)
    case 1002 => Some(DatabaseError)
    case 1003 => Some(ExternalServiceError)
    case 1004 => Some(CacheError)
    case 1005 => Some(FileError)
    case 2001 => Some(UserNotFound)
    case 2002 => Some(UsernameExists)
    case 2003 => Some(EmailExists)
    case 2004 => Some(UserDisabled)
    case 2005 => Some(InvalidPassword)
    case 2006 => Some(UserStatusError)
    case 2007 => Some(UserPermissionDenied)
    case 2008 => Some(UserLoginExpired)
    case 2009 => Some(UserBatchOperationFailed)
    case 2010 => Some(UserDataFormatError)
    case 3001 => Some(InvalidToken)
    case 3002 => Some(TokenExpired)
    case 3003 => Some(RefreshTokenFailed)
    case 3004 => Some(LoginFailed)
    case 3005 => Some(LogoutFailed)
    case 4001 => Some(DataNotFound)
    case 4002 => Some(DataExists)
    case 4003 => Some(DataFormatError)
    case 4004 => Some(DataIntegrityError)
    case 4005 => Some(DataVersionConflict)
    case 4006 => Some(DataImportFailed)
    case 4007 => Some(DataExportFailed)
    case 5001 => Some(SystemMaintenance)
    case 5002 => Some(SystemConfigError)
    case 5003 => Some(SystemResourceInsufficient)
    case 5004 => Some(SystemRateLimit)
    case 5005 => Some(SystemCircuitBreaker)
    case _ => None
  }

  lemma EntryWithCodeInverts(e: ApiCode)
    ensures EntryWithCode(e.Code()) == Some(e)
  {
    if e.Code() < 1000 {
      InvertsBelow(e);
    } else if e.Code() < 3000 {
      InvertsBetween(e);
    } else {
      InvertsAbove(e);
    }
  }

  lemma InvertsBelow(e: ApiCode)
    requires e.Code() < 1000
    ensures EntryWithCode(e.Code()) == Some(e)
  {
  }

  lemma InvertsBetween(e: ApiCode)
    requires 1000 <= e.Code() < 3000
    ensures EntryWithCode(e.Code()) == Some(e)
  {
  }

  lemma InvertsAbove(e: ApiCode)
    requires 3000 <= e.Code()
    ensures EntryWithCode(e.Code()) == Some(e)
  {
  }

  /** No two entries share a code. */
  lemma CodesDistinct(a: ApiCode, b: ApiCode)
    requires a.Code() == b.Code()
    ensures a == b
  {
    EntryWithCodeInverts(a);
    EntryWithCodeInverts(b);
  }

  /** The reverse lookup finds every entry by its own code. */
  lemma FromCodeOfEntry(e: ApiCode)
    ensures FromCode(e.Code()) == Some(e)
  {
    ValuesComplete(e);
    var r := FromCode(e.Code());
    var i :| 0 <= i < |Values()| && Values()[i] == e;
    assert r.Some?;
    CodesDistinct(r.value, e);
  }

  /** The reverse lookup is absent exactly for the integers no entry uses. */
  lemma FromCodeAbsent(code: int)
    ensures FromCode(code).None? <==> forall e: ApiCode :: e.Code() != code
  {
    if FromCode(code).None? {
      forall e: ApiCode ensures e.Code() != code {
        ValuesComplete(e);
      }
    }
  }

  /** Integers between the bands, such as 300 and 999, have no entry. */
  lemma FromCodeBetweenBands(code: int)
    requires BandCount(code) == 0
    ensures FromCode(code) == None
  {
    forall e: ApiCode ensures e.Code() != code {
      EntryInOneBand(e);
    }
    FromCodeAbsent(code);
  }
}
