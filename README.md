# pg-template core in Dafny

A model of the logic under the Spring Boot glue of the pg-template user service,
with proofs about it. It covers:

- the status-code table `ApiCode` and the response envelope `ApiResponse`;
- the domain error `BusinessException` and its factories;
- the translation of every exception kind into an HTTP status and an envelope
  (`GlobalExceptionHandler`);
- the per-request trace id: the MDC store `TraceContext` and the interceptor
  that fills and empties it (`TraceInterceptor`);
- pagination arithmetic (`PageRequest`, `PageResponse`);
- the `users` table as the repository's SQL defines it (`UserRepository`), and
  the user use cases on top of it (`UserService`).

One Dafny module per Kotlin file. Modules `Wrappers` (Option, Result), `Jvm`
(32- and 64-bit integers, wrap-around, truncating division, the clock reading
as an opaque `Timestamp`) and `Text` (blankness, substring search, joining,
decimal rendering) hold the helpers.

Pure Kotlin is written as datatypes and functions. State that the source changes
in place is a class:
- the MDC is `TraceContexts.TraceContext`, a `map` field;
- the servlet response is `TraceInterceptors.HttpResponse`;
- the table is `UserRepositories.UserRepository`, a `seq` of rows in insertion
  order plus the value the id sequence hands out next;
- the service's mutating use cases are methods on `UserServices.UserService`.

A thrown exception is an `Err` value carrying the `Failure` that the exception
handler receives. The random UUID and the clock are parameters.

Where the code and the project's documentation disagree, the model follows the
code:
- `success(code, ...)` always sets the success flag, whatever band the code is
  in; `error(message, code)` always clears it (`ApiResponses.SuccessFlagIndependentOfCode`).
- A request for a missing user is answered with HTTP 400 and code 2001, not 404.
  `userNotFound` is a business error, and `getHttpStatus` maps every code
  ≥ 1000 to 400 (`UserServices.MissingUserIsBadRequest`).
- A duplicate username at registration is answered with 400, not 409
  (`UserServices.DuplicateUsernameIsBadRequest`).
- DATABASE_ERROR reaches the client as 400 when it comes in a
  `BusinessException`, and as 500 from an `SQLException`
  (`GlobalExceptionHandler.DatabaseErrorStatusDependsOnOrigin`).

## Model

| member | source | states |
|---|---|---|
| ApiCodes.BandsDisjoint | src/main/kotlin/com/re100io/common/ApiCode.kt:278-301 | no integer satisfies more than one of isSuccess, isClientError, isServerError, isBusinessError |
| ApiCodes.EntryInOneBand | src/main/kotlin/com/re100io/common/ApiCode.kt:6-265 | every entry's code lies in exactly one documented band |
| ApiCodes.CodesDistinct | src/main/kotlin/com/re100io/common/ApiCode.kt:12-265 | two entries with the same code are the same entry |
| ApiCodes.ValuesComplete | src/main/kotlin/com/re100io/common/ApiCode.kt:271-273 | `values()` lists every entry |
| ApiCodes.Find | src/main/kotlin/com/re100io/common/ApiCode.kt:271-273 | `find` returns the first entry with the code, or nothing when no entry has it |
| ApiCodes.FromCode | src/main/kotlin/com/re100io/common/ApiCode.kt:271-273 | an entry `fromCode(code)` returns carries that code and is one of `values()` |
| ApiCodes.FromCodeOfEntry | src/main/kotlin/com/re100io/common/ApiCode.kt:271-273 | `fromCode(e.code) == e` for every entry |
| ApiCodes.FromCodeAbsent | src/main/kotlin/com/re100io/common/ApiCode.kt:271-273 | `fromCode(c)` is null exactly when no entry uses c |
| ApiCodes.FromCodeBetweenBands | src/main/kotlin/com/re100io/common/ApiCode.kt:271-301 | integers outside every band (300, 999) have no entry |
| ApiCodes.IsSuccess | src/main/kotlin/com/re100io/common/ApiCode.kt:278-280 | true exactly for the HTTP 2xx class (code / 100 == 2) |
| ApiCodes.IsClientError | src/main/kotlin/com/re100io/common/ApiCode.kt:285-287 | true exactly for the HTTP 4xx class; such a code is never a success code |
| ApiCodes.IsServerError | src/main/kotlin/com/re100io/common/ApiCode.kt:292-294 | true exactly for the HTTP 5xx class; such a code is neither a success nor a client-error code |
| ApiCodes.IsBusinessError | src/main/kotlin/com/re100io/common/ApiCode.kt:299-301 | a business code is neither a success, a client-error nor a server-error code |
| ApiResponses.Success | src/main/kotlin/com/re100io/common/ApiResponse.kt:43-50 | success flag set, code 200, the given data and message, no trace id |
| ApiResponses.SuccessWith | src/main/kotlin/com/re100io/common/ApiResponse.kt:55-62 | success flag set, the entry's code, the given message or else the entry's message |
| ApiResponses.Error | src/main/kotlin/com/re100io/common/ApiResponse.kt:67-74 | a failure envelope (flag clear, no data, no trace id) with the given code and message |
| ApiResponses.ErrorWith | src/main/kotlin/com/re100io/common/ApiResponse.kt:79-86 | a failure envelope with the entry's code and the given message or else the entry's message |
| ApiResponses.ValidationError | src/main/kotlin/com/re100io/common/ApiResponse.kt:91-98 | a failure envelope with code 1001 and the given message |
| ApiResponses.NotFound | src/main/kotlin/com/re100io/common/ApiResponse.kt:103-110 | a failure envelope with code 404 |
| ApiResponses.Unauthorized | src/main/kotlin/com/re100io/common/ApiResponse.kt:115-122 | a failure envelope with code 401 |
| ApiResponses.Forbidden | src/main/kotlin/com/re100io/common/ApiResponse.kt:127-134 | a failure envelope with code 403 |
| ApiResponses.DefaultMessagesAreCanonical | src/main/kotlin/com/re100io/common/ApiResponse.kt:43-134 | the default messages of notFound, unauthorized, forbidden and success are their entries' canonical messages |
| ApiResponses.SuccessFlagIndependentOfCode | src/main/kotlin/com/re100io/common/ApiResponse.kt:55-74 | the success flag follows the factory, not the code band |
| BusinessExceptions.OfCode | src/main/kotlin/com/re100io/exception/BusinessException.kt:17-19 | the message is the code's canonical message |
| BusinessExceptions.WithMessage | src/main/kotlin/com/re100io/exception/BusinessException.kt:21-23 | code and message kept as given |
| BusinessExceptions.WithMessageAndCause | src/main/kotlin/com/re100io/exception/BusinessException.kt:25-27 | code, message and cause kept as given |
| BusinessExceptions.WithCause | src/main/kotlin/com/re100io/exception/BusinessException.kt:29-31 | the canonical message, not the cause's |
| BusinessExceptions.UserNotFound | src/main/kotlin/com/re100io/exception/BusinessException.kt:37-40 | USER_NOT_FOUND; "用户不存在: <id>" with an id, "用户不存在" without |
| BusinessExceptions.UserNotFoundNamesId | src/main/kotlin/com/re100io/exception/BusinessException.kt:37-40 | the id can be parsed back from the message |
| BusinessExceptions.UsernameExists | src/main/kotlin/com/re100io/exception/BusinessException.kt:45-47 | USERNAME_EXISTS; the message is the prefix followed by the username |
| BusinessExceptions.EmailExists | src/main/kotlin/com/re100io/exception/BusinessException.kt:52-54 | EMAIL_EXISTS; the message is the prefix followed by the email |
| BusinessExceptions.UserDisabled | src/main/kotlin/com/re100io/exception/BusinessException.kt:59-61 | USER_DISABLED; the message ends with the username |
| BusinessExceptions.InvalidPassword | src/main/kotlin/com/re100io/exception/BusinessException.kt:66-68 | INVALID_PASSWORD with its canonical message |
| BusinessExceptions.UserStatusError | src/main/kotlin/com/re100io/exception/BusinessException.kt:73-75 | USER_STATUS_ERROR with the given message |
| BusinessExceptions.DataNotFound | src/main/kotlin/com/re100io/exception/BusinessException.kt:80-82 | DATA_NOT_FOUND with the given or default message |
| BusinessExceptions.DataExists | src/main/kotlin/com/re100io/exception/BusinessException.kt:87-89 | DATA_EXISTS with the given or default message |
| BusinessExceptions.DataFormatError | src/main/kotlin/com/re100io/exception/BusinessException.kt:94-96 | DATA_FORMAT_ERROR with the given or default message |
| BusinessExceptions.ValidationError | src/main/kotlin/com/re100io/exception/BusinessException.kt:101-103 | VALIDATION_ERROR with the given message |
| BusinessExceptions.PermissionDenied | src/main/kotlin/com/re100io/exception/BusinessException.kt:108-110 | USER_PERMISSION_DENIED with the given or default message |
| BusinessExceptions.SystemMaintenance | src/main/kotlin/com/re100io/exception/BusinessException.kt:115-117 | SYSTEM_MAINTENANCE with its canonical message |
| BusinessExceptions.TooManyRequests | src/main/kotlin/com/re100io/exception/BusinessException.kt:122-124 | TOO_MANY_REQUESTS with its canonical message |
| BusinessExceptions.ExternalServiceError | src/main/kotlin/com/re100io/exception/BusinessException.kt:129-131 | EXTERNAL_SERVICE_ERROR with the given message |
| BusinessExceptions.FactoryDefaultMessages | src/main/kotlin/com/re100io/exception/BusinessException.kt:80-110 | three factory defaults equal their entries' canonical messages; permissionDenied's does not |
| GlobalExceptionHandler.GetHttpStatus | src/main/kotlin/com/re100io/exception/GlobalExceptionHandler.kt:195-207 | 200 exactly for the success band, 500 exactly for the server band, 404/401/403/409/429 passed through, 400 for everything else |
| GlobalExceptionHandler.BusinessCodesAreBadRequest | src/main/kotlin/com/re100io/exception/GlobalExceptionHandler.kt:195-207 | every business code (≥ 1000) maps to HTTP 400 |
| GlobalExceptionHandler.ListingMessageStartsWithPrefix | src/main/kotlin/com/re100io/exception/GlobalExceptionHandler.kt:46-76 | a listing message starts with its fixed prefix |
| GlobalExceptionHandler.ListingMessagePlacesItems | src/main/kotlin/com/re100io/exception/GlobalExceptionHandler.kt:46-76 | each item sits at its place in the message, in input order |
| GlobalExceptionHandler.ListingMessageSeparatesItems | src/main/kotlin/com/re100io/exception/GlobalExceptionHandler.kt:46-76 | ", " follows every item but the last |
| GlobalExceptionHandler.FieldErrorItems | src/main/kotlin/com/re100io/exception/GlobalExceptionHandler.kt:47-49 | one "field: message" item per field error, in order |
| GlobalExceptionHandler.ViolationItems | src/main/kotlin/com/re100io/exception/GlobalExceptionHandler.kt:71-73 | one "path: message" item per violation, in order |
| GlobalExceptionHandler.HandleBusinessException | src/main/kotlin/com/re100io/exception/GlobalExceptionHandler.kt:36-40 | status from getHttpStatus of the exception's code; a failure envelope with that code and the exception's message |
| GlobalExceptionHandler.HandleValidationException | src/main/kotlin/com/re100io/exception/GlobalExceptionHandler.kt:46-52 | 400, VALIDATION_ERROR, the validation prefix and the field errors listed |
| GlobalExceptionHandler.HandleBindException | src/main/kotlin/com/re100io/exception/GlobalExceptionHandler.kt:58-64 | 400, VALIDATION_ERROR, the bind prefix and the field errors listed |
| GlobalExceptionHandler.HandleConstraintViolationException | src/main/kotlin/com/re100io/exception/GlobalExceptionHandler.kt:70-76 | 400, VALIDATION_ERROR, the constraint prefix and the violations listed |
| GlobalExceptionHandler.HandleMissingParameterException | src/main/kotlin/com/re100io/exception/GlobalExceptionHandler.kt:82-87 | 400, BAD_REQUEST, the message is the fixed prefix followed by the parameter name |
| GlobalExceptionHandler.HandleTypeMismatchException | src/main/kotlin/com/re100io/exception/GlobalExceptionHandler.kt:93-98 | 400, BAD_REQUEST, the message names the parameter and the required type |
| GlobalExceptionHandler.HandleHttpMessageNotReadableException | src/main/kotlin/com/re100io/exception/GlobalExceptionHandler.kt:104-109 | 400, BAD_REQUEST, a fixed message |
| GlobalExceptionHandler.HandleMethodNotSupportedException | src/main/kotlin/com/re100io/exception/GlobalExceptionHandler.kt:115-120 | 405, METHOD_NOT_ALLOWED, the message is the fixed prefix followed by the method |
| GlobalExceptionHandler.HandleNoHandlerFoundException | src/main/kotlin/com/re100io/exception/GlobalExceptionHandler.kt:126-131 | 404 with no body |
| GlobalExceptionHandler.DuplicateKeyMessage | src/main/kotlin/com/re100io/exception/GlobalExceptionHandler.kt:139-143 | one of the three fixed messages, and the generic one when the exception has no text |
| GlobalExceptionHandler.DuplicateKeyMessageChoice | src/main/kotlin/com/re100io/exception/GlobalExceptionHandler.kt:137-146 | the username message exactly when the text contains "username" ignoring case; the email message exactly when it does not but contains "email" |
| GlobalExceptionHandler.HandleDuplicateKeyException | src/main/kotlin/com/re100io/exception/GlobalExceptionHandler.kt:137-146 | 409, CONFLICT, the chosen duplicate-key message |
| GlobalExceptionHandler.HandleDataIntegrityViolationException | src/main/kotlin/com/re100io/exception/GlobalExceptionHandler.kt:152-157 | 400, DATA_INTEGRITY_ERROR, a fixed message |
| GlobalExceptionHandler.HandleSqlException | src/main/kotlin/com/re100io/exception/GlobalExceptionHandler.kt:163-168 | 500, DATABASE_ERROR, a fixed message |
| GlobalExceptionHandler.HandleRuntimeException | src/main/kotlin/com/re100io/exception/GlobalExceptionHandler.kt:174-179 | 500, INTERNAL_ERROR, a fixed message |
| GlobalExceptionHandler.HandleException | src/main/kotlin/com/re100io/exception/GlobalExceptionHandler.kt:185-190 | 500, INTERNAL_ERROR, a fixed message |
| GlobalExceptionHandler.Handle | src/main/kotlin/com/re100io/exception/GlobalExceptionHandler.kt:35-190 | every failure gets one of the handler statuses; the body is missing only for an unmapped route; otherwise it is a failure envelope stamped now |
| GlobalExceptionHandler.ServerErrorsHideDetail | src/main/kotlin/com/re100io/exception/GlobalExceptionHandler.kt:163-190 | the response to SQL, runtime and other failures does not depend on the exception's text |
| GlobalExceptionHandler.ClientErrorsHideDetail | src/main/kotlin/com/re100io/exception/GlobalExceptionHandler.kt:104-109 | the response to unreadable-body and data-integrity failures does not depend on the exception's text |
| GlobalExceptionHandler.ValidationMessageListsFields | src/main/kotlin/com/re100io/exception/GlobalExceptionHandler.kt:46-52 | the i-th "field: message" item appears in the validation message at its place |
| GlobalExceptionHandler.DatabaseErrorStatusDependsOnOrigin | src/main/kotlin/com/re100io/exception/GlobalExceptionHandler.kt:36-40 | DATABASE_ERROR is 400 through a business exception and 500 through an SQL exception |
| TraceContexts.UuidString | src/main/kotlin/com/re100io/common/TraceContext.kt:19 | `UUID.toString()` is 36 characters: dashes exactly at positions 8, 13, 18 and 23, hexadecimal digits everywhere else |
| TraceContexts.GenerateTraceId | src/main/kotlin/com/re100io/common/TraceContext.kt:18-20 | the UUID's text without dashes is its 32 lower-case hex digits, none of them '-' |
| TraceContexts.TraceIdRoundTrip | src/main/kotlin/com/re100io/common/TraceContext.kt:18-20 | the UUID can be parsed back from the trace id |
| TraceContexts.ExtractOrGenerateTraceId | src/main/kotlin/com/re100io/common/TraceContext.kt:55-61 | a non-blank header is kept verbatim; a null or blank one is replaced by a generated id |
| TraceContexts.TraceIdNeverBlank | src/main/kotlin/com/re100io/common/TraceContext.kt:55-61 | the resulting trace id is never blank |
| TraceContexts.TraceContext.SetTraceId | src/main/kotlin/com/re100io/common/TraceContext.kt:25-28 | the value is stored under both keys and nothing else changes; getTraceId then returns it |
| TraceContexts.TraceContext.GetTraceId | src/main/kotlin/com/re100io/common/TraceContext.kt:33-35 | the value under the trace id key, or null when absent |
| TraceContexts.TraceContext.ClearTraceId | src/main/kotlin/com/re100io/common/TraceContext.kt:40-43 | exactly the two trace keys are removed, every other entry kept |
| TraceContexts.TraceContext.Clear | src/main/kotlin/com/re100io/common/TraceContext.kt:48-50 | the MDC is empty and getTraceId returns null |
| TraceInterceptors.FirstHeader | src/main/kotlin/com/re100io/interceptor/TraceInterceptor.kt:30-31 | the value of the first header whose name matches ignoring case, or null when none does |
| TraceInterceptors.HeaderTraceId | src/main/kotlin/com/re100io/interceptor/TraceInterceptor.kt:30-31 | X-Trace-Id when present at all, else X-Request-Id; null only when neither header is sent |
| TraceInterceptors.ResolveTraceId | src/main/kotlin/com/re100io/interceptor/TraceInterceptor.kt:30-33 | X-Trace-Id wins when usable; a blank one leads to generation; X-Request-Id is used only when X-Trace-Id is absent; never blank |
| TraceInterceptors.HeaderNamesIgnoreCase | src/main/kotlin/com/re100io/interceptor/TraceInterceptor.kt:30-31 | two header lists that differ only in the letter case of their names give the same value for every header name |
| TraceInterceptors.HttpResponse.SetHeader | src/main/kotlin/com/re100io/interceptor/TraceInterceptor.kt:39-40 | replaces that header's value, status unchanged |
| TraceInterceptors.TraceInterceptor.PreHandle | src/main/kotlin/com/re100io/interceptor/TraceInterceptor.kt:24-46 | returns true; the resolved id is in the MDC under both keys and in both response headers; nothing else in the response changes |
| TraceInterceptors.TraceInterceptor.AfterCompletion | src/main/kotlin/com/re100io/interceptor/TraceInterceptor.kt:48-61 | the MDC ends empty, with or without an exception |
| PageRequests.GetOffset | src/main/kotlin/com/re100io/common/PageRequest.kt:35 | page * size reduced to 32 bits; equal to the product when that fits |
| PageRequests.GetOffsetOverflows | src/main/kotlin/com/re100io/common/PageRequest.kt:18-35 | a request within the declared bounds whose offset is negative |
| PageRequests.GetOffsetCorrectIffNoOverflow | src/main/kotlin/com/re100io/common/PageRequest.kt:35 | within bounds the offset is right exactly when the product fits in an Int |
| PageRequests.Offset | src/main/kotlin/com/re100io/common/PageRequest.kt:35 | the 64-bit offset is never negative within the bounds |
| PageRequests.OffsetSkipsWholePages | src/main/kotlin/com/re100io/common/PageRequest.kt:18-35 | the offset is a non-negative multiple of size and divides back to the page |
| PageRequests.OffsetAgreesWhenNoOverflow | src/main/kotlin/com/re100io/common/PageRequest.kt:35 | the written and the corrected offset agree when the product fits |
| PageRequests.GetSortSql | src/main/kotlin/com/re100io/common/PageRequest.kt:40-46 | no fragment exactly when sort is null or blank; otherwise column, space, direction |
| PageRequests.SortSqlNamesColumnAndDirection | src/main/kotlin/com/re100io/common/PageRequest.kt:40-46 | the fragment starts with the column and a space, and ends in "DESC" exactly for descending order |
| PageRequests.Default | src/main/kotlin/com/re100io/common/PageRequest.kt:18-30 | the default request is within bounds and has no sort fragment |
| PageRequests.Of | src/main/kotlin/com/re100io/common/PageRequest.kt:52-54 | page and size kept, ascending, no sort fragment |
| PageRequests.OfSorted | src/main/kotlin/com/re100io/common/PageRequest.kt:59-61 | all four arguments kept |
| PageRequests.OfWithDefaultsIsDefault | src/main/kotlin/com/re100io/common/PageRequest.kt:52-54 | `of()` is the default request |
| PageResponses.TotalPages | src/main/kotlin/com/re100io/common/PageResponse.kt:37 | 0 for a non-positive size; (total + size - 1) / size when total ≥ 0 and nothing overflows |
| PageResponses.NegativeTotalPages | src/main/kotlin/com/re100io/common/PageResponse.kt:37 | a negative total in Int range gives the quotient truncated toward zero: between the total and 0, and 0 when fewer than size rows are missing |
| PageResponses.CeilingDivision | src/main/kotlin/com/re100io/common/PageResponse.kt:37 | (total + size - 1) / size pages hold total rows and one page fewer does not |
| PageResponses.TotalPagesIsCeiling | src/main/kotlin/com/re100io/common/PageResponse.kt:37 | the page count is the ceiling of total / size, 0 for no rows |
| PageResponses.Of | src/main/kotlin/com/re100io/common/PageResponse.kt:24-42 | content, page, size, total and hasNext passed through; hasPrevious exactly when page > 0 |
| PageResponses.OfSimple | src/main/kotlin/com/re100io/common/PageResponse.kt:47-64 | the same without total and page count; hasPrevious exactly when page > 0 |
| PageResponses.OfSimpleDropsOnlyTotals | src/main/kotlin/com/re100io/common/PageResponse.kt:24-64 | ofSimple is of with the two totals removed |
| Users.NewUser | src/main/kotlin/com/re100io/entity/User.kt:13-42 | a new user has no id, is active and has both timestamps equal to the construction time |
| UserRepositories.Select | src/main/kotlin/com/re100io/repository/UserRepository.kt:11-55 | a WHERE clause keeps exactly the rows that match (or, for a delete, that do not) |
| UserRepositories.SelectKeepsWellFormed | src/main/kotlin/com/re100io/repository/UserRepository.kt:54-55 | dropping rows keeps ids ascending and usernames and emails unique |
| UserRepositories.SelectPartitions | src/main/kotlin/com/re100io/repository/UserRepository.kt:54-55 | the kept and the dropped rows together are all the rows |
| UserRepositories.UniqueKeySelectsAtMostOne | src/main/kotlin/com/re100io/repository/UserRepository.kt:20-27 | a query on id, username or email matches at most one row |
| UserRepositories.UniqueKeySelectsTheRow | src/main/kotlin/com/re100io/repository/UserRepository.kt:11-18 | a query on a unique key returns exactly the row carrying it |
| UserRepositories.DeleteCount | src/main/kotlin/com/re100io/repository/UserRepository.kt:54-55 | the delete removes one row when the id is present and none otherwise |
| UserRepositories.EmailFreeForRow | src/main/kotlin/com/re100io/repository/UserRepository.kt:45-52 | writing a row's own email, or an unused one, takes no other row's email |
| UserRepositories.UpdateRows | src/main/kotlin/com/re100io/repository/UserRepository.kt:45-52 | only full_name, email and updated_at of the row with the id change |
| UserRepositories.UpdateKeepsWellFormed | src/main/kotlin/com/re100io/repository/UserRepository.kt:45-52 | an update that takes no other row's email keeps the table well formed |
| UserRepositories.DeleteRemovesOnlyThatRow | src/main/kotlin/com/re100io/repository/UserRepository.kt:54-55 | after the delete the id is gone and every other row remains |
| UserRepositories.UserRepository.FindById | src/main/kotlin/com/re100io/repository/UserRepository.kt:11-12 | the row with the id, null exactly when there is none |
| UserRepositories.UserRepository.FindByUsername | src/main/kotlin/com/re100io/repository/UserRepository.kt:14-15 | the row with the username, null exactly when there is none |
| UserRepositories.UserRepository.FindByEmail | src/main/kotlin/com/re100io/repository/UserRepository.kt:17-18 | the row with the email, null exactly when there is none |
| UserRepositories.UserRepository.ExistsByUsername | src/main/kotlin/com/re100io/repository/UserRepository.kt:20-21 | positive exactly when a row has the username; at most 1 |
| UserRepositories.UserRepository.ExistsByEmail | src/main/kotlin/com/re100io/repository/UserRepository.kt:23-24 | positive exactly when a row has the email; at most 1 |
| UserRepositories.UserRepository.ExistsById | src/main/kotlin/com/re100io/repository/UserRepository.kt:26-27 | positive exactly when a row has the id; at most 1 |
| UserRepositories.UserRepository.FindAll | src/main/kotlin/com/re100io/repository/UserRepository.kt:29-30 | the whole table |
| UserRepositories.UserRepository.FindAllActiveUsers | src/main/kotlin/com/re100io/repository/UserRepository.kt:32-33 | exactly the active rows |
| UserRepositories.UserRepository.SearchUsers | src/main/kotlin/com/re100io/repository/UserRepository.kt:35-36 | exactly the rows whose username or email contains the keyword |
| UserRepositories.UserRepository.Insert | src/main/kotlin/com/re100io/repository/UserRepository.kt:38-43 | appends one row with a fresh id, or fails on a taken username (checked first) or email with the table unchanged |
| UserRepositories.UserRepository.Update | src/main/kotlin/com/re100io/repository/UserRepository.kt:45-52 | 0 rows for a null or missing id; a duplicate-key failure when another row holds the email; otherwise 1 row and the update above |
| UserRepositories.UserRepository.DeleteById | src/main/kotlin/com/re100io/repository/UserRepository.kt:54-55 | removes exactly the row with the id and reports how many rows went |
| UserServices.MapToUserResponse | src/main/kotlin/com/re100io/service/UserService.kt:149-159 | every field of the user but the password |
| UserServices.ResponseHidesOnlyPassword | src/main/kotlin/com/re100io/service/UserService.kt:149-159 | two users give the same response exactly when they differ at most in the password |
| UserServices.MapAll | src/main/kotlin/com/re100io/service/UserService.kt:50-58 | one response per row, in order |
| UserServices.Patched | src/main/kotlin/com/re100io/service/UserService.kt:70-74 | null request fields keep the current values; id, username, password, active flag and creation time unchanged |
| UserServices.Created | src/main/kotlin/com/re100io/service/UserService.kt:27-32 | the stored user carries the request's fields, is active and has the assigned id |
| UserServices.UserService.CreateUser | src/main/kotlin/com/re100io/service/UserService.kt:18-41 | a taken username, then a taken email, is refused with the table and the id sequence unchanged; an exhausted sequence is an SQL error; otherwise exactly one active row with the drawn id is appended and returned, and the sequence moves on by one |
| UserServices.UserService.GetUserById | src/main/kotlin/com/re100io/service/UserService.kt:44-48 | the user with the id, or userNotFound(id) exactly when there is none |
| UserServices.UserService.GetAllUsers | src/main/kotlin/com/re100io/service/UserService.kt:51-53 | one response per row, in table order |
| UserServices.UserService.GetActiveUsers | src/main/kotlin/com/re100io/service/UserService.kt:56-58 | one response per active row, in the repository's order |
| UserServices.UserService.SearchUsers | src/main/kotlin/com/re100io/service/UserService.kt:88-90 | one response per matching row, in the repository's order |
| UserServices.UserService.UpdateUser | src/main/kotlin/com/re100io/service/UserService.kt:60-78 | a missing id or another user's email is refused with the table unchanged; otherwise only that row is patched; the id sequence never moves |
| UserServices.UserService.DeleteUser | src/main/kotlin/com/re100io/service/UserService.kt:80-85 | a missing id is refused with nothing deleted; otherwise exactly that row goes; the id sequence never moves |
| UserServices.MissingUserIsBadRequest | src/main/kotlin/com/re100io/service/UserService.kt:44-48 | a missing user reaches the client as HTTP 400 with code 2001 and the id in the message |
| UserServices.DuplicateUsernameIsBadRequest | src/main/kotlin/com/re100io/service/UserService.kt:19-21 | a taken username reaches the client as HTTP 400 with code 2002 and the username in the message |

## Left out

- Controllers, configuration and startup (`UserController`, `ExampleController`, `HealthController`, `TraceTestController`, `OpenApiConfig`, `BannerConfig`, `WebConfig`, `Main`): routing and wiring with no logic of their own.
- Logging: every `logger` call is dropped. It is the handlers' and the interceptor's only other side effect.
- The MDC is one map. Its per-thread isolation between concurrent requests is not modelled.
- `UUID.randomUUID()` is a parameter of 32 hex digits. The version and variant bits are not constrained.
- `LocalDateTime.now()` is an opaque `Timestamp` parameter. `User(...)` reads the clock twice, and the model uses one reading for both fields.
- Spring chooses a handler by exception class. Here each handler has its own `Failure` variant, and Spring's choice is not modelled.
- Bean-validation rules (`@Email`, `@Size`, `@NotBlank`, `@Min`, `@Max`) are enforced by the library. Only the page bounds appear, as `PageRequests.WithinDeclaredBounds`.
- Case-insensitive comparisons fold ASCII letters only. Case folding beyond ASCII is not modelled.
- UserRepositories.UserRepository.SearchUsers: `%` and `_` in the keyword are SQL LIKE wildcards. The model searches for the keyword as a plain substring.
- UserRepositories.UserRepository.Insert: the database's error text for a unique-key violation is reduced to the column name. An exhausted id sequence gives an SQL failure with no text.
- UserRepositories.UserRepository.FindAll: the table's order is insertion order. The SQL has no ORDER BY, so the database may return rows in another order.
- Response headers are a map with exact-match names. Request headers are matched ignoring case.
- `findUsersWithConditions`, `createUsersInBatch`, `updateUserStatus`, `getUserStatistics` and `findUsersByIds` call repository methods that `UserRepository` does not declare. `getUserStatistics` also computes a floating-point percentage.
- The second `ApiResponse` class declared in `UserDto.kt` is unused. The exception classes in `Exceptions.kt` carry no logic.
- Transactions (`@Transactional`) are not modelled. Each service method runs alone against the table.

## Findings

| source | as written | input that shows it | evidently intended | confidence | as-written member | corrected member |
|---|---|---|---|---|---|---|
| src/main/kotlin/com/re100io/common/PageRequest.kt:35 | `getOffset()` multiplies two `Int`s, so the product wraps around past 2147483647 | page = 2147484, size = 1000, which is within the declared bounds, gives offset -2147483296 | the offset is page × size, a non-negative multiple of size, computed in `Long` | not executed | PageRequests.GetOffsetOverflows | PageRequests.OffsetSkipsWholePages |
