/** `TraceInterceptor` (src/main/kotlin/com/re100io/interceptor/TraceInterceptor.kt):
    before a request it resolves the trace id, stores it in the MDC and echoes it
    in two response headers; after the request it empties the MDC. The servlet
    request is a value, the servlet response an object whose headers and status
    can change. */
module TraceInterceptors {
  import opened Wrappers
  import opened Text
  import opened TraceContexts
  import opened GlobalExceptionHandler

  const TraceIdHeader: string := "X-Trace-Id"
  const RequestIdHeader: string := "X-Request-Id"

  datatype Header = Header(name: string, value: string)

  /** The parts of an `HttpServletRequest` the interceptor reads: its headers in
      arrival order, and the URI and method it only logs. */
  datatype HttpRequest = HttpRequest(requestUri: string, httpMethod: string, headers: seq<Header>)

  /** Header names are compared ignoring case, as the servlet API does. */
  predicate SameHeaderName(a: string, b: string) {
    |a| == |b| && forall i :: 0 <= i < |a| ==> CharEquals(a[i], b[i], true)
  }

  /** The first value among `headers` whose name is `name`. */
  function FirstHeader(headers: seq<Header>, name: string): (r: Option<string>)
    ensures r.None? <==> forall i :: 0 <= i < |headers| ==> !SameHeaderName(headers[i].name, name)
    ensures r.Some? ==>
      exists i :: (0 <= i < |headers| && SameHeaderName(headers[i].name, name) && r.value == headers[i].value
                   && forall j :: 0 <= j < i ==> !SameHeaderName(headers[j].name, name))
    decreases |headers|
  {
    if |headers| == 0 then None
    else if SameHeaderName(headers[0].name, name) then Some(headers[0].value)
    else
      var r := FirstHeader(headers[1..], name);
      assert forall i :: 1 <= i < |headers| ==> headers[i] == headers[1..][i - 1];
      r
  }

  /** `request.getHeader(name)`: the first value of the named header, or null. */
  function GetHeader(request: HttpRequest, name: string): Option<string> {
    FirstHeader(request.headers, name)
  }

  /** `getHeader(TRACE_ID_HEADER) ?: getHeader(REQUEST_ID_HEADER)`: X-Request-Id
      is consulted only when X-Trace-Id is absent altogether. */
  function HeaderTraceId(request: HttpRequest): (r: Option<string>)
    ensures GetHeader(request, TraceIdHeader).Some? ==> r == GetHeader(request, TraceIdHeader)
    ensures GetHeader(request, TraceIdHeader).None? ==> r == GetHeader(request, RequestIdHeader)
    ensures r.None? <==> GetHeader(request, TraceIdHeader).None? && GetHeader(request, RequestIdHeader).None?
  {
    match GetHeader(request, TraceIdHeader)
    case Some(v) => Some(v)
    case None => GetHeader(request, RequestIdHeader)
  }

  /** The trace id `preHandle` settles on, case by case: a usable X-Trace-Id wins;
      a blank one leads to a fresh id even when X-Request-Id is usable; X-Request-Id
      is used only when X-Trace-Id is missing. */
  function ResolveTraceId(request: HttpRequest, uuid: Uuid): (r: string)
    ensures var trace := GetHeader(request, TraceIdHeader);
      && (trace.Some? && !IsBlank(trace.value) ==> r == trace.value)
      && (trace.Some? && IsBlank(trace.value) ==> r == GenerateTraceId(uuid))
    ensures var trace, fallback := GetHeader(request, TraceIdHeader), GetHeader(request, RequestIdHeader);
      && (trace.None? && fallback.Some? && !IsBlank(fallback.value) ==> r == fallback.value)
      && (trace.None? && IsNullOrBlank(fallback) ==> r == GenerateTraceId(uuid))
    ensures !IsBlank(r)
  {
    TraceIdNeverBlank(HeaderTraceId(request), uuid);
    ExtractOrGenerateTraceId(HeaderTraceId(request), uuid)
  }

  /** Names that match ignoring case match the same names. */
  lemma SameHeaderNameTransfers(a: string, b: string, name: string)
    requires SameHeaderName(a, b)
    ensures SameHeaderName(a, name) <==> SameHeaderName(b, name)
  {
    if SameHeaderName(a, name) {
      forall i | 0 <= i < |b|
        ensures CharEquals(b[i], name[i], true)
      {
        assert CharEquals(a[i], b[i], true) && CharEquals(a[i], name[i], true);
      }
    }
    if SameHeaderName(b, name) {
      forall i | 0 <= i < |a|
        ensures CharEquals(a[i], name[i], true)
      {
        assert CharEquals(a[i], b[i], true) && CharEquals(b[i], name[i], true);
      }
    }
  }

  /** The lookup does not depend on how the client spelled the header names: two
      header lists that differ only in the letter case of their names give the
      same value for every name. */
  lemma {:induction false} HeaderNamesIgnoreCase(headers: seq<Header>, respelled: seq<Header>, name: string)
    requires |headers| == |respelled|
    requires forall i :: 0 <= i < |headers| ==>
      headers[i].value == respelled[i].value && SameHeaderName(headers[i].name, respelled[i].name)
    ensures FirstHeader(headers, name) == FirstHeader(respelled, name)
    decreases |headers|
  {
    if |headers| > 0 {
      SameHeaderNameTransfers(headers[0].name, respelled[0].name, name);
      HeaderNamesIgnoreCase(headers[1..], respelled[1..], name);
    }
  }

  /** The parts of an `HttpServletResponse` the interceptor may touch. */
  class HttpResponse {
    var status: int
    var headers: map<string, string>

    constructor (status: int)
      ensures this.status == status && headers == map[]
    {
      this.status := status;
      headers := map[];
    }

    /** `setHeader(name, value)`: replaces any earlier value of that header. */
    method SetHeader(name: string, value: string)
      modifies this
      ensures headers == old(headers)[name := value]
      ensures status == old(status)
    {
      headers := headers[name := value];
    }
  }

  class TraceInterceptor {
    /** The MDC the interceptor writes to. */
    const context: TraceContext

    constructor (context: TraceContext)
      ensures this.context == context
    {
      this.context := context;
    }

    /** `preHandle`: lets the request through, with the resolved trace id in the MDC
        and in both response headers, and nothing else of the response changed. */
    method PreHandle(request: HttpRequest, response: HttpResponse, uuid: Uuid) returns (proceed: bool)
      modifies context, response
      ensures proceed
      ensures var id := ResolveTraceId(request, uuid);
        && context.mdc == old(context.mdc)[TraceIdKey := id][RequestIdKey := id]
        && response.headers == old(response.headers)[TraceIdHeader := id][RequestIdHeader := id]
        && response.status == old(response.status)
      ensures context.GetTraceId() == Some(response.headers[TraceIdHeader])
      ensures response.headers[TraceIdHeader] == response.headers[RequestIdHeader]
    {
      var headerTraceId := HeaderTraceId(request);
      var traceId := ExtractOrGenerateTraceId(headerTraceId, uuid);
      context.SetTraceId(traceId);
      response.SetHeader(TraceIdHeader, traceId);
      response.SetHeader(RequestIdHeader, traceId);
      return true;
    }

    /** `afterCompletion`: the MDC ends empty, whether or not the request failed. */
    method AfterCompletion(request: HttpRequest, response: HttpResponse, ex: Option<Failure>)
      modifies context
      ensures context.mdc == map[]
      ensures context.GetTraceId().None?
    {
      context.Clear();
    }
  }
}
