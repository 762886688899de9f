/** The parts of ASP.NET Core's `HttpContext` the request pipelines read and
    write: the request (method, display URL, and the span context a tracer
    extracts from its headers), the response status and headers, and the
    per-request `Items` bag. */
module Http {
  import opened Wrappers
  import opened Tracing

  datatype HttpRequest = HttpRequest(
    httpMethod: string,
    displayUrl: string,
    /** What `ITracer.Extract` finds in the request headers. */
    propagatedContext: Option<SpanContext>)

  /** The values the pipelines store in `HttpContext.Items`. */
  datatype ItemValue = Millis(ms: int) | Text(text: string) | ScopeItem(scope: Scope) | Marker

  class HttpContext {
    const request: HttpRequest
    var statusCode: int
    /** Response headers, keyed by their case-folded names (`Strings.FoldCase`). */
    var responseHeaders: map<string, seq<string>>
    var items: map<string, ItemValue>
    /** Whether the MVC exception filter stored the request's exception in
        `Items`. */
    var exceptionRecorded: bool

    constructor(request: HttpRequest, statusCode: int)
      ensures this.request == request && this.statusCode == statusCode
      ensures responseHeaders == map[] && items == map[] && !exceptionRecorded
    {
      this.request := request;
      this.statusCode := statusCode;
      responseHeaders := map[];
      items := map[];
      exceptionRecorded := false;
    }
  }

  /** `Items.TryGetValue` for a time stamp. */
  function MillisItem(items: map<string, ItemValue>, key: string): (r: Option<int>)
    ensures r.Some? <==> key in items && items[key].Millis?
  {
    if key in items && items[key].Millis? then Some(items[key].ms) else None
  }

  /** The time elapsed since the start time stored under `key`, if any. */
  function ElapsedSince(items: map<string, ItemValue>, key: string, now: int): (r: Option<int>)
    ensures r.Some? <==> MillisItem(items, key).Some?
    ensures r.Some? ==> r.value == now - MillisItem(items, key).value
  {
    match MillisItem(items, key)
    case None => None
    case Some(start) => Some(now - start)
  }

  /** `Items.TryGetValue` for a string. */
  function TextItem(items: map<string, ItemValue>, key: string): (r: Option<string>)
    ensures r.Some? <==> key in items && items[key].Text?
  {
    if key in items && items[key].Text? then Some(items[key].text) else None
  }

  /** `Items.TryGetValue` for a scope. */
  function ScopeItemOf(items: map<string, ItemValue>, key: string): (r: Option<Scope>)
    ensures r.Some? <==> key in items && items[key].ScopeItem?
  {
    if key in items && items[key].ScopeItem? then Some(items[key].scope) else None
  }

  /** An MVC action: display name, attribute route template, and for a
      controller action the controller type's names and the action name. */
  datatype ControllerInfo = ControllerInfo(typeName: string, typeFullName: string, controllerName: string, actionName: string)

  datatype ActionDescriptor = ActionDescriptor(
    displayName: string,
    routeTemplate: Option<string>,
    controller: Option<ControllerInfo>)
}
