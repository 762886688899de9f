/** Client spans for outgoing HTTP calls. When a request goes out, a span
    is started under the active span, its context is written into the
    request headers, and the span is parked in the request's properties;
    an exception is logged on it; when the response (or the failure)
    arrives, the span is tagged with the status and error, renamed after
    the span-name header of the response, and finished. */
module HttpHandler {
  import opened Wrappers
  import opened Strings
  import opened Constants
  import opened Tracing
  import opened HeadersInject
  import opened Observer

  const DiagnosticListenerName := "HttpHandlerDiagnosticListener"
  /** The request property holding the client span. */
  const PropertiesKey := "ot-Span"

  const RequestOutStart := "System.Net.Http.HttpRequestOut.Start"
  const HttpException := "System.Net.Http.Exception"
  const RequestOutStop := "System.Net.Http.HttpRequestOut.Stop"

  /** `Dictionary.Add` of a property that is already present. */
  const DuplicateKey := "ArgumentException"
  const NullReference := "NullReferenceException"

  /** A request property: the parked span, or anything else. */
  datatype PropertyValue = SpanProperty(span: Span) | OtherProperty

  datatype TaskStatus =
    | Created | WaitingForActivation | WaitingToRun | Running
    | WaitingForChildrenToComplete | RanToCompletion | Canceled | Faulted

  class HttpRequestMessage {
    const httpMethod: string
    const requestUri: string
    const headers: HttpHeaders
    var properties: map<string, PropertyValue>

    constructor(httpMethod: string, requestUri: string, headers: HttpHeaders)
      ensures this.httpMethod == httpMethod && this.requestUri == requestUri && this.headers == headers
      ensures properties == map[]
    {
      this.httpMethod := httpMethod;
      this.requestUri := requestUri;
      this.headers := headers;
      properties := map[];
    }

    /** The span parked under "ot-Span", if the property holds a span. */
    function ParkedSpan(): (r: Option<Span>)
      reads this
      ensures r.Some? <==> PropertiesKey in properties && properties[PropertiesKey].SpanProperty?
    {
      if PropertiesKey in properties && properties[PropertiesKey].SpanProperty?
      then Some(properties[PropertiesKey].span) else None
    }
  }

  class HttpResponseMessage {
    const statusCode: int
    const headers: HttpHeaders

    constructor(statusCode: int, headers: HttpHeaders)
      ensures this.statusCode == statusCode && this.headers == headers
    {
      this.statusCode := statusCode;
      this.headers := headers;
    }
  }

  /** What the stop handler reads from a response: its status code and the
      first value of its span-name header, if there is one. */
  datatype ResponseView = ResponseView(statusCode: int, spanName: Option<string>)

  /** The response as the stop handler sees it; null is `None`. */
  function ViewOf(response: HttpResponseMessage?): (r: Option<ResponseView>)
    requires response != null ==> response.headers.Valid()
    reads if response != null then {response.headers} else {}
    ensures r.Some? <==> response != null
    ensures r.Some? ==> r.value.statusCode == response.statusCode
                        && (r.value.spanName.Some? <==> FoldCase(WavefrontSpanHeader) in response.headers.entries)
  {
    if response == null then None
    else
      var values := response.headers.TryGetValues(WavefrontSpanHeader);
      Some(ResponseView(response.statusCode, if values.Some? then Some(values.value[0]) else None))
  }

  /** `IgnoreRequest`: a request carrying the ignore header, under any
      spelling of its name, is not traced (the header's name is defined
      outside this library). */
  predicate IgnoreRequest(headers: map<string, seq<string>>, ignoreHeader: string) {
    FoldCase(ignoreHeader) in headers
  }

  /** A request is ignored whichever spelling of the ignore header's name
      it was sent with: "x-wf-ignore" counts for "X-WF-IGNORE". */
  lemma IgnoredUnderAnySpelling(entries: map<string, seq<string>>, ignoreHeader: string, sent: string)
    requires EqualsIgnoreCase(ignoreHeader, sent)
    ensures IgnoreRequest(entries, ignoreHeader) <==> FoldCase(sent) in entries
  {
    FoldCaseIff(ignoreHeader, sent);
  }

  /** The tags a client span starts with. */
  function ClientSpanTags(httpMethod: string, requestUri: string): (r: map<string, TagValue>)
    ensures r.Keys == {SpanKindTag, ComponentTag, HttpMethodTag, HttpUrlTag}
    ensures r[SpanKindTag] == StrTag(SpanKindClient) && r[ComponentTag] == StrTag(HttpHandlerComponent)
    ensures r[HttpMethodTag] == StrTag(httpMethod) && r[HttpUrlTag] == StrTag(requestUri)
  {
    map[SpanKindTag := StrTag(SpanKindClient), ComponentTag := StrTag(HttpHandlerComponent),
        HttpMethodTag := StrTag(httpMethod), HttpUrlTag := StrTag(requestUri)]
  }

  /** The error rule of an outgoing call: it was canceled or faulted, or
      the response status is 4xx or 5xx. */
  predicate IsClientError(taskStatus: TaskStatus, response: Option<ResponseView>) {
    taskStatus == Canceled || taskStatus == Faulted
    || (response.Some? && 400 <= response.value.statusCode <= 599)
  }

  /** The status and error tags the stop handler adds. */
  function TaggedOutgoingSpan(span: Span, response: Option<ResponseView>, taskStatus: TaskStatus): Span {
    var withStatus := if response.Some? then SetTag(span, HttpStatusTag, IntTag(response.value.statusCode)) else span;
    if IsClientError(taskStatus, response) then SetTag(withStatus, ErrorTag, BoolTag(true)) else withStatus
  }

  /** The operation name of a client span whose response names it. */
  function RenamedOperation(httpMethod: string, spanName: string): string {
    httpMethod + "-" + spanName
  }

  /** The span the stop handler finishes: tagged, renamed when the response
      carries the span-name header, and finished; without a response the
      header lookup is skipped. */
  function FinishedOutgoingSpan(span: Span, httpMethod: string, response: Option<ResponseView>, taskStatus: TaskStatus)
    : Span
  {
    var tagged := TaggedOutgoingSpan(span, response, taskStatus);
    var named := if response.Some? && response.value.spanName.Some?
                 then SetOperationName(tagged, RenamedOperation(httpMethod, response.value.spanName.value))
                 else tagged;
    Finish(named)
  }

  /** The stop handler as written: the header lookup dereferences the
      response even when there is none, so a call that failed without a
      response throws after tagging and never finishes its span. */
  function OutgoingStopAsWritten(span: Span, httpMethod: string, response: Option<ResponseView>, taskStatus: TaskStatus)
    : (Span, Outcome)
  {
    if response.None? then (TaggedOutgoingSpan(span, response, taskStatus), Fault(NullReference))
    else (FinishedOutgoingSpan(span, httpMethod, response, taskStatus), Pass)
  }

  /** What the stop handler does to the span: the status tag exactly when
      there is a response, the error tag exactly under the error rule, the
      new name exactly when the response names the span, finished, and
      nothing else changed. */
  lemma FinishedOutgoingSpanEffect(span: Span, httpMethod: string, response: Option<ResponseView>,
                                   taskStatus: TaskStatus)
    requires HttpStatusTag !in span.tags && ErrorTag !in span.tags
    ensures var r := FinishedOutgoingSpan(span, httpMethod, response, taskStatus);
            && r.finished
            && r.context == span.context && r.parent == span.parent && r.logs == span.logs
            && (HttpStatusTag in r.tags <==> response.Some?)
            && (response.Some? ==> r.tags[HttpStatusTag] == IntTag(response.value.statusCode))
            && (ErrorTag in r.tags <==> IsClientError(taskStatus, response))
            && (ErrorTag in r.tags ==> r.tags[ErrorTag] == BoolTag(true))
            && (forall k :: k in span.tags ==> k in r.tags && r.tags[k] == span.tags[k])
            && (response.Some? && response.value.spanName.Some? ==>
                  r.operationName == RenamedOperation(httpMethod, response.value.spanName.value))
            && (response.None? || response.value.spanName.None? ==> r.operationName == span.operationName)
  {
  }

  /** Where the code as written and the corrected handler part: a call that
      ended without a response leaves its span unfinished as written, and
      finished once the lookup is guarded. */
  lemma NullResponseLeavesSpanOpen(span: Span, httpMethod: string, taskStatus: TaskStatus)
    requires !span.finished
    ensures OutgoingStopAsWritten(span, httpMethod, None, taskStatus).1.Fault?
    ensures !OutgoingStopAsWritten(span, httpMethod, None, taskStatus).0.finished
    ensures FinishedOutgoingSpan(span, httpMethod, None, taskStatus).finished
  {
  }

  /** With a response, the code as written and the corrected handler
      agree. */
  lemma AsWrittenAgreesWithResponse(span: Span, httpMethod: string, response: ResponseView, taskStatus: TaskStatus)
    ensures OutgoingStopAsWritten(span, httpMethod, Some(response), taskStatus)
            == (FinishedOutgoingSpan(span, httpMethod, Some(response), taskStatus), Pass)
  {
  }

  /** A canceled or faulted call without a response is an error, and so is
      every 4xx or 5xx response; a completed 2xx response is not. */
  lemma ClientErrorCases(taskStatus: TaskStatus, statusCode: int)
    ensures IsClientError(Canceled, None) && IsClientError(Faulted, None)
    ensures 400 <= statusCode <= 599 ==> IsClientError(taskStatus, Some(ResponseView(statusCode, None)))
    ensures 200 <= statusCode <= 299 ==> !IsClientError(RanToCompletion, Some(ResponseView(statusCode, None)))
  {
  }

  /** The payload of one outgoing-call event. */
  datatype Payload = Payload(
    request: HttpRequestMessage,
    response: HttpResponseMessage?,
    taskStatus: TaskStatus,
    exception: Option<Exception>)

  class HttpHandlerDiagnostics {
    const tracer: Tracer
    /** The ignore header's name. */
    const ignoreHeader: string
    /** The tracer's propagation of a span context into header entries. */
    const propagate: SpanContext -> seq<(string, string)>
    var log: seq<LogEntry>

    constructor(tracer: Tracer, ignoreHeader: string, propagate: SpanContext -> seq<(string, string)>)
      ensures this.tracer == tracer && this.ignoreHeader == ignoreHeader && this.propagate == propagate
      ensures log == []
    {
      this.tracer := tracer;
      this.ignoreHeader := ignoreHeader;
      this.propagate := propagate;
      log := [];
    }

    function GetListenerName(): (r: string)
      ensures r == DiagnosticListenerName
    {
      DiagnosticListenerName
    }

    /** `OnHttpRequestOutStart`: unless the tracer is a no-op or the request
        is ignored, a client span starts under the active span, its
        context goes into the request headers, and it is parked under
        "ot-Span" (a property already there makes `Add` throw). */
    method OnHttpRequestOutStart(request: HttpRequestMessage) returns (outcome: Outcome)
      modifies tracer, request, request.headers
      ensures var skipped := tracer.isNoop || IgnoreRequest(old(request.headers.entries), ignoreHeader);
              && (skipped ==> outcome.Pass? && unchanged(tracer, request, request.headers))
              && (!skipped ==>
                    && tracer.scopes == old(tracer.scopes) && tracer.reported == old(tracer.reported)
                    && tracer.nextId == old(tracer.nextId) + 1
                    && request.headers.entries == SetAll(old(request.headers.entries), propagate(old(tracer.NextContext(None))))
                    && (outcome.Fault? <==> PropertiesKey in old(request.properties))
                    && (outcome.Fault? ==> outcome.exception == DuplicateKey && request.properties == old(request.properties))
                    && (outcome.Pass? ==>
                          && request.ParkedSpan().Some?
                          && var span := request.ParkedSpan().value;
                          && request.properties == old(request.properties)[PropertiesKey := SpanProperty(span)]
                          && span.operationName == request.httpMethod
                          && span.tags == ClientSpanTags(request.httpMethod, request.requestUri)
                          && span.parent == old(tracer.ImplicitParent(None))
                          && span.context == old(tracer.NextContext(None))
                          && !span.finished))
    {
      if tracer.isNoop || IgnoreRequest(request.headers.entries, ignoreHeader) {
        return Pass;
      }
      var span := tracer.StartSpan(request.httpMethod, None, ClientSpanTags(request.httpMethod, request.requestUri));
      var adapter := new HeadersInjectAdapter(request.headers);
      adapter.Inject(propagate(span.context));
      if PropertiesKey in request.properties {
        return Fault(DuplicateKey);
      }
      request.properties := request.properties[PropertiesKey := SpanProperty(span)];
      outcome := Pass;
    }

    /** `OnException`: the exception is logged on the parked span, if any. */
    method OnException(request: HttpRequestMessage, exception: Option<Exception>)
      modifies request
      ensures var parked := old(request.ParkedSpan());
              && (parked.None? ==> request.properties == old(request.properties))
              && (parked.Some? ==>
                    request.properties
                    == old(request.properties)[PropertiesKey := SpanProperty(SetException(parked.value, exception))])
    {
      var parked := request.ParkedSpan();
      if parked.Some? {
        request.properties := request.properties[PropertiesKey := SpanProperty(SetException(parked.value, exception))];
      }
    }

    /** `OnHttpRequestOutStop`, with the header lookup guarded by the null
        check the status and error tags already use: the parked span, if
        any, is tagged, renamed and finished, exactly once. */
    method OnHttpRequestOutStop(request: HttpRequestMessage, response: HttpResponseMessage?, taskStatus: TaskStatus)
      requires response != null ==> response.headers.Valid()
      modifies tracer, request
      ensures tracer.scopes == old(tracer.scopes) && tracer.nextId == old(tracer.nextId)
      ensures var parked := old(request.ParkedSpan());
              && (parked.None? ==> request.properties == old(request.properties) && tracer.reported == old(tracer.reported))
              && (parked.Some? ==>
                    var done := FinishedOutgoingSpan(parked.value, request.httpMethod, ViewOf(response), taskStatus);
                    && tracer.reported == old(tracer.reported) + [done]
                    && request.properties == old(request.properties)[PropertiesKey := SpanProperty(done)])
    {
      var parked := request.ParkedSpan();
      if parked.None? {
        return;
      }
      var done := FinishedOutgoingSpan(parked.value, request.httpMethod, ViewOf(response), taskStatus);
      request.properties := request.properties[PropertiesKey := SpanProperty(done)];
      tracer.FinishSpan(done);
    }

    /** `OnNext`: the three outgoing-call events, by name; any other event
        is ignored. */
    method OnNext(eventName: string, payload: Payload) returns (outcome: Outcome)
      requires payload.response != null ==> payload.response.headers.Valid()
      modifies tracer, payload.request, payload.request.headers
      ensures eventName != RequestOutStart ==> outcome.Pass?
      ensures eventName !in {RequestOutStart, HttpException, RequestOutStop} ==>
                unchanged(tracer, payload.request, payload.request.headers)
      ensures eventName == HttpException ==> unchanged(tracer)
      // Each named event reaches its own handler.
      ensures eventName == RequestOutStart ==>
                var request := payload.request;
                var skipped := tracer.isNoop || IgnoreRequest(old(request.headers.entries), ignoreHeader);
                && (skipped ==> outcome.Pass? && unchanged(tracer, request, request.headers))
                && (!skipped ==>
                      && request.headers.entries == SetAll(old(request.headers.entries), propagate(old(tracer.NextContext(None))))
                      && (outcome.Fault? <==> PropertiesKey in old(request.properties))
                      && (outcome.Pass? ==>
                            && request.ParkedSpan().Some?
                            && request.ParkedSpan().value.context == old(tracer.NextContext(None))
                            && request.ParkedSpan().value.tags == ClientSpanTags(request.httpMethod, request.requestUri)))
      ensures eventName == HttpException ==>
                var parked := old(payload.request.ParkedSpan());
                parked.Some? ==>
                  payload.request.properties
                  == old(payload.request.properties)[PropertiesKey := SpanProperty(SetException(parked.value, payload.exception))]
      ensures eventName == RequestOutStop ==>
                var parked := old(payload.request.ParkedSpan());
                parked.Some? ==>
                  var done := FinishedOutgoingSpan(parked.value, payload.request.httpMethod, old(ViewOf(payload.response)), payload.taskStatus);
                  && tracer.reported == old(tracer.reported) + [done]
                  && payload.request.properties == old(payload.request.properties)[PropertiesKey := SpanProperty(done)]
    {
      outcome := Pass;
      if eventName == RequestOutStart {
        outcome := OnHttpRequestOutStart(payload.request);
      } else if eventName == HttpException {
        OnException(payload.request, payload.exception);
      } else if eventName == RequestOutStop {
        OnHttpRequestOutStop(payload.request, payload.response, payload.taskStatus);
      }
    }

    /** The observer's `OnNext`: a handler's exception becomes a warning. */
    method Receive(eventName: string, payload: Payload) returns (caught: Outcome)
      requires payload.response != null ==> payload.response.headers.Valid()
      modifies this, tracer, payload.request, payload.request.headers
      ensures log == Swallow(eventName, caught, old(log))
      ensures eventName != RequestOutStart ==> caught.Pass? && log == old(log)
      ensures eventName == RequestOutStop ==>
                var parked := old(payload.request.ParkedSpan());
                parked.Some? ==>
                  tracer.reported
                  == old(tracer.reported)
                     + [FinishedOutgoingSpan(parked.value, payload.request.httpMethod, old(ViewOf(payload.response)), payload.taskStatus)]
    {
      caught := OnNext(eventName, payload);
      log := Swallow(eventName, caught, log);
    }
  }
}
