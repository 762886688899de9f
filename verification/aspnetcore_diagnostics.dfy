/** The diagnostic-listener instrumentation of ASP.NET Core: it observes
    the "Microsoft.AspNetCore" listener's hosting and MVC events, keeps a
    server span active for each request, maintains the in-flight gauges
    between the MVC BeforeAction and AfterAction events, and reports the
    response metrics when hosting stops the request. */
module AspNetCore {
  import opened Wrappers
  import opened Constants
  import opened Application
  import opened GaugeOptions
  import opened Gauges
  import opened Tracing
  import opened Telemetry
  import opened Http
  import opened MetricNames
  import opened Observer
  import opened Inflight
  import opened Strings

  const DiagnosticListenerName := "Microsoft.AspNetCore"

  const StartTimeMillisKey := "Wavefront.StartTimeMillis"
  const ControllerNameKey := "Wavefront.ControllerName"
  const ActionNameKey := "Wavefront.ActionName"
  const ResponseMetricPrefixKey := "Wavefront.ResponseMetricPrefix"

  const HttpRequestInStart := "Microsoft.AspNetCore.Hosting.HttpRequestIn.Start"
  const BeforeActionEvent := "Microsoft.AspNetCore.Mvc.BeforeAction"
  const AfterActionEvent := "Microsoft.AspNetCore.Mvc.AfterAction"
  const UnhandledExceptionEvent := "Microsoft.AspNetCore.Diagnostics.UnhandledException"
  const HttpRequestInStop := "Microsoft.AspNetCore.Hosting.HttpRequestIn.Stop"

  const NullContextMessage := "No metrics/spans will be recorded because HttpContext payload is null"
  /** `IHeaderDictionary.Add` of a header that is already there. */
  const DuplicateHeader := "ArgumentException"
  /** The dictionary indexer on a gauge that was never added. */
  const KeyNotFound := "KeyNotFoundException"

  /** The five events the observer handles. */
  datatype Event = RequestStart | BeforeAction | AfterAction | UnhandledException | RequestStop

  function EventOf(eventName: string): (r: Option<Event>)
    ensures r == Some(RequestStart) <==> eventName == HttpRequestInStart
    ensures r == Some(BeforeAction) <==> eventName == BeforeActionEvent
    ensures r == Some(AfterAction) <==> eventName == AfterActionEvent
    ensures r == Some(UnhandledException) <==> eventName == UnhandledExceptionEvent
    ensures r == Some(RequestStop) <==> eventName == HttpRequestInStop
  {
    if eventName == HttpRequestInStart then Some(RequestStart)
    else if eventName == BeforeActionEvent then Some(BeforeAction)
    else if eventName == AfterActionEvent then Some(AfterAction)
    else if eventName == UnhandledExceptionEvent then Some(UnhandledException)
    else if eventName == HttpRequestInStop then Some(RequestStop)
    else None
  }

  /** What the property fetchers find in an event's payload. */
  datatype Payload = Payload(
    httpContext: HttpContext?,
    actionDescriptor: Option<ActionDescriptor>,
    /** The payload's exception, if any. */
    exception: Option<Exception>)

  // ---------------------------------------------------------------------
  // Gauges.

  /** The route gauge an action has, if it is a controller action whose
      route yields a request name. */
  function RouteGaugeOf(app: ApplicationTags, httpMethod: string, ad: ActionDescriptor): Option<GaugeKey> {
    if ad.controller.None? then None
    else match RequestMetricName(httpMethod, ad.routeTemplate)
      case None => None
      case Some(name) => Some(RouteInflightGauge(app, name, ad.controller.value.typeFullName, ad.controller.value.actionName))
  }

  /** BeforeAction: the total gauge goes up, then the route's gauge. */
  function BeforeActionGauges(app: ApplicationTags, g: GaugeRegistry, httpMethod: string, ad: ActionDescriptor): GaugeRegistry {
    var g1 := g.Increment(TotalInflightGauge(app));
    match RouteGaugeOf(app, httpMethod, ad)
    case None => g1
    case Some(route) => g1.Increment(route)
  }

  /** AfterAction: the total gauge goes down, then the route's gauge; a
      gauge never added makes the indexer throw, leaving the decrements
      done so far. */
  function AfterActionGauges(app: ApplicationTags, g: GaugeRegistry, httpMethod: string, ad: ActionDescriptor)
    : (GaugeRegistry, Outcome)
  {
    match g.Decrement(TotalInflightGauge(app))
    case None => (g, Fault(KeyNotFound))
    case Some(g1) =>
      match RouteGaugeOf(app, httpMethod, ad)
      case None => (g1, Pass)
      case Some(route) =>
        match g1.Decrement(route)
        case None => (g1, Fault(KeyNotFound))
        case Some(g2) => (g2, Pass)
  }

  /** The registry with the gauges of BeforeAction created but unchanged. */
  function TouchedByBeforeAction(app: ApplicationTags, g: GaugeRegistry, httpMethod: string, ad: ActionDescriptor): GaugeRegistry {
    var g1 := g.GetOrAdd(TotalInflightGauge(app));
    match RouteGaugeOf(app, httpMethod, ad)
    case None => g1
    case Some(route) => g1.GetOrAdd(route)
  }

  /** The route gauge, when there is one, is not the total gauge. */
  lemma RouteGaugeIsNotTotal(app: ApplicationTags, httpMethod: string, ad: ActionDescriptor)
    requires RouteGaugeOf(app, httpMethod, ad).Some?
    ensures RouteGaugeOf(app, httpMethod, ad).value != TotalInflightGauge(app)
  {
    var name := RequestMetricName(httpMethod, ad.routeTemplate).value;
    assert name[0] == 'r';
    TotalIsNotRoute(app, name, ad.controller.value.typeFullName, ad.controller.value.actionName);
  }

  /** AfterAction undoes BeforeAction on the same request: it succeeds,
      and every in-flight count is back where it was (a gauge touched for
      the first time stays registered, at zero). */
  lemma {:induction false} GaugeSymmetry(app: ApplicationTags, g: GaugeRegistry, httpMethod: string, ad: ActionDescriptor)
    ensures AfterActionGauges(app, BeforeActionGauges(app, g, httpMethod, ad), httpMethod, ad)
            == (TouchedByBeforeAction(app, g, httpMethod, ad), Pass)
  {
    var total := TotalInflightGauge(app);
    match RouteGaugeOf(app, httpMethod, ad)
    case None =>
      IncrementThenDecrement(g, total);
    case Some(route) =>
      RouteGaugeIsNotTotal(app, httpMethod, ad);
      PairRoundTrip(g, total, route);
  }

  /** AfterAction without a matching BeforeAction on a fresh registry
      throws and changes nothing. */
  lemma AfterActionAloneFails(app: ApplicationTags, httpMethod: string, ad: ActionDescriptor)
    ensures AfterActionGauges(app, Empty, httpMethod, ad) == (Empty, Fault(KeyNotFound))
  {
  }

  /** Both gauge steps keep every gauge registered exactly once. */
  lemma GaugeStepsValid(app: ApplicationTags, g: GaugeRegistry, httpMethod: string, ad: ActionDescriptor)
    requires g.Valid()
    ensures BeforeActionGauges(app, g, httpMethod, ad).Valid()
    ensures AfterActionGauges(app, g, httpMethod, ad).0.Valid()
  {
    var total := TotalInflightGauge(app);
    OperationsPreserveValid(g, total);
    var up := g.Increment(total);
    var down := g.Decrement(total);
    match RouteGaugeOf(app, httpMethod, ad)
    case None =>
    case Some(route) =>
      OperationsPreserveValid(up, route);
      if down.Some? {
        OperationsPreserveValid(down.value, route);
      }
  }

  // ---------------------------------------------------------------------
  // Spans.

  /** Tags of the server span started for an incoming request. */
  function ServerSpanTags(request: HttpRequest): (r: map<string, TagValue>)
    ensures r.Keys == {SpanKindTag, ComponentTag, HttpMethodTag, HttpUrlTag}
    ensures r[SpanKindTag] == StrTag(SpanKindServer) && r[ComponentTag] == StrTag(AspNetCoreComponent)
    ensures r[HttpMethodTag] == StrTag(request.httpMethod) && r[HttpUrlTag] == StrTag(request.displayUrl)
  {
    map[SpanKindTag := StrTag(SpanKindServer), ComponentTag := StrTag(AspNetCoreComponent),
        HttpMethodTag := StrTag(request.httpMethod), HttpUrlTag := StrTag(request.displayUrl)]
  }

  /** The active span once MVC has selected the action: a controller
      action renames it "<type name>.<action>" and tags the controller's
      full name; any other action renames it to its display name; both tag
      the route template. */
  function ActionSpan(span: Span, ad: ActionDescriptor): (r: Span)
    ensures r.tags.Keys == span.tags.Keys + {PathTagKey} + (if ad.controller.Some? then {ControllerTagKey} else {})
    ensures ad.controller.None? ==> r.operationName == ad.displayName
    ensures ad.controller.Some? ==>
              r.operationName == ad.controller.value.typeName + "." + ad.controller.value.actionName
              && r.tags[ControllerTagKey] == StrTag(ad.controller.value.typeFullName)
    ensures r.tags[PathTagKey] == OptionalTag(ad.routeTemplate)
    ensures r.context == span.context && r.parent == span.parent && r.logs == span.logs && r.finished == span.finished
  {
    var named := match ad.controller
      case None => SetOperationName(span, ad.displayName)
      case Some(c) => SetTag(SetOperationName(span, c.typeName + "." + c.actionName), ControllerTagKey, StrTag(c.typeFullName));
    SetTag(named, PathTagKey, OptionalTag(ad.routeTemplate))
  }

  /** The response header value of a route template; a null template gives
      an empty value. */
  function HeaderValue(routeTemplate: Option<string>): seq<string> {
    match routeTemplate
    case None => []
    case Some(t) => [t]
  }

  // ---------------------------------------------------------------------
  // Response metrics.

  /** The items AfterAction stores for a controller action with a response
      name. */
  function StoreRoute(items: map<string, ItemValue>, controller: ControllerInfo, responseName: string): map<string, ItemValue> {
    items[ControllerNameKey := Text(controller.typeFullName)][ActionNameKey := Text(controller.actionName)]
         [ResponseMetricPrefixKey := Text(responseName)]
  }

  /** What HttpRequestIn.Stop reports: nothing unless AfterAction stored the
      controller, the action and the response name; otherwise the
      completion records of that route with the final status. */
  function StopEmissions(app: ApplicationTags, items: map<string, ItemValue>, statusCode: int, now: int): seq<Emission> {
    match (TextItem(items, ControllerNameKey), TextItem(items, ActionNameKey), TextItem(items, ResponseMetricPrefixKey))
    case (Some(c), Some(a), Some(responseName)) =>
      CompletionEmissions(app, responseName, statusCode, Some(c), Some(a), ElapsedSince(items, StartTimeMillisKey, now))
    case _ => []
  }

  /** A request whose action never reached AfterAction's store reports no
      metrics at its stop. */
  lemma StopWithoutRouteIsSilent(app: ApplicationTags, items: map<string, ItemValue>, statusCode: int, now: int)
    requires ResponseMetricPrefixKey !in items || ControllerNameKey !in items || ActionNameKey !in items
    ensures StopEmissions(app, items, statusCode, now) == []
  {
  }

  /** After AfterAction's store, the stop reports the route's completion
      with the controller's full name and the action as tags, and with a
      latency exactly when the request start was recorded. */
  lemma StopAfterStore(app: ApplicationTags, items: map<string, ItemValue>, controller: ControllerInfo,
                       responseName: string, statusCode: int, now: int)
    ensures var stored := StoreRoute(items, controller, responseName);
            StopEmissions(app, stored, statusCode, now)
            == CompletionEmissions(app, responseName, statusCode, Some(controller.typeFullName),
                                   Some(controller.actionName), ElapsedSince(items, StartTimeMillisKey, now))
  {
    var stored := StoreRoute(items, controller, responseName);
    assert TextItem(stored, ControllerNameKey) == Some(controller.typeFullName);
    assert TextItem(stored, ActionNameKey) == Some(controller.actionName);
    assert TextItem(stored, ResponseMetricPrefixKey) == Some(responseName);
    assert MillisItem(stored, StartTimeMillisKey) == MillisItem(items, StartTimeMillisKey);
  }

  /** At the stop, the span is flagged as an error exactly when the error
      counters are reported. */
  lemma SpanAndMetricsAgreeOnError(app: ApplicationTags, span: Span, responseName: string, statusCode: int,
                                   controllerName: Option<string>, actionName: Option<string>, latency: Option<int>)
    requires ErrorTag !in span.tags
    ensures var es := CompletionEmissions(app, responseName, statusCode, controllerName, actionName, latency);
            ErrorTag in TagResponse(span, statusCode).tags <==> Named(es, ResponseErrors)
  {
    CurrentCompletionIff(app, responseName, statusCode, controllerName, actionName, latency);
  }

  // ---------------------------------------------------------------------
  // The observer.

  class AspNetCoreDiagnostics {
    const app: ApplicationTags
    const tracer: Tracer
    const sink: MetricsSink
    /** The overall tier tags, computed once. */
    const overall: TierTags
    const totalInflightGauge: GaugeKey
    /** The in-flight counters (`_gauges`). */
    var gauges: GaugeRegistry
    var log: seq<LogEntry>

    ghost predicate Valid()
      reads this
    {
      && overall == TierTagsFor(app, None, None)
      && totalInflightGauge == TotalInflightGauge(app)
      && gauges.Valid()
    }

    constructor(app: ApplicationTags, tracer: Tracer, sink: MetricsSink)
      ensures Valid()
      ensures this.app == app && this.tracer == tracer && this.sink == sink
      ensures gauges == Empty && log == []
    {
      this.app := app;
      this.tracer := tracer;
      this.sink := sink;
      overall := TierTagsFor(app, None, None);
      totalInflightGauge := TotalInflightGauge(app);
      gauges := Empty;
      log := [];
      new;
      EmptyValid();
    }

    function GetListenerName(): string {
      DiagnosticListenerName
    }

    /** HttpRequestIn.Start: the start time goes into the request's items
        and, unless the tracer is a no-op, a server span becomes active,
        child of the context propagated in the request headers (or of the
        active span when there is none). */
    method OnHttpRequestInStart(ctx: HttpContext?, now: int)
      requires Valid()
      modifies this, ctx, tracer
      ensures Valid() && gauges == old(gauges)
      ensures ctx == null ==> log == old(log) + [Information(NullContextMessage)] && unchanged(tracer)
      ensures ctx != null ==>
                && log == old(log)
                && ctx.items == old(ctx.items)[StartTimeMillisKey := Millis(now)]
                && ctx.statusCode == old(ctx.statusCode) && ctx.responseHeaders == old(ctx.responseHeaders)
      ensures ctx != null && tracer.isNoop ==> unchanged(tracer)
      ensures ctx != null && !tracer.isNoop ==>
                && |tracer.scopes| == |old(tracer.scopes)| + 1
                && tracer.scopes[..|old(tracer.scopes)|] == old(tracer.scopes)
                && tracer.reported == old(tracer.reported)
                && var scope := tracer.scopes[|old(tracer.scopes)|];
                   && scope.span.operationName == ctx.request.httpMethod
                   && scope.span.tags == ServerSpanTags(ctx.request)
                   && scope.span.parent == old(tracer.ImplicitParent(ctx.request.propagatedContext))
                   && scope.finishOnDispose
    {
      if ctx == null {
        log := log + [Information(NullContextMessage)];
        return;
      }
      ctx.items := ctx.items[StartTimeMillisKey := Millis(now)];
      if tracer.isNoop {
        return;
      }
      var scope := tracer.StartActive(ctx.request.httpMethod, ctx.request.propagatedContext, ServerSpanTags(ctx.request), true);
    }

    /** Mvc.BeforeAction: the route template goes into the response
        headers, the active span takes the action's name and tags, and the
        in-flight gauges go up. A response that already carries the header
        makes `Add` throw before anything else changes. */
    method OnBeforeAction(ctx: HttpContext?, ad: Option<ActionDescriptor>) returns (outcome: Outcome)
      requires Valid()
      modifies this, ctx, tracer
      ensures Valid() && log == old(log)
      ensures ctx == null || ad.None? ==> outcome.Pass? && gauges == old(gauges) && unchanged(tracer)
      ensures ctx != null && ad.None? ==> unchanged(ctx)
      ensures ctx != null && ad.Some? && FoldCase(WavefrontSpanHeader) in old(ctx.responseHeaders) ==>
                outcome == Fault(DuplicateHeader) && gauges == old(gauges) && unchanged(tracer) && unchanged(ctx)
      ensures ctx != null && ad.Some? && FoldCase(WavefrontSpanHeader) !in old(ctx.responseHeaders) ==>
                && outcome.Pass?
                && ctx.responseHeaders == old(ctx.responseHeaders)[FoldCase(WavefrontSpanHeader) := HeaderValue(ad.value.routeTemplate)]
                && ctx.items == old(ctx.items) && ctx.statusCode == old(ctx.statusCode)
                && gauges == BeforeActionGauges(app, old(gauges), ctx.request.httpMethod, ad.value)
                && (old(tracer.scopes) == [] ==> unchanged(tracer))
                && (old(tracer.scopes) != [] ==>
                      tracer.scopes == WithActiveSpan(old(tracer.scopes), ActionSpan(old(tracer.ActiveSpan()).value, ad.value))
                      && tracer.reported == old(tracer.reported))
    {
      outcome := Pass;
      if ctx == null || ad.None? {
        return;
      }
      var descriptor := ad.value;
      if FoldCase(WavefrontSpanHeader) in ctx.responseHeaders {
        outcome := Fault(DuplicateHeader);
        return;
      }
      ctx.responseHeaders := ctx.responseHeaders[FoldCase(WavefrontSpanHeader) := HeaderValue(descriptor.routeTemplate)];
      var span := tracer.ActiveSpan();
      if span.Some? {
        tracer.UpdateActiveSpan(ActionSpan(span.value, descriptor));
      }
      GaugeStepsValid(app, gauges, ctx.request.httpMethod, descriptor);
      gauges := BeforeActionGauges(app, gauges, ctx.request.httpMethod, descriptor);
    }

    /** Mvc.AfterAction: the in-flight gauges go down and, for a controller
        action with a response name, the controller, action and response
        name are stored in the request's items for the stop event. */
    method OnAfterAction(ctx: HttpContext?, ad: Option<ActionDescriptor>) returns (outcome: Outcome)
      requires Valid()
      modifies this, ctx
      ensures Valid() && log == old(log)
      ensures ctx == null || ad.None? ==> outcome.Pass? && gauges == old(gauges)
      ensures ctx != null && ad.None? ==> unchanged(ctx)
      ensures ctx != null && ad.Some? ==>
                && (gauges, outcome) == AfterActionGauges(app, old(gauges), ctx.request.httpMethod, ad.value)
                && ctx.responseHeaders == old(ctx.responseHeaders) && ctx.statusCode == old(ctx.statusCode)
                && var responseName := ResponseMetricName(ctx.request.httpMethod, ad.value.routeTemplate);
                   if outcome.Pass? && ad.value.controller.Some? && responseName.Some?
                   then ctx.items == StoreRoute(old(ctx.items), ad.value.controller.value, responseName.value)
                   else ctx.items == old(ctx.items)
    {
      outcome := Pass;
      if ctx == null || ad.None? {
        return;
      }
      var descriptor := ad.value;
      GaugeStepsValid(app, gauges, ctx.request.httpMethod, descriptor);
      var step := AfterActionGauges(app, gauges, ctx.request.httpMethod, descriptor);
      gauges := step.0;
      outcome := step.1;
      if outcome.Fault? || descriptor.controller.None? {
        return;
      }
      var responseName := ResponseMetricName(ctx.request.httpMethod, descriptor.routeTemplate);
      if responseName.Some? {
        ctx.items := StoreRoute(ctx.items, descriptor.controller.value, responseName.value);
      }
    }

    /** Diagnostics.UnhandledException: the active span logs the error. */
    method OnUnhandledException(exception: Option<Exception>)
      modifies tracer
      ensures old(tracer.scopes) == [] ==> unchanged(tracer)
      ensures old(tracer.scopes) != [] ==>
                tracer.scopes == WithActiveSpan(old(tracer.scopes), SetException(old(tracer.ActiveSpan()).value, exception))
                && tracer.reported == old(tracer.reported)
    {
      var span := tracer.ActiveSpan();
      if span.Some? {
        tracer.UpdateActiveSpan(SetException(span.value, exception));
      }
    }

    /** HttpRequestIn.Stop: the active scope's span is tagged with the
        status (and the error flag) and the scope is disposed; then the
        response metrics of the stored route are reported. */
    method OnHttpRequestInStop(ctx: HttpContext?, now: int)
      requires Valid()
      modifies tracer, sink
      ensures ctx == null ==> unchanged(tracer, sink)
      ensures ctx != null && old(tracer.scopes) == [] ==> unchanged(tracer)
      ensures ctx != null && old(tracer.scopes) != [] ==>
                var scope := old(tracer.Active()).value;
                var tagged := TagResponse(scope.span, ctx.statusCode);
                && tracer.scopes == Restored(WithActiveSpan(old(tracer.scopes), tagged), scope.depth)
                && tracer.reported == old(tracer.reported) + (if scope.finishOnDispose then [Finish(tagged)] else [])
      ensures ctx != null ==> sink.log == old(sink.log) + StopEmissions(app, ctx.items, ctx.statusCode, now)
    {
      if ctx == null {
        return;
      }
      var statusCode := ctx.statusCode;
      var active := tracer.Active();
      if active.Some? {
        var tagged := TagResponse(active.value.span, statusCode);
        tracer.UpdateActiveSpan(tagged);
        tracer.Dispose(active.value.(span := tagged));
      }
      var controllerName := TextItem(ctx.items, ControllerNameKey);
      var actionName := TextItem(ctx.items, ActionNameKey);
      var responseName := TextItem(ctx.items, ResponseMetricPrefixKey);
      if controllerName.None? || actionName.None? || responseName.None? {
        return;
      }
      EmitCompletion(sink, app, responseName.value, ResponseKey(responseName.value, statusCode),
                     IsErrorStatusCode(statusCode), true, true,
                     TierTagsFor(app, controllerName, actionName), overall, ElapsedSince(ctx.items, StartTimeMillisKey, now));
    }

    /** `OnNext(string, object)`: dispatch on the event name; other events
        are ignored. */
    method OnNext(eventName: string, payload: Payload, now: int) returns (outcome: Outcome)
      requires Valid()
      modifies this, payload.httpContext, tracer, sink
      ensures Valid()
      ensures EventOf(eventName).None? ==>
                outcome.Pass? && unchanged(this, tracer, sink)
                && (payload.httpContext != null ==> unchanged(payload.httpContext))
      ensures EventOf(eventName) != Some(BeforeAction) && EventOf(eventName) != Some(AfterAction) ==>
                gauges == old(gauges) && outcome.Pass?
      ensures EventOf(eventName) != Some(RequestStop) ==> sink.log == old(sink.log)
      ensures EventOf(eventName) != Some(RequestStart) ==> log == old(log)
      // Each named event reaches its own handler.
      ensures EventOf(eventName) == Some(RequestStart) ==>
                var ctx := payload.httpContext;
                && (ctx == null ==> log == old(log) + [Information(NullContextMessage)] && unchanged(tracer))
                && (ctx != null ==> log == old(log) && ctx.items == old(ctx.items)[StartTimeMillisKey := Millis(now)])
                && (ctx != null && !tracer.isNoop ==>
                      && |tracer.scopes| == |old(tracer.scopes)| + 1
                      && tracer.scopes[..|old(tracer.scopes)|] == old(tracer.scopes)
                      && var scope := tracer.scopes[|old(tracer.scopes)|];
                         && scope.span.operationName == ctx.request.httpMethod
                         && scope.span.tags == ServerSpanTags(ctx.request)
                         && scope.span.parent == old(tracer.ImplicitParent(ctx.request.propagatedContext))
                         && scope.finishOnDispose)
      ensures EventOf(eventName) == Some(BeforeAction) && payload.httpContext != null && payload.actionDescriptor.Some? ==>
                var ctx := payload.httpContext;
                if FoldCase(WavefrontSpanHeader) in old(ctx.responseHeaders)
                then outcome == Fault(DuplicateHeader) && gauges == old(gauges)
                else && outcome.Pass?
                     && gauges == BeforeActionGauges(app, old(gauges), ctx.request.httpMethod, payload.actionDescriptor.value)
                     && ctx.responseHeaders
                        == old(ctx.responseHeaders)[FoldCase(WavefrontSpanHeader) := HeaderValue(payload.actionDescriptor.value.routeTemplate)]
      ensures EventOf(eventName) == Some(AfterAction) && payload.httpContext != null && payload.actionDescriptor.Some? ==>
                (gauges, outcome)
                == AfterActionGauges(app, old(gauges), payload.httpContext.request.httpMethod, payload.actionDescriptor.value)
      ensures EventOf(eventName) == Some(UnhandledException) && old(tracer.scopes) != [] ==>
                tracer.scopes == WithActiveSpan(old(tracer.scopes), SetException(old(tracer.ActiveSpan()).value, payload.exception))
      ensures EventOf(eventName) == Some(RequestStop) && payload.httpContext != null ==>
                var ctx := payload.httpContext;
                && sink.log == old(sink.log) + StopEmissions(app, ctx.items, ctx.statusCode, now)
                && (old(tracer.scopes) != [] ==>
                      var scope := old(tracer.Active()).value;
                      var tagged := TagResponse(scope.span, ctx.statusCode);
                      && tracer.scopes == Restored(WithActiveSpan(old(tracer.scopes), tagged), scope.depth)
                      && tracer.reported == old(tracer.reported) + (if scope.finishOnDispose then [Finish(tagged)] else []))
    {
      outcome := Pass;
      match EventOf(eventName)
      case None =>
      case Some(RequestStart) =>
        OnHttpRequestInStart(payload.httpContext, now);
      case Some(BeforeAction) =>
        outcome := OnBeforeAction(payload.httpContext, payload.actionDescriptor);
      case Some(AfterAction) =>
        outcome := OnAfterAction(payload.httpContext, payload.actionDescriptor);
      case Some(UnhandledException) =>
        OnUnhandledException(payload.exception);
      case Some(RequestStop) =>
        OnHttpRequestInStop(payload.httpContext, now);
    }

    /** `OnNext(KeyValuePair)`: a handler's exception is caught and logged
        as a warning naming the event. */
    method Receive(eventName: string, payload: Payload, now: int) returns (caught: Outcome)
      requires Valid()
      modifies this, payload.httpContext, tracer, sink
      ensures Valid()
      ensures EventOf(eventName).None? ==>
                caught.Pass? && unchanged(this, tracer, sink)
                && (payload.httpContext != null ==> unchanged(payload.httpContext))
      ensures caught.Fault? ==> log == old(log) + [Warning(EventExceptionMessage, eventName)]
      ensures caught.Pass? && EventOf(eventName) != Some(RequestStart) ==> log == old(log)
      ensures EventOf(eventName) == Some(RequestStart) ==>
                caught.Pass?
                && log == old(log) + (if payload.httpContext == null then [Information(NullContextMessage)] else [])
      ensures EventOf(eventName) == Some(BeforeAction) && payload.httpContext != null && payload.actionDescriptor.Some? ==>
                gauges == (if caught.Fault? then old(gauges)
                           else BeforeActionGauges(app, old(gauges), payload.httpContext.request.httpMethod,
                                                   payload.actionDescriptor.value))
      ensures EventOf(eventName) == Some(AfterAction) && payload.httpContext != null && payload.actionDescriptor.Some? ==>
                (gauges, caught)
                == AfterActionGauges(app, old(gauges), payload.httpContext.request.httpMethod, payload.actionDescriptor.value)
      ensures EventOf(eventName) == Some(RequestStop) && payload.httpContext != null ==>
                sink.log == old(sink.log) + StopEmissions(app, payload.httpContext.items, payload.httpContext.statusCode, now)
    {
      caught := OnNext(eventName, payload, now);
      log := Swallow(eventName, caught, log);
    }
  }
}
