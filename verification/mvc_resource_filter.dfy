/** The MVC resource filter: around each controller action it starts a
    server span (child of the active span, else of the propagated context),
    raises and lowers the route and total in-flight gauges, and reports the
    response metrics with the final status, which an exception recorded by
    the exception filter forces to 500. */
module MvcFilter {
  import opened Wrappers
  import opened Constants
  import opened Application
  import opened GaugeOptions
  import opened Gauges
  import opened Tracing
  import opened Telemetry
  import opened Http
  import opened MetricNames
  import opened Inflight

  const ActiveSpanScopeKey := "Wavefront.AspNetCore.SDK.CSharp.Mvc.Internal.ActiveSpanScope"
  const StartTimeMillisKey := "Wavefront.AspNetCore.SDK.CSharp.Mvc.Internal.StartTimeMillis"
  /** The dictionary indexer on a gauge that was never added. */
  const KeyNotFound := "KeyNotFoundException"

  /** The controller action a resource context describes. */
  datatype ControllerAction = ControllerAction(controllerName: string, actionName: string, routeTemplate: Option<string>)

  /** The status reported for a response: 500 when an exception was
      recorded, whatever the response says; otherwise the response's. */
  function FinalStatus(statusCode: int, exceptionRecorded: bool): (r: int)
    ensures exceptionRecorded ==> r == InternalServerError
    ensures !exceptionRecorded ==> r == statusCode
  {
    if exceptionRecorded then InternalServerError else statusCode
  }

  /** An exception recorded for the request always makes it an error. */
  lemma RecordedExceptionIsError(statusCode: int)
    ensures IsErrorStatusCode(FinalStatus(statusCode, true))
    ensures ResponseKey("n", FinalStatus(statusCode, true)) == "n.500"
  {
    assert Strings.IntToString(500) == "500" by {
      assert Strings.NatToString(500) == Strings.NatToString(50) + [Strings.Digit(0)];
      assert Strings.NatToString(50) == Strings.NatToString(5) + [Strings.Digit(0)];
    }
  }

  /** The server span's tags at start: span kind, controller and route
      (from the span builder), then component, method and URL (set by
      `DecorateRequest` right after activation). */
  function ActionSpanTags(request: HttpRequest, action: ControllerAction): (r: map<string, TagValue>)
    ensures r.Keys == {SpanKindTag, ControllerTagKey, PathTagKey, ComponentTag, HttpMethodTag, HttpUrlTag}
    ensures r[SpanKindTag] == StrTag(SpanKindServer) && r[ControllerTagKey] == StrTag(action.controllerName)
    ensures r[PathTagKey] == OptionalTag(action.routeTemplate)
    ensures r[ComponentTag] == StrTag(AspNetCoreComponent)
    ensures r[HttpMethodTag] == StrTag(request.httpMethod) && r[HttpUrlTag] == StrTag(request.displayUrl)
  {
    map[SpanKindTag := StrTag(SpanKindServer), ControllerTagKey := StrTag(action.controllerName),
        PathTagKey := OptionalTag(action.routeTemplate), ComponentTag := StrTag(AspNetCoreComponent),
        HttpMethodTag := StrTag(request.httpMethod), HttpUrlTag := StrTag(request.displayUrl)]
  }

  /** `ParentSpanContext`: the active span's context if there is an active
      span, else the context propagated in the request headers. */
  function ParentSpanContext(tracer: Tracer, request: HttpRequest): (r: Option<SpanContext>)
    reads tracer
    ensures tracer.ActiveSpan().Some? ==> r == Some(tracer.ActiveSpan().value.context)
    ensures tracer.ActiveSpan().None? ==> r == request.propagatedContext
  {
    match tracer.ActiveSpan()
    case Some(span) => Some(span.context)
    case None => request.propagatedContext
  }

  /** Building under `ParentSpanContext` (only when it is not null) gives
      the span that parent: when there is none, there is no active span
      to fall back on either. */
  lemma ParentIsImplicit(tracer: Tracer, request: HttpRequest)
    ensures tracer.ImplicitParent(ParentSpanContext(tracer, request)) == ParentSpanContext(tracer, request)
  {
  }

  // ---------------------------------------------------------------------
  // Gauges.

  function RouteGauge(app: ApplicationTags, requestName: string, action: ControllerAction): GaugeKey {
    RouteInflightGauge(app, requestName, action.controllerName, action.actionName)
  }

  /** Executing: for a route with a request name, its gauge goes up, then
      the total gauge. */
  function ExecutingGauges(app: ApplicationTags, g: GaugeRegistry, httpMethod: string, action: ControllerAction): GaugeRegistry {
    match RequestMetricName(httpMethod, action.routeTemplate)
    case None => g
    case Some(name) => g.Increment(RouteGauge(app, name, action)).Increment(TotalInflightGauge(app))
  }

  /** Executed: under the same guard (both names exist or neither), the
      route's gauge goes down, then the total gauge; the indexer throws on
      a gauge never added. */
  function ExecutedGauges(app: ApplicationTags, g: GaugeRegistry, httpMethod: string, action: ControllerAction)
    : (GaugeRegistry, Outcome)
  {
    var requestName := RequestMetricName(httpMethod, action.routeTemplate);
    var responseName := ResponseMetricName(httpMethod, action.routeTemplate);
    if requestName.None? || responseName.None? then (g, Pass)
    else match g.Decrement(RouteGauge(app, requestName.value, action))
      case None => (g, Fault(KeyNotFound))
      case Some(g1) =>
        match g1.Decrement(TotalInflightGauge(app))
        case None => (g1, Fault(KeyNotFound))
        case Some(g2) => (g2, Pass)
  }

  /** The registry with Executing's gauges created but unchanged. */
  function TouchedByExecuting(app: ApplicationTags, g: GaugeRegistry, httpMethod: string, action: ControllerAction): GaugeRegistry {
    match RequestMetricName(httpMethod, action.routeTemplate)
    case None => g
    case Some(name) => g.GetOrAdd(RouteGauge(app, name, action)).GetOrAdd(TotalInflightGauge(app))
  }

  /** Executed undoes Executing for the same action: it succeeds and every
      in-flight count is back where it was. */
  lemma {:induction false} GaugeSymmetry(app: ApplicationTags, g: GaugeRegistry, httpMethod: string, action: ControllerAction)
    ensures ExecutedGauges(app, ExecutingGauges(app, g, httpMethod, action), httpMethod, action)
            == (TouchedByExecuting(app, g, httpMethod, action), Pass)
  {
    RequestAndResponseAgree(httpMethod, action.routeTemplate);
    match RequestMetricName(httpMethod, action.routeTemplate)
    case None =>
    case Some(name) =>
      assert name[0] == 'r';
      TotalIsNotRoute(app, name, action.controllerName, action.actionName);
      PairRoundTrip(g, RouteGauge(app, name, action), TotalInflightGauge(app));
  }

  lemma GaugeStepsValid(app: ApplicationTags, g: GaugeRegistry, httpMethod: string, action: ControllerAction)
    requires g.Valid()
    ensures ExecutingGauges(app, g, httpMethod, action).Valid()
    ensures ExecutedGauges(app, g, httpMethod, action).0.Valid()
  {
    var requestName := RequestMetricName(httpMethod, action.routeTemplate);
    if requestName.Some? {
      PairStepsValid(g, RouteGauge(app, requestName.value, action), TotalInflightGauge(app));
    }
  }

  // ---------------------------------------------------------------------
  // Response metrics.

  /** What Executed reports: nothing for a route without names; otherwise
      the completion records under the final status, with a latency when
      the start time is in the items. */
  function ExecutedEmissions(app: ApplicationTags, request: HttpRequest, action: ControllerAction,
                             items: map<string, ItemValue>, statusCode: int, now: int): seq<Emission>
  {
    var requestName := RequestMetricName(request.httpMethod, action.routeTemplate);
    var responseName := ResponseMetricName(request.httpMethod, action.routeTemplate);
    if requestName.None? || responseName.None? then []
    else CompletionEmissions(app, responseName.value, statusCode, Some(action.controllerName), Some(action.actionName),
                             ElapsedSince(items, StartTimeMillisKey, now))
  }

  /** A route that yields no name reports nothing; one that does reports
      "response.errors" exactly for error statuses and a latency exactly
      when Executing ran for the request. */
  lemma ExecutedEmissionsIff(app: ApplicationTags, request: HttpRequest, action: ControllerAction,
                             items: map<string, ItemValue>, statusCode: int, now: int)
    ensures var es := ExecutedEmissions(app, request, action, items, statusCode, now);
            && (es == [] <==> MetricName(request.httpMethod, action.routeTemplate).None?)
            && (Named(es, ResponseErrors) <==> es != [] && IsErrorStatusCode(statusCode))
            && (HasKind(es, Histogram) <==> es != [] && StartTimeMillisKey in items && items[StartTimeMillisKey].Millis?)
  {
    var es := ExecutedEmissions(app, request, action, items, statusCode, now);
    RequestAndResponseAgree(request.httpMethod, action.routeTemplate);
    var responseName := ResponseMetricName(request.httpMethod, action.routeTemplate);
    if responseName.Some? {
      var latency := ElapsedSince(items, StartTimeMillisKey, now);
      CurrentCompletionIff(app, responseName.value, statusCode, Some(action.controllerName), Some(action.actionName), latency);
      var key := ResponseKey(responseName.value, statusCode);
      CompletionLayout(app, responseName.value, key, IsErrorStatusCode(statusCode), true, true,
                       TierTagsFor(app, Some(action.controllerName), Some(action.actionName)),
                       TierTagsFor(app, None, None), latency);
    }
  }

  // ---------------------------------------------------------------------
  // The filter.

  class WavefrontMetricsResourceFilter {
    const app: ApplicationTags
    const tracer: Tracer
    const sink: MetricsSink
    const overall: TierTags
    var gauges: GaugeRegistry

    ghost predicate Valid()
      reads this
    {
      overall == TierTagsFor(app, None, None) && gauges.Valid()
    }

    constructor(app: ApplicationTags, tracer: Tracer, sink: MetricsSink)
      ensures Valid() && this.app == app && this.tracer == tracer && this.sink == sink
      ensures gauges == Empty
    {
      this.app := app;
      this.tracer := tracer;
      this.sink := sink;
      overall := TierTagsFor(app, None, None);
      gauges := Empty;
      new;
      EmptyValid();
    }

    /** `OnResourceExecuting`: the start time goes into the items; unless
        the tracer is a no-op a server span named after the action becomes
        active (not finished on dispose) and its scope goes into the items;
        then the in-flight gauges go up. */
    method OnResourceExecuting(ctx: HttpContext, action: ControllerAction, now: int)
      requires Valid()
      modifies this, ctx, tracer
      ensures Valid() && gauges == ExecutingGauges(app, old(gauges), ctx.request.httpMethod, action)
      ensures ctx.statusCode == old(ctx.statusCode) && ctx.responseHeaders == old(ctx.responseHeaders)
      ensures ctx.exceptionRecorded == old(ctx.exceptionRecorded)
      ensures tracer.isNoop ==> unchanged(tracer) && ctx.items == old(ctx.items)[StartTimeMillisKey := Millis(now)]
      ensures !tracer.isNoop ==>
                && tracer.reported == old(tracer.reported)
                && |tracer.scopes| == |old(tracer.scopes)| + 1
                && tracer.scopes[..|old(tracer.scopes)|] == old(tracer.scopes)
                && var scope := tracer.scopes[|old(tracer.scopes)|];
                   && ctx.items == old(ctx.items)[StartTimeMillisKey := Millis(now)][ActiveSpanScopeKey := ScopeItem(scope)]
                   && scope.span.operationName == action.actionName
                   && scope.span.tags == ActionSpanTags(ctx.request, action)
                   && scope.span.parent == old(ParentSpanContext(tracer, ctx.request))
                   && !scope.finishOnDispose && !scope.span.finished
    {
      ctx.items := ctx.items[StartTimeMillisKey := Millis(now)];
      if !tracer.isNoop {
        var parent := ParentSpanContext(tracer, ctx.request);
        ParentIsImplicit(tracer, ctx.request);
        var scope := tracer.StartActive(action.actionName, parent, ActionSpanTags(ctx.request, action), false);
        ctx.items := ctx.items[ActiveSpanScopeKey := ScopeItem(scope)];
      }
      GaugeStepsValid(app, gauges, ctx.request.httpMethod, action);
      gauges := ExecutingGauges(app, gauges, ctx.request.httpMethod, action);
    }

    /** `OnResourceExecuted`: the stored scope's span is tagged with the
        final status, its scope disposed and the span finished; then, for a
        route with names, the gauges go down and the response metrics are
        reported. A missing gauge throws before anything is reported. */
    method OnResourceExecuted(ctx: HttpContext, action: ControllerAction, now: int) returns (outcome: Outcome)
      requires Valid()
      modifies this, tracer, sink
      ensures Valid()
      ensures (gauges, outcome) == ExecutedGauges(app, old(gauges), ctx.request.httpMethod, action)
      ensures var status := FinalStatus(ctx.statusCode, ctx.exceptionRecorded);
              var stored := ScopeItemOf(ctx.items, ActiveSpanScopeKey);
              && (tracer.isNoop || stored.None? ==> unchanged(tracer))
              && (!tracer.isNoop && stored.Some? ==>
                    var tagged := TagResponse(stored.value.span, status);
                    && tracer.scopes == Restored(old(tracer.scopes), stored.value.depth)
                    && tracer.reported == old(tracer.reported)
                                          + (if stored.value.finishOnDispose then [Finish(tagged)] else [])
                                          + [Finish(tagged)])
      ensures outcome.Pass? ==>
                sink.log == old(sink.log)
                            + ExecutedEmissions(app, ctx.request, action, ctx.items,
                                                FinalStatus(ctx.statusCode, ctx.exceptionRecorded), now)
      ensures outcome.Fault? ==> sink.log == old(sink.log)
    {
      var statusCode := FinalStatus(ctx.statusCode, ctx.exceptionRecorded);
      var stored := ScopeItemOf(ctx.items, ActiveSpanScopeKey);
      if !tracer.isNoop && stored.Some? {
        FinishScope(stored.value, statusCode);
      }
      outcome := ReportExecuted(ctx, action, statusCode, now);
    }

    /** The metrics half of `OnResourceExecuted`: the gauges go down and,
        unless a missing gauge throws, a route with names reports its
        completion under the final status. */
    method ReportExecuted(ctx: HttpContext, action: ControllerAction, statusCode: int, now: int) returns (outcome: Outcome)
      requires Valid()
      modifies this, sink
      ensures Valid()
      ensures (gauges, outcome) == ExecutedGauges(app, old(gauges), ctx.request.httpMethod, action)
      ensures outcome.Pass? ==>
                sink.log == old(sink.log) + ExecutedEmissions(app, ctx.request, action, ctx.items, statusCode, now)
      ensures outcome.Fault? ==> sink.log == old(sink.log)
    {
      GaugeStepsValid(app, gauges, ctx.request.httpMethod, action);
      var step := ExecutedGauges(app, gauges, ctx.request.httpMethod, action);
      gauges := step.0;
      outcome := step.1;
      var requestName := RequestMetricName(ctx.request.httpMethod, action.routeTemplate);
      var responseName := ResponseMetricName(ctx.request.httpMethod, action.routeTemplate);
      if requestName.None? || responseName.None? || outcome.Fault? {
        return;
      }
      ghost var emissions := ExecutedEmissions(app, ctx.request, action, ctx.items, statusCode, now);
      assert emissions == CompletionEmissions(app, responseName.value, statusCode, Some(action.controllerName),
                                              Some(action.actionName), ElapsedSince(ctx.items, StartTimeMillisKey, now));
      EmitCompletion(sink, app, responseName.value, ResponseKey(responseName.value, statusCode),
                     IsErrorStatusCode(statusCode), true, true,
                     TierTagsFor(app, Some(action.controllerName), Some(action.actionName)), overall,
                     ElapsedSince(ctx.items, StartTimeMillisKey, now));
    }

    /** `DecorateResponse`, then `Dispose` and `Finish` of the stored scope. */
    method FinishScope(scope: Scope, statusCode: int)
      modifies tracer
      ensures tracer.scopes == Restored(old(tracer.scopes), scope.depth)
      ensures tracer.reported == old(tracer.reported)
                                 + (if scope.finishOnDispose then [Finish(TagResponse(scope.span, statusCode))] else [])
                                 + [Finish(TagResponse(scope.span, statusCode))]
    {
      var tagged := TagResponse(scope.span, statusCode);
      tracer.Dispose(scope.(span := tagged));
      tracer.FinishSpan(tagged);
    }
  }

  /** The exception filter: it records the request's exception in the
      items, which the resource filter reads as "force 500". */
  method OnException(ctx: HttpContext)
    modifies ctx
    ensures ctx.exceptionRecorded
    ensures ctx.items == old(ctx.items) && ctx.statusCode == old(ctx.statusCode)
    ensures ctx.responseHeaders == old(ctx.responseHeaders)
  {
    ctx.exceptionRecorded := true;
  }
}
