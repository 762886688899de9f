# Wavefront ASP.NET Core SDK — a Dafny model

This project models the request instrumentation core of the Wavefront
ASP.NET Core SDK (C#). The SDK watches an ASP.NET Core application and
reports three things for every request it serves:
- in-flight gauges;
- response counters rolled up at five aggregation tiers (per source, shard,
  service, cluster and application);
- error counters, a latency histogram and OpenTracing spans.

It also traces outgoing HTTP calls and sends a periodic heartbeat metric.

The model covers these parts of the SDK:

- **Metric names** (`MetricNames`, `LegacyMetricNames`):
  - A route template is stripped of its slashes and normalised into a dotted
    id: `/` becomes `.`, `:` is dropped, and `{` and `}` become `_`.
  - The id is suffixed with the HTTP method and prefixed with `request.` or
    `response.`.
  - The current utility yields no name for a blank id. The older utility
    always yields one, and its response name carries the status code.
- **Identity** (`Application`):
  - The `ApplicationTags` builder.
  - Gauge identity (`GaugeOptions`): structural `Equals` and the unchecked
    32-bit `GetHashCode`.
- **In-flight gauges** (`Gauges`, `Inflight`):
  - A registry of boxed 32-bit counters. Each counter's gauge is registered
    with the metrics sink exactly once, on first touch.
  - A total gauge and one gauge per route.
- **Completion metrics** (`Telemetry`):
  - Tag sets of the five tiers.
  - The granular, error, completed and latency groups a completed response
    reports, in order.
  - The shard and cluster tiers appear only when the application has a
    shard or a cluster.
- **The three request pipelines.** Each is a class that owns a gauge
  registry and a metrics sink; the first two also own a tracer:
  - the diagnostic-listener observer (`AspNetCore.AspNetCoreDiagnostics`);
  - the MVC resource filter and its exception filter (`MvcFilter`);
  - the older resource filter (`LegacyFilter`), whose tag sets start from the
    application's custom tags.
- **Outgoing calls** (`HttpHandler`, `HeadersInject`):
  - A client span is started, injected into the request headers through the
    write-only carrier, parked in the request's properties, and then tagged,
    renamed and finished when the response arrives.
- **Subscription plumbing** (`Observer`, `Manager`): the observer base
  (`SubscribeIfMatch`, exceptions swallowed into a warning) and the
  `DiagnosticManager` that collects and disposes subscriptions.
- **Reporter and heartbeat** (`Reporter`, `Heartbeater`):
  - The reporter builder settles the source and gathers the global tags.
  - The heartbeat service fires 60 s after start and then every 300 s, and
    logs a failed send instead of throwing it.

The following external services are modelled as plain records:
- App.Metrics' `Measure` becomes `Telemetry.MetricsSink`, a log of
  emissions.
- OpenTracing's tracer becomes `Tracing.Tracer`, a scope stack plus a list
  of reported spans.
- `HttpContext` becomes `Http.HttpContext`.

Where .NET would throw, the model returns an `Outcome` or a `Result`:
- `Dictionary.Add` on a key already present;
- the dictionary indexer on a missing key;
- unboxing the null that `HttpContext.Items` gives for a missing key;
- an invalid cast;
- a null argument.

The observer's catch turns such an exception into a logged warning, as the
source does.

Clocks, the sender and the tracer's propagation format are parameters.

Two behaviours of the code worth stating plainly:
- No pipeline guards a request against a second terminal event: a second
  stop event reports the completion metrics again.
- A payload that does not fit the pipeline's expectations is not always
  skipped quietly. A route gauge that is missing at AfterAction
  (`Diagnostics/AspNetCoreDiagnostics.cs:229`) and a response that already
  carries the span-name header (`Diagnostics/AspNetCoreDiagnostics.cs:169`)
  both throw, and the observer's catch logs the exception as a warning
  (`AspNetCore.AspNetCoreDiagnostics.Receive`).

## Model

All source paths are under `src/Wavefront.AspNetCore.SDK.CSharp/`.

| member | source | states |
|---|---|---|
| `Strings.Trim` | src/Wavefront.AspNetCore.SDK.CSharp/Common/MetricNameUtils.cs:59-62 | The result is the input minus its maximal runs of the trimmed character at both ends; it neither starts nor ends with that character |
| `Strings.ReplaceChar` | src/Wavefront.AspNetCore.SDK.CSharp/Common/MetricNameUtils.cs:52-55 | Same length as the input; a position changes exactly when it held the replaced character |
| `Strings.RemoveChar` | src/Wavefront.AspNetCore.SDK.CSharp/Common/MetricNameUtils.cs:53 | No occurrence of the removed character is left; no character is introduced; the result is no longer than the input |
| `Strings.FoldCase` | src/Wavefront.AspNetCore.SDK.CSharp/OpenTracing/HttpHeadersInjectAdapter.cs:23-31 | The comparison key of a header name: same length, each letter upper-cased and every other character kept |
| `Strings.FoldCaseIff` | src/Wavefront.AspNetCore.SDK.CSharp/Diagnostics/HttpHandlerDiagnostics.cs:134-137 | Two header names have the same key exactly when they differ only in the letter case of some positions (both directions) |
| `Strings.IntToString` | src/Wavefront.AspNetCore.SDK.CSharp/MetricNameUtils.cs:18 | The decimal text of a status code is non-empty, holds no '.', and starts with '-' exactly for a negative code |
| `Strings.NatToStringInjective` | src/Wavefront.AspNetCore.SDK.CSharp/MetricNameUtils.cs:18 | Different naturals have different decimal texts (induction on the leading digits) |
| `Strings.IntToStringInjective` | src/Wavefront.AspNetCore.SDK.CSharp/MetricNameUtils.cs:18 | Different integers have different decimal texts |
| `MetricNames.StripLeadingAndTrailingSlashes` | src/Wavefront.AspNetCore.SDK.CSharp/Common/MetricNameUtils.cs:59-62 | A null template gives ""; a result never begins or ends with '/'; a template of slashes only gives "" |
| `MetricNames.Normalize` | src/Wavefront.AspNetCore.SDK.CSharp/Common/MetricNameUtils.cs:51-55 | The normalised id contains no '/', ':', '{' or '}' |
| `MetricNames.MetricName` | src/Wavefront.AspNetCore.SDK.CSharp/Common/MetricNameUtils.cs:49-57 | A name exists only for a non-blank id and is then the id, a dot and the HTTP method |
| `MetricNames.NormalizeIsCharwise` | src/Wavefront.AspNetCore.SDK.CSharp/Common/MetricNameUtils.cs:52-55 | The chain of four replacements equals the character-by-character reference mapping |
| `MetricNames.IdFromPieces` | src/Wavefront.AspNetCore.SDK.CSharp/Common/MetricNameUtils.cs:51-55 | The id of a stripped template is the concatenation of the ids of its pieces |
| `MetricNames.NormalizedBlankIff` | src/Wavefront.AspNetCore.SDK.CSharp/Common/MetricNameUtils.cs:56 | The id is blank exactly when every character of the stripped template is ':' or white space |
| `MetricNames.NameAbsentIff` | src/Wavefront.AspNetCore.SDK.CSharp/Common/MetricNameUtils.cs:49-57 | No name exactly when the stripped template holds only ':' and white space (both directions) |
| `MetricNames.SlashesOnlyYieldNoName` | src/Wavefront.AspNetCore.SDK.CSharp/Common/MetricNameUtils.cs:59-62 | A null template, or one made only of slashes, yields no name |
| `MetricNames.RequestAndResponseAgree` | src/Wavefront.AspNetCore.SDK.CSharp/Common/MetricNameUtils.cs:22-47 | The request and response names exist together and differ only in their prefix |
| `MetricNames.ResponseNameLength` | src/Wavefront.AspNetCore.SDK.CSharp/Common/MetricNameUtils.cs:37-47 | A response name is longer than its prefix, a dot and the method together |
| `MetricNames.ConstrainedRouteExample` | src/Wavefront.AspNetCore.SDK.CSharp/Common/MetricNameUtils.cs:43-57 | "/v2/{id:int}/" with GET gives "v2._idint_.GET", "request.v2._idint_.GET" and "response.v2._idint_.GET" |
| `LegacyMetricNames.AgreesWithCurrent` | src/Wavefront.AspNetCore.SDK.CSharp/MetricNameUtils.cs:26-35 | Where the current utility names a route the legacy one gives the same name; where it gives none the legacy name is the blank id with the method |
| `LegacyMetricNames.EmptyTemplateName` | src/Wavefront.AspNetCore.SDK.CSharp/MetricNameUtils.cs:10-40 | A null or slash-only template still gets a name: "request..GET" and "response..GET.200" |
| `LegacyMetricNames.ResponseCarriesStatus` | src/Wavefront.AspNetCore.SDK.CSharp/MetricNameUtils.cs:15-19 | The response name is the request name under the response prefix followed by a dot and the status code |
| `Application.Builder.constructor` | src/Wavefront.AspNetCore.SDK.CSharp/ApplicationTags.cs:25-29 | A fresh builder builds the given application and service with no cluster, no shard and empty custom tags |
| `Application.Builder.Cluster` | src/Wavefront.AspNetCore.SDK.CSharp/ApplicationTags.cs:31-35 | Returns the same builder; only the cluster changes |
| `Application.Builder.Shard` | src/Wavefront.AspNetCore.SDK.CSharp/ApplicationTags.cs:37-41 | Returns the same builder; only the shard changes |
| `Application.Builder.CustomTags` | src/Wavefront.AspNetCore.SDK.CSharp/ApplicationTags.cs:43-47 | Returns the same builder; only the custom tags change (null included) |
| `Application.BuildKeepsIdentity` | src/Wavefront.AspNetCore.SDK.CSharp/ApplicationTags.cs:49-59 | After any setter calls, the built application and service are the constructor's arguments |
| `Application.UnsetUnlessCalled` | src/Wavefront.AspNetCore.SDK.CSharp/ApplicationTags.cs:19-23 | Without the matching setter call, cluster and shard stay null and custom tags stay empty |
| `Application.OtherCallsKeep` | src/Wavefront.AspNetCore.SDK.CSharp/ApplicationTags.cs:31-47 | Calls of the other setters leave a field as it was |
| `Application.LastValueWins` | src/Wavefront.AspNetCore.SDK.CSharp/ApplicationTags.cs:31-47 | For repeated calls of one setter the last value is built; custom tags are replaced, not merged |
| `GaugeOptions.Wrap32` | src/Wavefront.AspNetCore.SDK.CSharp/WavefrontGaugeOptions.cs:9-16 | The wrapped value is a 32-bit int congruent to the input modulo 2^32 |
| `GaugeOptions.NotEqualToNullOrOtherType` | src/Wavefront.AspNetCore.SDK.CSharp/WavefrontGaugeOptions.cs:21-24 | Null and objects of another runtime type are never equal |
| `GaugeOptions.EqualsIffSameKey` | src/Wavefront.AspNetCore.SDK.CSharp/WavefrontGaugeOptions.cs:19-28 | A null receiver context throws; otherwise equal exactly when context, name and tags agree; the unit plays no part |
| `GaugeOptions.EqualImpliesSameHash` | src/Wavefront.AspNetCore.SDK.CSharp/WavefrontGaugeOptions.cs:7-28 | Equal options have equal hash codes |
| `GaugeOptions.WrapStep` | src/Wavefront.AspNetCore.SDK.CSharp/WavefrontGaugeOptions.cs:9-16 | Wrapping an intermediate step of the unchecked hash does not change the result |
| `GaugeOptions.HashClosedForm` | src/Wavefront.AspNetCore.SDK.CSharp/WavefrontGaugeOptions.cs:7-17 | The hash is ((17·23 + h(context))·23 + h(name))·23 + h(tags) reduced to 32 bits, with 0 for a null context |
| `Gauges.GaugeRegistry.GetOrAdd` | src/Wavefront.AspNetCore.SDK.CSharp/Diagnostics/AspNetCoreDiagnostics.cs:516-524 | An existing counter is reused unchanged; a missing one starts at 0 and its gauge is registered once |
| `Gauges.GaugeRegistry.Decrement` | src/Wavefront.AspNetCore.SDK.CSharp/Diagnostics/AspNetCoreDiagnostics.cs:229 | Fails exactly when the key was never added (the indexer throws); otherwise only that counter changes, by one less with 32-bit wrap-around, and nothing is registered |
| `Gauges.DecrementEffect` | src/Wavefront.AspNetCore.SDK.CSharp/Diagnostics/AspNetCoreDiagnostics.cs:229 | On an added key the decrement succeeds, lowers that counter by one with 32-bit wrap-around, keeps every other counter and the set of keys, and registers nothing |
| `Gauges.OperationsPreserveValid` | src/Wavefront.AspNetCore.SDK.CSharp/Diagnostics/AspNetCoreDiagnostics.cs:516-524 | Add, increment and decrement keep every counter registered exactly once |
| `Gauges.IncrementEffect` | src/Wavefront.AspNetCore.SDK.CSharp/Diagnostics/AspNetCoreDiagnostics.cs:187 | An increment adds one modulo 2^32 to its own counter and leaves the others alone |
| `Gauges.IncrementThenDecrement` | src/Wavefront.AspNetCore.SDK.CSharp/Diagnostics/AspNetCoreDiagnostics.cs:187-229 | A decrement right after an increment of the same key restores the count (the counter stays registered) |
| `Gauges.PairRoundTrip` | src/Wavefront.AspNetCore.SDK.CSharp/Mvc/WavefrontMetricsResourceFilter.cs:129-183 | Incrementing two distinct gauges and then decrementing both succeeds and restores both counts |
| `Gauges.RegisteredOnce` | src/Wavefront.AspNetCore.SDK.CSharp/Diagnostics/AspNetCoreDiagnostics.cs:516-524 | However often keys are touched, each is registered once and exactly the touched keys are added |
| `Inflight.TotalIsNotRoute` | src/Wavefront.AspNetCore.SDK.CSharp/Diagnostics/AspNetCoreDiagnostics.cs:88-94 | A route's gauge (named after a request metric) is never the total gauge |
| `Observer.SubscribeIfMatch` | src/Wavefront.AspNetCore.SDK.CSharp/Diagnostics/DiagnosticListenerObserver.cs:24-32 | A subscription exactly when the listener's name is the observer's; it is that observer's subscription |
| `Observer.Swallow` | src/Wavefront.AspNetCore.SDK.CSharp/Diagnostics/DiagnosticListenerObserver.cs:42-52 | The log grows by exactly one warning naming the event when the handler threw, and is unchanged otherwise |
| `Http.ElapsedSince` | src/Wavefront.AspNetCore.SDK.CSharp/Diagnostics/AspNetCoreDiagnostics.cs:474-480 | A latency exactly when a start time is stored, and it is now minus that start time |
| `Tracing.SetException` | src/Wavefront.AspNetCore.SDK.CSharp/OpenTracing/SpanExtensions.cs:15-26 | A null exception leaves the span alone; otherwise exactly one log entry is appended, holding exactly the fields event = "error", error.kind = the exception's type and error.object = the exception; tags, name, context, parent and finished state are kept |
| `Tracing.Tracer.NextContext` | src/Wavefront.AspNetCore.SDK.CSharp/Diagnostics/HttpHandlerDiagnostics.cs:80-85 | The next span's context has the next span id, and the parent's trace id or, without a parent, a trace id equal to its own span id |
| `Tracing.Tracer.StartSpan` | src/Wavefront.AspNetCore.SDK.CSharp/Diagnostics/HttpHandlerDiagnostics.cs:80-85 | A fresh unfinished span with the given name and tags under the active span (or explicit parent); its context is `NextContext`: the next span id, in the parent's trace or a trace of its own; nothing activated |
| `Tracing.Tracer.StartActive` | src/Wavefront.AspNetCore.SDK.CSharp/Diagnostics/AspNetCoreDiagnostics.cs:143-149 | The new span's scope is pushed and becomes the active one; nothing is reported |
| `Tracing.Tracer.Dispose` | src/Wavefront.AspNetCore.SDK.CSharp/Mvc/WavefrontMetricsResourceFilter.cs:155 | The scopes active before the scope are restored; the span is reported only when the scope finishes on dispose |
| `Tracing.Tracer.FinishSpan` | src/Wavefront.AspNetCore.SDK.CSharp/Mvc/WavefrontMetricsResourceFilter.cs:156 | The finished span is reported; the scopes are unchanged |
| `Tracing.DisposeRestores` | src/Wavefront.AspNetCore.SDK.CSharp/Mvc/WavefrontMetricsResourceFilter.cs:106-155 | Disposing the scope just activated brings back exactly the stack it was activated on, whatever was done to its span |
| `Telemetry.TagResponse` | src/Wavefront.AspNetCore.SDK.CSharp/Diagnostics/AspNetCoreDiagnostics.cs:287-291 | The status tag is set; for 4xx/5xx exactly the status and error=true tags are added, otherwise only the status tag; name, context, parent and logs are kept |
| `Telemetry.ResponseKeyInjective` | src/Wavefront.AspNetCore.SDK.CSharp/Diagnostics/AspNetCoreDiagnostics.cs:305 | Two different status codes of one route give two different response keys, so each status has its own counters |
| `Telemetry.GetTags` | src/Wavefront.AspNetCore.SDK.CSharp/Diagnostics/AspNetCoreDiagnostics.cs:526-558 | Each key is present exactly when its flag or argument is given; cluster and shard fall back to "none"; no other key |
| `Telemetry.OverallTierTable` | src/Wavefront.AspNetCore.SDK.CSharp/Diagnostics/AspNetCoreDiagnostics.cs:78-86 | The five overall tier tag sets hold exactly the keys of the tier table, with source "wavefront-provided" on the aggregated ones |
| `Telemetry.EmitCompletion` | src/Wavefront.AspNetCore.SDK.CSharp/Diagnostics/AspNetCoreDiagnostics.cs:326-499 | Emitting record by record appends exactly the completion sequence the lemmas below describe |
| `Telemetry.RollupShape` | src/Wavefront.AspNetCore.SDK.CSharp/Diagnostics/AspNetCoreDiagnostics.cs:326-362 | A rollup starts with the per-source counter and ends with the per-application delta counter, all of amount 1; shard and cluster tiers appear exactly when configured; 3 to 5 records, no histogram |
| `Telemetry.ConditionalTiers` | src/Wavefront.AspNetCore.SDK.CSharp/Diagnostics/AspNetCoreDiagnostics.cs:326-472 | In the granular, error and completed groups the shard tier appears iff a shard is set and the cluster tier iff a cluster is set |
| `Telemetry.CompletionLayout` | src/Wavefront.AspNetCore.SDK.CSharp/Diagnostics/AspNetCoreDiagnostics.cs:317-499 | A completion holds granular, then errors (for an error), then completed, then latency records, with these exact counts and the group heads |
| `Telemetry.CompletionErrorPositions` | src/Wavefront.AspNetCore.SDK.CSharp/Diagnostics/AspNetCoreDiagnostics.cs:365-426 | For an error, the per-route ".errors" counter then "response.errors" directly follow the granular group |
| `Telemetry.CompletionLatencyPositions` | src/Wavefront.AspNetCore.SDK.CSharp/Diagnostics/AspNetCoreDiagnostics.cs:474-499 | With a latency, the ".latency" histogram carries it; where the total time is reported, the last record is the ".total_time" counter with the same value |
| `Telemetry.CountersOnly` | src/Wavefront.AspNetCore.SDK.CSharp/Diagnostics/AspNetCoreDiagnostics.cs:326-472 | Granular, error and completed groups hold counters only |
| `Telemetry.ErrorsIff` | src/Wavefront.AspNetCore.SDK.CSharp/Diagnostics/AspNetCoreDiagnostics.cs:365-426 | "response.errors" is reported exactly for an error response |
| `Telemetry.LatencyIff` | src/Wavefront.AspNetCore.SDK.CSharp/Diagnostics/AspNetCoreDiagnostics.cs:474-499 | A histogram is reported exactly when a latency was measured |
| `Telemetry.CurrentCompletionIff` | src/Wavefront.AspNetCore.SDK.CSharp/Diagnostics/AspNetCoreDiagnostics.cs:305-499 | In the current pipelines "response.errors" appears iff the status is 4xx/5xx and a histogram iff the start time was stored |
| `AspNetCore.EventOf` | src/Wavefront.AspNetCore.SDK.CSharp/Diagnostics/AspNetCoreDiagnostics.cs:97-121 | Each of the five handled events is recognised by exactly its name |
| `AspNetCore.ServerSpanTags` | src/Wavefront.AspNetCore.SDK.CSharp/Diagnostics/AspNetCoreDiagnostics.cs:143-149 | The server span starts with exactly span kind "server", component, method and URL |
| `AspNetCore.ActionSpan` | src/Wavefront.AspNetCore.SDK.CSharp/Diagnostics/AspNetCoreDiagnostics.cs:172-185 | A controller action renames the span "Type.Action" and tags the controller; other actions take the display name; the route is tagged either way |
| `AspNetCore.RouteGaugeIsNotTotal` | src/Wavefront.AspNetCore.SDK.CSharp/Diagnostics/AspNetCoreDiagnostics.cs:187-210 | The route gauge is never the total gauge |
| `AspNetCore.GaugeSymmetry` | src/Wavefront.AspNetCore.SDK.CSharp/Diagnostics/AspNetCoreDiagnostics.cs:187-253 | AfterAction after BeforeAction succeeds and restores every in-flight count |
| `AspNetCore.AfterActionAloneFails` | src/Wavefront.AspNetCore.SDK.CSharp/Diagnostics/AspNetCoreDiagnostics.cs:229 | AfterAction without BeforeAction throws KeyNotFound on the total gauge and changes nothing |
| `AspNetCore.GaugeStepsValid` | src/Wavefront.AspNetCore.SDK.CSharp/Diagnostics/AspNetCoreDiagnostics.cs:187-253 | Both gauge steps keep each gauge registered exactly once |
| `AspNetCore.StopWithoutRouteIsSilent` | src/Wavefront.AspNetCore.SDK.CSharp/Diagnostics/AspNetCoreDiagnostics.cs:295-300 | Without the three items AfterAction stores, the stop reports nothing |
| `AspNetCore.StopAfterStore` | src/Wavefront.AspNetCore.SDK.CSharp/Diagnostics/AspNetCoreDiagnostics.cs:256-305 | After AfterAction's store, the stop reports the route's completion with the controller's full name and action, and a latency iff the start was recorded |
| `AspNetCore.SpanAndMetricsAgreeOnError` | src/Wavefront.AspNetCore.SDK.CSharp/Diagnostics/AspNetCoreDiagnostics.cs:284-365 | The server span gets the error tag exactly when the error counters are reported |
| `AspNetCore.AspNetCoreDiagnostics.constructor` | src/Wavefront.AspNetCore.SDK.CSharp/Diagnostics/AspNetCoreDiagnostics.cs:72-95 | Starts with an empty gauge registry and an empty log, over the given tracer and sink |
| `AspNetCore.AspNetCoreDiagnostics.OnHttpRequestInStart` | src/Wavefront.AspNetCore.SDK.CSharp/Diagnostics/AspNetCoreDiagnostics.cs:123-150 | A null context logs and stops; otherwise the start time is stored and, unless the tracer is a no-op, a server span under the extracted context is activated |
| `AspNetCore.AspNetCoreDiagnostics.OnBeforeAction` | src/Wavefront.AspNetCore.SDK.CSharp/Diagnostics/AspNetCoreDiagnostics.cs:152-212 | The route header is added (one already present under any spelling of its name throws), the active span renamed and tagged, and the total then route gauges incremented |
| `AspNetCore.AspNetCoreDiagnostics.OnAfterAction` | src/Wavefront.AspNetCore.SDK.CSharp/Diagnostics/AspNetCoreDiagnostics.cs:214-263 | The gauges go down (a missing one throws) and a controller route with a name is stored in the items |
| `AspNetCore.AspNetCoreDiagnostics.OnUnhandledException` | src/Wavefront.AspNetCore.SDK.CSharp/Diagnostics/AspNetCoreDiagnostics.cs:265-273 | The active span, if any, logs the exception; nothing else changes |
| `AspNetCore.AspNetCoreDiagnostics.OnHttpRequestInStop` | src/Wavefront.AspNetCore.SDK.CSharp/Diagnostics/AspNetCoreDiagnostics.cs:275-500 | The active scope's span is tagged and the scope disposed; the sink receives exactly the stop's completion records |
| `AspNetCore.AspNetCoreDiagnostics.OnNext` | src/Wavefront.AspNetCore.SDK.CSharp/Diagnostics/AspNetCoreDiagnostics.cs:97-121 | Each of the five events reaches its handler: the start stores the time and activates the server span (or logs a null context), BeforeAction gives `BeforeActionGauges` and the route header or the duplicate fault, AfterAction gives `AfterActionGauges`, the exception is logged on the active span, and the stop appends exactly `StopEmissions` after tagging and disposing the active scope. Unknown events change nothing; only the action events touch the gauges and only the stop event reports |
| `AspNetCore.AspNetCoreDiagnostics.Receive` | src/Wavefront.AspNetCore.SDK.CSharp/Diagnostics/DiagnosticListenerObserver.cs:42-52 | A handler's exception is logged as one warning naming the event; otherwise the log changes only by the start event's null-context message. The action events give the gauges of their handlers and the stop event appends exactly `StopEmissions` |
| `MvcFilter.FinalStatus` | src/Wavefront.AspNetCore.SDK.CSharp/Mvc/WavefrontMetricsResourceFilter.cs:142-146 | A recorded exception forces 500; otherwise the response's status |
| `MvcFilter.RecordedExceptionIsError` | src/Wavefront.AspNetCore.SDK.CSharp/Mvc/WavefrontMetricsResourceFilter.cs:142-167 | A recorded exception always makes the response an error reported under ".500" |
| `MvcFilter.ActionSpanTags` | src/Wavefront.AspNetCore.SDK.CSharp/Mvc/WavefrontMetricsResourceFilter.cs:97-107 | The action span starts with exactly span kind, controller, route, component, method and URL |
| `MvcFilter.ParentSpanContext` | src/Wavefront.AspNetCore.SDK.CSharp/Mvc/WavefrontMetricsResourceFilter.cs:428-440 | The active span's context if there is one, else the context extracted from the headers |
| `MvcFilter.ParentIsImplicit` | src/Wavefront.AspNetCore.SDK.CSharp/Mvc/WavefrontMetricsResourceFilter.cs:101-105 | Building under that context (only when not null) gives the same parent as the tracer's implicit one |
| `MvcFilter.GaugeSymmetry` | src/Wavefront.AspNetCore.SDK.CSharp/Mvc/WavefrontMetricsResourceFilter.cs:111-183 | Executed after Executing succeeds and restores every in-flight count |
| `MvcFilter.GaugeStepsValid` | src/Wavefront.AspNetCore.SDK.CSharp/Mvc/WavefrontMetricsResourceFilter.cs:111-183 | Both gauge steps keep each gauge registered exactly once |
| `MvcFilter.ExecutedEmissionsIff` | src/Wavefront.AspNetCore.SDK.CSharp/Mvc/WavefrontMetricsResourceFilter.cs:160-376 | Nothing is reported iff the route has no name; "response.errors" iff 4xx/5xx; a histogram iff the start time is stored |
| `MvcFilter.WavefrontMetricsResourceFilter.constructor` | src/Wavefront.AspNetCore.SDK.CSharp/Mvc/WavefrontMetricsResourceFilter.cs:55-82 | Starts with an empty gauge registry |
| `MvcFilter.WavefrontMetricsResourceFilter.OnResourceExecuting` | src/Wavefront.AspNetCore.SDK.CSharp/Mvc/WavefrontMetricsResourceFilter.cs:84-131 | Start time stored; unless no-op, an unfinished action span under the parent context is activated and stored; gauges as Executing prescribes |
| `MvcFilter.WavefrontMetricsResourceFilter.OnResourceExecuted` | src/Wavefront.AspNetCore.SDK.CSharp/Mvc/WavefrontMetricsResourceFilter.cs:133-377 | The stored span is tagged with the final status, disposed and finished; gauges go down; the sink gets exactly the route's records unless a gauge was missing |
| `MvcFilter.WavefrontMetricsResourceFilter.FinishScope` | src/Wavefront.AspNetCore.SDK.CSharp/Mvc/WavefrontMetricsResourceFilter.cs:149-157 | The scope is disposed and its tagged span finished |
| `MvcFilter.WavefrontMetricsResourceFilter.ReportExecuted` | src/Wavefront.AspNetCore.SDK.CSharp/Mvc/WavefrontMetricsResourceFilter.cs:160-377 | The gauges go down as `ExecutedGauges` says; unless a gauge was missing the sink gets exactly the route's completion records under the final status, and otherwise nothing |
| `MvcFilter.OnException` | src/Wavefront.AspNetCore.SDK.CSharp/Mvc/WavefrontMetricsExceptionFilter.cs:12-15 | The request's exception is recorded; nothing else changes |
| `LegacyFilter.AddTag` | src/Wavefront.AspNetCore.SDK.CSharp/WavefrontMetricsResourceFilter.cs:311-344 | `Dictionary.Add` succeeds exactly for a new key and then adds it with its value |
| `LegacyFilter.LegacyGetTagsIff` | src/Wavefront.AspNetCore.SDK.CSharp/WavefrontMetricsResourceFilter.cs:311-344 | Null custom tags throw; otherwise success iff no custom key is one the method adds, and then the custom tags are kept and exactly the added keys join them |
| `LegacyFilter.LegacyGetTagsValues` | src/Wavefront.AspNetCore.SDK.CSharp/WavefrontMetricsResourceFilter.cs:311-344 | The added keys carry the application, the given or configured source, the tier values ("none" fallbacks) and the names |
| `LegacyFilter.ApplicationKeyClash` | src/Wavefront.AspNetCore.SDK.CSharp/WavefrontMetricsResourceFilter.cs:311-344 | Custom tags that already use "application" make every tag set throw ArgumentException |
| `LegacyFilter.TiersFollowComplete` | src/Wavefront.AspNetCore.SDK.CSharp/WavefrontMetricsResourceFilter.cs:104-128 | Once the complete tag set can be built, so can all five tier sets, and the per-source one is it |
| `LegacyFilter.LegacyGaugeSymmetry` | src/Wavefront.AspNetCore.SDK.CSharp/WavefrontMetricsResourceFilter.cs:82-119 | Executed after Executing succeeds and restores both in-flight counts |
| `LegacyFilter.LegacyEmissionsShape` | src/Wavefront.AspNetCore.SDK.CSharp/WavefrontMetricsResourceFilter.cs:138-289 | Granular, errors (opened by "response.errors", no per-route counter), completed, then the latency histogram last; errors exactly for error statuses |
| `LegacyFilter.LegacyErrorTestAgrees` | src/Wavefront.AspNetCore.SDK.CSharp/WavefrontMetricsResourceFilter.cs:184 | The legacy `400 <= s < 600` test is the current 4xx/5xx test |
| `LegacyFilter.StartTimeOf` | src/Wavefront.AspNetCore.SDK.CSharp/WavefrontMetricsResourceFilter.cs:282-289 | The start time is read exactly when a time stamp is stored under its key; a missing item throws NullReferenceException (the indexer gives null and unboxing it throws), an item of another kind InvalidCastException |
| `LegacyFilter.LatencyOf` | src/Wavefront.AspNetCore.SDK.CSharp/WavefrontMetricsResourceFilter.cs:282-289 | A latency exactly when the start time was read, and it is now minus that start |
| `LegacyFilter.LegacyReportIff` | src/Wavefront.AspNetCore.SDK.CSharp/WavefrontMetricsResourceFilter.cs:121-289 | The report is never empty, has "response.errors" iff 4xx/5xx, a histogram iff the start time is stored, and ends normally exactly then |
| `LegacyFilter.LegacyMetricsResourceFilter.constructor` | src/Wavefront.AspNetCore.SDK.CSharp/WavefrontMetricsResourceFilter.cs:34-62 | Starts with an empty gauge registry and the overall tier sets |
| `LegacyFilter.LegacyMetricsResourceFilter.RouteIsNotTotal` | src/Wavefront.AspNetCore.SDK.CSharp/WavefrontMetricsResourceFilter.cs:55-90 | The route gauge is never the total gauge |
| `LegacyFilter.LegacyMetricsResourceFilter.OnResourceExecuting` | src/Wavefront.AspNetCore.SDK.CSharp/WavefrontMetricsResourceFilter.cs:64-91 | Start time stored first; a tag failure throws before the gauges; otherwise route then total gauge go up |
| `LegacyFilter.LegacyMetricsResourceFilter.OnResourceExecuted` | src/Wavefront.AspNetCore.SDK.CSharp/WavefrontMetricsResourceFilter.cs:93-289 | A tag failure throws first; then both gauges go down (a missing one throws) and the report follows |
| `LegacyFilter.LegacyMetricsResourceFilter.Report` | src/Wavefront.AspNetCore.SDK.CSharp/WavefrontMetricsResourceFilter.cs:121-289 | The sink receives exactly the legacy report and the outcome is its ending |
| `HeadersInject.HttpHeaders.TryGetValues` | src/Wavefront.AspNetCore.SDK.CSharp/Diagnostics/HttpHandlerDiagnostics.cs:125 | Values exactly when the header is present under any spelling of its name, and they are its values |
| `HeadersInject.LookupIgnoresCase` | src/Wavefront.AspNetCore.SDK.CSharp/Diagnostics/HttpHandlerDiagnostics.cs:125 | Two spellings of a header name that differ only in letter case find the same values and the same presence |
| `HeadersInject.HttpHeaders.Add` | src/Wavefront.AspNetCore.SDK.CSharp/OpenTracing/HttpHeadersInjectAdapter.cs:30 | The value is appended to those the header holds under any spelling of its name; every present header keeps a value |
| `HeadersInject.SetEntry` | src/Wavefront.AspNetCore.SDK.CSharp/OpenTracing/HttpHeadersInjectAdapter.cs:23-31 | The (case-folded) key ends up holding exactly the one value; every other header is unchanged |
| `HeadersInject.LastSetWins` | src/Wavefront.AspNetCore.SDK.CSharp/OpenTracing/HttpHeadersInjectAdapter.cs:23-31 | Of two settings of a header, under spellings that may differ in letter case, the later wins |
| `HeadersInject.SetAllEffect` | src/Wavefront.AspNetCore.SDK.CSharp/OpenTracing/HttpHeadersInjectAdapter.cs:23-31 | Setting a carrier adds exactly its keys, each with a single value, and leaves other headers alone |
| `HeadersInject.HeadersInjectAdapter.Set` | src/Wavefront.AspNetCore.SDK.CSharp/OpenTracing/HttpHeadersInjectAdapter.cs:23-31 | Remove-then-add leaves the headers exactly as `SetEntry` describes for the case-folded name, so any earlier spelling of the header is replaced |
| `HeadersInject.HeadersInjectAdapter.GetEnumerator` | src/Wavefront.AspNetCore.SDK.CSharp/OpenTracing/HttpHeadersInjectAdapter.cs:33-37 | Always throws NotSupportedException: the carrier is write-only |
| `HeadersInject.HeadersInjectAdapter.Inject` | src/Wavefront.AspNetCore.SDK.CSharp/Diagnostics/HttpHandlerDiagnostics.cs:87-88 | The headers end up as the carrier entries set in order |
| `HeadersInject.NewAdapter` | src/Wavefront.AspNetCore.SDK.CSharp/OpenTracing/HttpHeadersInjectAdapter.cs:18-21 | Null headers throw ArgumentNullException; otherwise an adapter over those headers |
| `HttpHandler.HttpRequestMessage.ParkedSpan` | src/Wavefront.AspNetCore.SDK.CSharp/Diagnostics/HttpHandlerDiagnostics.cs:109 | A span exactly when the "ot-Span" property holds one |
| `HttpHandler.ViewOf` | src/Wavefront.AspNetCore.SDK.CSharp/Diagnostics/HttpHandlerDiagnostics.cs:111-125 | A view exactly for a non-null response, with its status and the span-name header found under any spelling |
| `HttpHandler.IgnoredUnderAnySpelling` | src/Wavefront.AspNetCore.SDK.CSharp/Diagnostics/HttpHandlerDiagnostics.cs:134-137 | A request is ignored whichever letter case its ignore header was sent in |
| `HttpHandler.ClientSpanTags` | src/Wavefront.AspNetCore.SDK.CSharp/Diagnostics/HttpHandlerDiagnostics.cs:80-85 | The client span starts with exactly span kind "client", component, method and URL |
| `HttpHandler.FinishedOutgoingSpanEffect` | src/Wavefront.AspNetCore.SDK.CSharp/Diagnostics/HttpHandlerDiagnostics.cs:105-131 | Status tag iff a response; error tag iff canceled, faulted or 4xx/5xx; renamed "METHOD-name" iff the header is present; finished; other tags kept |
| `HttpHandler.NullResponseLeavesSpanOpen` | src/Wavefront.AspNetCore.SDK.CSharp/Diagnostics/HttpHandlerDiagnostics.cs:125 | As written, a call without a response throws at the header lookup and its span is never finished; the corrected handler finishes it |
| `HttpHandler.AsWrittenAgreesWithResponse` | src/Wavefront.AspNetCore.SDK.CSharp/Diagnostics/HttpHandlerDiagnostics.cs:114-130 | With a response, the code as written and the corrected handler agree |
| `HttpHandler.ClientErrorCases` | src/Wavefront.AspNetCore.SDK.CSharp/Diagnostics/HttpHandlerDiagnostics.cs:119-123 | Canceled and faulted calls and 4xx/5xx responses are errors; a completed 2xx call is not |
| `HttpHandler.HttpHandlerDiagnostics.GetListenerName` | src/Wavefront.AspNetCore.SDK.CSharp/Diagnostics/HttpHandlerDiagnostics.cs:41 | The observer listens to "HttpHandlerDiagnosticListener" |
| `HttpHandler.HttpHandlerDiagnostics.OnHttpRequestOutStart` | src/Wavefront.AspNetCore.SDK.CSharp/Diagnostics/HttpHandlerDiagnostics.cs:66-91 | Skipped for a no-op tracer or an ignored request; otherwise a client span starts and its context is injected into the headers, whether or not parking it under "ot-Span" then throws because the property is already there; on success the parked span is that span |
| `HttpHandler.HttpHandlerDiagnostics.OnException` | src/Wavefront.AspNetCore.SDK.CSharp/Diagnostics/HttpHandlerDiagnostics.cs:93-103 | The parked span, if any, logs the exception |
| `HttpHandler.HttpHandlerDiagnostics.OnHttpRequestOutStop` | src/Wavefront.AspNetCore.SDK.CSharp/Diagnostics/HttpHandlerDiagnostics.cs:105-132 | The corrected stop handler: the parked span, if any, is finished and reported exactly once as `FinishedOutgoingSpan` describes |
| `HttpHandler.HttpHandlerDiagnostics.OnNext` | src/Wavefront.AspNetCore.SDK.CSharp/Diagnostics/HttpHandlerDiagnostics.cs:48-64 | Each of the three events reaches its handler: the start injects the new span's context and parks it, the exception is logged on the parked span, and the stop reports and parks `FinishedOutgoingSpan` (the corrected stop handler); only the start event can throw; unknown events change nothing |
| `HttpHandler.HttpHandlerDiagnostics.Receive` | src/Wavefront.AspNetCore.SDK.CSharp/Diagnostics/DiagnosticListenerObserver.cs:42-52 | The log is the swallowed outcome; with the corrected stop handler only the start event can add a warning, and the stop reports `FinishedOutgoingSpan` of the parked span |
| `Manager.MatchesSound` | src/Wavefront.AspNetCore.SDK.CSharp/Diagnostics/DiagnosticManager.cs:41-51 | Every collected subscription is a matching observer's, in observer order |
| `Manager.MatchesComplete` | src/Wavefront.AspNetCore.SDK.CSharp/Diagnostics/DiagnosticManager.cs:41-51 | Every observer named after the listener has its subscription collected |
| `Manager.NoMatchCollectsNothing` | src/Wavefront.AspNetCore.SDK.CSharp/Diagnostics/DiagnosticManager.cs:41-51 | A listener no observer is named after collects nothing |
| `Manager.DiagnosticManager.constructor` | src/Wavefront.AspNetCore.SDK.CSharp/Diagnostics/DiagnosticManager.cs:18-23 | Starts stopped with no subscriptions |
| `Manager.DiagnosticManager.Start` | src/Wavefront.AspNetCore.SDK.CSharp/Diagnostics/DiagnosticManager.cs:25-31 | Subscribes to all listeners once; starting again changes nothing |
| `Manager.DiagnosticManager.OnNext` | src/Wavefront.AspNetCore.SDK.CSharp/Diagnostics/DiagnosticManager.cs:41-51 | Appends exactly the matching observers' subscriptions, in order |
| `Manager.DiagnosticManager.Stop` | src/Wavefront.AspNetCore.SDK.CSharp/Diagnostics/DiagnosticManager.cs:53-67 | When running, disposes the all-listeners subscription then every collected one, once each, and clears; otherwise nothing |
| `Manager.DiagnosticManager.Dispose` | src/Wavefront.AspNetCore.SDK.CSharp/Diagnostics/DiagnosticManager.cs:69-72 | Same effect as `Stop` |
| `Manager.DiagnosticManager.OnCompleted` | src/Wavefront.AspNetCore.SDK.CSharp/Diagnostics/DiagnosticManager.cs:33-35 | Changes nothing |
| `Manager.DiagnosticManager.OnError` | src/Wavefront.AspNetCore.SDK.CSharp/Diagnostics/DiagnosticManager.cs:37-39 | Changes nothing |
| `Manager.NewManager` | src/Wavefront.AspNetCore.SDK.CSharp/Diagnostics/DiagnosticManager.cs:18-23 | A null observer collection throws ArgumentNullException; otherwise a stopped, empty manager |
| `Manager.StartListenStop` | src/Wavefront.AspNetCore.SDK.CSharp/Diagnostics/DiagnosticManager.cs:25-67 | Start, one listener, stop: everything subscribed is disposed, and the manager is left stopped and empty |
| `Reporter.SettledSource` | src/Wavefront.AspNetCore.SDK.CSharp/Common/WavefrontAspNetCoreReporter.cs:120 | A null, empty or white-space source falls back to the default; any other is kept |
| `Reporter.GlobalTags` | src/Wavefront.AspNetCore.SDK.CSharp/Common/WavefrontAspNetCoreReporter.cs:122-135 | "application" is the application name; every other custom tag is kept; nothing else |
| `Reporter.ReporterBuilder.constructor` | src/Wavefront.AspNetCore.SDK.CSharp/Common/WavefrontAspNetCoreReporter.cs:80-83 | No source and a 60-second interval |
| `Reporter.ReporterBuilder.ReportingIntervalSeconds` | src/Wavefront.AspNetCore.SDK.CSharp/Common/WavefrontAspNetCoreReporter.cs:91-95 | Sets the interval only and returns the same builder |
| `Reporter.ReporterBuilder.WithSource` | src/Wavefront.AspNetCore.SDK.CSharp/Common/WavefrontAspNetCoreReporter.cs:104-108 | Sets the source only and returns the same builder |
| `Reporter.ReporterBuilder.Build` | src/Wavefront.AspNetCore.SDK.CSharp/Common/WavefrontAspNetCoreReporter.cs:118-156 | The source is settled in place; the reporter gets the settled source, `GlobalTags`, the "AspNetCore" context and the interval |
| `Reporter.ApplicationNeverOverridden` | src/Wavefront.AspNetCore.SDK.CSharp/Common/WavefrontAspNetCoreReporter.cs:122-135 | A custom "application" tag never overrides the application name |
| `Reporter.BlankSourceFallsBack` | src/Wavefront.AspNetCore.SDK.CSharp/Common/WavefrontAspNetCoreReporter.cs:120 | "", " \t" and null all give the default source |
| `Reporter.ConfigureAndBuild` | src/Wavefront.AspNetCore.SDK.CSharp/Common/WavefrontAspNetCoreReporter.cs:71-156 | A builder given at most one flush interval, then a source, builds with that interval (60 s when none is given), the settled source and the application's global tags |
| `Heartbeater.HeartbeatTags` | src/Wavefront.AspNetCore.SDK.CSharp/HeartbeaterService.cs:29-36 | Exactly application, cluster, service, shard and component, with "none" for a missing cluster or shard |
| `Heartbeater.HeartbeatSchedule` | src/Wavefront.AspNetCore.SDK.CSharp/HeartbeaterService.cs:39-44 | The started timer fires exactly at 60 + 300k seconds |
| `Heartbeater.HaltedNeverFires` | src/Wavefront.AspNetCore.SDK.CSharp/HeartbeaterService.cs:60-69 | A timer changed to an infinite due time, or disposed, never fires |
| `Heartbeater.HeartbeaterService.constructor` | src/Wavefront.AspNetCore.SDK.CSharp/HeartbeaterService.cs:20-37 | The heartbeat tags are fixed at construction; no timer yet |
| `Heartbeater.HeartbeaterService.StartAsync` | src/Wavefront.AspNetCore.SDK.CSharp/HeartbeaterService.cs:39-44 | A timer due in 60 s with a 300 s period |
| `Heartbeater.HeartbeaterService.SendHeartbeat` | src/Wavefront.AspNetCore.SDK.CSharp/HeartbeaterService.cs:46-58 | An accepted send records "~component.heartbeat" = 1.0 with the source and tags; a failed one logs a warning and does not throw |
| `Heartbeater.HeartbeaterService.StopAsync` | src/Wavefront.AspNetCore.SDK.CSharp/HeartbeaterService.cs:60-64 | No timer: nothing; a disposed timer throws ObjectDisposedException; otherwise the timer never fires again |
| `Heartbeater.HeartbeaterService.Dispose` | src/Wavefront.AspNetCore.SDK.CSharp/HeartbeaterService.cs:66-69 | The timer, if any, is disposed |
| `Heartbeater.StartThenStop` | src/Wavefront.AspNetCore.SDK.CSharp/HeartbeaterService.cs:39-64 | Started then stopped, the timer never fires |

## Left out

- App.Metrics and the Wavefront sender are not modelled beyond the
  sequence of updates the SDK hands them:
  - the gauge-reading delegate;
  - measurement units;
  - the reporter's `MetricsBuilder` and `ReportMinuteDistribution`;
  - the SDK-version gauge.
- The tracer is modelled only as far as the SDK uses it: a scope stack,
  span records and the list of reported spans.
  - `Extract` is a context already carried by the request.
  - `Inject`'s encoding of a span context into header entries is a function
    parameter (`propagate`).
- Clocks (`GetCurrentMillis`, the heartbeat's `UtcNow`) are parameters, and
  the heartbeat timer is a record of when it is due. Nothing runs on a
  thread.
- Concurrency is not modelled:
  - The `ConcurrentDictionary` and `Interlocked` operations are sequential
    updates.
  - The lock-free first-registration race is not modelled.
- `GetDisplayUrl` and `request.GetDisplayUrl()` are a display URL field of
  the request.
- `DiagnosticListener.AllListeners` replaying already existing listeners to
  a new subscriber is left to the caller: `Manager.DiagnosticManager.OnNext`
  is called once per listener.
- The ignore header's name and the exception item key come from the
  Wavefront SDK, which is not part of this model:
  - the ignore header is a constructor parameter;
  - the exception item is a boolean flag on the context.
- `LegacyFilter.LegacyMetricsResourceFilter.constructor`: the source throws
  when the overall tag sets cannot be built; the model makes that a
  precondition, because a Dafny constructor cannot fail.
- A null configured source, a null request or a null action descriptor in
  the MVC filters, and a null request in the outgoing-call handler would
  throw a `NullReferenceException`. These are not modelled: the arguments
  are non-null references.
- The MVC filters' cast of a stored scope item, and the diagnostics
  observer's casts of its items, are by item kind. A wrongly typed item is
  treated as absent rather than as an `InvalidCastException`. The legacy
  filter's start-time cast is modelled.
- A span stored in the items and the same span in the tracer's scope stack
  are two copies. An update to one does not show in the other.
- The dependency-injection wiring is outside the modelled core:
  - `ServiceCollectionExtensions`, `WavefrontServiceCollectionExtensions`;
  - `HeartbeaterHostedService`, `InstrumentationService`;
  - `NamedHttpClients`.
- `RequestHeadersExtractAdapter` is not part of this model. Its result is
  the request's propagated context.
- Route info is always present. An action descriptor whose
  `AttributeRouteInfo` is null would throw `NullReferenceException` when the
  template is read (`Diagnostics/AspNetCoreDiagnostics.cs:164` and `:224`,
  `Mvc/WavefrontMetricsResourceFilter.cs:92` and `:140`,
  `WavefrontMetricsResourceFilter.cs:70` and `:100`). The model's
  `routeTemplate: Option<string>` stands only for a null `Template`.
- .NET's validation of header names is not modelled; any string is a header
  name.
- Header names are compared by `StringComparer.OrdinalIgnoreCase`; the model
  folds the case of ASCII letters only (`Strings.FoldCase`). Ordinal case
  folding of letters outside ASCII is not modelled; header names are ASCII
  tokens.
- `Tracing.Tracer.Dispose`: OpenTracing's scope manager restores the scope
  stack only when the disposed scope is the active one. The model leaves
  that check out and always pops; every pipeline disposes the scope it
  activated after the scopes opened inside it are gone.
- `HttpHandler.HttpHandlerDiagnostics.OnHttpRequestOutStop`,
  `HttpHandler.HttpHandlerDiagnostics.OnNext` and
  `HttpHandler.HttpHandlerDiagnostics.Receive` run the corrected stop
  handler (see Findings). As written, a stop event with a parked span and no
  response throws `NullReferenceException` after tagging, leaves the span
  open, and the observer logs a warning (`HttpHandler.OutgoingStopAsWritten`,
  `HttpHandler.NullResponseLeavesSpanOpen`).
- `Heartbeater.HeartbeaterService.StartAsync`: a second call replaces the
  timer, and the old timer is left running. The model keeps only the new
  timer.

## Findings

| source | as written | input that shows it | evidently intended | confidence | as-written member | corrected member |
|---|---|---|---|---|---|---|
| src/Wavefront.AspNetCore.SDK.CSharp/Diagnostics/HttpHandlerDiagnostics.cs:125 | The response-header lookup dereferences `response` without the null check that lines 114 and 120 use. | An outgoing call that fails without a response, for example with task status `Faulted` and `response == null`: a `NullReferenceException` is thrown after tagging, the observer swallows it, and `span.Finish()` at line 130 is never reached. | The span-name lookup happens only when there is a response, and the span is always finished. | not executed | `HttpHandler.OutgoingStopAsWritten` (exhibited by `HttpHandler.NullResponseLeavesSpanOpen`) | `HttpHandler.FinishedOutgoingSpan` (used by `HttpHandler.HttpHandlerDiagnostics.OnHttpRequestOutStop`, proved in `HttpHandler.FinishedOutgoingSpanEffect`) |
