/** Literal values the instrumentation uses: tag keys, sentinel values,
    metric and header names of the SDK, and the standard OpenTracing span
    tag keys it sets. */
module Constants {

  // Tag keys and values of the Wavefront application model.
  const NullTagValue := "none"
  const WavefrontProvidedSource := "wavefront-provided"
  const SourceTagKey := "source"
  const ApplicationTagKey := "application"
  const ClusterTagKey := "cluster"
  const ServiceTagKey := "service"
  const ShardTagKey := "shard"
  const ComponentTagKey := "component"

  // ASP.NET Core instrumentation names.
  const AspNetCoreContext := "AspNetCore"
  const AspNetCoreComponent := "AspNetCore"
  const HttpHandlerComponent := "AspNetCore-HttpOut"
  const ControllerTagKey := "AspNetCore.resource.controller"
  const ActionTagKey := "AspNetCore.resource.action"
  const PathTagKey := "AspNetCore.path"

  const HeartbeatMetric := "~component.heartbeat"
  const WavefrontSpanHeader := "X-WF-SPAN-NAME"

  // Standard OpenTracing span tags and log fields.
  const SpanKindTag := "span.kind"
  const SpanKindServer := "server"
  const SpanKindClient := "client"
  const ComponentTag := "component"
  const HttpMethodTag := "http.method"
  const HttpUrlTag := "http.url"
  const HttpStatusTag := "http.status_code"
  const ErrorTag := "error"
  const EventLogField := "event"
  const ErrorKindLogField := "error.kind"
  const ErrorObjectLogField := "error.object"

  /** HTTP 500, forced when an exception was recorded for the request. */
  const InternalServerError := 500
}
