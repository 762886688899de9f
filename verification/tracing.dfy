/** OpenTracing spans as plain records: operation name, context, parent,
    tags, logged events and whether the span has been finished. The tracer
    keeps the stack of active scopes and the spans it has reported; span
    ids are drawn from a counter (they are random in the tracer). */
module Tracing {
  import opened Wrappers
  import opened Constants

  datatype SpanContext = SpanContext(traceId: int, spanId: int)

  datatype TagValue = StrTag(s: string) | NullTag | IntTag(i: int) | BoolTag(b: bool)

  /** A string tag whose value may be null. */
  function OptionalTag(value: Option<string>): TagValue {
    match value
    case Some(s) => StrTag(s)
    case None => NullTag
  }

  /** An exception as a span log records it: its runtime type's name and
      the exception object itself, of which the message stands for the
      rest. */
  datatype Exception = Exception(typeName: string, message: string)

  /** A log field's value: text, or the exception object. */
  datatype LogValue = LogText(text: string) | LogException(exception: Exception)

  datatype Span = Span(
    operationName: string,
    context: SpanContext,
    parent: Option<SpanContext>,
    tags: map<string, TagValue>,
    logs: seq<map<string, LogValue>>,
    finished: bool)

  /** A scope activates a span; disposing it restores the scopes that were
      active before it (`depth` of them) and finishes the span only when it
      was started with `finishOnDispose`. */
  datatype Scope = Scope(span: Span, finishOnDispose: bool, depth: nat)

  function SetTag(s: Span, key: string, value: TagValue): (r: Span)
    ensures r.tags == s.tags[key := value]
    ensures r.operationName == s.operationName && r.context == s.context && r.logs == s.logs
    ensures r.finished == s.finished
  {
    s.(tags := s.tags[key := value])
  }

  function SetOperationName(s: Span, name: string): Span {
    s.(operationName := name)
  }

  function Finish(s: Span): Span {
    s.(finished := true)
  }

  /** `SpanExtensions.SetException`: nothing for a null exception, otherwise
      one log entry of three fields: an "error" event, the exception's type
      name and the exception object. */
  function SetException(s: Span, exception: Option<Exception>): (r: Span)
    ensures exception.None? ==> r == s
    ensures exception.Some? ==>
              && |r.logs| == |s.logs| + 1 && r.logs[..|s.logs|] == s.logs
              && r.logs[|s.logs|].Keys == {EventLogField, ErrorKindLogField, ErrorObjectLogField}
              && r.logs[|s.logs|][EventLogField] == LogText(ErrorTag)
              && r.logs[|s.logs|][ErrorKindLogField] == LogText(exception.value.typeName)
              && r.logs[|s.logs|][ErrorObjectLogField] == LogException(exception.value)
    ensures r.tags == s.tags && r.operationName == s.operationName && r.finished == s.finished
    ensures r.context == s.context && r.parent == s.parent
  {
    match exception
    case None => s
    case Some(e) =>
      s.(logs := s.logs + [map[EventLogField := LogText(ErrorTag), ErrorKindLogField := LogText(e.typeName),
                               ErrorObjectLogField := LogException(e)]])
  }

  /** The scope stack with the active span replaced by an updated copy. */
  function WithActiveSpan(scopes: seq<Scope>, span: Span): (r: seq<Scope>)
    ensures |r| == |scopes|
  {
    if scopes == [] then [] else scopes[..|scopes| - 1] + [scopes[|scopes| - 1].(span := span)]
  }

  /** The scope stack after disposing a scope activated at `depth`. */
  function Restored(scopes: seq<Scope>, depth: nat): seq<Scope> {
    if depth <= |scopes| then scopes[..depth] else scopes
  }

  class Tracer {
    /** Whether this is OpenTracing's `NoopTracer`. */
    const isNoop: bool
    /** The scope manager's stack; the active scope is the last one. */
    var scopes: seq<Scope>
    /** Finished spans handed to the reporter, in order. */
    var reported: seq<Span>
    var nextId: nat

    constructor(isNoop: bool)
      ensures this.isNoop == isNoop && scopes == [] && reported == []
    {
      this.isNoop := isNoop;
      scopes := [];
      reported := [];
      nextId := 1;
    }

    function Active(): Option<Scope>
      reads this
    {
      if scopes == [] then None else Some(scopes[|scopes| - 1])
    }

    /** `ITracer.ActiveSpan`. */
    function ActiveSpan(): (r: Option<Span>)
      reads this
      ensures r.Some? <==> scopes != []
    {
      if scopes == [] then None else Some(scopes[|scopes| - 1].span)
    }

    /** The span a new span is built under: the explicit parent if one was
        given, otherwise the active span (OpenTracing's implicit parent). */
    function ImplicitParent(explicitParent: Option<SpanContext>): Option<SpanContext>
      reads this
    {
      if explicitParent.Some? then explicitParent
      else if scopes == [] then None
      else Some(scopes[|scopes| - 1].span.context)
    }

    /** The context the next span started gets: a fresh span id, in its
        parent's trace or, without a parent, in a trace of its own. */
    function NextContext(explicitParent: Option<SpanContext>): (r: SpanContext)
      reads this
      ensures r.spanId == nextId
      ensures ImplicitParent(explicitParent).Some? ==> r.traceId == ImplicitParent(explicitParent).value.traceId
      ensures ImplicitParent(explicitParent).None? ==> r.traceId == r.spanId
    {
      var parent := ImplicitParent(explicitParent);
      SpanContext(if parent.Some? then parent.value.traceId else nextId, nextId)
    }

    /** `BuildSpan(...).Start()`: a new unfinished span, not activated. */
    method StartSpan(operationName: string, explicitParent: Option<SpanContext>, tags: map<string, TagValue>)
      returns (span: Span)
      modifies this
      ensures span.operationName == operationName && span.tags == tags
      ensures span.parent == old(ImplicitParent(explicitParent))
      ensures span.context == old(NextContext(explicitParent)) && !span.finished && span.logs == []
      ensures scopes == old(scopes) && reported == old(reported) && nextId == old(nextId) + 1
    {
      var parent := ImplicitParent(explicitParent);
      var traceId := if parent.Some? then parent.value.traceId else nextId;
      span := Span(operationName, SpanContext(traceId, nextId), parent, tags, [], false);
      nextId := nextId + 1;
    }

    /** `BuildSpan(...).StartActive(finishSpanOnDispose)`: the new span's
        scope becomes the active one. */
    method StartActive(operationName: string, explicitParent: Option<SpanContext>, tags: map<string, TagValue>,
                       finishOnDispose: bool)
      returns (scope: Scope)
      modifies this
      ensures scope.span.operationName == operationName && scope.span.tags == tags
      ensures scope.span.parent == old(ImplicitParent(explicitParent)) && !scope.span.finished
      ensures scope.finishOnDispose == finishOnDispose && scope.depth == |old(scopes)|
      ensures scopes == old(scopes) + [scope] && reported == old(reported)
      ensures Active() == Some(scope)
    {
      var span := StartSpan(operationName, explicitParent, tags);
      scope := Scope(span, finishOnDispose, |scopes|);
      scopes := scopes + [scope];
    }

    /** Replaces the active span by an updated copy (tagging it in place). */
    method UpdateActiveSpan(span: Span)
      requires scopes != []
      modifies this
      ensures scopes == WithActiveSpan(old(scopes), span)
      ensures Active() == Some(old(Active()).value.(span := span))
      ensures reported == old(reported) && nextId == old(nextId)
    {
      scopes := WithActiveSpan(scopes, span);
    }

    /** `IScope.Dispose`: the scopes active before `scope` are restored;
        its span is finished and reported if the scope owns it. OpenTracing's
        scope manager restores the stack only when `scope` is the active
        one; the pipelines dispose the scope they activated once the scopes
        opened inside it are gone, and the model leaves that check out. */
    method Dispose(scope: Scope)
      modifies this
      ensures scopes == Restored(old(scopes), scope.depth)
      ensures reported == old(reported) + (if scope.finishOnDispose then [Finish(scope.span)] else [])
      ensures nextId == old(nextId)
    {
      scopes := Restored(scopes, scope.depth);
      if scope.finishOnDispose {
        reported := reported + [Finish(scope.span)];
      }
    }

    /** `ISpan.Finish`: the span is reported. */
    method FinishSpan(span: Span)
      modifies this
      ensures reported == old(reported) + [Finish(span)]
      ensures scopes == old(scopes) && nextId == old(nextId)
    {
      reported := reported + [Finish(span)];
    }
  }

  /** Disposing the scope just activated brings back the stack it was
      activated on, whatever was done to its span meanwhile. */
  lemma DisposeRestores(before: seq<Scope>, scope: Scope, span: Span)
    requires scope.depth == |before|
    ensures Restored(WithActiveSpan(before + [scope], span), scope.depth) == before
  {
    assert (before + [scope])[..|before|] == before;
  }
}
