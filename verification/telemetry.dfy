/** What the request pipelines report when a response completes: tag sets
    for the five aggregation tiers, and the fixed, partly conditional
    sequence of counters and histograms. The metrics sink is an
    append-only log of emitted records. */
module Telemetry {
  import opened Wrappers
  import opened Strings
  import opened Constants
  import opened Application
  import opened Tracing

  type Tags = map<string, string>

  datatype MetricKind = Counter | DeltaCounter | Histogram

  /** One counter increment or histogram update: counters are incremented
      by `amount`, histograms record `amount` as a sample. */
  datatype Emission = Emission(kind: MetricKind, name: string, tags: Tags, amount: int)

  /** The metrics sink (App.Metrics' `Measure`), recording every update. */
  class MetricsSink {
    var log: seq<Emission>

    constructor()
      ensures log == []
    {
      log := [];
    }

    method Emit(e: Emission)
      modifies this
      ensures log == old(log) + [e]
    {
      log := log + [e];
    }
  }

  /** 4xx and 5xx statuses are errors. */
  predicate IsErrorStatusCode(statusCode: int) {
    400 <= statusCode <= 599
  }

  /** Status tag on a server span, plus the error flag for error statuses. */
  function TagResponse(s: Span, statusCode: int): (r: Span)
    ensures HttpStatusTag in r.tags && r.tags[HttpStatusTag] == IntTag(statusCode)
    ensures IsErrorStatusCode(statusCode) ==> ErrorTag in r.tags && r.tags[ErrorTag] == BoolTag(true)
    ensures IsErrorStatusCode(statusCode) ==>
              r.tags == s.tags[HttpStatusTag := IntTag(statusCode)][ErrorTag := BoolTag(true)]
    ensures !IsErrorStatusCode(statusCode) ==> r.tags == s.tags[HttpStatusTag := IntTag(statusCode)]
    ensures r.operationName == s.operationName && r.finished == s.finished && r.logs == s.logs
    ensures r.context == s.context && r.parent == s.parent
  {
    var tagged := SetTag(s, HttpStatusTag, IntTag(statusCode));
    if IsErrorStatusCode(statusCode) then SetTag(tagged, ErrorTag, BoolTag(true)) else tagged
  }

  // ---------------------------------------------------------------------
  // Tier tag sets of the current pipelines.

  /** `GetTags` of the diagnostics observer and of the MVC filter: each
      key is present exactly when asked for; an unset cluster or shard
      reads "none". The keys are all different, so no `Add` can fail. */
  function GetTags(app: ApplicationTags, includeCluster: bool, includeService: bool, includeShard: bool,
                   controllerName: Option<string>, actionName: Option<string>, source: Option<string>): (r: Tags)
    ensures ClusterTagKey in r <==> includeCluster
    ensures ServiceTagKey in r <==> includeService
    ensures ShardTagKey in r <==> includeShard
    ensures ControllerTagKey in r <==> controllerName.Some?
    ensures ActionTagKey in r <==> actionName.Some?
    ensures SourceTagKey in r <==> source.Some?
    ensures r.Keys <= {ClusterTagKey, ServiceTagKey, ShardTagKey, ControllerTagKey, ActionTagKey, SourceTagKey}
    ensures includeCluster ==> r[ClusterTagKey] == app.cluster.GetOr(NullTagValue)
    ensures includeService ==> r[ServiceTagKey] == app.service
    ensures includeShard ==> r[ShardTagKey] == app.shard.GetOr(NullTagValue)
    ensures controllerName.Some? ==> r[ControllerTagKey] == controllerName.value
    ensures actionName.Some? ==> r[ActionTagKey] == actionName.value
    ensures source.Some? ==> r[SourceTagKey] == source.value
  {
    var t0: Tags := map[];
    var t1 := if includeCluster then t0[ClusterTagKey := app.cluster.GetOr(NullTagValue)] else t0;
    var t2 := if includeService then t1[ServiceTagKey := app.service] else t1;
    var t3 := if includeShard then t2[ShardTagKey := app.shard.GetOr(NullTagValue)] else t2;
    var t4 := if controllerName.Some? then t3[ControllerTagKey := controllerName.value] else t3;
    var t5 := if actionName.Some? then t4[ActionTagKey := actionName.value] else t4;
    if source.Some? then t5[SourceTagKey := source.value] else t5
  }

  /** Tag sets of the five aggregation tiers. */
  datatype TierTags = TierTags(perSource: Tags, perShard: Tags, perService: Tags, perCluster: Tags, perApplication: Tags)

  /** The tier table: per source (cluster, service, shard, no source tag),
      per shard (the same plus the "wavefront-provided" source), per
      service (cluster, service), per cluster (cluster) and per application
      (nothing); every rollup tier names the "wavefront-provided" source. */
  function TierTagsFor(app: ApplicationTags, controllerName: Option<string>, actionName: Option<string>): TierTags {
    var provided := Some(WavefrontProvidedSource);
    TierTags(
      GetTags(app, true, true, true, controllerName, actionName, None),
      GetTags(app, true, true, true, controllerName, actionName, provided),
      GetTags(app, true, true, false, controllerName, actionName, provided),
      GetTags(app, true, false, false, controllerName, actionName, provided),
      GetTags(app, false, false, false, controllerName, actionName, provided))
  }

  /** The overall tier sets, computed once in each pipeline's constructor. */
  lemma OverallTierTable(app: ApplicationTags)
    ensures var t := TierTagsFor(app, None, None);
            && t.perSource.Keys == {ClusterTagKey, ServiceTagKey, ShardTagKey}
            && t.perShard.Keys == {ClusterTagKey, ServiceTagKey, ShardTagKey, SourceTagKey}
            && t.perService.Keys == {ClusterTagKey, ServiceTagKey, SourceTagKey}
            && t.perCluster.Keys == {ClusterTagKey, SourceTagKey}
            && t.perApplication.Keys == {SourceTagKey}
            && t.perShard[SourceTagKey] == WavefrontProvidedSource
            && t.perService[SourceTagKey] == WavefrontProvidedSource
            && t.perCluster[SourceTagKey] == WavefrontProvidedSource
            && t.perApplication[SourceTagKey] == WavefrontProvidedSource
            && (app.cluster.None? ==> t.perSource[ClusterTagKey] == NullTagValue)
            && (app.shard.None? ==> t.perSource[ShardTagKey] == NullTagValue)
  {
    var t := TierTagsFor(app, None, None);
    assert t.perSource.Keys == {ClusterTagKey, ServiceTagKey, ShardTagKey};
    assert t.perShard.Keys == {ClusterTagKey, ServiceTagKey, ShardTagKey, SourceTagKey};
    assert t.perService.Keys == {ClusterTagKey, ServiceTagKey, SourceTagKey};
    assert t.perCluster.Keys == {ClusterTagKey, SourceTagKey};
    assert t.perApplication.Keys == {SourceTagKey};
  }

  // ---------------------------------------------------------------------
  // Emission groups.

  const ShardSuffix := ".aggregated_per_shard"
  const ServiceSuffix := ".aggregated_per_service"
  const ClusterSuffix := ".aggregated_per_cluster"
  const ApplicationSuffix := ".aggregated_per_application"
  const SourceSuffix := ".aggregated_per_source"
  const ResponseErrors := "response.errors"
  const ResponseCompleted := "response.completed"

  /** A per-source counter followed by the delta counters of the shard
      (only with a shard), service, cluster (only with a cluster) and
      application tiers. */
  function Rollup(sourceName: string, base: string, tiers: TierTags, hasShard: bool, hasCluster: bool): seq<Emission> {
    [Emission(Counter, sourceName, tiers.perSource, 1)]
    + (if hasShard then [Emission(DeltaCounter, base + ShardSuffix, tiers.perShard, 1)] else [])
    + [Emission(DeltaCounter, base + ServiceSuffix, tiers.perService, 1)]
    + (if hasCluster then [Emission(DeltaCounter, base + ClusterSuffix, tiers.perCluster, 1)] else [])
    + [Emission(DeltaCounter, base + ApplicationSuffix, tiers.perApplication, 1)]
  }

  /** Granular response counters of one route and status. */
  function GranularGroup(app: ApplicationTags, key: string, route: TierTags): seq<Emission> {
    Rollup(key + ".cumulative", key, route, app.shard.Some?, app.cluster.Some?)
  }

  /** Overall counters under "response.errors" or "response.completed". */
  function OverallGroup(app: ApplicationTags, base: string, overall: TierTags): seq<Emission> {
    Rollup(base + SourceSuffix, base, overall, app.shard.Some?, app.cluster.Some?)
  }

  /** Error counters: the per-route ".errors" counter (current pipelines
      only), "response.errors", then the overall error rollup. */
  function ErrorGroup(app: ApplicationTags, perRoute: Option<string>, completeTags: Tags, overall: TierTags): seq<Emission> {
    (if perRoute.Some? then [Emission(Counter, perRoute.value + ".errors", completeTags, 1)] else [])
    + [Emission(Counter, ResponseErrors, completeTags, 1)]
    + OverallGroup(app, ResponseErrors, overall)
  }

  /** The latency histogram, and in the current pipelines the total-time
      counter incremented by the same latency. */
  function LatencyGroup(key: string, completeTags: Tags, latency: int, withTotalTime: bool): seq<Emission> {
    [Emission(Histogram, key + ".latency", completeTags, latency)]
    + (if withTotalTime then [Emission(Counter, key + ".total_time", completeTags, latency)] else [])
  }

  /** The response key: the response name, a dot and the status code. */
  function ResponseKey(responseName: string, statusCode: int): string {
    responseName + "." + IntToString(statusCode)
  }

  /** Different statuses of one route get different response keys. */
  lemma ResponseKeyInjective(responseName: string, a: int, b: int)
    requires ResponseKey(responseName, a) == ResponseKey(responseName, b)
    ensures a == b
  {
    var k := |responseName| + 1;
    assert ResponseKey(responseName, a)[k..] == IntToString(a);
    assert ResponseKey(responseName, b)[k..] == IntToString(b);
    IntToStringInjective(a, b);
  }

  /** The four groups of a completed response, in order: granular, errors
      (only when `isError`), completed, latency (only with a latency). The
      two generations of the pipeline differ in `perRouteErrors` and
      `withTotalTime` and in how they decide `isError`. */
  function Completion(app: ApplicationTags, responseName: string, key: string, isError: bool,
                      perRouteErrors: bool, withTotalTime: bool,
                      route: TierTags, overall: TierTags, latency: Option<int>): seq<Emission> {
    GranularGroup(app, key, route)
    + (if isError then ErrorGroup(app, if perRouteErrors then Some(responseName) else None, route.perSource, overall) else [])
    + OverallGroup(app, ResponseCompleted, overall)
    + (if latency.Some? then LatencyGroup(key, route.perSource, latency.value, withTotalTime) else [])
  }

  /** Everything the diagnostics observer and the MVC filter report for a
      completed response. */
  function CompletionEmissions(app: ApplicationTags, responseName: string, statusCode: int,
                               controllerName: Option<string>, actionName: Option<string>,
                               latency: Option<int>): seq<Emission> {
    Completion(app, responseName, ResponseKey(responseName, statusCode), IsErrorStatusCode(statusCode),
               true, true, TierTagsFor(app, controllerName, actionName), TierTagsFor(app, None, None), latency)
  }

  // ---------------------------------------------------------------------
  // Step-by-step emission into the sink.

  method EmitRollup(sink: MetricsSink, sourceName: string, base: string, tiers: TierTags, hasShard: bool, hasCluster: bool)
    modifies sink
    ensures sink.log == old(sink.log) + Rollup(sourceName, base, tiers, hasShard, hasCluster)
  {
    sink.Emit(Emission(Counter, sourceName, tiers.perSource, 1));
    if hasShard {
      sink.Emit(Emission(DeltaCounter, base + ShardSuffix, tiers.perShard, 1));
    }
    sink.Emit(Emission(DeltaCounter, base + ServiceSuffix, tiers.perService, 1));
    if hasCluster {
      sink.Emit(Emission(DeltaCounter, base + ClusterSuffix, tiers.perCluster, 1));
    }
    sink.Emit(Emission(DeltaCounter, base + ApplicationSuffix, tiers.perApplication, 1));
  }

  method EmitErrorGroup(sink: MetricsSink, app: ApplicationTags, perRoute: Option<string>, completeTags: Tags, overall: TierTags)
    modifies sink
    ensures sink.log == old(sink.log) + ErrorGroup(app, perRoute, completeTags, overall)
  {
    if perRoute.Some? {
      sink.Emit(Emission(Counter, perRoute.value + ".errors", completeTags, 1));
    }
    sink.Emit(Emission(Counter, ResponseErrors, completeTags, 1));
    EmitRollup(sink, ResponseErrors + SourceSuffix, ResponseErrors, overall, app.shard.Some?, app.cluster.Some?);
  }

  method EmitLatency(sink: MetricsSink, key: string, completeTags: Tags, latency: int, withTotalTime: bool)
    modifies sink
    ensures sink.log == old(sink.log) + LatencyGroup(key, completeTags, latency, withTotalTime)
  {
    sink.Emit(Emission(Histogram, key + ".latency", completeTags, latency));
    if withTotalTime {
      sink.Emit(Emission(Counter, key + ".total_time", completeTags, latency));
    }
  }

  /** A completed response, reported one record at a time. */
  method EmitCompletion(sink: MetricsSink, app: ApplicationTags, responseName: string, key: string, isError: bool,
                        perRouteErrors: bool, withTotalTime: bool,
                        route: TierTags, overall: TierTags, latency: Option<int>)
    modifies sink
    ensures sink.log == old(sink.log)
                        + Completion(app, responseName, key, isError, perRouteErrors, withTotalTime, route, overall, latency)
  {
    ghost var log0 := sink.log;
    ghost var granular := GranularGroup(app, key, route);
    EmitRollup(sink, key + ".cumulative", key, route, app.shard.Some?, app.cluster.Some?);
    ghost var log1 := sink.log;
    assert log1 == log0 + granular;
    ghost var errors: seq<Emission> := [];
    if isError {
      errors := ErrorGroup(app, if perRouteErrors then Some(responseName) else None, route.perSource, overall);
      EmitErrorGroup(sink, app, if perRouteErrors then Some(responseName) else None, route.perSource, overall);
    }
    ghost var log2 := sink.log;
    assert log2 == log1 + errors;
    ghost var completed := OverallGroup(app, ResponseCompleted, overall);
    EmitRollup(sink, ResponseCompleted + SourceSuffix, ResponseCompleted, overall, app.shard.Some?, app.cluster.Some?);
    ghost var log3 := sink.log;
    assert log3 == log2 + completed;
    ghost var timing: seq<Emission> := [];
    if latency.Some? {
      timing := LatencyGroup(key, route.perSource, latency.value, withTotalTime);
      EmitLatency(sink, key, route.perSource, latency.value, withTotalTime);
    }
    assert sink.log == log3 + timing;
    Assoc4(log0, granular, errors, completed, timing);
    assert granular + errors + completed + timing
        == Completion(app, responseName, key, isError, perRouteErrors, withTotalTime, route, overall, latency);
  }

  lemma Assoc4<T>(a: seq<T>, b: seq<T>, c: seq<T>, d: seq<T>, e: seq<T>)
    ensures a + b + c + d + e == a + (b + c + d + e)
  {
  }

  // ---------------------------------------------------------------------
  // Properties of the emission sequences.

  function Count(b: bool): nat { if b then 1 else 0 }

  predicate Named(es: seq<Emission>, name: string) {
    exists i :: 0 <= i < |es| && es[i].name == name
  }

  function Last(s: string): char
    requires s != []
  {
    s[|s| - 1]
  }

  lemma {:induction false} NamedConcat(a: seq<Emission>, b: seq<Emission>, name: string)
    ensures Named(a + b, name) <==> Named(a, name) || Named(b, name)
  {
    if Named(a + b, name) {
      var i :| 0 <= i < |a + b| && (a + b)[i].name == name;
      if i >= |a| { assert b[i - |a|].name == name; }
    }
    if Named(a, name) {
      var i :| 0 <= i < |a| && a[i].name == name;
      assert (a + b)[i].name == name;
    }
    if Named(b, name) {
      var i :| 0 <= i < |b| && b[i].name == name;
      assert (a + b)[|a| + i].name == name;
    }
  }

  /** Names built on the same base with different suffixes differ. */
  lemma SuffixesDiffer(base: string, s1: string, s2: string)
    requires s1 != s2
    ensures base + s1 != base + s2
  {
    assert (base + s1)[|base|..] == s1;
    assert (base + s2)[|base|..] == s2;
  }

  lemma LastOfConcat(base: string, suffix: string)
    requires suffix != []
    ensures Last(base + suffix) == Last(suffix)
  {
  }

  /** A rollup holds three records plus one per configured shard and one per
      configured cluster; its shard and cluster records are present exactly
      when the application has a shard or a cluster, its service and
      application records always; every record counts one. */
  lemma RollupShape(sourceName: string, base: string, tiers: TierTags, hasShard: bool, hasCluster: bool)
    requires sourceName != base + ShardSuffix && sourceName != base + ClusterSuffix
    ensures var r := Rollup(sourceName, base, tiers, hasShard, hasCluster);
            && |r| == 3 + Count(hasShard) + Count(hasCluster)
            && r[0] == Emission(Counter, sourceName, tiers.perSource, 1)
            && r[|r| - 1] == Emission(DeltaCounter, base + ApplicationSuffix, tiers.perApplication, 1)
            && (Named(r, base + ShardSuffix) <==> hasShard)
            && (Named(r, base + ClusterSuffix) <==> hasCluster)
            && Named(r, base + ServiceSuffix)
            && (forall i :: 0 <= i < |r| ==> r[i].amount == 1 && r[i].kind != Histogram)
            && (forall i :: 1 <= i < |r| ==> r[i].name in {base + ShardSuffix, base + ServiceSuffix,
                                                            base + ClusterSuffix, base + ApplicationSuffix})
  {
    var r := Rollup(sourceName, base, tiers, hasShard, hasCluster);
    SuffixesDiffer(base, ShardSuffix, ServiceSuffix);
    SuffixesDiffer(base, ShardSuffix, ClusterSuffix);
    SuffixesDiffer(base, ShardSuffix, ApplicationSuffix);
    SuffixesDiffer(base, ClusterSuffix, ServiceSuffix);
    SuffixesDiffer(base, ClusterSuffix, ApplicationSuffix);
    var s := Count(hasShard);
    assert r[s + 1].name == base + ServiceSuffix;
    if hasShard { assert r[1].name == base + ShardSuffix; }
    if hasCluster { assert r[s + 2].name == base + ClusterSuffix; }
  }

  /** The rollup names end in 'd', 'e', 'r' and 'n'. */
  lemma RollupNamesEnd(sourceName: string, base: string, tiers: TierTags, hasShard: bool, hasCluster: bool)
    requires sourceName != base + ShardSuffix && sourceName != base + ClusterSuffix
    ensures var r := Rollup(sourceName, base, tiers, hasShard, hasCluster);
            forall i :: 1 <= i < |r| ==> r[i].name != [] && Last(r[i].name) in {'d', 'e', 'r', 'n'}
  {
    RollupShape(sourceName, base, tiers, hasShard, hasCluster);
    LastOfConcat(base, ShardSuffix);
    LastOfConcat(base, ServiceSuffix);
    LastOfConcat(base, ClusterSuffix);
    LastOfConcat(base, ApplicationSuffix);
  }

  lemma GroupNamesDiffer(key: string)
    ensures key + ".cumulative" != key + ShardSuffix && key + ".cumulative" != key + ClusterSuffix
    ensures ResponseCompleted + SourceSuffix != ResponseCompleted + ShardSuffix
    ensures ResponseCompleted + SourceSuffix != ResponseCompleted + ClusterSuffix
    ensures ResponseErrors + SourceSuffix != ResponseErrors + ShardSuffix
    ensures ResponseErrors + SourceSuffix != ResponseErrors + ClusterSuffix
  {
    SuffixesDiffer(key, ".cumulative", ShardSuffix);
    SuffixesDiffer(key, ".cumulative", ClusterSuffix);
    SuffixesDiffer(ResponseCompleted, SourceSuffix, ShardSuffix);
    SuffixesDiffer(ResponseCompleted, SourceSuffix, ClusterSuffix);
    SuffixesDiffer(ResponseErrors, SourceSuffix, ShardSuffix);
    SuffixesDiffer(ResponseErrors, SourceSuffix, ClusterSuffix);
  }

  /** Shard-tier and cluster-tier rollups appear in the granular, error and
      completed groups exactly when the application has a shard or a
      cluster. */
  lemma ConditionalTiers(app: ApplicationTags, key: string, route: TierTags, overall: TierTags, perRoute: Option<string>)
    ensures Named(GranularGroup(app, key, route), key + ShardSuffix) <==> app.shard.Some?
    ensures Named(GranularGroup(app, key, route), key + ClusterSuffix) <==> app.cluster.Some?
    ensures Named(OverallGroup(app, ResponseCompleted, overall), ResponseCompleted + ShardSuffix) <==> app.shard.Some?
    ensures Named(OverallGroup(app, ResponseCompleted, overall), ResponseCompleted + ClusterSuffix) <==> app.cluster.Some?
    ensures Named(ErrorGroup(app, perRoute, route.perSource, overall), ResponseErrors + ShardSuffix) <==> app.shard.Some?
    ensures Named(ErrorGroup(app, perRoute, route.perSource, overall), ResponseErrors + ClusterSuffix) <==> app.cluster.Some?
  {
    GroupNamesDiffer(key);
    RollupShape(key + ".cumulative", key, route, app.shard.Some?, app.cluster.Some?);
    RollupShape(ResponseCompleted + SourceSuffix, ResponseCompleted, overall, app.shard.Some?, app.cluster.Some?);
    RollupShape(ResponseErrors + SourceSuffix, ResponseErrors, overall, app.shard.Some?, app.cluster.Some?);
    var head := (if perRoute.Some? then [Emission(Counter, perRoute.value + ".errors", route.perSource, 1)] else [])
                + [Emission(Counter, ResponseErrors, route.perSource, 1)];
    var tail := OverallGroup(app, ResponseErrors, overall);
    NamedConcat(head, tail, ResponseErrors + ShardSuffix);
    NamedConcat(head, tail, ResponseErrors + ClusterSuffix);
    LastOfConcat(ResponseErrors, ShardSuffix);
    LastOfConcat(ResponseErrors, ClusterSuffix);
    if perRoute.Some? {
      LastOfConcat(perRoute.value, ".errors");
    }
    assert !Named(head, ResponseErrors + ShardSuffix) && !Named(head, ResponseErrors + ClusterSuffix);
  }

  /** The layout of a completion: how many records each group holds, and
      that the granular group comes first and the completed group right
      after the error group. */
  lemma CompletionLayout(app: ApplicationTags, responseName: string, key: string, isError: bool,
                         perRouteErrors: bool, withTotalTime: bool,
                         route: TierTags, overall: TierTags, latency: Option<int>)
    ensures var es := Completion(app, responseName, key, isError, perRouteErrors, withTotalTime, route, overall, latency);
            var g := 3 + Count(app.shard.Some?) + Count(app.cluster.Some?);
            var e := if isError then Count(perRouteErrors) + 1 + g else 0;
            && |es| == g + e + g + (if latency.Some? then 1 + Count(withTotalTime) else 0)
            && es[0] == Emission(Counter, key + ".cumulative", route.perSource, 1)
            && es[g + e] == Emission(Counter, ResponseCompleted + SourceSuffix, overall.perSource, 1)
  {
    var g := 3 + Count(app.shard.Some?) + Count(app.cluster.Some?);
    var granular := GranularGroup(app, key, route);
    var perRoute := if perRouteErrors then Some(responseName) else None;
    var errors := if isError then ErrorGroup(app, perRoute, route.perSource, overall) else [];
    var completed := OverallGroup(app, ResponseCompleted, overall);
    var timing := if latency.Some? then LatencyGroup(key, route.perSource, latency.value, withTotalTime) else [];
    assert Completion(app, responseName, key, isError, perRouteErrors, withTotalTime, route, overall, latency)
        == granular + errors + completed + timing;
    assert |granular| == g && granular[0] == Emission(Counter, key + ".cumulative", route.perSource, 1);
    assert |completed| == g && completed[0] == Emission(Counter, ResponseCompleted + SourceSuffix, overall.perSource, 1);
    assert |errors| == if isError then Count(perRouteErrors) + 1 + g else 0;
    At4(granular, errors, completed, timing, 0);
    At4(granular, errors, completed, timing, g + |errors|);
  }

  /** For an error response the error group follows the granular group:
      the per-route ".errors" counter (when reported), then
      "response.errors", both with the route's per-source tags. */
  lemma CompletionErrorPositions(app: ApplicationTags, responseName: string, key: string, isError: bool,
                                 perRouteErrors: bool, withTotalTime: bool,
                                 route: TierTags, overall: TierTags, latency: Option<int>)
    requires isError
    ensures var es := Completion(app, responseName, key, isError, perRouteErrors, withTotalTime, route, overall, latency);
            var g := 3 + Count(app.shard.Some?) + Count(app.cluster.Some?);
            && |es| > g + Count(perRouteErrors)
            && (perRouteErrors ==> es[g] == Emission(Counter, responseName + ".errors", route.perSource, 1))
            && es[g + Count(perRouteErrors)] == Emission(Counter, ResponseErrors, route.perSource, 1)
  {
    var g := 3 + Count(app.shard.Some?) + Count(app.cluster.Some?);
    var granular := GranularGroup(app, key, route);
    var perRoute := if perRouteErrors then Some(responseName) else None;
    var errors := ErrorGroup(app, perRoute, route.perSource, overall);
    var completed := OverallGroup(app, ResponseCompleted, overall);
    var timing := if latency.Some? then LatencyGroup(key, route.perSource, latency.value, withTotalTime) else [];
    assert Completion(app, responseName, key, isError, perRouteErrors, withTotalTime, route, overall, latency)
        == granular + errors + completed + timing;
    assert errors[Count(perRouteErrors)] == Emission(Counter, ResponseErrors, route.perSource, 1);
    At4(granular, errors, completed, timing, g);
    At4(granular, errors, completed, timing, g + Count(perRouteErrors));
  }

  /** With a measured latency the completion ends with the latency
      histogram and, when reported, the total-time counter, both carrying
      the latency itself. */
  lemma CompletionLatencyPositions(app: ApplicationTags, responseName: string, key: string, isError: bool,
                                   perRouteErrors: bool, withTotalTime: bool,
                                   route: TierTags, overall: TierTags, latency: Option<int>)
    requires latency.Some?
    ensures var es := Completion(app, responseName, key, isError, perRouteErrors, withTotalTime, route, overall, latency);
            var h := |es| - 1 - Count(withTotalTime);
            && 0 <= h < |es|
            && es[h] == Emission(Histogram, key + ".latency", route.perSource, latency.value)
            && (withTotalTime ==> es[|es| - 1] == Emission(Counter, key + ".total_time", route.perSource, latency.value))
  {
    var granular := GranularGroup(app, key, route);
    var perRoute := if perRouteErrors then Some(responseName) else None;
    var errors := if isError then ErrorGroup(app, perRoute, route.perSource, overall) else [];
    var completed := OverallGroup(app, ResponseCompleted, overall);
    var timing := LatencyGroup(key, route.perSource, latency.value, withTotalTime);
    var es := granular + errors + completed + timing;
    assert Completion(app, responseName, key, isError, perRouteErrors, withTotalTime, route, overall, latency) == es;
    At4(granular, errors, completed, timing, |es| - 1 - Count(withTotalTime));
    At4(granular, errors, completed, timing, |es| - 1);
  }

  lemma At4<T>(a: seq<T>, b: seq<T>, c: seq<T>, d: seq<T>, i: int)
    requires 0 <= i < |a| + |b| + |c| + |d|
    ensures (a + b + c + d)[i]
            == if i < |a| then a[i]
               else if i < |a| + |b| then b[i - |a|]
               else if i < |a| + |b| + |c| then c[i - |a| - |b|]
               else d[i - |a| - |b| - |c|]
  {
  }

  /** No name ending in a character other than 's' is "response.errors". */
  lemma NotNamedResponseErrors(es: seq<Emission>)
    requires forall i :: 0 <= i < |es| ==> es[i].name != [] && Last(es[i].name) != 's'
    ensures !Named(es, ResponseErrors)
  {
  }

  lemma GranularNamesEnd(app: ApplicationTags, key: string, route: TierTags)
    ensures var r := GranularGroup(app, key, route);
            forall i :: 0 <= i < |r| ==> r[i].name != [] && Last(r[i].name) != 's'
  {
    GroupNamesDiffer(key);
    RollupShape(key + ".cumulative", key, route, app.shard.Some?, app.cluster.Some?);
    RollupNamesEnd(key + ".cumulative", key, route, app.shard.Some?, app.cluster.Some?);
    LastOfConcat(key, ".cumulative");
  }

  lemma CompletedNamesEnd(app: ApplicationTags, overall: TierTags)
    ensures var r := OverallGroup(app, ResponseCompleted, overall);
            forall i :: 0 <= i < |r| ==> r[i].name != [] && Last(r[i].name) != 's'
  {
    GroupNamesDiffer([]);
    RollupShape(ResponseCompleted + SourceSuffix, ResponseCompleted, overall, app.shard.Some?, app.cluster.Some?);
    RollupNamesEnd(ResponseCompleted + SourceSuffix, ResponseCompleted, overall, app.shard.Some?, app.cluster.Some?);
    LastOfConcat(ResponseCompleted, SourceSuffix);
  }

  lemma LatencyNamesEnd(key: string, completeTags: Tags, latency: int, withTotalTime: bool)
    ensures var r := LatencyGroup(key, completeTags, latency, withTotalTime);
            forall i :: 0 <= i < |r| ==> r[i].name != [] && Last(r[i].name) != 's'
  {
    LastOfConcat(key, ".latency");
    LastOfConcat(key, ".total_time");
  }

  predicate HasKind(es: seq<Emission>, kind: MetricKind) {
    exists i :: 0 <= i < |es| && es[i].kind == kind
  }

  lemma {:induction false} HasKindConcat(a: seq<Emission>, b: seq<Emission>, kind: MetricKind)
    ensures HasKind(a + b, kind) <==> HasKind(a, kind) || HasKind(b, kind)
  {
    if HasKind(a + b, kind) {
      var i :| 0 <= i < |a + b| && (a + b)[i].kind == kind;
      if i >= |a| { assert b[i - |a|].kind == kind; }
    }
    if HasKind(a, kind) {
      var i :| 0 <= i < |a| && a[i].kind == kind;
      assert (a + b)[i].kind == kind;
    }
    if HasKind(b, kind) {
      var i :| 0 <= i < |b| && b[i].kind == kind;
      assert (a + b)[|a| + i].kind == kind;
    }
  }

  /** Only the latency group holds a histogram. */
  lemma CountersOnly(app: ApplicationTags, key: string, route: TierTags, perRoute: Option<string>, overall: TierTags)
    ensures !HasKind(GranularGroup(app, key, route), Histogram)
    ensures !HasKind(ErrorGroup(app, perRoute, route.perSource, overall), Histogram)
    ensures !HasKind(OverallGroup(app, ResponseCompleted, overall), Histogram)
  {
    var head := (if perRoute.Some? then [Emission(Counter, perRoute.value + ".errors", route.perSource, 1)] else [])
                + [Emission(Counter, ResponseErrors, route.perSource, 1)];
    HasKindConcat(head, OverallGroup(app, ResponseErrors, overall), Histogram);
  }

  /** The "response.errors" counter, and with it the error group, appears
      exactly when the response is an error. */
  lemma ErrorsIff(app: ApplicationTags, responseName: string, key: string, isError: bool,
                  perRouteErrors: bool, withTotalTime: bool,
                  route: TierTags, overall: TierTags, latency: Option<int>)
    ensures var es := Completion(app, responseName, key, isError, perRouteErrors, withTotalTime, route, overall, latency);
            Named(es, ResponseErrors) <==> isError
  {
    var granular := GranularGroup(app, key, route);
    var errors := if isError then ErrorGroup(app, if perRouteErrors then Some(responseName) else None, route.perSource, overall) else [];
    var completed := OverallGroup(app, ResponseCompleted, overall);
    var timing := if latency.Some? then LatencyGroup(key, route.perSource, latency.value, withTotalTime) else [];
    assert Completion(app, responseName, key, isError, perRouteErrors, withTotalTime, route, overall, latency)
        == granular + errors + completed + timing;
    GranularNamesEnd(app, key, route);
    CompletedNamesEnd(app, overall);
    LatencyNamesEnd(key, route.perSource, if latency.Some? then latency.value else 0, withTotalTime);
    NotNamedResponseErrors(granular);
    NotNamedResponseErrors(completed);
    NotNamedResponseErrors(timing);
    NamedConcat(granular, errors, ResponseErrors);
    NamedConcat(granular + errors, completed, ResponseErrors);
    NamedConcat(granular + errors + completed, timing, ResponseErrors);
    if isError {
      assert errors[Count(perRouteErrors)].name == ResponseErrors;
    }
  }

  /** A latency histogram appears exactly when a latency was measured. */
  lemma LatencyIff(app: ApplicationTags, responseName: string, key: string, isError: bool,
                   perRouteErrors: bool, withTotalTime: bool,
                   route: TierTags, overall: TierTags, latency: Option<int>)
    ensures var es := Completion(app, responseName, key, isError, perRouteErrors, withTotalTime, route, overall, latency);
            HasKind(es, Histogram) <==> latency.Some?
  {
    var granular := GranularGroup(app, key, route);
    var perRoute := if perRouteErrors then Some(responseName) else None;
    var errors := if isError then ErrorGroup(app, perRoute, route.perSource, overall) else [];
    var completed := OverallGroup(app, ResponseCompleted, overall);
    var timing := if latency.Some? then LatencyGroup(key, route.perSource, latency.value, withTotalTime) else [];
    assert Completion(app, responseName, key, isError, perRouteErrors, withTotalTime, route, overall, latency)
        == granular + errors + completed + timing;
    CountersOnly(app, key, route, perRoute, overall);
    HasKindConcat(granular, errors, Histogram);
    HasKindConcat(granular + errors, completed, Histogram);
    HasKindConcat(granular + errors + completed, timing, Histogram);
    if latency.Some? {
      assert timing[0].kind == Histogram;
    }
  }

  /** The current pipelines: "response.errors" exactly for 4xx and 5xx
      statuses, latency records exactly when a start time was found. */
  lemma CurrentCompletionIff(app: ApplicationTags, responseName: string, statusCode: int,
                             controllerName: Option<string>, actionName: Option<string>, latency: Option<int>)
    ensures var es := CompletionEmissions(app, responseName, statusCode, controllerName, actionName, latency);
            && (Named(es, ResponseErrors) <==> IsErrorStatusCode(statusCode))
            && (HasKind(es, Histogram) <==> latency.Some?)
  {
    var key := ResponseKey(responseName, statusCode);
    var route := TierTagsFor(app, controllerName, actionName);
    var overall := TierTagsFor(app, None, None);
    ErrorsIff(app, responseName, key, IsErrorStatusCode(statusCode), true, true, route, overall, latency);
    LatencyIff(app, responseName, key, IsErrorStatusCode(statusCode), true, true, route, overall, latency);
  }
}
