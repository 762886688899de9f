/** The reporter that sends the application's metrics: a builder collects
    the reporting interval and the source, and `Build` settles the source
    and the global tags every metric carries. */
module Reporter {
  import opened Wrappers
  import opened Strings
  import opened Constants
  import opened Application

  const DefaultReportingIntervalSeconds := 60

  /** What a built reporter is configured with. */
  datatype AspNetCoreReporter = AspNetCoreReporter(
    applicationTags: ApplicationTags,
    source: string,
    globalTags: map<string, string>,
    defaultContextLabel: string,
    flushIntervalSeconds: int)

  /** The source a reporter reports as: the given one unless it is null,
      empty or white space, else the host's default source. */
  function SettledSource(source: Option<string>, defaultSource: string): (r: string)
    ensures IsNullOrWhiteSpace(source) ==> r == defaultSource
    ensures !IsNullOrWhiteSpace(source) ==> source.Some? && r == source.value
  {
    if IsNullOrWhiteSpace(source) then defaultSource else source.value
  }

  /** The global tags: "application" always maps to the application name;
      every custom tag under another key is kept; a custom "application"
      is dropped. */
  function GlobalTags(app: ApplicationTags): (r: map<string, string>)
    ensures ApplicationTagKey in r && r[ApplicationTagKey] == app.application
    ensures app.customTags.None? ==> r.Keys == {ApplicationTagKey}
    ensures app.customTags.Some? ==> r.Keys == app.customTags.value.Keys + {ApplicationTagKey}
    ensures app.customTags.Some? ==>
              forall k :: k in app.customTags.value && k != ApplicationTagKey ==> r[k] == app.customTags.value[k]
  {
    match app.customTags
    case None => map[ApplicationTagKey := app.application]
    case Some(custom) =>
      map k | k in custom.Keys + {ApplicationTagKey} :: if k == ApplicationTagKey then app.application else custom[k]
  }

  class ReporterBuilder {
    const applicationTags: ApplicationTags
    var source: Option<string>
    var reportingIntervalSeconds: int

    constructor(applicationTags: ApplicationTags)
      ensures this.applicationTags == applicationTags
      ensures source.None? && reportingIntervalSeconds == DefaultReportingIntervalSeconds
    {
      this.applicationTags := applicationTags;
      source := None;
      reportingIntervalSeconds := DefaultReportingIntervalSeconds;
    }

    /** `ReportingIntervalSeconds`: sets the interval, returns this builder. */
    method ReportingIntervalSeconds(seconds: int) returns (b: ReporterBuilder)
      modifies this
      ensures b == this
      ensures reportingIntervalSeconds == seconds && source == old(source)
    {
      reportingIntervalSeconds := seconds;
      b := this;
    }

    /** `WithSource`: sets the source, returns this builder. */
    method WithSource(s: Option<string>) returns (b: ReporterBuilder)
      modifies this
      ensures b == this
      ensures source == s && reportingIntervalSeconds == old(reportingIntervalSeconds)
    {
      source := s;
      b := this;
    }

    /** `Build`: the builder's source is settled in place, and the global
        tags are gathered from the custom tags, one at a time, skipping any
        key already present. */
    method Build(defaultSource: string) returns (r: AspNetCoreReporter)
      modifies this
      ensures source == Some(SettledSource(old(source), defaultSource))
      ensures reportingIntervalSeconds == old(reportingIntervalSeconds)
      ensures r.applicationTags == applicationTags && r.source == SettledSource(old(source), defaultSource)
      ensures r.globalTags == GlobalTags(applicationTags)
      ensures r.defaultContextLabel == AspNetCoreContext
      ensures r.flushIntervalSeconds == reportingIntervalSeconds
    {
      source := Some(SettledSource(source, defaultSource));
      var app := applicationTags;
      var globalTags := map[ApplicationTagKey := app.application];
      if app.customTags.Some? {
        var custom := app.customTags.value;
        var remaining := custom.Keys;
        while remaining != {}
          invariant remaining <= custom.Keys
          invariant globalTags.Keys == (custom.Keys - remaining) + {ApplicationTagKey}
          invariant globalTags[ApplicationTagKey] == app.application
          invariant forall k :: k in globalTags && k != ApplicationTagKey ==> globalTags[k] == custom[k]
          decreases remaining
        {
          var k :| k in remaining;
          if k !in globalTags {
            globalTags := globalTags[k := custom[k]];
          }
          remaining := remaining - {k};
        }
        assert globalTags.Keys == GlobalTags(app).Keys;
      }
      r := AspNetCoreReporter(app, source.value, globalTags, AspNetCoreContext, reportingIntervalSeconds);
    }
  }

  /** An application named in its own custom tags keeps its name: the
      custom value never overrides it. */
  lemma ApplicationNeverOverridden(app: ApplicationTags, other: string)
    requires app.customTags.Some? && ApplicationTagKey in app.customTags.value
    requires app.customTags.value[ApplicationTagKey] == other && other != app.application
    ensures GlobalTags(app)[ApplicationTagKey] != other
  {
  }

  /** A source of blanks falls back to the default. */
  lemma BlankSourceFallsBack(defaultSource: string)
    ensures SettledSource(Some(""), defaultSource) == defaultSource
    ensures SettledSource(Some(" \t"), defaultSource) == defaultSource
    ensures SettledSource(None, defaultSource) == defaultSource
  {
    assert IsNullOrWhiteSpace(Some(" \t")) by {
      assert IsWhiteSpace(" \t"[0]) && IsWhiteSpace(" \t"[1]);
    }
  }

  /** A builder configured by the setters and built: the interval is
      the one set last, or 60 seconds when it was never set. */
  method ConfigureAndBuild(app: ApplicationTags, interval: Option<int>, s: Option<string>, defaultSource: string)
    returns (r: AspNetCoreReporter)
    ensures r.flushIntervalSeconds == interval.GetOr(DefaultReportingIntervalSeconds)
    ensures r.source == SettledSource(s, defaultSource)
    ensures r.globalTags == GlobalTags(app)
  {
    var b := new ReporterBuilder(app);
    if interval.Some? {
      var same := b.ReportingIntervalSeconds(interval.value);
    }
    var same := b.WithSource(s);
    r := b.Build(defaultSource);
  }
}
