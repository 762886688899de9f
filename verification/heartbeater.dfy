/** The heartbeat service: once started, a timer sends the
    "~component.heartbeat" metric one minute after start and every five
    minutes after that, tagged with the application's identity and the
    reporting component; a failed send is logged, never thrown. */
module Heartbeater {
  import opened Wrappers
  import opened Constants
  import opened Application

  const FirstDueSeconds := 60
  const PeriodSeconds := 300
  const CannotReport := "Cannot report ~component.heartbeat to Wavefront"
  const ObjectDisposed := "ObjectDisposedException"

  /** The tags of every heartbeat. */
  function HeartbeatTags(app: ApplicationTags, component: string): (r: map<string, string>)
    ensures r.Keys == {ApplicationTagKey, ClusterTagKey, ServiceTagKey, ShardTagKey, ComponentTagKey}
    ensures r[ApplicationTagKey] == app.application && r[ServiceTagKey] == app.service
    ensures r[ClusterTagKey] == (if app.cluster.Some? then app.cluster.value else NullTagValue)
    ensures r[ShardTagKey] == (if app.shard.Some? then app.shard.value else NullTagValue)
    ensures r[ComponentTagKey] == component
  {
    map[ApplicationTagKey := app.application,
        ClusterTagKey := app.cluster.GetOr(NullTagValue),
        ServiceTagKey := app.service,
        ShardTagKey := app.shard.GetOr(NullTagValue),
        ComponentTagKey := component]
  }

  /** A `System.Threading.Timer`: when it is next due (`None` is never),
      its period, and whether it has been disposed. */
  datatype Timer = Timer(dueSeconds: Option<int>, periodSeconds: int, disposed: bool)

  /** Whether the timer fires `s` seconds after it was set: at its due
      time, then once per period (a period of zero fires once). */
  predicate FiresAt(t: Timer, s: int) {
    && !t.disposed && t.dueSeconds.Some? && s >= t.dueSeconds.value
    && (if t.periodSeconds > 0 then (s - t.dueSeconds.value) % t.periodSeconds == 0 else s == t.dueSeconds.value)
  }

  /** The timer `StartAsync` sets fires exactly at 60 + 300k seconds. */
  lemma HeartbeatSchedule(s: int)
    ensures FiresAt(Timer(Some(FirstDueSeconds), PeriodSeconds, false), s)
            <==> exists k: nat :: s == FirstDueSeconds + PeriodSeconds * k
  {
    var t := Timer(Some(FirstDueSeconds), PeriodSeconds, false);
    if FiresAt(t, s) {
      var k: nat := (s - FirstDueSeconds) / PeriodSeconds;
      assert s == FirstDueSeconds + PeriodSeconds * k;
    }
    if exists k: nat :: s == FirstDueSeconds + PeriodSeconds * k {
      var k: nat :| s == FirstDueSeconds + PeriodSeconds * k;
      assert (s - FirstDueSeconds) % PeriodSeconds == (PeriodSeconds * k) % PeriodSeconds == 0;
    }
  }

  /** A timer changed to an infinite due time, or disposed, never fires. */
  lemma HaltedNeverFires(t: Timer, s: int)
    requires t.dueSeconds.None? || t.disposed
    ensures !FiresAt(t, s)
  {
  }

  /** One metric point handed to the sender. */
  datatype MetricPoint = MetricPoint(name: string, value: real, timestampMillis: int, source: string,
                                     tags: map<string, string>)

  class HeartbeaterService {
    const source: string
    const heartbeatMetricTags: map<string, string>
    var timer: Option<Timer>
    /** Points the sender accepted, in order. */
    var sent: seq<MetricPoint>
    /** Warnings logged, in order. */
    var log: seq<string>

    ghost predicate Valid()
      reads this
    {
      heartbeatMetricTags.Keys == {ApplicationTagKey, ClusterTagKey, ServiceTagKey, ShardTagKey, ComponentTagKey}
    }

    constructor(app: ApplicationTags, source: string, component: string)
      ensures Valid()
      ensures this.source == source && heartbeatMetricTags == HeartbeatTags(app, component)
      ensures timer.None? && sent == [] && log == []
    {
      this.source := source;
      heartbeatMetricTags := HeartbeatTags(app, component);
      timer := None;
      sent := [];
      log := [];
    }

    /** `StartAsync`: a new timer, first due after one minute, then every
        five minutes. */
    method StartAsync()
      modifies this
      ensures timer == Some(Timer(Some(FirstDueSeconds), PeriodSeconds, false))
      ensures sent == old(sent) && log == old(log)
    {
      timer := Some(Timer(Some(FirstDueSeconds), PeriodSeconds, false));
    }

    /** `SendHeartbeat`, at time `nowMillis`: the heartbeat goes to the
        sender; if the sender throws (`accepted` false) a warning is logged
        instead and nothing propagates. */
    method SendHeartbeat(nowMillis: int, accepted: bool)
      modifies this
      ensures accepted ==>
                sent == old(sent) + [MetricPoint(HeartbeatMetric, 1.0, nowMillis, source, heartbeatMetricTags)]
                && log == old(log)
      ensures !accepted ==> sent == old(sent) && log == old(log) + [CannotReport]
      ensures timer == old(timer)
    {
      if accepted {
        sent := sent + [MetricPoint(HeartbeatMetric, 1.0, nowMillis, source, heartbeatMetricTags)];
      } else {
        log := log + [CannotReport];
      }
    }

    /** `StopAsync`: a running timer is changed never to fire again; with no
        timer nothing happens; changing a disposed timer throws. */
    method StopAsync() returns (outcome: Outcome)
      modifies this
      ensures old(timer).None? ==> outcome.Pass? && unchanged(this)
      ensures old(timer).Some? && old(timer).value.disposed ==> outcome == Fault(ObjectDisposed) && unchanged(this)
      ensures old(timer).Some? && !old(timer).value.disposed ==>
                outcome.Pass? && timer == Some(Timer(None, 0, false))
      ensures sent == old(sent) && log == old(log)
    {
      outcome := Pass;
      if timer.Some? {
        if timer.value.disposed {
          return Fault(ObjectDisposed);
        }
        timer := Some(Timer(None, 0, false));
      }
    }

    /** `Dispose`: the timer, if any, is disposed. */
    method Dispose()
      modifies this
      ensures timer == (if old(timer).Some? then Some(old(timer).value.(disposed := true)) else None)
      ensures sent == old(sent) && log == old(log)
    {
      if timer.Some? {
        timer := Some(timer.value.(disposed := true));
      }
    }
  }

  /** Started and then stopped, the service's timer never fires again. */
  method StartThenStop(h: HeartbeaterService) returns (outcome: Outcome)
    modifies h
    ensures outcome.Pass? && h.timer.Some?
    ensures forall s :: !FiresAt(h.timer.value, s)
  {
    h.StartAsync();
    outcome := h.StopAsync();
  }
}
