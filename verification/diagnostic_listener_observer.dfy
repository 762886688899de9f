/** The base of the two diagnostic observers: it subscribes to a diagnostic
    listener only when the listener's name is its own, and it catches
    whatever a handler throws, logging a warning instead. */
module Observer {
  import opened Wrappers

  /** A disposable subscription: the manager's subscription to all
      listeners, or observer number `observer` subscribed to a listener. */
  datatype Subscription = AllListeners | ListenerSubscription(listenerName: string, observer: nat)

  datatype LogEntry = Information(message: string) | Warning(message: string, eventName: string)

  /** `SubscribeIfMatch`: a subscription when the names agree, else null. */
  function SubscribeIfMatch(observerListenerName: string, observer: nat, listenerName: string): (r: Option<Subscription>)
    ensures r.Some? <==> listenerName == observerListenerName
    ensures r.Some? ==> r.value.ListenerSubscription? && r.value.observer == observer
                        && r.value.listenerName == listenerName
  {
    if listenerName == observerListenerName then Some(ListenerSubscription(listenerName, observer)) else None
  }

  const EventExceptionMessage := "Event-Exception: {Event}"

  /** `OnNext(KeyValuePair)`: the log after a handler's outcome. A thrown
      exception becomes one warning naming the event; nothing propagates. */
  function Swallow(eventName: string, outcome: Outcome, log: seq<LogEntry>): (r: seq<LogEntry>)
    ensures |log| <= |r| <= |log| + 1 && r[..|log|] == log
    ensures |r| == |log| + 1 <==> outcome.Fault?
    ensures outcome.Fault? ==> r[|log|] == Warning(EventExceptionMessage, eventName)
  {
    match outcome
    case Pass => log
    case Fault(_) => log + [Warning(EventExceptionMessage, eventName)]
  }
}
