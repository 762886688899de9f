/** The manager that wires the observers to diagnostic listeners. Started,
    it subscribes to the stream of all listeners; for each listener that
    appears it collects the subscriptions of the observers whose listener
    name matches; stopped, it disposes its own subscription and every
    collected one. */
module Manager {
  import opened Wrappers
  import opened Observer

  const ArgumentNull := "ArgumentNullException"

  /** The subscriptions `OnNext` collects for a listener, in observer order:
      observer `i` listens to `names[i]`. */
  function Matches(names: seq<string>, listenerName: string): seq<Subscription>
    decreases |names|
  {
    if names == [] then []
    else
      var last := |names| - 1;
      var s := SubscribeIfMatch(names[last], last, listenerName);
      Matches(names[..last], listenerName) + (if s.Some? then [s.value] else [])
  }

  /** The subscriptions of `m` are those of observers named `listenerName`
      in `names`, in strictly increasing observer order. */
  ghost predicate FromMatchingObservers(m: seq<Subscription>, names: seq<string>, listenerName: string) {
    && (forall j :: 0 <= j < |m| ==>
          && m[j].ListenerSubscription? && m[j].listenerName == listenerName
          && m[j].observer < |names| && names[m[j].observer] == listenerName)
    && (forall j, k :: 0 <= j < k < |m| && m[j].ListenerSubscription? && m[k].ListenerSubscription? ==>
          m[j].observer < m[k].observer)
  }

  /** Every collected subscription is one of a matching observer, and they
      come in observer order. */
  lemma {:induction false} MatchesSound(names: seq<string>, listenerName: string)
    ensures FromMatchingObservers(Matches(names, listenerName), names, listenerName)
    decreases |names|
  {
    if names != [] {
      var last := |names| - 1;
      var front := names[..last];
      MatchesSound(front, listenerName);
      var mf := Matches(front, listenerName);
      var s := SubscribeIfMatch(names[last], last, listenerName);
      var m := mf + (if s.Some? then [s.value] else []);
      assert m == Matches(names, listenerName);
      forall j | 0 <= j < |m|
        ensures m[j].ListenerSubscription? && m[j].listenerName == listenerName
        ensures m[j].observer < |names| && names[m[j].observer] == listenerName
      {
        if j < |mf| {
          assert m[j] == mf[j];
          assert mf[j].observer < |front|;
          assert front[mf[j].observer] == names[mf[j].observer];
        }
      }
      forall j, k | 0 <= j < k < |m| && m[j].ListenerSubscription? && m[k].ListenerSubscription?
        ensures m[j].observer < m[k].observer
      {
        assert m[j] == mf[j];
        if k < |mf| {
          assert m[k] == mf[k];
        } else {
          assert mf[j].observer < |front|;
        }
      }
    }
  }

  /** Every matching observer's subscription is collected. */
  lemma {:induction false} MatchesComplete(names: seq<string>, listenerName: string, i: nat)
    requires i < |names| && names[i] == listenerName
    ensures ListenerSubscription(listenerName, i) in Matches(names, listenerName)
    decreases |names|
  {
    var last := |names| - 1;
    var front := names[..last];
    var mf := Matches(front, listenerName);
    var s := SubscribeIfMatch(names[last], last, listenerName);
    var m := mf + (if s.Some? then [s.value] else []);
    assert m == Matches(names, listenerName);
    if i < last {
      assert front[i] == names[i];
      MatchesComplete(front, listenerName, i);
    } else {
      assert m[|m| - 1] == ListenerSubscription(listenerName, i);
    }
  }

  /** A listener no observer is named after collects nothing. */
  lemma {:induction false} NoMatchCollectsNothing(names: seq<string>, listenerName: string)
    requires forall i :: 0 <= i < |names| ==> names[i] != listenerName
    ensures Matches(names, listenerName) == []
    decreases |names|
  {
    if names != [] {
      NoMatchCollectsNothing(names[..|names| - 1], listenerName);
    }
  }

  class DiagnosticManager {
    /** The listener name of each observer, in registration order. */
    const subscribers: seq<string>
    var subscriptions: seq<Subscription>
    var allListenersSubscription: Option<Subscription>
    /** Every subscription disposed so far, in order. */
    var disposed: seq<Subscription>

    constructor(subscribers: seq<string>)
      ensures this.subscribers == subscribers
      ensures subscriptions == [] && allListenersSubscription.None? && disposed == []
    {
      this.subscribers := subscribers;
      subscriptions := [];
      allListenersSubscription := None;
      disposed := [];
    }

    function IsRunning(): bool
      reads this
    {
      allListenersSubscription.Some?
    }

    /** `Start`: subscribes to all listeners unless already subscribed. */
    method Start()
      modifies this
      ensures IsRunning()
      ensures old(IsRunning()) ==> unchanged(this)
      ensures !old(IsRunning()) ==>
                allListenersSubscription == Some(AllListeners)
                && subscriptions == old(subscriptions) && disposed == old(disposed)
    {
      if allListenersSubscription.None? {
        allListenersSubscription := Some(AllListeners);
      }
    }

    /** `OnNext(DiagnosticListener)`: each observer is offered the listener
        in turn, and the subscriptions it returns are collected. */
    method OnNext(listenerName: string)
      modifies this
      ensures subscriptions == old(subscriptions) + Matches(subscribers, listenerName)
      ensures allListenersSubscription == old(allListenersSubscription) && disposed == old(disposed)
    {
      var i := 0;
      while i < |subscribers|
        invariant 0 <= i <= |subscribers|
        invariant subscriptions == old(subscriptions) + Matches(subscribers[..i], listenerName)
        invariant allListenersSubscription == old(allListenersSubscription) && disposed == old(disposed)
      {
        var s := SubscribeIfMatch(subscribers[i], i, listenerName);
        if s.Some? {
          subscriptions := subscriptions + [s.value];
        }
        assert subscribers[..i + 1][..i] == subscribers[..i];
        i := i + 1;
      }
      assert subscribers[..i] == subscribers;
    }

    /** `Stop`: when running, the all-listeners subscription and then every
        collected subscription are disposed, once each, and the list is
        cleared; when stopped, nothing happens. */
    method Stop()
      modifies this
      ensures !IsRunning()
      ensures !old(IsRunning()) ==> unchanged(this)
      ensures old(IsRunning()) ==>
                && disposed == old(disposed) + [old(allListenersSubscription).value] + old(subscriptions)
                && subscriptions == []
    {
      if allListenersSubscription.Some? {
        disposed := disposed + [allListenersSubscription.value];
        allListenersSubscription := None;
        var i := 0;
        while i < |subscriptions|
          invariant 0 <= i <= |subscriptions|
          invariant subscriptions == old(subscriptions) && allListenersSubscription.None?
          invariant disposed == old(disposed) + [old(allListenersSubscription).value] + subscriptions[..i]
        {
          disposed := disposed + [subscriptions[i]];
          assert subscriptions[..i + 1] == subscriptions[..i] + [subscriptions[i]];
          i := i + 1;
        }
        assert subscriptions[..i] == subscriptions;
        subscriptions := [];
      }
    }

    /** `Dispose` is `Stop`. */
    method Dispose()
      modifies this
      ensures !IsRunning()
      ensures !old(IsRunning()) ==> unchanged(this)
      ensures old(IsRunning()) ==>
                && disposed == old(disposed) + [old(allListenersSubscription).value] + old(subscriptions)
                && subscriptions == []
    {
      Stop();
    }

    /** The listener stream's completion and error notifications are
        ignored. */
    method OnCompleted()
      ensures unchanged(this)
    {
    }

    method OnError(error: string)
      ensures unchanged(this)
    {
    }
  }

  /** The constructor's null check on the observer collection. */
  method NewManager(subscribers: Option<seq<string>>) returns (r: Result<DiagnosticManager, string>)
    ensures r.Failure? <==> subscribers.None?
    ensures r.Failure? ==> r.error == ArgumentNull
    ensures r.Success? ==> r.value.subscribers == subscribers.value && !r.value.IsRunning()
                           && r.value.subscriptions == [] && fresh(r.value)
  {
    if subscribers.None? {
      return Failure(ArgumentNull);
    }
    var m := new DiagnosticManager(subscribers.value);
    return Success(m);
  }

  /** A full run: started, shown one listener, stopped. Everything the
      manager subscribed to is disposed, and it is left stopped and empty. */
  method StartListenStop(m: DiagnosticManager, listenerName: string)
    requires !m.IsRunning() && m.subscriptions == []
    modifies m
    ensures !m.IsRunning() && m.subscriptions == []
    ensures m.disposed == old(m.disposed) + [AllListeners] + Matches(m.subscribers, listenerName)
  {
    m.Start();
    m.OnNext(listenerName);
    m.Stop();
  }
}
