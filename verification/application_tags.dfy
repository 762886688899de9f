/** The identity of an instrumented application: application, service,
    optional cluster and shard, and custom tags. The builder's setters
    update its fields in place; `Build` takes a snapshot of them. */
module Application {
  import opened Wrappers

  datatype ApplicationTags = ApplicationTags(
    application: string,
    cluster: Option<string>,
    service: string,
    shard: Option<string>,
    customTags: Option<map<string, string>>)

  /** One setter call on a builder. */
  datatype BuilderCall =
    | SetCluster(cluster: Option<string>)
    | SetShard(shard: Option<string>)
    | SetCustomTags(customTags: Option<map<string, string>>)

  /** What a fresh builder holds: no cluster, no shard, empty custom tags. */
  function Initial(application: string, service: string): ApplicationTags {
    ApplicationTags(application, None, service, None, Some(map[]))
  }

  /** The effect of one setter call: its own field is overwritten, the
      others are kept. */
  function Apply(t: ApplicationTags, call: BuilderCall): ApplicationTags {
    match call
    case SetCluster(c) => t.(cluster := c)
    case SetShard(s) => t.(shard := s)
    case SetCustomTags(m) => t.(customTags := m)
  }

  /** What `Build` returns after the given setter calls, in order. */
  function BuildAfter(application: string, service: string, calls: seq<BuilderCall>): ApplicationTags {
    if calls == [] then Initial(application, service)
    else Apply(BuildAfter(application, service, calls[..|calls| - 1]), calls[|calls| - 1])
  }

  class Builder {
    const application: string
    const service: string
    var cluster: Option<string>
    var shard: Option<string>
    var customTags: Option<map<string, string>>

    constructor(application: string, service: string)
      ensures Build() == Initial(application, service)
    {
      this.application := application;
      this.service := service;
      cluster := None;
      shard := None;
      customTags := Some(map[]);
    }

    /** The record `Build` creates from the current fields. */
    function Build(): ApplicationTags
      reads this
    {
      ApplicationTags(application, cluster, service, shard, customTags)
    }

    method Cluster(cluster: Option<string>) returns (b: Builder)
      modifies this
      ensures b == this
      ensures Build() == Apply(old(Build()), SetCluster(cluster))
    {
      this.cluster := cluster;
      b := this;
    }

    method Shard(shard: Option<string>) returns (b: Builder)
      modifies this
      ensures b == this
      ensures Build() == Apply(old(Build()), SetShard(shard))
    {
      this.shard := shard;
      b := this;
    }

    method CustomTags(customTags: Option<map<string, string>>) returns (b: Builder)
      modifies this
      ensures b == this
      ensures Build() == Apply(old(Build()), SetCustomTags(customTags))
    {
      this.customTags := customTags;
      b := this;
    }
  }

  // ---------------------------------------------------------------------
  // Properties of any sequence of setter calls.

  /** Application and service are exactly the constructor's arguments,
      whatever setters were called. */
  lemma {:induction false} BuildKeepsIdentity(application: string, service: string, calls: seq<BuilderCall>)
    ensures BuildAfter(application, service, calls).application == application
    ensures BuildAfter(application, service, calls).service == service
  {
    if calls != [] {
      BuildKeepsIdentity(application, service, calls[..|calls| - 1]);
    }
  }

  /** Cluster and shard stay unset, and the custom tags stay the empty
      dictionary, unless their own setter was called. */
  lemma {:induction false} UnsetUnlessCalled(application: string, service: string, calls: seq<BuilderCall>)
    ensures (forall i :: 0 <= i < |calls| ==> !calls[i].SetCluster?) ==>
              BuildAfter(application, service, calls).cluster == None
    ensures (forall i :: 0 <= i < |calls| ==> !calls[i].SetShard?) ==>
              BuildAfter(application, service, calls).shard == None
    ensures (forall i :: 0 <= i < |calls| ==> !calls[i].SetCustomTags?) ==>
              BuildAfter(application, service, calls).customTags == Some(map[])
  {
    if calls != [] {
      var prefix := calls[..|calls| - 1];
      assert forall i :: 0 <= i < |prefix| ==> prefix[i] == calls[i];
      UnsetUnlessCalled(application, service, prefix);
    }
  }

  /** Calls that do not touch a field leave it as it was. */
  lemma {:induction false} OtherCallsKeep(application: string, service: string, pre: seq<BuilderCall>, post: seq<BuilderCall>)
    ensures (forall i :: 0 <= i < |post| ==> !post[i].SetCluster?) ==>
              BuildAfter(application, service, pre + post).cluster == BuildAfter(application, service, pre).cluster
    ensures (forall i :: 0 <= i < |post| ==> !post[i].SetShard?) ==>
              BuildAfter(application, service, pre + post).shard == BuildAfter(application, service, pre).shard
    ensures (forall i :: 0 <= i < |post| ==> !post[i].SetCustomTags?) ==>
              BuildAfter(application, service, pre + post).customTags == BuildAfter(application, service, pre).customTags
    decreases |post|
  {
    if post != [] {
      var shorter := post[..|post| - 1];
      assert (pre + post)[..|pre + post| - 1] == pre + shorter;
      assert (pre + post)[|pre + post| - 1] == post[|post| - 1];
      assert forall i :: 0 <= i < |shorter| ==> shorter[i] == post[i];
      OtherCallsKeep(application, service, pre, shorter);
    } else {
      assert pre + post == pre;
    }
  }

  /** For repeated calls the last value wins; in particular `CustomTags`
      replaces the dictionary rather than merging into it. */
  lemma LastValueWins(application: string, service: string, pre: seq<BuilderCall>, call: BuilderCall, post: seq<BuilderCall>)
    ensures call.SetCluster? && (forall i :: 0 <= i < |post| ==> !post[i].SetCluster?) ==>
              BuildAfter(application, service, pre + [call] + post).cluster == call.cluster
    ensures call.SetShard? && (forall i :: 0 <= i < |post| ==> !post[i].SetShard?) ==>
              BuildAfter(application, service, pre + [call] + post).shard == call.shard
    ensures call.SetCustomTags? && (forall i :: 0 <= i < |post| ==> !post[i].SetCustomTags?) ==>
              BuildAfter(application, service, pre + [call] + post).customTags == call.customTags
  {
    OtherCallsKeep(application, service, pre + [call], post);
    assert (pre + [call])[..|pre + [call]| - 1] == pre;
  }
}
