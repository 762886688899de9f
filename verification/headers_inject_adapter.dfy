/** The text-map carrier through which the tracer writes span context into
    the headers of an outgoing HTTP request: setting a header replaces
    whatever values it held, and the carrier cannot be read back. */
module HeadersInject {
  import opened Wrappers
  import opened Strings

  const ArgumentNull := "ArgumentNullException"
  const NotSupported := "NotSupportedException"

  /** A header collection of an HTTP message: each header holds a list of
      values. Header names are compared ignoring case, so a header is
      filed under its name's `FoldCase`. */
  class HttpHeaders {
    var entries: map<string, seq<string>>

    /** A header that is present holds at least one value, and is filed
        under a folded name. */
    ghost predicate Valid()
      reads this
    {
      forall name :: name in entries ==> entries[name] != [] && FoldCase(name) == name
    }

    constructor()
      ensures entries == map[] && Valid()
    {
      entries := map[];
    }

    function Contains(name: string): bool
      reads this
    {
      FoldCase(name) in entries
    }

    /** `TryGetValues`: the values of a header, if it is present under any
        spelling of its name. */
    function TryGetValues(name: string): (r: Option<seq<string>>)
      reads this
      ensures r.Some? <==> FoldCase(name) in entries
      ensures r.Some? ==> r.value == entries[FoldCase(name)]
    {
      var key := FoldCase(name);
      if key in entries then Some(entries[key]) else None
    }

    method Remove(name: string)
      modifies this
      ensures entries == old(entries) - {FoldCase(name)}
      ensures old(Valid()) ==> Valid()
    {
      entries := entries - {FoldCase(name)};
    }

    /** `Add` appends a value to those the header already holds. */
    method Add(name: string, value: string)
      modifies this
      ensures var key := FoldCase(name);
              entries == old(entries)[key := (if key in old(entries) then old(entries)[key] else []) + [value]]
      ensures old(Valid()) ==> Valid()
    {
      var key := FoldCase(name);
      FoldCaseIdempotent(name);
      entries := entries[key := (if key in entries then entries[key] else []) + [value]];
    }
  }

  /** The headers after `Set(key, value)`, for the folded `key`. */
  function SetEntry(entries: map<string, seq<string>>, key: string, value: string): (r: map<string, seq<string>>)
    ensures r.Keys == entries.Keys + {key}
    ensures r[key] == [value]
    ensures forall k :: k in entries && k != key ==> r[k] == entries[k]
  {
    entries[key := [value]]
  }

  /** A lookup finds a header under every spelling of its name. */
  lemma LookupIgnoresCase(h: HttpHeaders, name: string, other: string)
    requires EqualsIgnoreCase(name, other)
    ensures h.TryGetValues(other) == h.TryGetValues(name)
    ensures h.Contains(other) == h.Contains(name)
  {
    FoldCaseIff(name, other);
  }

  /** Of two settings of one header, under spellings of its name that
      differ at most in case, the later wins and one header remains. */
  lemma LastSetWins(entries: map<string, seq<string>>, key: string, laterKey: string, first: string, second: string)
    requires EqualsIgnoreCase(key, laterKey)
    ensures SetEntry(SetEntry(entries, FoldCase(key), first), FoldCase(laterKey), second)
            == SetEntry(entries, FoldCase(laterKey), second)
  {
    FoldCaseIff(key, laterKey);
    var direct := SetEntry(entries, FoldCase(laterKey), second);
    var both := SetEntry(SetEntry(entries, FoldCase(key), first), FoldCase(laterKey), second);
    assert both.Keys == direct.Keys;
    forall k | k in direct
      ensures both[k] == direct[k]
    {
    }
  }

  /** The headers after the carrier entries have been set in order. */
  function SetAll(entries: map<string, seq<string>>, carrier: seq<(string, string)>): map<string, seq<string>>
    decreases |carrier|
  {
    if carrier == [] then entries
    else SetAll(SetEntry(entries, FoldCase(carrier[0].0), carrier[0].1), carrier[1..])
  }

  /** Setting the carrier adds exactly its keys (folded), each holding a
      single value, and leaves every other header as it was; two carrier
      keys that differ only in case end up as one header. */
  lemma {:induction false} SetAllEffect(entries: map<string, seq<string>>, carrier: seq<(string, string)>)
    ensures var r := SetAll(entries, carrier);
            && (forall k :: k in r <==> k in entries || exists i :: 0 <= i < |carrier| && FoldCase(carrier[i].0) == k)
            && (forall k :: k in entries && (forall i :: 0 <= i < |carrier| ==> FoldCase(carrier[i].0) != k) ==> r[k] == entries[k])
            && (forall i :: 0 <= i < |carrier| ==> |r[FoldCase(carrier[i].0)]| == 1)
    decreases |carrier|
  {
    if carrier != [] {
      var next := SetEntry(entries, FoldCase(carrier[0].0), carrier[0].1);
      SetAllEffect(next, carrier[1..]);
      var r := SetAll(entries, carrier);
      assert r == SetAll(next, carrier[1..]);
      forall i | 0 <= i < |carrier|
        ensures |r[FoldCase(carrier[i].0)]| == 1
      {
        if i > 0 {
          assert carrier[i] == carrier[1..][i - 1];
        } else if exists j :: 0 <= j < |carrier[1..]| && FoldCase(carrier[1..][j].0) == FoldCase(carrier[0].0) {
          var j :| 0 <= j < |carrier[1..]| && FoldCase(carrier[1..][j].0) == FoldCase(carrier[0].0);
          assert r[FoldCase(carrier[1..][j].0)] == r[FoldCase(carrier[0].0)];
        }
      }
      forall k
        ensures k in r <==> k in entries || exists i :: 0 <= i < |carrier| && FoldCase(carrier[i].0) == k
      {
        if exists i :: 0 <= i < |carrier[1..]| && FoldCase(carrier[1..][i].0) == k {
          var i :| 0 <= i < |carrier[1..]| && FoldCase(carrier[1..][i].0) == k;
          assert FoldCase(carrier[i + 1].0) == k;
        }
        if exists i :: 0 <= i < |carrier| && FoldCase(carrier[i].0) == k {
          var i :| 0 <= i < |carrier| && FoldCase(carrier[i].0) == k;
          if i > 0 {
            assert FoldCase(carrier[1..][i - 1].0) == k;
          }
        }
      }
      forall k | k in entries && (forall i :: 0 <= i < |carrier| ==> FoldCase(carrier[i].0) != k)
        ensures r[k] == entries[k]
      {
        forall i | 0 <= i < |carrier[1..]|
          ensures FoldCase(carrier[1..][i].0) != k
        {
          assert carrier[1..][i] == carrier[i + 1];
        }
      }
    }
  }

  /** `HttpHeadersInjectAdapter`: a carrier writing into one header
      collection. */
  class HeadersInjectAdapter {
    const headers: HttpHeaders

    constructor(headers: HttpHeaders)
      ensures this.headers == headers
    {
      this.headers := headers;
    }

    /** `Set`: an existing header, under any spelling of its name, is
        removed before the value is added, so the header ends up holding
        exactly this one value. */
    method Set(key: string, value: string)
      modifies headers
      ensures headers.entries == SetEntry(old(headers.entries), FoldCase(key), value)
    {
      if headers.Contains(key) {
        headers.Remove(key);
      }
      headers.Add(key, value);
      ghost var expected := SetEntry(old(headers.entries), FoldCase(key), value);
      assert headers.entries.Keys == expected.Keys;
      forall k | k in expected
        ensures headers.entries[k] == expected[k]
      {
      }
    }

    /** `GetEnumerator`: the carrier is write-only. */
    function GetEnumerator(): (r: Result<seq<(string, string)>, string>)
      ensures r.Failure? && r.error == NotSupported
    {
      Failure(NotSupported)
    }

    /** `ITracer.Inject` writing the carrier entries, in order, through
        `Set`. */
    method Inject(carrier: seq<(string, string)>)
      modifies headers
      ensures headers.entries == SetAll(old(headers.entries), carrier)
    {
      var i := 0;
      while i < |carrier|
        invariant 0 <= i <= |carrier|
        invariant SetAll(old(headers.entries), carrier) == SetAll(headers.entries, carrier[i..])
      {
        assert carrier[i..][1..] == carrier[i + 1..];
        Set(carrier[i].0, carrier[i].1);
        i := i + 1;
      }
    }
  }

  /** The constructor's null check: an adapter over the given headers, or
      an `ArgumentNullException`. */
  method NewAdapter(headers: HttpHeaders?) returns (r: Result<HeadersInjectAdapter, string>)
    ensures r.Failure? <==> headers == null
    ensures r.Failure? ==> r.error == ArgumentNull
    ensures r.Success? ==> r.value.headers == headers
  {
    if headers == null {
      return Failure(ArgumentNull);
    }
    var adapter := new HeadersInjectAdapter(headers);
    return Success(adapter);
  }
}
