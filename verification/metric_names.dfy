/** Metric names for ASP.NET Core requests and responses: the route template
    becomes a dotted metric id, suffixed with the HTTP method. A template
    with nothing metric-friendly left in it yields no name at all. */
module MetricNames {
  import opened Wrappers
  import opened Strings

  const RequestPrefix := "request."
  const ResponsePrefix := "response."

  /** A null template counts as the empty one; otherwise the runs of '/' at
      both ends are cut off. */
  function StripLeadingAndTrailingSlashes(routeTemplate: Option<string>): (r: string)
    ensures routeTemplate.None? ==> r == ""
    ensures r == [] || (r[0] != '/' && r[|r| - 1] != '/')
    ensures routeTemplate.Some? && (forall k :: 0 <= k < |routeTemplate.value| ==> routeTemplate.value[k] == '/')
            ==> r == ""
  {
    match routeTemplate
    case None => ""
    case Some(t) => Trim(t, '/')
  }

  /** The chain of replacements applied to the stripped template, in the
      order the SDK applies them. */
  function Normalize(stripped: string): (r: string)
    ensures '/' !in r && ':' !in r && '{' !in r && '}' !in r
  {
    var dotted := ReplaceChar(stripped, '/', '.');
    var noColons := RemoveChar(dotted, ':');
    var braced := ReplaceChar(noColons, '{', '_');
    var r := ReplaceChar(braced, '}', '_');
    assert forall k :: 0 <= k < |noColons| ==> noColons[k] in dotted;
    assert forall k :: 0 <= k < |r| ==> r[k] != '/' && r[k] != ':' && r[k] != '{' && r[k] != '}';
    r
  }

  /** The metric id of a route template. */
  function MetricId(routeTemplate: Option<string>): string {
    Normalize(StripLeadingAndTrailingSlashes(routeTemplate))
  }

  /** The method-qualified name, or None when the id is empty or blank. */
  function MetricName(httpMethod: string, routeTemplate: Option<string>): (r: Option<string>)
    ensures r.Some? ==> r.value == MetricId(routeTemplate) + "." + httpMethod
                        && !IsNullOrWhiteSpace(Some(MetricId(routeTemplate)))
  {
    var metricId := MetricId(routeTemplate);
    if IsNullOrWhiteSpace(Some(metricId)) then None else Some(metricId + "." + httpMethod)
  }

  /** Name of the request metrics (the in-flight gauge) of a route. */
  function RequestMetricName(httpMethod: string, routeTemplate: Option<string>): Option<string> {
    match MetricName(httpMethod, routeTemplate)
    case None => None
    case Some(name) => Some(RequestPrefix + name)
  }

  /** Name of the response metrics of a route; the response itself plays no
      part in it. */
  function ResponseMetricName(httpMethod: string, routeTemplate: Option<string>): Option<string> {
    match MetricName(httpMethod, routeTemplate)
    case None => None
    case Some(name) => Some(ResponsePrefix + name)
  }

  // ---------------------------------------------------------------------
  // Reference definition: one character at a time.

  /** What the replacement chain makes of a single character. */
  function NormalizeChar(c: char): string {
    if c == '/' then "."
    else if c == ':' then ""
    else if c == '{' || c == '}' then "_"
    else [c]
  }

  function NormalizeEach(s: string): string {
    if s == [] then [] else NormalizeChar(s[0]) + NormalizeEach(s[1..])
  }

  lemma ReplaceConcat(a: string, b: string, from: char, to: char)
    ensures ReplaceChar(a + b, from, to) == ReplaceChar(a, from, to) + ReplaceChar(b, from, to)
  {
    var l := ReplaceChar(a + b, from, to);
    var r := ReplaceChar(a, from, to) + ReplaceChar(b, from, to);
    assert |l| == |r|;
    forall k | 0 <= k < |l|
      ensures l[k] == r[k]
    {
      if k >= |a| {
        assert (a + b)[k] == b[k - |a|];
      }
    }
  }

  lemma {:induction false} RemoveConcat(a: string, b: string, c: char)
    ensures RemoveChar(a + b, c) == RemoveChar(a, c) + RemoveChar(b, c)
  {
    if a != [] {
      assert (a + b)[0] == a[0];
      assert (a + b)[1..] == a[1..] + b;
      RemoveConcat(a[1..], b, c);
    } else {
      assert a + b == b;
    }
  }

  /** The replacement chain distributes over concatenation. */
  lemma NormalizeConcat(a: string, b: string)
    ensures Normalize(a + b) == Normalize(a) + Normalize(b)
  {
    ReplaceConcat(a, b, '/', '.');
    var da := ReplaceChar(a, '/', '.');
    var db := ReplaceChar(b, '/', '.');
    RemoveConcat(da, db, ':');
    var na := RemoveChar(da, ':');
    var nb := RemoveChar(db, ':');
    ReplaceConcat(na, nb, '{', '_');
    ReplaceConcat(ReplaceChar(na, '{', '_'), ReplaceChar(nb, '{', '_'), '}', '_');
  }

  /** On one character the chain is `NormalizeChar`. */
  lemma NormalizeSingle(c: char)
    ensures Normalize([c]) == NormalizeChar(c)
  {
    var d := ReplaceChar([c], '/', '.');
    assert d == [if c == '/' then '.' else c];
    var n := RemoveChar(d, ':');
    assert n == (if c == ':' then [] else d) by {
      assert d[1..] == [];
    }
    if c != ':' {
      var o := ReplaceChar(n, '{', '_');
      assert o == [if d[0] == '{' then '_' else d[0]];
    }
  }

  /** The four chained replacements act as one character-wise rewriting:
      '/' becomes '.', ':' disappears, '{' and '}' become '_', every other
      character stays. */
  lemma {:induction false} NormalizeIsCharwise(s: string)
    ensures Normalize(s) == NormalizeEach(s)
  {
    if s != [] {
      NormalizeIsCharwise(s[1..]);
      assert s == [s[0]] + s[1..];
      NormalizeConcat([s[0]], s[1..]);
      NormalizeSingle(s[0]);
    } else {
      assert ReplaceChar(s, '/', '.') == [];
    }
  }

  lemma {:induction false} NormalizeEachConcat(a: string, b: string)
    ensures NormalizeEach(a + b) == NormalizeEach(a) + NormalizeEach(b)
  {
    if a == [] {
      assert a + b == b;
    } else {
      assert (a + b)[0] == a[0];
      assert (a + b)[1..] == a[1..] + b;
      NormalizeEachConcat(a[1..], b);
    }
  }

  lemma NormalizeCharBlank(c: char)
    ensures IsNullOrWhiteSpace(Some(NormalizeChar(c))) <==> c == ':' || IsWhiteSpace(c)
  {
    if c == '/' {
      assert NormalizeChar(c)[0] == '.';
    } else if c == '{' || c == '}' {
      assert NormalizeChar(c)[0] == '_';
    } else if c != ':' {
      assert NormalizeChar(c)[0] == c;
    }
  }

  lemma {:induction false} BlankConcat(a: string, b: string)
    ensures IsNullOrWhiteSpace(Some(a + b)) <==> IsNullOrWhiteSpace(Some(a)) && IsNullOrWhiteSpace(Some(b))
  {
    if IsNullOrWhiteSpace(Some(a)) && IsNullOrWhiteSpace(Some(b)) {
      forall k | 0 <= k < |a + b| ensures IsWhiteSpace((a + b)[k]) {
        if k >= |a| { assert (a + b)[k] == b[k - |a|]; }
      }
    }
    if IsNullOrWhiteSpace(Some(a + b)) {
      forall k | 0 <= k < |a| ensures IsWhiteSpace(a[k]) {
        assert (a + b)[k] == a[k];
      }
      forall k | 0 <= k < |b| ensures IsWhiteSpace(b[k]) {
        assert (a + b)[|a| + k] == b[k];
      }
    }
  }

  /** The id is blank exactly when every character of the stripped template
      is a ':' or white space ('/', '{' and '}' turn into visible
      characters). */
  lemma {:induction false} NormalizedBlankIff(s: string)
    ensures IsNullOrWhiteSpace(Some(NormalizeEach(s)))
            <==> forall k :: 0 <= k < |s| ==> s[k] == ':' || IsWhiteSpace(s[k])
  {
    if s != [] {
      var rest := s[1..];
      NormalizedBlankIff(rest);
      BlankConcat(NormalizeChar(s[0]), NormalizeEach(rest));
      NormalizeCharBlank(s[0]);
      if forall k :: 0 <= k < |s| ==> s[k] == ':' || IsWhiteSpace(s[k]) {
        forall k | 0 <= k < |rest| ensures rest[k] == ':' || IsWhiteSpace(rest[k]) {
          assert rest[k] == s[k + 1];
        }
      }
      if forall k :: 0 <= k < |rest| ==> rest[k] == ':' || IsWhiteSpace(rest[k]) {
        if s[0] == ':' || IsWhiteSpace(s[0]) {
          forall k | 0 <= k < |s| ensures s[k] == ':' || IsWhiteSpace(s[k]) {
            if k > 0 { assert s[k] == rest[k - 1]; }
          }
        }
      }
    }
  }

  // ---------------------------------------------------------------------
  // Properties of the names.

  /** No name exactly when the stripped template holds nothing but ':' and
      white space; otherwise the name is the id, a dot and the method. */
  lemma NameAbsentIff(httpMethod: string, routeTemplate: Option<string>)
    ensures var stripped := StripLeadingAndTrailingSlashes(routeTemplate);
            MetricName(httpMethod, routeTemplate).None?
            <==> forall k :: 0 <= k < |stripped| ==> stripped[k] == ':' || IsWhiteSpace(stripped[k])
  {
    var stripped := StripLeadingAndTrailingSlashes(routeTemplate);
    NormalizeIsCharwise(stripped);
    NormalizedBlankIff(stripped);
  }

  /** A null template, an empty one, or one made only of slashes, yields no name. */
  lemma SlashesOnlyYieldNoName(httpMethod: string, routeTemplate: Option<string>)
    requires routeTemplate.None? || forall k :: 0 <= k < |routeTemplate.value| ==> routeTemplate.value[k] == '/'
    ensures MetricName(httpMethod, routeTemplate) == None
  {
    NameAbsentIff(httpMethod, routeTemplate);
  }

  /** The request name and the response name exist together and share the
      same method-qualified core behind their prefixes. */
  lemma RequestAndResponseAgree(httpMethod: string, routeTemplate: Option<string>)
    ensures RequestMetricName(httpMethod, routeTemplate).Some?
            <==> ResponseMetricName(httpMethod, routeTemplate).Some?
    ensures RequestMetricName(httpMethod, routeTemplate).Some? ==>
              exists core :: RequestMetricName(httpMethod, routeTemplate).value == RequestPrefix + core
                             && ResponseMetricName(httpMethod, routeTemplate).value == ResponsePrefix + core
                             && core == MetricId(routeTemplate) + "." + httpMethod
  {
  }

  /** A response name is always longer than its prefix: a non-blank id, a
      dot and the method follow "response.". */
  lemma ResponseNameLength(httpMethod: string, routeTemplate: Option<string>)
    requires ResponseMetricName(httpMethod, routeTemplate).Some?
    ensures |ResponseMetricName(httpMethod, routeTemplate).value| >= |ResponsePrefix| + 2 + |httpMethod|
  {
  }

  /** The id of a template whose stripped form splits into two pieces is
      the concatenation of the pieces' rewritings. */
  lemma IdFromPieces(routeTemplate: Option<string>, a: string, b: string)
    requires StripLeadingAndTrailingSlashes(routeTemplate) == a + b
    ensures MetricId(routeTemplate) == NormalizeEach(a) + NormalizeEach(b)
  {
    NormalizeEachConcat(a, b);
    NormalizeIsCharwise(a + b);
  }

  lemma ExampleSegments()
    ensures NormalizeEach("v2") == "v2"
    ensures NormalizeEach("/{id:int}") == "._idint_"
    ensures "v2" + "/{id:int}" == "v2/{id:int}"
  {
    var s := "/{id:int}";
    assert NormalizeEach(s[9..]) == "";
    assert NormalizeEach(s[8..]) == "_" + NormalizeEach(s[9..]);
    assert NormalizeEach(s[7..]) == "t" + NormalizeEach(s[8..]);
    assert NormalizeEach(s[6..]) == "n" + NormalizeEach(s[7..]);
    assert NormalizeEach(s[5..]) == "i" + NormalizeEach(s[6..]);
    assert NormalizeEach(s[4..]) == "" + NormalizeEach(s[5..]);
    assert NormalizeEach(s[3..]) == "d" + NormalizeEach(s[4..]);
    assert NormalizeEach(s[2..]) == "i" + NormalizeEach(s[3..]);
    assert NormalizeEach(s[1..]) == "_" + NormalizeEach(s[2..]);
    assert NormalizeEach(s) == "." + NormalizeEach(s[1..]);
    var v := "v2";
    assert NormalizeEach(v[2..]) == "";
    assert NormalizeEach(v[1..]) == "2" + NormalizeEach(v[2..]);
    assert NormalizeEach(v) == "v" + NormalizeEach(v[1..]);
  }

  lemma ExampleNames()
    ensures "v2" + "._idint_" + "." + "GET" == "v2._idint_.GET"
  {
  }

  lemma ExamplePrefixed()
    ensures RequestPrefix + "v2._idint_.GET" == "request.v2._idint_.GET"
    ensures ResponsePrefix + "v2._idint_.GET" == "response.v2._idint_.GET"
  {
  }

  lemma ExampleStripped(template: string)
    requires template == "/v2/{id:int}/"
    ensures StripLeadingAndTrailingSlashes(Some(template)) == "v2" + "/{id:int}"
  {
    assert LeadingCount(template, '/') == 1;
    assert TrailingCount(template[1..], '/') == 1;
    assert template[1..|template| - 1] == "v2/{id:int}";
    ExampleSegments();
  }

  /** A route with a constrained parameter: "/v2/{id:int}/" with GET gives
      "v2._idint_.GET", so "request.v2._idint_.GET" and
      "response.v2._idint_.GET". (The template is passed in so that the
      solver reasons through the lemmas above rather than by evaluation.) */
  lemma ConstrainedRouteExample(template: string)
    requires template == "/v2/{id:int}/"
    ensures MetricName("GET", Some(template)) == Some("v2._idint_.GET")
    ensures RequestMetricName("GET", Some(template)) == Some("request.v2._idint_.GET")
    ensures ResponseMetricName("GET", Some(template)) == Some("response.v2._idint_.GET")
  {
    ExampleStripped(template);
    ExampleSegments();
    IdFromPieces(Some(template), "v2", "/{id:int}");
    ExampleNames();
    ExamplePrefixed();
    ExampleNotBlank(MetricId(Some(template)));
  }

  lemma ExampleNotBlank(id: string)
    requires id == "v2" + "._idint_"
    ensures !IsNullOrWhiteSpace(Some(id))
  {
    assert id[0] == 'v';
  }
}

/** The older naming utility: the same normalisation, but the name is never
    null and the response name also carries the status code. */
module LegacyMetricNames {
  import opened Wrappers
  import opened Strings
  import MetricNames

  function MetricName(httpMethod: string, routeTemplate: Option<string>): string {
    MetricNames.MetricId(routeTemplate) + "." + httpMethod
  }

  function RequestMetricName(httpMethod: string, routeTemplate: Option<string>): string {
    MetricNames.RequestPrefix + MetricName(httpMethod, routeTemplate)
  }

  function ResponseMetricName(httpMethod: string, routeTemplate: Option<string>, statusCode: int): string {
    MetricNames.ResponsePrefix + MetricName(httpMethod, routeTemplate) + "." + IntToString(statusCode)
  }

  /** Where the current utility yields a name, the legacy one yields the
      same name; where it yields none, the legacy name still exists, built
      from the blank id. */
  lemma AgreesWithCurrent(httpMethod: string, routeTemplate: Option<string>)
    ensures MetricNames.MetricName(httpMethod, routeTemplate).Some? ==>
              RequestMetricName(httpMethod, routeTemplate)
              == MetricNames.RequestMetricName(httpMethod, routeTemplate).value
    ensures MetricNames.MetricName(httpMethod, routeTemplate).None? ==>
              RequestMetricName(httpMethod, routeTemplate)
              == MetricNames.RequestPrefix + MetricNames.MetricId(routeTemplate) + "." + httpMethod
              && IsNullOrWhiteSpace(Some(MetricNames.MetricId(routeTemplate)))
  {
    var id := MetricNames.MetricId(routeTemplate);
    var legacy := RequestMetricName(httpMethod, routeTemplate);
    assert legacy == MetricNames.RequestPrefix + (id + "." + httpMethod);
    if MetricNames.MetricName(httpMethod, routeTemplate).Some? {
      assert MetricNames.MetricName(httpMethod, routeTemplate).value == id + "." + httpMethod;
    } else {
      assert IsNullOrWhiteSpace(Some(id));
    }
  }

  /** A null, empty or slash-only template gives "request..GET": the empty
      id between two dots. */
  lemma EmptyTemplateName(routeTemplate: Option<string>)
    requires routeTemplate.None? || forall k :: 0 <= k < |routeTemplate.value| ==> routeTemplate.value[k] == '/'
    ensures RequestMetricName("GET", routeTemplate) == "request..GET"
    ensures ResponseMetricName("GET", routeTemplate, 200) == "response..GET.200"
  {
    assert MetricNames.StripLeadingAndTrailingSlashes(routeTemplate) == "";
    assert IntToString(200) == "200" by {
      assert NatToString(20) == "20" by { assert NatToString(2) == "2"; }
    }
  }

  /** The response name is the request name with the other prefix, followed
      by a dot and the status code; it ends in the code. */
  lemma ResponseCarriesStatus(httpMethod: string, routeTemplate: Option<string>, statusCode: int)
    ensures var name := ResponseMetricName(httpMethod, routeTemplate, statusCode);
            var code := IntToString(statusCode);
            && name[|name| - |code|..] == code
            && name[|name| - |code| - 1] == '.'
            && RequestMetricName(httpMethod, routeTemplate)[|MetricNames.RequestPrefix|..]
               == name[|MetricNames.ResponsePrefix|..|name| - |code| - 1]
  {
    var middle := MetricName(httpMethod, routeTemplate);
    var code := IntToString(statusCode);
    assert ResponseMetricName(httpMethod, routeTemplate, statusCode) == MetricNames.ResponsePrefix + middle + "." + code;
    DottedSuffix(MetricNames.ResponsePrefix, middle, code);
    assert RequestMetricName(httpMethod, routeTemplate) == MetricNames.RequestPrefix + middle;
    DropPrefix(MetricNames.RequestPrefix, middle);
  }

  lemma DropPrefix(prefix: string, rest: string)
    ensures (prefix + rest)[|prefix|..] == rest
  {
  }

  /** The pieces of `prefix + middle + "." + suffix` sit where they were put. */
  lemma DottedSuffix(prefix: string, middle: string, suffix: string)
    ensures var name := prefix + middle + "." + suffix;
            && name[|name| - |suffix|..] == suffix
            && name[|name| - |suffix| - 1] == '.'
            && name[|prefix|..|name| - |suffix| - 1] == middle
  {
    var name := prefix + middle + "." + suffix;
    assert name == (prefix + middle) + ("." + suffix);
  }
}
