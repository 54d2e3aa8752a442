/** The API endpoint: base URL, path, '?', one `name=value&` per query
    parameter in order, then `appid=<key>`. Nothing is URL-encoded. A parser
    for the same format is the serialiser's partner: on parameters free of the
    separators it recovers what was serialised. */
module Endpoint {
  import opened Wrappers

  const ApiBaseUrl := "http://api.openweathermap.org/data/2.5/"
  const ApiKeyName := "appid="

  /** One query parameter; values are already in their string form. */
  datatype Parameter = Parameter(name: string, value: string)

  /** `name=value&` for one parameter. */
  function Pair(p: Parameter): string {
    p.name + "=" + p.value + "&"
  }

  /** The query parameters in order, each followed by '&'. */
  function QueryString(ps: seq<Parameter>): string {
    if |ps| == 0 then "" else QueryString(ps[..|ps| - 1]) + Pair(ps[|ps| - 1])
  }

  /** The full endpoint for `pathName` and `ps`, authenticated with `apiKey`. */
  function ApiEndpoint(apiKey: string, pathName: string, ps: seq<Parameter>): string {
    ApiBaseUrl + pathName + "?" + QueryString(ps) + ApiKeyName + apiKey
  }

  /** `makeApiEndpoint`: builds the query as the source does, one parameter
      at a time, then prefixes the base URL and appends the key. */
  method MakeApiEndpoint(apiKey: string, pathName: string, ps: seq<Parameter>) returns (e: string)
    ensures e == ApiEndpoint(apiKey, pathName, ps)
    ensures ApiBaseUrl + pathName + "?" <= e
    ensures e[|e| - |ApiKeyName + apiKey|..] == ApiKeyName + apiKey
  {
    var query := pathName + "?";
    var i := 0;
    while i < |ps|
      invariant 0 <= i <= |ps|
      invariant query == pathName + "?" + QueryString(ps[..i])
    {
      assert ps[..i + 1][..i] == ps[..i];
      query := query + ps[i].name + "=" + ps[i].value + "&";
      i := i + 1;
    }
    assert ps[..|ps|] == ps;
    e := ApiBaseUrl + query + ApiKeyName + apiKey;
  }

  /** With no parameters the endpoint is the base URL, the path, '?' and the key. */
  lemma EndpointWithoutParameters(apiKey: string, pathName: string)
    ensures ApiEndpoint(apiKey, pathName, []) == ApiBaseUrl + pathName + "?appid=" + apiKey
  {
  }

  /** Serialising front-first gives the same string as the source's loop. */
  lemma {:induction false} QueryStringCons(p: Parameter, ps: seq<Parameter>)
    ensures QueryString([p] + ps) == Pair(p) + QueryString(ps)
    decreases |ps|
  {
    if |ps| == 0 {
      assert [p] + ps == [p];
      assert QueryString([p][..0]) == "";
    } else {
      var init := ps[..|ps| - 1];
      assert ([p] + ps)[..|ps|] == [p] + init;
      QueryStringCons(p, init);
    }
  }

  /** The first position of `c` in `s`. */
  function IndexOf(s: string, c: char): (r: Option<nat>)
    ensures r.Some? ==> r.value < |s| && s[r.value] == c && c !in s[..r.value]
    ensures r.None? ==> c !in s
  {
    if |s| == 0 then None
    else if s[0] == c then Some(0)
    else match IndexOf(s[1..], c)
      case None => None
      case Some(i) => assert s[..i + 1] == [s[0]] + s[1..][..i]; Some(i + 1)
  }

  /** Splits a query into its leading `name=value&` units and the remainder
      that has no further '&'-terminated unit. */
  function ParseQuery(q: string): (seq<Parameter>, string)
    decreases |q|
  {
    match IndexOf(q, '&')
    case None => ([], q)
    case Some(i) =>
      var unit := q[..i];
      match IndexOf(unit, '=')
      case None => ([], q)
      case Some(j) =>
        var (rest, tail) := ParseQuery(q[i + 1..]);
        ([Parameter(unit[..j], unit[j + 1..])] + rest, tail)
  }

  /** Recovers path, parameters and key from an endpoint. */
  function ParseEndpoint(e: string): Option<(string, seq<Parameter>, string)> {
    if !(ApiBaseUrl <= e) then None
    else
      var rest := e[|ApiBaseUrl|..];
      match IndexOf(rest, '?')
      case None => None
      case Some(i) =>
        var (ps, tail) := ParseQuery(rest[i + 1..]);
        if ApiKeyName <= tail then Some((rest[..i], ps, tail[|ApiKeyName|..])) else None
  }

  /** A parameter survives the format unchanged when its name has neither
      separator and its value has no '&'. */
  predicate Unambiguous(p: Parameter) {
    '&' !in p.name && '=' !in p.name && '&' !in p.value
  }

  lemma {:induction false} IndexOfAfterPrefix(a: string, c: char, b: string)
    requires c !in a
    ensures IndexOf(a + [c] + b, c) == Some(|a|)
    decreases |a|
  {
    if |a| > 0 {
      assert (a + [c] + b)[1..] == a[1..] + [c] + b;
      IndexOfAfterPrefix(a[1..], c, b);
    }
  }

  lemma {:induction false} ParseQueryRoundTrip(ps: seq<Parameter>, tail: string)
    requires forall i :: 0 <= i < |ps| ==> Unambiguous(ps[i])
    requires '&' !in tail
    ensures ParseQuery(QueryString(ps) + tail) == (ps, tail)
    decreases |ps|
  {
    if |ps| == 0 {
      assert QueryString(ps) + tail == tail;
    } else {
      var p := ps[0];
      assert ps == [p] + ps[1..];
      QueryStringCons(p, ps[1..]);
      var q := QueryString(ps) + tail;
      var unit := p.name + "=" + p.value;
      assert q == unit + ['&'] + (QueryString(ps[1..]) + tail);
      IndexOfAfterPrefix(unit, '&', QueryString(ps[1..]) + tail);
      assert q[..|unit|] == unit;
      assert unit == p.name + ['='] + p.value;
      IndexOfAfterPrefix(p.name, '=', p.value);
      assert unit[..|p.name|] == p.name;
      assert unit[|p.name| + 1..] == p.value;
      assert q[|unit| + 1..] == QueryString(ps[1..]) + tail;
      ParseQueryRoundTrip(ps[1..], tail);
    }
  }

  /** Round trip: the endpoint can be parsed back into the path, parameters
      and key it was built from, when the path has no '?', the parameters are
      unambiguous and the key has no '&'. */
  lemma {:induction false} EndpointRoundTrip(apiKey: string, pathName: string, ps: seq<Parameter>)
    requires '?' !in pathName && '&' !in apiKey
    requires forall i :: 0 <= i < |ps| ==> Unambiguous(ps[i])
    ensures ParseEndpoint(ApiEndpoint(apiKey, pathName, ps)) == Some((pathName, ps, apiKey))
  {
    var e := ApiEndpoint(apiKey, pathName, ps);
    var tail := ApiKeyName + apiKey;
    assert '&' !in ApiKeyName;
    assert '&' !in tail;
    assert e == ApiBaseUrl + (pathName + ['?'] + (QueryString(ps) + tail));
    assert ApiBaseUrl <= e;
    var rest := e[|ApiBaseUrl|..];
    assert rest == pathName + ['?'] + (QueryString(ps) + tail);
    IndexOfAfterPrefix(pathName, '?', QueryString(ps) + tail);
    assert rest[..|pathName|] == pathName;
    assert rest[|pathName| + 1..] == QueryString(ps) + tail;
    ParseQueryRoundTrip(ps, tail);
    assert tail[|ApiKeyName|..] == apiKey;
  }

  /** Distinct requests give distinct endpoints (and so distinct cache keys
      under a collision-free hash), as long as they survive the format. */
  lemma {:induction false} EndpointInjective(k1: string, path1: string, ps1: seq<Parameter>,
                                             k2: string, path2: string, ps2: seq<Parameter>)
    requires '?' !in path1 && '&' !in k1 && forall i :: 0 <= i < |ps1| ==> Unambiguous(ps1[i])
    requires '?' !in path2 && '&' !in k2 && forall i :: 0 <= i < |ps2| ==> Unambiguous(ps2[i])
    ensures ApiEndpoint(k1, path1, ps1) == ApiEndpoint(k2, path2, ps2) <==> (k1, path1, ps1) == (k2, path2, ps2)
  {
    EndpointRoundTrip(k1, path1, ps1);
    EndpointRoundTrip(k2, path2, ps2);
  }

  /** Because values are not encoded, a value holding "&name=" reads as two
      parameters: these two different requests share one endpoint. */
  lemma UnencodedValuesAlias(apiKey: string)
    ensures ApiEndpoint(apiKey, "weather", [Parameter("q", "Riga&units=metric")])
         == ApiEndpoint(apiKey, "weather", [Parameter("q", "Riga"), Parameter("units", "metric")])
  {
    assert QueryString([Parameter("q", "Riga&units=metric")]) == "q=Riga&units=metric&";
    var two := [Parameter("q", "Riga"), Parameter("units", "metric")];
    assert two[..1] == [Parameter("q", "Riga")];
    assert QueryString(two) == "q=Riga&units=metric&";
  }
}
