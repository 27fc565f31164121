/** The request side of the market-data client (src/shared/polygon/polygon.service.ts): the
    URI every REST call is built from, the fixed routes and parameters of two calls, and the
    projections two calls make of their responses. The HTTP round trip itself is a parameter:
    a response that arrived, or the error it failed with. */
module Polygon {
  import opened Wrappers

  const BaseURL: string := "https://api.polygon.io"

  /** One query parameter, `[name, value]`. */
  type Param = (string, string)

  /** `&k=v` for every parameter, in list order, nothing escaped. */
  function ParamsStr(params: seq<Param>): string
  {
    if params == [] then "" else ParamsStr(params[..|params| - 1]) + "&" + params[|params| - 1].0 + "=" + params[|params| - 1].1
  }

  /** The URI `buildURI(route, params)` returns. A route counts only when it is non-empty (an
      empty string is falsy); an empty parameter list is still a list. */
  function URI(apiKey: string, route: Option<string>, params: Option<seq<Param>>): string
  {
    var query := "?apiKey=" + apiKey + (if params.Some? then ParamsStr(params.value) else "");
    if route.Some? && route.value != "" then BaseURL + route.value + query else BaseURL + query
  }

  /** `buildURI(route?, params?)`, with the parameters appended one by one as the source's
      `forEach` does. */
  method BuildURI(apiKey: string, route: Option<string>, params: Option<seq<Param>>) returns (uri: string)
    ensures uri == URI(apiKey, route, params)
  {
    var paramsStr := "?apiKey=" + apiKey;
    if params.Some? {
      var ps := params.value;
      for i := 0 to |ps|
        invariant paramsStr == "?apiKey=" + apiKey + ParamsStr(ps[..i])
      {
        assert ps[..i + 1][..i] == ps[..i];
        paramsStr := paramsStr + "&" + ps[i].0 + "=" + ps[i].1;
      }
      assert ps[..|ps|] == ps;
    }
    if route.Some? && route.value != "" {
      uri := BaseURL + route.value + paramsStr;
    } else {
      uri := BaseURL + paramsStr;
    }
  }

  /** The parameters of two lists back to back are the first's, then the second's. */
  lemma {:induction false} ParamsAppend(a: seq<Param>, b: seq<Param>)
    ensures ParamsStr(a + b) == ParamsStr(a) + ParamsStr(b)
  {
    if b == [] {
      assert a + b == a;
    } else {
      var n := |b| - 1;
      assert (a + b)[..|a + b| - 1] == a + b[..n] && (a + b)[|a + b| - 1] == b[n];
      ParamsAppend(a, b[..n]);
    }
  }

  /** Two fixed parameters, spelled out. */
  lemma ParamsOfTwo(p1: Param, p2: Param)
    ensures ParamsStr([p1, p2]) == "&" + p1.0 + "=" + p1.1 + "&" + p2.0 + "=" + p2.1
  {
    assert [p1, p2][..1] == [p1];
    assert [p1][..0] == [];
    assert ParamsStr([p1]) == "" + "&" + p1.0 + "=" + p1.1;
    assert ParamsStr([p1, p2]) == ParamsStr([p1]) + "&" + p2.0 + "=" + p2.1;
  }

  /** Without route and parameters the URI is the base and the key; with a route it is the
      base, the route, the key and then the parameters. */
  lemma URIShapes(apiKey: string, route: string, params: seq<Param>)
    ensures URI(apiKey, None, None) == "https://api.polygon.io?apiKey=" + apiKey
    ensures URI(apiKey, Some(""), None) == URI(apiKey, None, None)
    ensures route != "" ==> URI(apiKey, Some(route), Some(params)) == BaseURL + route + "?apiKey=" + apiKey + ParamsStr(params)
    ensures URI(apiKey, None, Some([])) == URI(apiKey, None, None)
  {
  }

  /** Every URI starts with the base URL. */
  lemma URIStartsWithBase(apiKey: string, route: Option<string>, params: Option<seq<Param>>)
    ensures |URI(apiKey, route, params)| >= |BaseURL| && URI(apiKey, route, params)[..|BaseURL|] == BaseURL
  {
  }

  /** No `?` in any parameter name or value. */
  predicate PlainParams(params: seq<Param>)
  {
    forall i :: 0 <= i < |params| ==> '?' !in params[i].0 && '?' !in params[i].1
  }

  lemma {:induction false} ParamsStrPlain(params: seq<Param>)
    requires PlainParams(params)
    ensures '?' !in ParamsStr(params)
  {
    if params != [] {
      var n := |params| - 1;
      ParamsStrPlain(params[..n]);
      var last := "&" + params[n].0 + "=" + params[n].1;
      assert ParamsStr(params) == ParamsStr(params[..n]) + last;
      assert '?' !in last;
    }
  }

  /** `w` occurs in `s` at index `i`. */
  predicate OccursAt(s: string, w: string, i: nat)
  {
    i + |w| <= |s| && s[i..i + |w|] == w
  }

  /** The places `w` occurs in `s`. */
  function Occurrences(s: string, w: string): set<nat>
  {
    set i: nat | i <= |s| && OccursAt(s, w, i)
  }

  lemma BaseURLPlain()
    ensures '?' !in BaseURL
  {
  }

  /** A `?apiKey=` between two pieces with no `?` in them is the only one. */
  lemma MarkerOnce(head: string, tail: string)
    requires '?' !in head && '?' !in tail
    ensures Occurrences(head + "?apiKey=" + tail, "?apiKey=") == {|head|}
  {
    var uri, p := head + "?apiKey=" + tail, |head|;
    assert uri[p..p + 8] == "?apiKey=";
    assert OccursAt(uri, "?apiKey=", p);
    forall i: nat | i <= |uri| && OccursAt(uri, "?apiKey=", i) ensures i == p {
      assert uri[i] == uri[i..i + 8][0] == '?';
    }
  }

  /** When the key, the route and the parameters hold no `?`, the URI holds `?apiKey=`
      exactly once, right after the base and the route. */
  lemma KeyOnce(apiKey: string, route: Option<string>, params: Option<seq<Param>>)
    requires '?' !in apiKey && (route.Some? ==> '?' !in route.value)
    requires params.Some? ==> PlainParams(params.value)
    ensures Occurrences(URI(apiKey, route, params), "?apiKey=")
            == {if route.Some? && route.value != "" then |BaseURL| + |route.value| else |BaseURL|}
  {
    BaseURLPlain();
    var head := if route.Some? && route.value != "" then BaseURL + route.value else BaseURL;
    var tail := apiKey + (if params.Some? then ParamsStr(params.value) else "");
    if params.Some? {
      ParamsStrPlain(params.value);
    }
    assert URI(apiKey, route, params) == head + "?apiKey=" + tail;
    MarkerOnce(head, tail);
  }

  /** `tickers(searchFragment)`: `/v2/reference/tickers`, sorted by ticker, searching for the
      fragment. */
  function TickersURI(apiKey: string, searchFragment: string): (r: string)
    ensures r == BaseURL + "/v2/reference/tickers" + "?apiKey=" + apiKey + "&sort=ticker" + "&search=" + searchFragment
  {
    ParamsOfTwo(("sort", "ticker"), ("search", searchFragment));
    URI(apiKey, Some("/v2/reference/tickers"), Some([("sort", "ticker"), ("search", searchFragment)]))
  }

  /** `forexSnapshotSingle(ticker)`: always the USD/CAD conversion of one unit to two
      decimals, whatever the ticker. */
  function ForexSnapshotURI(apiKey: string, ticker: string): (r: string)
    ensures r == BaseURL + "/v1/conversion/USD/CAD" + "?apiKey=" + apiKey + "&amount=1" + "&precision=2"
  {
    ParamsOfTwo(("amount", "1"), ("precision", "2"));
    URI(apiKey, Some("/v1/conversion/USD/CAD"), Some([("amount", "1"), ("precision", "2")]))
  }

  lemma ForexSnapshotIgnoresTicker(apiKey: string, t1: string, t2: string)
    ensures ForexSnapshotURI(apiKey, t1) == ForexSnapshotURI(apiKey, t2)
  {
  }

  /** The `last` object of a crypto last-trade response. */
  datatype TradeFull = TradeFull(conditions: seq<int>, price: int, size: int, timestamp: int, exchange: int)

  /** The trade the service hands back: `c`, `i`, `p`, `s`, `t`, `x`. */
  datatype Trade = Trade(c: seq<int>, i: string, p: int, s: int, t: int, x: int)

  /** `cryptoLastTrade`: the response's `last`, renamed, with an empty id; `null` when the
      request failed. */
  function CryptoLastTrade(response: Result<TradeFull>): (r: Option<Trade>)
    ensures r.None? <==> response.Err?
    ensures r.Some? ==> r.value.i == "" && Full(r.value) == response.value
  {
    match response
    case Err(_) => None
    case Ok(last) => Some(Trade(last.conditions, "", last.price, last.size, last.timestamp, last.exchange))
  }

  /** The full trade a short one names. */
  function Full(t: Trade): TradeFull
  {
    TradeFull(t.c, t.p, t.s, t.t, t.x)
  }

  /** The projection loses nothing but the id, which it sets to empty. */
  lemma LastTradeRoundTrip(t: Trade)
    requires t.i == ""
    ensures CryptoLastTrade(Ok(Full(t))) == Some(t)
  {
  }

  /** `cryptoPrev`: the first of the response's results, `null` when there are none or the
      request failed. */
  function CryptoPrev<T>(response: Result<seq<T>>): (r: Option<T>)
    ensures r.Some? <==> response.Ok? && |response.value| > 0
    ensures r.Some? ==> r.value == response.value[0]
  {
    match response
    case Err(_) => None
    case Ok(results) => if |results| > 0 then Some(results[0]) else None
  }
}
