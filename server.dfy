/**
  `fetchHandler` end to end: the route decision, then the response built
  locally with `makeRes`, or the outbound traffic it starts (the asset fetch
  and the proxied request are I/O and are returned as descriptions).
*/
module Server {
  import opened Wrappers
  import opened Headers
  import opened Responses
  import opened Routing
  import opened Proxy

  const STS_HEADER: string := "strict-transport-security"
  const LOCATION_HEADER: string := "location"

  datatype Outcome =
    | Sent(response: Response)     // `res.writeHead(status, headers); res.end(body)`
    | AssetFetch(url: string)      // the asset fetch that is started; what happens to its response is not modelled
    | Relay(step: Step)            // the outbound request `httpHandler` issues
    | Unanswered(refused: Url)        // `httpHandler` rejected its promise: nothing is written

  /** The header object literal of the upgrade response, before `makeRes`. */
  function UpgradeLiteral(location: string): seq<Header>
  {
    [Header(STS_HEADER, Str(HSTS_VALUE)), Header(LOCATION_HEADER, Str(location))]
  }

  /** The upgrade response's headers, in the order they are written out. */
  lemma UpgradeHeaders(location: string)
    ensures WithFixedHeaders(UpgradeLiteral(location)) ==
      [Header(STS_HEADER, Str(HSTS_VALUE)), Header(LOCATION_HEADER, Str(location)),
       Header(VERSION_HEADER, Num(JS_VER)), Header(ALLOW_ORIGIN_HEADER, Str("*"))]
  {
    var literal := UpgradeLiteral(location);
    assert literal[1..][1..] == [];
    assert Get(literal[1..], VERSION_HEADER).None?;
    PutAppends(literal, VERSION_HEADER, Num(JS_VER));
    var versioned := literal + [Header(VERSION_HEADER, Num(JS_VER))];
    assert versioned[1..][1..][1..] == [];
    assert Get(versioned[1..][1..], ALLOW_ORIGIN_HEADER).None?;
    assert Get(versioned[1..], ALLOW_ORIGIN_HEADER).None?;
    PutAppends(versioned, ALLOW_ORIGIN_HEADER, Str("*"));
  }

  method FetchHandler(u: Url, verb: string, reqHeaders: seq<Header>, newUrl: string -> Option<Url>)
    returns (o: Outcome)
    ensures Dispatch(u).UpgradeToHttps? ==>
      o.Sent? && fresh(o.response.headers) &&
      o.response.body == "" && o.response.status == 301 &&
      o.response.headers.entries == WithFixedHeaders(UpgradeLiteral(Dispatch(u).location))
    ensures Dispatch(u).Reply? ==>
      o.Sent? && fresh(o.response.headers) &&
      o.response.body == Dispatch(u).body && o.response.status == Dispatch(u).status &&
      o.response.headers.entries == WithFixedHeaders([])
    ensures Dispatch(u).ProxyTo? ==>
      var step := HttpHandler(Dispatch(u).target, verb, reqHeaders, newUrl);
      if step.Reject? then
        o.Sent? && fresh(o.response.headers) &&
        o.response.body == step.body && o.response.status == step.status &&
        o.response.headers.entries == WithFixedHeaders([])
      else if step.ClientThrows? then
        o == Unanswered(step.url)
      else
        o == Relay(step)
    ensures Dispatch(u).FetchAsset? ==> o == AssetFetch(Dispatch(u).url)
  {
    var route := Dispatch(u);
    if route.UpgradeToHttps? {
      assert UpgradeLiteral(route.location)[1..][1..] == [];
      assert Unique(UpgradeLiteral(route.location)[1..]);
      var headers := new HeaderMap.FromLiteral(UpgradeLiteral(route.location));
      var response := MakeRes("", 301, headers);
      o := Sent(response);
    } else if route.ProxyTo? {
      var step := HttpHandler(route.target, verb, reqHeaders, newUrl);
      if step.Reject? {
        var response := MakeRes(step.body, step.status);
        o := Sent(response);
      } else if step.ClientThrows? {
        o := Unanswered(step.url);
      } else {
        o := Relay(step);
      }
    } else if route.Reply? {
      var response := MakeRes(route.body, route.status);
      o := Sent(response);
    } else {
      o := AssetFetch(route.url);
    }
  }
}
