/**
  The decisions `httpHandler` takes before any network traffic: reject a
  target that does not parse, pick the HTTP or HTTPS client (which refuses a
  URL of any other scheme), and forward the inbound body only for POST and PUT.
*/
module Proxy {
  import opened Wrappers
  import opened Headers
  import opened Routing

  datatype Transport = Http | Https

  const INVALID_URL_PREFIX: string := "invalid url: "

  /**
    What `httpHandler` does with a target: answer at once with an error, have
    the chosen client refuse the URL, or issue one outbound request with the
    inbound method and headers.
  */
  datatype Step =
    | Reject(body: string, status: int)
    // The URL parses but its scheme is neither `http:` nor `https:`: the `http`
    // client is chosen, `http.request` throws inside the Promise executor, the
    // promise rejects and the `await` in `fetchHandler` throws, so no response
    // is ever written.
    | ClientThrows(url: Url)
    | Forward(transport: Transport, url: Url, verb: string, headers: seq<Header>, sendsBody: bool)

  /** `req.pipe(proxyReq)` happens only for these two methods; every other method ends the request empty. */
  predicate ForwardsBody(verb: string)
  {
    verb == "POST" || verb == "PUT"
  }

  /**
    `httpHandler(req, targetUrl)` up to the outbound request. `newUrl` is the
    URL parser, None standing for the exception `newUrl` turns into `null`.
  */
  function HttpHandler(target: string, verb: string, headers: seq<Header>, newUrl: string -> Option<Url>): (s: Step)
    ensures s.Reject? <==> newUrl(target).None?
    ensures s.Reject? ==> s.status == 400 && INVALID_URL_PREFIX <= s.body && s.body[|INVALID_URL_PREFIX|..] == target
    ensures s.ClientThrows? <==>
      newUrl(target).Some? && newUrl(target).value.protocol != "http:" && newUrl(target).value.protocol != "https:"
    ensures s.ClientThrows? ==> s.url == newUrl(target).value
    ensures s.Forward? ==> s.url == newUrl(target).value && s.verb == verb && s.headers == headers
    ensures s.Forward? ==> (s.transport == Https <==> s.url.protocol == "https:")
    ensures s.Forward? ==> (s.transport == Http <==> s.url.protocol == "http:")
    ensures s.Forward? ==> (s.sendsBody <==> verb == "POST" || verb == "PUT")
  {
    match newUrl(target)
    case None => Reject(INVALID_URL_PREFIX + target, 400)
    case Some(url) =>
      var transport := if url.protocol == "https:" then Https else Http;
      if transport == Http && url.protocol != "http:" then ClientThrows(url)
      else Forward(transport, url, verb, headers, ForwardsBody(verb))
  }

  /** The rejection names the target: two different unparsable targets never give the same message. */
  lemma RejectionNamesTarget(t1: string, t2: string, m1: string, m2: string,
                             h1: seq<Header>, h2: seq<Header>, newUrl: string -> Option<Url>)
    requires newUrl(t1).None? && newUrl(t2).None?
    requires HttpHandler(t1, m1, h1, newUrl) == HttpHandler(t2, m2, h2, newUrl)
    ensures t1 == t2
  {
    var b1 := HttpHandler(t1, m1, h1, newUrl).body;
    assert t1 == b1[|INVALID_URL_PREFIX|..];
  }
}
