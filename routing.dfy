/**
  The route decision of `fetchHandler`: from the parsed request URL it picks
  exactly one outcome, trying in turn the HTTPS upgrade, the `/http/` proxy
  prefix, three fixed paths, and finally the static-asset passthrough.
*/
module Routing {
  import opened Wrappers

  /**
    A parsed URL, reduced to what the relay reads: the scheme with its colon
    (`"http:"`), the host (with any port), and everything after the origin
    (path, query and fragment).
  */
  datatype Url = Url(protocol: string, host: string, rest: string)

  /** `url.origin`. */
  function Origin(u: Url): string
  {
    u.protocol + "//" + u.host
  }

  /** `url.href`. */
  function Href(u: Url): string
  {
    Origin(u) + u.rest
  }

  /** `href.substr(origin.length)`: the part of the URL the routes look at. */
  function PathOf(u: Url): (path: string)
    ensures Origin(u) + path == Href(u)
    ensures path == u.rest
  {
    Href(u)[|Origin(u)|..]
  }

  /** JavaScript `s.substr(start)` for a non-negative start: empty once start passes the end. */
  function Substr(s: string, start: nat): (r: string)
    ensures start <= |s| ==> s[..start] + r == s
    ensures start >= |s| ==> r == ""
  {
    if start <= |s| then s[start..] else ""
  }

  /** Where static files are fetched from. */
  const ASSET_URL: string := "https://etherdream.github.io/jsproxy"
  const HSTS_VALUE: string := "max-age=99999999; includeSubDomains; preload"
  const PROXY_PREFIX: string := "/http/"
  const UPDATE_NOTICE: string := "请更新 cfworker 到最新版本!"

  datatype Route =
    | UpgradeToHttps(location: string)      // 301, empty body, HSTS and location headers
    | ProxyTo(target: string)               // handed to `httpHandler`
    | Reply(body: string, status: int)      // a fixed `makeRes(body, status)`
    | FetchAsset(url: string)               // `fetch(ASSET_URL + path)`

  /** The same URL with its scheme set to `https:` (what `urlObj.protocol = 'https:'` leaves). */
  function WithHttps(u: Url): Url
  {
    u.(protocol := "https:")
  }

  function Dispatch(u: Url): Route
  {
    var path := PathOf(u);
    if u.protocol == "http:" then UpgradeToHttps(Href(WithHttps(u)))
    else if PROXY_PREFIX <= path then ProxyTo(Substr(path, |PROXY_PREFIX|))
    else Switch(path)
  }

  /** The `switch (path)` statement: three exact cases and the asset default. */
  function Switch(path: string): Route
  {
    if path == "/http" then Reply(UPDATE_NOTICE, 200)
    else if path == "/ws" then Reply("not support", 400)
    else if path == "/works" then Reply("it works", 200)
    else FetchAsset(ASSET_URL + path)
  }

  // ---------------------------------------------------------------------------
  // An independent statement of the precedence: an ordered table of rules,
  // the first whose guard holds deciding the outcome.

  datatype Guard = SchemeIs(scheme: string) | PathStartsWith(prefix: string) | PathIs(path: string) | Always

  datatype Action = Upgrade | StripAndProxy(count: nat) | Respond(body: string, status: int) | Asset(base: string)

  datatype Rule = Rule(guard: Guard, action: Action)

  const RULES: seq<Rule> := [
    Rule(SchemeIs("http:"), Upgrade),
    Rule(PathStartsWith(PROXY_PREFIX), StripAndProxy(6)),
    Rule(PathIs("/http"), Respond(UPDATE_NOTICE, 200)),
    Rule(PathIs("/ws"), Respond("not support", 400)),
    Rule(PathIs("/works"), Respond("it works", 200)),
    Rule(Always, Asset(ASSET_URL))
  ]

  predicate Holds(g: Guard, u: Url)
  {
    match g
    case SchemeIs(scheme) => u.protocol == scheme
    case PathStartsWith(prefix) => prefix <= PathOf(u)
    case PathIs(path) => PathOf(u) == path
    case Always => true
  }

  function Perform(a: Action, u: Url): Route
  {
    match a
    case Upgrade => UpgradeToHttps(Href(WithHttps(u)))
    case StripAndProxy(count) => ProxyTo(Substr(PathOf(u), count))
    case Respond(body, status) => Reply(body, status)
    case Asset(base) => FetchAsset(base + PathOf(u))
  }

  /** The outcome of the first rule whose guard holds, or None when none does. */
  function FirstMatch(rules: seq<Rule>, u: Url): (r: Option<Route>)
    ensures r.None? <==> forall i :: 0 <= i < |rules| ==> !Holds(rules[i].guard, u)
  {
    if rules == [] then None
    else if Holds(rules[0].guard, u) then Some(Perform(rules[0].action, u))
    else FirstMatch(rules[1..], u)
  }

  /** A match is the action of the lowest-numbered rule whose guard holds. */
  lemma {:induction false} FirstMatchPicksFirst(rules: seq<Rule>, u: Url, k: nat)
    requires k < |rules| && Holds(rules[k].guard, u)
    requires forall j :: 0 <= j < k ==> !Holds(rules[j].guard, u)
    ensures FirstMatch(rules, u) == Some(Perform(rules[k].action, u))
  {
    if k > 0 {
      forall j | 0 <= j < k - 1 ensures !Holds(rules[1..][j].guard, u) {
        assert rules[1..][j] == rules[j + 1];
      }
      FirstMatchPicksFirst(rules[1..], u, k - 1);
    }
  }

  /** `fetchHandler` decides exactly as the rule table read top to bottom; its last rule makes it total. */
  lemma DispatchIsFirstMatch(u: Url)
    ensures FirstMatch(RULES, u) == Some(Dispatch(u))
  {
    var path := PathOf(u);
    var rules := RULES;
    // Skip, one at a time, the rules whose guards fail.
    if u.protocol != "http:" {
      SkipRule(rules, u);
      rules := rules[1..];
      if !(PROXY_PREFIX <= path) {
        SkipRule(rules, u);
        rules := rules[1..];
        if path != "/http" {
          SkipRule(rules, u);
          rules := rules[1..];
          if path != "/ws" {
            SkipRule(rules, u);
            rules := rules[1..];
            if path != "/works" {
              SkipRule(rules, u);
              rules := rules[1..];
            }
          }
        }
      }
    }
  }

  lemma SkipRule(rules: seq<Rule>, u: Url)
    requires rules != [] && !Holds(rules[0].guard, u)
    ensures FirstMatch(rules, u) == FirstMatch(rules[1..], u)
  {
  }

  // ---------------------------------------------------------------------------
  // The properties each route promises.

  /** A plain-HTTP request is always upgraded, whatever its path, to the same URL with scheme `https:`. */
  lemma UpgradeFirst(u: Url)
    ensures Dispatch(u).UpgradeToHttps? <==> u.protocol == "http:"
    ensures u.protocol == "http:" ==>
      Dispatch(u).location == "https:" + Href(u)[|"http:"|..] && PathOf(WithHttps(u)) == PathOf(u)
  {
  }

  /** Outside plain HTTP, a `/http/` prefix goes to the proxy with those six characters removed. */
  lemma ProxyPrefix(u: Url)
    ensures Dispatch(u).ProxyTo? <==> u.protocol != "http:" && PROXY_PREFIX <= PathOf(u)
    ensures Dispatch(u).ProxyTo? ==> PROXY_PREFIX + Dispatch(u).target == PathOf(u)
  {
  }

  /** Every target can be reached: `/http/<target>` over HTTPS hands exactly `<target>` to the proxy. */
  lemma ProxyRoundTrip(u: Url, target: string)
    requires u.protocol != "http:" && u.rest == PROXY_PREFIX + target
    ensures Dispatch(u) == ProxyTo(target)
  {
  }

  /** The three exact paths answered with fixed messages. */
  lemma FixedPaths(u: Url)
    requires u.protocol != "http:"
    ensures PathOf(u) == "/http" ==> Dispatch(u) == Reply(UPDATE_NOTICE, 200)
    ensures PathOf(u) == "/ws" ==> Dispatch(u) == Reply("not support", 400)
    ensures PathOf(u) == "/works" ==> Dispatch(u) == Reply("it works", 200)
  {
    assert "/works"[2] != PROXY_PREFIX[2];
  }

  /** Everything else is fetched from the asset origin, with the path appended. */
  lemma AssetFallback(u: Url)
    ensures Dispatch(u).FetchAsset? <==>
      u.protocol != "http:" && !(PROXY_PREFIX <= PathOf(u)) &&
      PathOf(u) != "/http" && PathOf(u) != "/ws" && PathOf(u) != "/works"
    ensures Dispatch(u).FetchAsset? ==> Dispatch(u).url == ASSET_URL + PathOf(u)
  {
  }

  /**
    Every URL whose scheme is `http:` is upgraded, whatever its path. Resolving
    an origin-form request target (`/works`) against the base `http://<host>`
    always yields such a URL.
  */
  lemma PlainHttpAlwaysUpgraded(host: string, rest: string)
    ensures Dispatch(Url("http:", host, rest)) == UpgradeToHttps("https://" + host + rest)
  {
  }

  /** `/httpx` shares the first five characters of the prefix but is an asset, as is the root. */
  lemma AssetExamples(host: string)
    ensures Dispatch(Url("https:", host, "/httpx")) == FetchAsset(ASSET_URL + "/httpx")
    ensures Dispatch(Url("https:", host, "/")) == FetchAsset(ASSET_URL + "/")
  {
    assert PathOf(Url("https:", host, "/httpx")) == "/httpx";
    assert "/httpx"[5] != PROXY_PREFIX[5];
  }
}
