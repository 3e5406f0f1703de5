# jsproxy relay server (`app.js`) in Dafny

`app.js` is the Node.js entry point of the jsproxy relay. It takes each
inbound HTTP request whose URL resolves and decides one of these:

- redirect a plain-HTTP request to HTTPS (as served by `http.createServer`, this is every request whose target is an ordinary path; see "## Left out");
- hand a `/http/<target>` path to the proxy handler;
- answer three fixed paths directly;
- fetch any other path from the static-asset origin.

Every locally built response passes through `makeRes`. It stamps a version
header (`--ver` = 10) and `access-control-allow-origin: *` into the caller's
header object in place.

Besides a small `Wrappers` module holding `Option`, the model has five modules:

- `Headers`: a JavaScript header object as an ordered, string-keyed mapping with
  unique names. `Put` is JavaScript property assignment: it overwrites in place
  or appends. `HeaderMap` is the mutable object.
- `Responses`: `makeRes` as the method `MakeRes` on a `HeaderMap`. Its new state
  is stated through `WithFixedHeaders`, and the lemmas about it are proved.
- `Routing`: the route decision of `fetchHandler` as the pure classifier
  `Dispatch` into `Route`. It is proved equal to an independent first-match rule
  table. One lemma per route states that route's precedence.
- `Proxy`: the decisions `httpHandler` takes before any traffic:
  - reject an unparsable target with 400;
  - choose the HTTP or HTTPS client; the HTTP client refuses any other scheme, and then no response is written;
  - forward the body only for POST and PUT.

  The URL parser `newUrl` is an abstract function parameter
  `string -> Option<Url>`, where `None` stands for the `null` returned on an
  exception.
- `Server`: `fetchHandler` end to end as the method `FetchHandler`. It builds
  the locally answered responses with `MakeRes`. It returns the asset fetch and
  the outbound request as descriptions.

## Model

| member | source | states |
|---|---|---|
| `Headers.Put` | app.js:16-17 | After `headers[name] = value`, `name` reads `value` and every other name reads as before. An existing name keeps its position and a new name is appended. Unique names stay unique. |
| `Headers.NamesArePresent` | app.js:16-17 | A name is among the enumerated header names if and only if reading it gives a value. |
| `Headers.PutUnchanged` | app.js:16-17 | Assigning the value a name already holds leaves the header object unchanged. |
| `Headers.PutAppends` | app.js:16-17 | Assigning a name the object lacks appends exactly one property at the end. |
| `Headers.HeaderMap.constructor` | app.js:15 | The default `headers = {}` is a valid, empty object. |
| `Headers.HeaderMap.FromLiteral` | app.js:42-45 | An object literal holds its properties in the order written. |
| `Headers.HeaderMap.Set` | app.js:16-17 | The in-place assignment changes the object to `Put` of its old entries and keeps names unique. |
| `Responses.WithFixedHeaders` | app.js:15-18 | Afterwards `--ver` is the number 10 and `access-control-allow-origin` is `*`, overriding caller values. Every other header is unchanged. Missing fixed names are appended in assignment order. Uniqueness is preserved. |
| `Responses.FixedHeadersIdempotent` | app.js:16-17 | Stamping the fixed headers twice is the same as stamping them once. |
| `Responses.DefaultHeaders` | app.js:15-18 | With the default empty object the response has exactly the two fixed headers: `--ver` first, then `access-control-allow-origin`. |
| `Responses.MakeRes` | app.js:15-19 | Returns the given body and status (status defaults to 200). A supplied header object is updated in place and is the object returned, so the caller sees the change. An omitted one is a fresh empty object. The headers end as `WithFixedHeaders` of what they were. |
| `Routing.Origin` | app.js:39 | `url.origin`, taken as scheme + `//` + host. It has no contract of its own; `PathOf` states how it relates to `Href`. |
| `Routing.Href` | app.js:39 | `url.href`, taken as the origin followed by the rest. It has no contract of its own; `PathOf` and `UpgradeFirst` state its properties. |
| `Routing.WithHttps` | app.js:41 | `urlObj.protocol = 'https:'`: the same host and rest with the scheme `https:`. It has no contract of its own; `UpgradeFirst` and `PlainHttpAlwaysUpgraded` state the resulting location. |
| `Routing.PathOf` | app.js:39 | The path is what follows the origin in the href: origin + path = href, so it is exactly the URL's path, query and fragment. |
| `Routing.Substr` | app.js:51 | JavaScript `substr(start)`: the suffix after `start` characters, or empty past the end. |
| `Routing.Dispatch` | app.js:40-71 | The route decision of `fetchHandler`. It has no contract of its own; the contract is carried by `DispatchIsFirstMatch`, `UpgradeFirst`, `PlainHttpAlwaysUpgraded`, `ProxyPrefix`, `ProxyRoundTrip`, `FixedPaths`, `AssetFallback` and `AssetExamples`. |
| `Routing.Switch` | app.js:57-70 | The `switch (path)`: three exact cases and the asset default. It has no contract of its own; `FixedPaths`, `AssetFallback` and `AssetExamples` state its outcomes by way of `Dispatch`. |
| `Routing.FirstMatch` | app.js:40-71 | The rule table gives no outcome exactly when no guard holds. |
| `Routing.FirstMatchPicksFirst` | app.js:40-71 | When rule `k` is the lowest-numbered rule whose guard holds, the table's outcome is rule `k`'s action. |
| `Routing.DispatchIsFirstMatch` | app.js:40-71 | The route decision equals the first rule whose guard holds in the table: HTTP scheme, `/http/` prefix, `/http`, `/ws`, `/works`, then the asset fallback. So exactly one outcome is chosen, with that precedence. |
| `Routing.UpgradeFirst` | app.js:40-45 | The outcome is the upgrade if and only if the scheme is `http:`, whatever the path. Its location is the same href with `http:` replaced by `https:`, and it has the same path. |
| `Routing.PlainHttpAlwaysUpgraded` | app.js:38-45 | Every URL with scheme `http:` is upgraded to `https://` + host + the rest, whatever its path. This includes every origin-form request resolved against the base `http://<host>`. |
| `Routing.ProxyPrefix` | app.js:50-51 | The outcome is the proxy if and only if the scheme is not `http:` and the path starts with `/http/`. Putting `/http/` back before the target gives the path. |
| `Routing.ProxyRoundTrip` | app.js:50-51 | Over a non-`http:` scheme, the path `/http/<target>` hands exactly `<target>` to the proxy, for every target. |
| `Routing.FixedPaths` | app.js:57-66 | Each exact path gets its fixed reply: `/http` gets 200 with the update notice, `/ws` gets 400 "not support", `/works` gets 200 "it works". |
| `Routing.AssetFallback` | app.js:67-70 | The outcome is the asset fetch if and only if no earlier case applies. The fetched URL is `ASSET_URL` + path. |
| `Routing.AssetExamples` | app.js:50-70 | `/httpx` and `/` are asset fetches. |
| `Proxy.HttpHandler` | app.js:80-107 | The request is rejected if and only if `newUrl` fails. A rejection is status 400 with body `invalid url: ` + target. A parsed URL whose scheme is neither `http:` nor `https:` makes the chosen `http` client throw (app.js:90-91), so no request is made. Otherwise there is one outbound request with the parsed URL and the inbound method and headers. The HTTPS client is used exactly for `https:` and the HTTP client exactly for `http:`. The body is sent exactly when the method is `POST` or `PUT`, compared case-sensitively. |
| `Proxy.ForwardsBody` | app.js:103-107 | The test at app.js:103: the method is exactly `POST` or exactly `PUT`. It has no contract of its own; `HttpHandler` states that the body is sent exactly for these two methods. |
| `Proxy.RejectionNamesTarget` | app.js:81-84 | The rejection message identifies the target: two rejections are equal only for equal targets. |
| `Server.UpgradeLiteral` | app.js:42-45 | The header object literal of the 301: `strict-transport-security` and then `location`. It has no contract of its own; `UpgradeHeaders` and `FetchHandler` state the headers it leads to. |
| `Server.UpgradeHeaders` | app.js:42-46 | The upgrade response's headers are, in order: `strict-transport-security`, `location`, `--ver` = 10, `access-control-allow-origin` = `*`. |
| `Server.FetchHandler` | app.js:36-74 | The upgrade route is sent as 301 with an empty body and the upgrade headers. A fixed reply is sent with its body and status and the fixed headers only. A rejected proxy target is sent as its 400. A parsed proxy target that the client refuses leaves the request unanswered. Any other parsed proxy target becomes exactly `HttpHandler`'s outbound request. Anything else becomes the asset fetch of `ASSET_URL` + path. |

## Left out

- Outbound networking is not modelled. This covers `http.request` and `https.request`, `req.pipe`, the `'error'` handler that answers 502 `proxy error: ...` (app.js:89-108), and the asset `fetch` (app.js:69). These are I/O and foreign library calls. The model stops at a description of the request that would be issued.
- The upstream response is not modelled: accumulating its body (app.js:92-98) and the Promise and async flow are I/O callbacks. That response is passed through `makeRes(body, proxyRes.statusCode, proxyRes.headers)` (app.js:97), and `MakeRes` already states what this does to the upstream header object.
- URL parsing is abstract. `newUrl` (app.js:24-30) is a function parameter. The request URL (app.js:37-38) is an input `Url` made of protocol, host and the rest after the origin.
- `Server.FetchHandler`: the request URL is assumed to resolve. Otherwise the call `new URL(urlStr, base)` at app.js:38 throws. Its base is built from the `Host` header, and the call is outside any `try`. It throws for example on the target `//`, an empty `Host` header, or `Host: a:b`. The rejected promise of `fetchHandler` is then unhandled, so the request gets no response, as with `Server.Unanswered`, and under Node's default since version 15 the server process ends.
- The href and origin derivation is simplified, and three cases are not modelled. Credentials in the URL are one. Port normalisation when the scheme changes to `https:` (app.js:41) is another. Opaque origins are the third: for `file:` and other non-special schemes `url.origin` is `"null"`, so app.js:39 would drop only four characters. The model always takes the origin to be scheme + `//` + host.
- The scheme is an input, and the model does not resolve `req.url` against the base `http://<host>` (app.js:38). For `http.createServer` (app.js:110), `req.url` is normally an origin-form path such as `/works`. That resolves to a URL with scheme `http:`, so every such request gets the 301 (`Routing.PlainHttpAlwaysUpgraded`). The proxy, fixed-reply and asset routes can only be reached by an absolute-form request target with another scheme.
- When the HTTP client refuses a scheme, the model records only that this request gets no response (`Server.Unanswered`). An example input is the absolute-form target `https://h/http/ftp://x`. In the source, the rejection from app.js:91 makes the `await` at app.js:51 throw, and nothing handles the rejected promise of `fetchHandler`. Node has made unhandled rejections throw by default since version 15, and the global `fetch` at app.js:69 needs version 18. Under that default, the exception ends the whole server process, together with every open connection. The model does not capture the process ending.
- Server start-up, `process.env.PORT` and logging (app.js:110-114) are process plumbing.
- `MAX_RETRY` (app.js:8) is declared but never used in this file.
- The repository's wider design describes features that `app.js` does not implement, so none of them are modelled: header renaming, CORS exposure lists, content-length verification with retry, redirect-status remapping, control-channel decoding, and a preflight responder.
- `Headers.Put`: JavaScript lists integer-like property names before all others. The model keeps every name in plain insertion order.
- Response bodies are strings. The source's `any` body is only ever a string here.
- The source text shows two template URLs in angle brackets: `ASSET_URL` (app.js:6) and the base in app.js:38. Both are read as text-rendering artefacts, so the brackets are dropped. `ASSET_URL` is `https://etherdream.github.io/jsproxy`, and the base is `http://<host>`. Read literally, the base would not parse, and app.js:38 would throw on every request.
