/**
  `makeRes`: every response the relay produces passes through it. It stamps
  two fixed headers into the caller's header object, in place, and returns the
  body, the status and that same object.
*/
module Responses {
  import opened Wrappers
  import opened Headers

  /** The version the relay advertises to its client script. */
  const JS_VER: int := 10

  const VERSION_HEADER: string := "--ver"
  const ALLOW_ORIGIN_HEADER: string := "access-control-allow-origin"

  /** What `makeRes` returns: `{ body, status, headers }`, where `headers` is the caller's own object. */
  datatype Response = Response(body: string, status: int, headers: HeaderMap)

  /**
    The header object after the two assignments of `makeRes`: both fixed
    headers hold their fixed values whatever the caller put there, every other
    header is untouched, and each fixed name the caller did not supply is
    appended in the order the assignments run.
  */
  function WithFixedHeaders(hs: seq<Header>): (r: seq<Header>)
    ensures Get(r, VERSION_HEADER) == Some(Num(JS_VER))
    ensures Get(r, ALLOW_ORIGIN_HEADER) == Some(Str("*"))
    ensures forall name :: name != VERSION_HEADER && name != ALLOW_ORIGIN_HEADER ==> Get(r, name) == Get(hs, name)
    ensures Names(r) == Names(hs)
                        + (if Get(hs, VERSION_HEADER).Some? then [] else [VERSION_HEADER])
                        + (if Get(hs, ALLOW_ORIGIN_HEADER).Some? then [] else [ALLOW_ORIGIN_HEADER])
    ensures Unique(hs) ==> Unique(r)
  {
    var versioned := Put(hs, VERSION_HEADER, Num(JS_VER));
    Put(versioned, ALLOW_ORIGIN_HEADER, Str("*"))
  }

  /** Stamping the fixed headers a second time changes nothing. */
  lemma FixedHeadersIdempotent(hs: seq<Header>)
    ensures WithFixedHeaders(WithFixedHeaders(hs)) == WithFixedHeaders(hs)
  {
    var once := WithFixedHeaders(hs);
    PutUnchanged(once, VERSION_HEADER, Num(JS_VER));
    PutUnchanged(once, ALLOW_ORIGIN_HEADER, Str("*"));
  }

  /** With the default `headers = {}`, the response carries exactly the two fixed headers. */
  lemma DefaultHeaders()
    ensures WithFixedHeaders([]) == [Header(VERSION_HEADER, Num(JS_VER)), Header(ALLOW_ORIGIN_HEADER, Str("*"))]
  {
    var versioned := [Header(VERSION_HEADER, Num(JS_VER))];
    assert versioned[1..] == [];
    PutAppends(versioned, ALLOW_ORIGIN_HEADER, Str("*"));
  }

  /**
    `makeRes(body, status = 200, headers = {})`. An omitted `headers` argument
    is passed as null and becomes a fresh empty object; a supplied one is
    updated in place and is the very object the response holds.
  */
  method MakeRes(body: string, status: int := 200, headers: HeaderMap? := null) returns (r: Response)
    requires headers != null ==> headers.Valid()
    modifies headers
    ensures r.body == body && r.status == status
    ensures headers != null ==> r.headers == headers
    ensures headers == null ==> fresh(r.headers)
    ensures r.headers.Valid()
    ensures r.headers.entries == WithFixedHeaders(if headers == null then [] else old(headers.entries))
  {
    var target := headers;
    if target == null {
      target := new HeaderMap();
    }
    target.Set(VERSION_HEADER, Num(JS_VER));
    target.Set(ALLOW_ORIGIN_HEADER, Str("*"));
    r := Response(body, status, target);
  }
}
