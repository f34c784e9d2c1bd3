/** The CORS policy and rate-limit settings of
    backend/src/middlewares/security-middleware.js. */
module SecurityMiddleware {
  import opened Wrappers
  import opened JsString

  /** At most `MaxRequests` requests per client in each window of `WindowMs` milliseconds. */
  const WindowMs: nat := 15 * 60 * 1000
  const MaxRequests: nat := 100

  const Whitelist: seq<string> := ["http://localhost:5173", "http://localhost:3001", "https://api-wwv42552ua-et.a.run.app"]

  /** The `origin` callback: `Ok(true)` lets the request through, an error
      refuses it. A request without an `Origin` header (a missing or empty
      value) is let through. */
  function CorsOrigin(origin: Option<string>): (r: Result<bool>)
    ensures r.Ok? <==> !Truthy(origin) || origin.value in Whitelist
    ensures r.Ok? ==> r.value
    ensures r.Err? ==> r.error == Unexpected("Not allowed by CORS")
  {
    if !Truthy(origin) || origin.value in Whitelist then Ok(true) else Err(Unexpected("Not allowed by CORS"))
  }

  /** No allowed origin is a proper prefix of another. */
  lemma WhitelistPrefixFree(a: string, b: string)
    requires a in Whitelist && b in Whitelist && StartsWith(b, a)
    ensures a == b
  {
    var local5173, local3001, deployed := Whitelist[0], Whitelist[1], Whitelist[2];
    assert local5173[17] == '5' && local3001[17] == '3';
    assert local5173[4] == ':' && deployed[4] == 's';
    assert |local5173| == |local3001| < |deployed|;
  }

  /** The comparison is exact: an origin that only starts with an allowed one
      (another port, a longer host name) is refused. */
  lemma ExactOriginOnly(origin: string, allowed: string)
    requires allowed in Whitelist && StartsWith(origin, allowed) && origin != allowed
    ensures CorsOrigin(Some(origin)).Err?
  {
    if origin in Whitelist {
      WhitelistPrefixFree(allowed, origin);
    }
  }
}
