/**
 Translation between the caller's request and response descriptions and the
 library's request and response objects: request validation and header map,
 response status and headers, and the cookie map.
 */
module Translation {
  import opened FactoryTypes

  /** The library's request object, as far as the factory fills it. */
  datatype Request = Request(requestMethod: string, url: string, body: Option<string>, header: map<string, seq<string>>)

  /** A response body stream: it either reads to the end or fails. */
  datatype BodyStream = Readable(content: string) | Broken

  /** The library's response object. */
  datatype WireResponse = WireResponse(statusCode: int, header: map<string, seq<string>>, body: BodyStream)

  /** The response handed back to the caller. */
  datatype Response = Response(
    sessionId: string,
    status: int,
    body: string,
    headers: map<string, seq<string>>,
    cookies: map<string, string>)

  /** A request body counts only when it is given and non-empty. */
  predicate HasBody(input: RequestInput)
  {
    input.requestBody.Some? && input.requestBody.value != ""
  }

  /** A Content-Type header under one of the two exact spellings the factory looks for. */
  predicate HasContentType(headers: map<string, string>)
  {
    "content-type" in headers || "Content-Type" in headers
  }

  /**
   BuildRequest: method and URL must be non-empty and a body needs a Content-Type;
   then the library builds the request (it may refuse the method or URL) and every
   header becomes a one-element list, with the header order under the library's
   header-order key.
   */
  method BuildRequest(lib: Library, input: RequestInput) returns (r: Result<Request>)
    ensures input.requestMethod == "" || input.requestUrl == "" ==> r == Err(MissingMethodOrUrl)
    ensures (input.requestMethod != "" && input.requestUrl != "" && HasBody(input) && !HasContentType(input.headers))
              ==> r == Err(MissingContentType)
    ensures (&& input.requestMethod != "" && input.requestUrl != ""
             && (HasBody(input) ==> HasContentType(input.headers))
             && !lib.acceptsRequest(input.requestMethod, input.requestUrl))
              ==> r == Err(RequestObjectFailed)
    ensures r.Ok? <==> && input.requestMethod != "" && input.requestUrl != ""
                       && (HasBody(input) ==> HasContentType(input.headers))
                       && lib.acceptsRequest(input.requestMethod, input.requestUrl)
    ensures r.Ok? ==>
      && r.value.requestMethod == input.requestMethod && r.value.url == input.requestUrl
      && r.value.body == (if HasBody(input) then input.requestBody else None)
      && r.value.header.Keys == input.headers.Keys + {lib.headerOrderKey}
      && r.value.header[lib.headerOrderKey] == input.headerOrder
      && forall key :: key in input.headers && key != lib.headerOrderKey ==> r.value.header[key] == [input.headers[key]]
  {
    if input.requestMethod == "" || input.requestUrl == "" {
      return Err(MissingMethodOrUrl);
    }

    var body: Option<string> := None;
    if input.requestBody.Some? && input.requestBody.value != "" {
      var ok1 := "content-type" in input.headers;
      var ok2 := "Content-Type" in input.headers;
      if !ok1 && !ok2 {
        return Err(MissingContentType);
      }
      body := input.requestBody;
    }
    if !lib.acceptsRequest(input.requestMethod, input.requestUrl) {
      return Err(RequestObjectFailed);
    }

    var headers: map<string, seq<string>> := map[];
    var pending := input.headers.Keys;
    while pending != {}
      invariant pending <= input.headers.Keys
      invariant headers.Keys == input.headers.Keys - pending
      invariant forall key :: key in headers ==> headers[key] == [input.headers[key]]
      decreases pending
    {
      var key :| key in pending;
      headers := headers[key := [input.headers[key]]];
      pending := pending - {key};
    }

    headers := headers[lib.headerOrderKey := input.headerOrder];

    r := Ok(Request(input.requestMethod, input.requestUrl, body, headers));
  }

  /** The cookie map of a cookie list, each cookie overwriting earlier ones of its name. */
  function CookieMap(lib: Library, cookies: seq<Cookie>): map<string, string>
    decreases |cookies|
  {
    if cookies == [] then map[]
    else
      var last := cookies[|cookies| - 1];
      CookieMap(lib, cookies[..|cookies| - 1])[last.name := lib.cookieString(last)]
  }

  /** Cookie i is the last one of its name. */
  ghost predicate LastOfName(cookies: seq<Cookie>, i: int)
    requires 0 <= i < |cookies|
  {
    forall j :: i < j < |cookies| ==> cookies[j].name != cookies[i].name
  }

  function Names(cookies: seq<Cookie>): set<string>
  {
    set c | c in cookies :: c.name
  }

  /** The map's keys are exactly the cookie names. */
  lemma {:induction false} CookieMapKeys(lib: Library, cookies: seq<Cookie>)
    ensures CookieMap(lib, cookies).Keys == Names(cookies)
    decreases |cookies|
  {
    if cookies != [] {
      var n := |cookies| - 1;
      CookieMapKeys(lib, cookies[..n]);
      assert cookies == cookies[..n] + [cookies[n]];
      assert Names(cookies) == Names(cookies[..n]) + {cookies[n].name};
    }
  }

  /** A name maps to the serialization of the last cookie carrying it. */
  lemma {:induction false} CookieMapLastWins(lib: Library, cookies: seq<Cookie>, i: int)
    requires 0 <= i < |cookies| && LastOfName(cookies, i)
    ensures cookies[i].name in CookieMap(lib, cookies)
    ensures CookieMap(lib, cookies)[cookies[i].name] == lib.cookieString(cookies[i])
    decreases |cookies|
  {
    var n := |cookies| - 1;
    if i < n {
      assert LastOfName(cookies[..n], i);
      CookieMapLastWins(lib, cookies[..n], i);
    }
  }

  /** cookiesToMap: a loop over the cookies that fills the map. */
  method CookiesToMap(lib: Library, cookies: seq<Cookie>) returns (ret: map<string, string>)
    ensures ret == CookieMap(lib, cookies)
    ensures ret.Keys == Names(cookies)
    ensures forall i :: 0 <= i < |cookies| && LastOfName(cookies, i) ==> ret[cookies[i].name] == lib.cookieString(cookies[i])
    ensures cookies == [] ==> ret == map[]
  {
    ret := map[];
    for i := 0 to |cookies|
      invariant ret == CookieMap(lib, cookies[..i])
    {
      assert cookies[..i + 1][..i] == cookies[..i];
      ret := ret[cookies[i].name := lib.cookieString(cookies[i])];
    }
    assert cookies[..|cookies|] == cookies;
    CookieMapKeys(lib, cookies);
    forall i | 0 <= i < |cookies| && LastOfName(cookies, i)
      ensures ret[cookies[i].name] == lib.cookieString(cookies[i])
    {
      CookieMapLastWins(lib, cookies, i);
    }
  }

  /** Two cookies with different names give two keys. */
  lemma DistinctCookiesKeepBoth(lib: Library, a: Cookie, b: Cookie)
    requires a.name != b.name
    ensures CookieMap(lib, [a, b]) == map[a.name := lib.cookieString(a), b.name := lib.cookieString(b)]
    ensures |CookieMap(lib, [a, b])| == 2
  {
    assert [a, b][..1] == [a] && [a][..0] == [];
    assert CookieMap(lib, [a]) == map[a.name := lib.cookieString(a)];
    assert CookieMap(lib, [a, b]) == CookieMap(lib, [a])[b.name := lib.cookieString(b)];
  }

  /** Two cookies with the same name give one key, holding the later cookie. */
  lemma DuplicateCookieLastWins(lib: Library, a: Cookie, b: Cookie)
    requires a.name == b.name
    ensures CookieMap(lib, [a, b]) == map[b.name := lib.cookieString(b)]
  {
    assert [a, b][..1] == [a] && [a][..0] == [];
    assert CookieMap(lib, [a]) == map[a.name := lib.cookieString(a)];
    assert CookieMap(lib, [a, b]) == CookieMap(lib, [a])[b.name := lib.cookieString(b)];
  }

  /**
   BuildResponse: drain the body, then copy the session id, status and headers and
   flatten the cookies; a body that cannot be read is the only failure.
   */
  method BuildResponse(lib: Library, sessionId: string, resp: WireResponse, cookies: seq<Cookie>)
    returns (r: Result<Response>)
    ensures resp.body.Broken? ==> r == Err(BodyReadFailed)
    ensures resp.body.Readable? ==> r.Ok?
    ensures r.Ok? ==>
      && r.value.sessionId == sessionId && r.value.status == resp.statusCode
      && r.value.body == resp.body.content && r.value.headers == resp.header
      && r.value.cookies.Keys == Names(cookies)
      && forall i :: 0 <= i < |cookies| && LastOfName(cookies, i) ==>
           r.value.cookies[cookies[i].name] == lib.cookieString(cookies[i])
  {
    if resp.body.Broken? {
      return Err(BodyReadFailed);
    }
    var respBody := resp.body.content;
    var cookieMap := CookiesToMap(lib, cookies);
    r := Ok(Response(sessionId, resp.statusCode, respBody, resp.header, cookieMap));
  }
}
