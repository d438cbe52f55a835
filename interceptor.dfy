/** The authenticated fetch wrapper that `createApiInterceptor(baseUrl)`
    returns: it adds `Authorization: Bearer <token>` (section 2.1 of RFC 6750)
    to the caller's options, and on a 401 response (section 15.5.2 of
    RFC 9110) refreshes the token once and retries once.  A rejected first
    fetch becomes a synthetic 500 response. */
module Interceptor {
  import opened Js
  import opened Web
  import Auth

  /** The caller's `options` object: `method`, `headers` and `body`;
      `None` is an absent property. */
  datatype Options = Options(httpMethod: Option<string>, headers: Option<map<string, string>>, body: Option<Json>)

  /** The `options = {}` default. */
  const NoOptions := Options(None, None, None)

  /** How the wrapper's promise settles. */
  datatype CallResult = Returned(response: Response) | Threw(error: JsError)

  const AuthorizationHeader := "Authorization"

  function Bearer(token: string): string {
    "Bearer " + token
  }

  /** `options.headers[name]`, reading an absent header object as empty. */
  function HeaderOf(o: Options, name: string): (v: Option<string>)
    ensures v.Some? <==> o.headers.Some? && name in o.headers.value
  {
    if o.headers.Some? && name in o.headers.value then Some(o.headers.value[name]) else None
  }

  /** Lines 20-27: create the header object if absent, then add the Bearer
      header when there is a token and no (truthy) Authorization yet. */
  function Authorize(o: Options, token: Option<string>): (p: Options)
    ensures p.httpMethod == o.httpMethod && p.body == o.body && p.headers.Some?
    ensures Truthy(token) && !Truthy(HeaderOf(o, AuthorizationHeader)) ==>
      p.headers.value == o.headers.GetOr(map[])[AuthorizationHeader := Bearer(token.value)]
    ensures !(Truthy(token) && !Truthy(HeaderOf(o, AuthorizationHeader))) ==>
      p.headers.value == o.headers.GetOr(map[])
  {
    var headers := o.headers.GetOr(map[]);
    if Truthy(token) && !Truthy(HeaderOf(o, AuthorizationHeader)) then
      o.(headers := Some(headers[AuthorizationHeader := Bearer(token.value)]))
    else
      o.(headers := Some(headers))
  }

  /** Line 51: the header overwritten with the refreshed token. */
  function Reauthorize(o: Options, accessToken: string): (p: Options)
    ensures p.httpMethod == o.httpMethod && p.body == o.body
    ensures p.headers == Some(o.headers.GetOr(map[])[AuthorizationHeader := Bearer(accessToken)])
  {
    o.(headers := Some(o.headers.GetOr(map[])[AuthorizationHeader := Bearer(accessToken)]))
  }

  /** `fetch(url, options)`: an absent method is GET. */
  function RequestOf(url: string, o: Options): (req: Request)
    ensures req.url == url && req.body == o.body && req.headers == o.headers.GetOr(map[])
    ensures req.httpMethod == o.httpMethod.GetOr("GET")
  {
    Request(url, o.httpMethod.GetOr("GET"), o.headers.GetOr(map[]), o.body)
  }

  /** Lines 64-73: the JSON document `{ error, details }` of the synthetic response. */
  function ErrorDocument(e: JsError): (doc: Json)
    ensures GetString(doc, "error") == Some(OrElse(Some(e.message), "Network request failed"))
    ensures GetString(doc, "details") == Some(ErrorToString(e))
  {
    var fields := [Field("error", Str(OrElse(Some(e.message), "Network request failed"))),
                   Field("details", Str(ErrorToString(e)))];
    assert LastIndexOf(fields, "details") == 1;
    assert LastIndexOf(fields, "error") == LastIndexOf(fields[..1], "error") == 0;
    Obj(fields)
  }

  /** One call of the wrapper on the browser state `w`: the settled result,
      the new state, and the caller's options object as the call leaves it. */
  function Exchange(server: Server, w: World, url: string, o: Options): (CallResult, World, Options) {
    var o1 := Authorize(o, Auth.TokensOf(w).accessToken);
    var (first, w1) := FetchStep(server, w, RequestOf(url, o1));
    match first
    case Rejected(e) => (Returned(JsonResponse(500, ErrorDocument(e))), w1, o1)
    case Delivered(response) =>
      if response.status != 401 then (Returned(response), w1, o1)
      else
        var (refreshed, w2) := Auth.Refresh(server, w1);
        match refreshed
        case Err(_) => (Returned(response), w2, o1)
        case Ok(tokens) =>
          var o2 := Reauthorize(o1, tokens.accessToken);
          var (retry, w3) := FetchStep(server, w2, RequestOf(url, o2));
          match retry
          case Delivered(r) => (Returned(r), w3, o2)
          case Rejected(e) => (Threw(e), w3, o2)
  }

  /** The caller's `options` object, which the wrapper mutates. */
  class RequestOptions {
    var httpMethod: Option<string>
    var headers: Option<map<string, string>>
    var body: Option<Json>

    function Value(): Options
      reads this
    {
      Options(httpMethod, headers, body)
    }

    constructor (o: Options)
      ensures Value() == o
    {
      httpMethod := o.httpMethod;
      headers := o.headers;
      body := o.body;
    }
  }

  /** The closure `createApiInterceptor(baseUrl)` returns. */
  class ApiClient {
    const baseUrl: string

    constructor (baseUrl: string)
      ensures this.baseUrl == baseUrl
    {
      this.baseUrl := baseUrl;
    }

    /** `apiClient(endpoint, options)`; a `null` options argument stands for an omitted one. */
    method Call(b: Browser, endpoint: string, options: RequestOptions?) returns (r: CallResult, used: RequestOptions)
      modifies b, options
      ensures options != null ==> used == options
      ensures options == null ==> fresh(used)
      ensures (r, b.State(), used.Value()) ==
        Exchange(b.server, old(b.State()), baseUrl + endpoint, if options == null then NoOptions else old(options.Value()))
    {
      if options == null {
        used := new RequestOptions(NoOptions);
      } else {
        used := options;
      }
      var url := baseUrl + endpoint;
      var stored := Auth.GetStoredTokens(b);
      if used.headers.None? {
        used.headers := Some(map[]);
      }
      if Truthy(stored.accessToken) && !Truthy(HeaderOf(used.Value(), AuthorizationHeader)) {
        used.headers := Some(used.headers.value[AuthorizationHeader := Bearer(stored.accessToken.value)]);
      }
      var first := b.Fetch(RequestOf(url, used.Value()));
      if first.Rejected? {
        r := Returned(JsonResponse(500, ErrorDocument(first.error)));
        return;
      }
      var response := first.response;
      if response.status != 401 {
        r := Returned(response);
        return;
      }
      var refreshed := Auth.RefreshAccessToken(b);
      if refreshed.Err? {
        r := Returned(response);
        return;
      }
      used.headers := Some(used.headers.value[AuthorizationHeader := Bearer(refreshed.value.accessToken)]);
      var retry := b.Fetch(RequestOf(url, used.Value()));
      r := if retry.Delivered? then Returned(retry.response) else Threw(retry.error);
    }
  }

  // ---------------------------------------------------------------------
  // Properties of one call

  /** The first request: the caller's headers plus `Bearer <token>` when a
      token is stored and the caller set no Authorization; an Authorization
      the caller set is kept, and with no token none is added. */
  lemma FirstRequestHeaders(server: Server, w: World, url: string, o: Options)
    ensures var w' := Exchange(server, w, url, o).1;
      var token := Auth.TokensOf(w).accessToken;
      var sent := w'.requests[|w.requests|].headers;
      && |w'.requests| > |w.requests| && w'.requests[..|w.requests|] == w.requests
      && w'.requests[|w.requests|].url == url
      && (Truthy(token) && !Truthy(HeaderOf(o, AuthorizationHeader)) ==>
            sent == o.headers.GetOr(map[])[AuthorizationHeader := Bearer(token.value)])
      && (Truthy(HeaderOf(o, AuthorizationHeader)) ==> sent == o.headers.GetOr(map[]) && sent[AuthorizationHeader] == HeaderOf(o, AuthorizationHeader).value)
      && (!Truthy(token) ==> sent == o.headers.GetOr(map[]))
  {
    CallLog(server, w, url, o);
  }

  /** The requests a call adds to the log: the first request, then possibly
      the refresh request, then possibly one retry to the same URL. */
  lemma CallLog(server: Server, w: World, url: string, o: Options)
    ensures var w' := Exchange(server, w, url, o).1;
      var added := w'.requests[|w.requests|..];
      && |w.requests| < |w'.requests| <= |w.requests| + 3
      && w'.requests[..|w.requests|] == w.requests
      && added[0] == RequestOf(url, Authorize(o, Auth.TokensOf(w).accessToken))
      && (|added| >= 2 ==> added[1].url == Auth.AuthApiBaseUrl + Auth.RefreshTokenPath)
      && (|added| == 3 ==> added[2].url == url)
  {
    var o1 := Authorize(o, Auth.TokensOf(w).accessToken);
    var (first, w1) := FetchStep(server, w, RequestOf(url, o1));
    if first.Delivered? && first.response.status == 401 {
      Auth.RefreshFetchesAtMostOnce(server, w1);
      var (refreshed, w2) := Auth.Refresh(server, w1);
      assert |w2.requests| == |w1.requests| ==> w2.requests == w1.requests;
    }
  }

  /** How many of the requests go to `url`. */
  function CountUrl(requests: seq<Request>, url: string): (n: nat)
    ensures n <= |requests|
  {
    if |requests| == 0 then 0
    else CountUrl(requests[..|requests| - 1], url) + (if requests[|requests| - 1].url == url then 1 else 0)
  }

  /** Each call fetches the caller's URL at most twice: there is no retry loop. */
  lemma AtMostTwoFetchesOfUrl(server: Server, w: World, url: string, o: Options)
    requires url != Auth.AuthApiBaseUrl + Auth.RefreshTokenPath
    ensures var w' := Exchange(server, w, url, o).1;
      CountUrl(w'.requests[|w.requests|..], url) <= 2
  {
    CallLog(server, w, url, o);
    var w' := Exchange(server, w, url, o).1;
    var added := w'.requests[|w.requests|..];
    if |added| == 3 {
      assert added[..2][..1] == added[..1];
      assert CountUrl(added[..2], url) == CountUrl(added[..1], url);
    }
  }

  /** A first response other than 401 is returned as is, after exactly one fetch. */
  lemma Non401Passthrough(server: Server, w: World, url: string, o: Options)
    requires var req := RequestOf(url, Authorize(o, Auth.TokensOf(w).accessToken));
      server(req, |w.requests|).Delivered? && server(req, |w.requests|).response.status != 401
    ensures var (r, w', _) := Exchange(server, w, url, o);
      var req := RequestOf(url, Authorize(o, Auth.TokensOf(w).accessToken));
      && r == Returned(server(req, |w.requests|).response)
      && w' == w.(requests := w.requests + [req])
  {
  }

  /** A 401 followed by a successful refresh: the Authorization header is
      overwritten with the new token, exactly one retry is sent, and the
      caller gets the retry's outcome, including its rejection. */
  lemma RetryAfterRefresh(server: Server, w: World, url: string, o: Options)
    requires var req := RequestOf(url, Authorize(o, Auth.TokensOf(w).accessToken));
      && server(req, |w.requests|).Delivered? && server(req, |w.requests|).response.status == 401
      && Auth.Refresh(server, w.(requests := w.requests + [req])).0.Ok?
    ensures var (r, w', o') := Exchange(server, w, url, o);
      var o1 := Authorize(o, Auth.TokensOf(w).accessToken);
      var (refreshed, w2) := Auth.Refresh(server, w.(requests := w.requests + [RequestOf(url, o1)]));
      var retry := RequestOf(url, o');
      && o' == Reauthorize(o1, refreshed.value.accessToken)
      && retry.headers[AuthorizationHeader] == Bearer(refreshed.value.accessToken)
      && w' == w2.(requests := w2.requests + [retry])
      && (server(retry, |w2.requests|).Delivered? ==> r == Returned(server(retry, |w2.requests|).response))
      && (server(retry, |w2.requests|).Rejected? ==> r == Threw(server(retry, |w2.requests|).error))
  {
  }

  /** A 401 whose refresh fails: the original 401 response is returned and
      the caller's URL is not fetched again. */
  lemma OriginalResponseWhenRefreshFails(server: Server, w: World, url: string, o: Options)
    requires var req := RequestOf(url, Authorize(o, Auth.TokensOf(w).accessToken));
      && server(req, |w.requests|).Delivered? && server(req, |w.requests|).response.status == 401
      && Auth.Refresh(server, w.(requests := w.requests + [req])).0.Err?
    ensures var (r, w', _) := Exchange(server, w, url, o);
      var req := RequestOf(url, Authorize(o, Auth.TokensOf(w).accessToken));
      && r == Returned(server(req, |w.requests|).response)
      && w' == Auth.Refresh(server, w.(requests := w.requests + [req])).1
  {
  }

  /** A rejected first fetch settles as a 500 JSON response carrying
      `error.message || 'Network request failed'` and `error.toString()`;
      nothing else happens. */
  lemma NetworkFailureBecomes500(server: Server, w: World, url: string, o: Options)
    requires server(RequestOf(url, Authorize(o, Auth.TokensOf(w).accessToken)), |w.requests|).Rejected?
    ensures var (r, w', _) := Exchange(server, w, url, o);
      var e := server(RequestOf(url, Authorize(o, Auth.TokensOf(w).accessToken)), |w.requests|).error;
      && r.Returned? && r.response.status == 500 && !r.response.Ok()
      && r.response.headers["Content-Type"] == "application/json"
      && r.response.body.parsed == Ok(ErrorDocument(e))
      && w'.storage == w.storage && |w'.requests| == |w.requests| + 1
  {
  }

  /** The wrapper throws only when the retry is rejected: the 500 conversion
      does not cover the retry, which is returned without being awaited. */
  lemma ThrowsOnlyOnRetry(server: Server, w: World, url: string, o: Options)
    ensures var (r, w', _) := Exchange(server, w, url, o);
      r.Threw? ==> |w'.requests| >= |w.requests| + 2 && server(w'.requests[|w'.requests| - 1], |w'.requests| - 1) == Rejected(r.error)
  {
  }

  /** The options object is left with a header object; after a retry it
      holds the refreshed Bearer header. */
  lemma OptionsMutated(server: Server, w: World, url: string, o: Options)
    ensures var (r, w', o') := Exchange(server, w, url, o);
      && o'.headers.Some? && o'.httpMethod == o.httpMethod && o'.body == o.body
      && (|w'.requests| == |w.requests| + 3 ==>
            && Auth.TokensOf(w').accessToken.Some?
            && AuthorizationHeader in o'.headers.value
            && o'.headers.value[AuthorizationHeader] == Bearer(Auth.TokensOf(w').accessToken.value))
  {
    CallLog(server, w, url, o);
    var o1 := Authorize(o, Auth.TokensOf(w).accessToken);
    var (first, w1) := FetchStep(server, w, RequestOf(url, o1));
    if first.Delivered? && first.response.status == 401 {
      var (refreshed, w2) := Auth.Refresh(server, w1);
      if refreshed.Ok? {
        Auth.RefreshSuccess(server, w1);
      }
    }
  }
}
