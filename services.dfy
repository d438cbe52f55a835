/** The request pattern the two HCC services share.  Each method reads the
    access token from storage, sends one `fetch` carrying
    `Authorization: Bearer ${token}` (section 2.1 of RFC 6750) without the
    interceptor (so a 401 is never refreshed), throws a per-method error on
    a non-OK status and otherwise hands the response to `handleApiResponse`.
    Every `catch` block logs and rethrows the same error. */
module Services {
  import opened Js
  import opened Web
  import opened Text
  import ApiConfig
  import Auth

  /** The value of the Authorization header: a missing token is interpolated as "null". */
  function BearerValue(token: Option<string>): (v: string)
    ensures token.Some? ==> v == "Bearer " + token.value
    ensures token.None? ==> v == "Bearer null"
  {
    "Bearer " + (if token.Some? then token.value else "null")
  }

  /** The header object every service method sends. */
  function ServiceHeaders(token: Option<string>): (h: map<string, string>)
    ensures h.Keys == {"Content-Type", "Authorization"}
    ensures h["Content-Type"] == "application/json"
    ensures h["Authorization"] == BearerValue(token)
  {
    map["Content-Type" := "application/json", "Authorization" := BearerValue(token)]
  }

  /** How a method words the error it throws for a non-OK response. */
  datatype FailureRule =
    | FixedMessage(message: string)
      // `(await response.json().catch(() => ({}))).message || fallback`
    | BodyMessage(fallback: string)

  /** What a service method sends, and how it reports a non-OK status. */
  datatype ServiceCall = ServiceCall(request: Request, failure: FailureRule)

  /** The keys of the JSON body the call sends, in order (none when it sends no object). */
  function BodyKeys(c: ServiceCall): seq<string> {
    if c.request.body.Some? && c.request.body.value.Obj? then Keys(c.request.body.value.fields) else []
  }

  /** `body[key]` of the JSON body the call sends. */
  function BodyField(c: ServiceCall, key: string): Option<Json> {
    if c.request.body.Some? then Get(c.request.body.value, key) else None
  }

  /** The error thrown for a non-OK response: `new Error(errorData.message ||
      fallback)`, which prints a truthy non-string message.  An unparsable
      body becomes `{}`, so the fallback is used; a body that parses to
      `null` makes `errorData.message` throw. */
  function FailureError(rule: FailureRule, resp: Response): (e: JsError)
    ensures rule.FixedMessage? ==> e == NewError(rule.message)
    ensures rule.BodyMessage? && resp.body.parsed.Err? ==> e == NewError(rule.fallback)
    ensures rule.BodyMessage? && resp.body.parsed.Ok? && !resp.body.parsed.value.Null? ==>
      e == NewError(TextOr(Get(resp.body.parsed.value, "message"), rule.fallback))
    ensures rule.BodyMessage? && resp.body.parsed == Ok(Null) ==> e == NullPropertyError("message")
  {
    match rule
    case FixedMessage(m) => NewError(m)
    case BodyMessage(fallback) =>
      match resp.body.parsed
      case Err(_) => NewError(fallback)
      case Ok(errorData) =>
        match ReadProperty(errorData, "message")
        case Err(e) => e
        case Ok(_) => NewError(TextOr(Get(errorData, "message"), fallback))
  }

  /** How the method's promise settles for one fetch outcome: a rejected
      fetch is rethrown as is, a non-OK status throws the method's error,
      and an OK response is what `handleApiResponse` returns. */
  function Settle(outcome: FetchOutcome, rule: FailureRule): (r: Result<Json>)
    ensures outcome.Rejected? ==> r == Err(outcome.error)
    ensures outcome.Delivered? && !outcome.response.Ok() ==> r == Err(FailureError(rule, outcome.response))
    ensures outcome.Delivered? && outcome.response.Ok() ==> r == outcome.response.body.parsed
  {
    match outcome
    case Rejected(e) => Err(e)
    case Delivered(resp) =>
      if !resp.Ok() then Err(FailureError(rule, resp))
      else ApiConfig.HandleApiResponse(resp)
  }

  /** One service method on the browser state `w`: `build` is the method's
      request builder applied to everything but the token. */
  function Perform(server: Server, w: World, build: Option<string> -> ServiceCall): (Result<Json>, World) {
    var call := build(Auth.TokensOf(w).accessToken);
    var (outcome, w1) := FetchStep(server, w, call.request);
    (Settle(outcome, call.failure), w1)
  }

  /** The shared body of every service method. */
  method Send(b: Browser, build: Option<string> -> ServiceCall) returns (r: Result<Json>)
    modifies b
    ensures (r, b.State()) == Perform(b.server, old(b.State()), build)
  {
    var token := b.GetItem(Auth.AccessTokenKey);
    var call := build(token);
    var outcome := b.Fetch(call.request);
    r := Settle(outcome, call.failure);
  }

  /** A service method sends exactly the request built from the stored
      token, touches nothing else, and a 401 is an ordinary failure: there
      is no refresh and no retry. */
  lemma SingleFetchNoRefresh(server: Server, w: World, build: Option<string> -> ServiceCall)
    ensures var (r, w1) := Perform(server, w, build);
      && w1 == w.(requests := w.requests + [build(StoredItem(w, Auth.AccessTokenKey)).request])
      && (var outcome := server(build(StoredItem(w, Auth.AccessTokenKey)).request, |w.requests|);
          outcome.Delivered? && outcome.response.status == 401 ==> r.Err?)
  {
  }
}
