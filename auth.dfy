/** The token store and the two authentication flows: logging in, and
    trading the stored refresh token for a new access token.  Tokens live in
    `localStorage` under `accessToken` and `refreshToken`. */
module Auth {
  import opened Js
  import opened Text
  import opened Web

  const AuthApiBaseUrl := "http://3.16.246.83:8088/api/v1"
  const LoginPath := "/auth/login/"
  const RefreshTokenPath := "/auth/refresh-token"

  const AccessTokenKey := "accessToken"
  const RefreshTokenKey := "refreshToken"
  const UserKey := "user"

  /** Where a failed refresh sends the user. */
  const LoginRoute := "/login"

  /** What `getStoredTokens` returns; `None` is `null`. */
  datatype StoredTokens = StoredTokens(accessToken: Option<string>, refreshToken: Option<string>)

  /** The `{ accessToken, refreshToken }` a successful refresh resolves with. */
  datatype NewTokens = NewTokens(accessToken: string, refreshToken: string)

  // ---------------------------------------------------------------------
  // The token store, as functions of the browser state

  /** `getStoredTokens()` */
  function TokensOf(w: World): (t: StoredTokens)
    ensures t.accessToken == StoredItem(w, AccessTokenKey)
    ensures t.refreshToken == StoredItem(w, RefreshTokenKey)
  {
    StoredTokens(StoredItem(w, AccessTokenKey), StoredItem(w, RefreshTokenKey))
  }

  /** The state after `storeTokens(accessToken, refreshToken)`. */
  function TokensStored(w: World, accessToken: string, refreshToken: string): World {
    WithItem(WithItem(w, AccessTokenKey, accessToken), RefreshTokenKey, refreshToken)
  }

  /** The state after `clearTokens()` (the `chrome.storage` mirror is not part of this model). */
  function TokensCleared(w: World): World {
    WithoutItem(WithoutItem(WithoutItem(w, AccessTokenKey), RefreshTokenKey), UserKey)
  }

  /** Storing two tokens and reading them back gives the same two tokens; nothing else in the store moves. */
  lemma StoreThenGet(w: World, accessToken: string, refreshToken: string)
    ensures TokensOf(TokensStored(w, accessToken, refreshToken)) == StoredTokens(Some(accessToken), Some(refreshToken))
    ensures forall k :: k != AccessTokenKey && k != RefreshTokenKey ==>
      StoredItem(TokensStored(w, accessToken, refreshToken), k) == StoredItem(w, k)
  {
  }

  /** Clearing removes exactly the two tokens and the cached user. */
  lemma ClearRemovesCredentials(w: World)
    ensures TokensOf(TokensCleared(w)) == StoredTokens(None, None)
    ensures StoredItem(TokensCleared(w), UserKey) == None
    ensures forall k :: k != AccessTokenKey && k != RefreshTokenKey && k != UserKey ==>
      StoredItem(TokensCleared(w), k) == StoredItem(w, k)
    ensures TokensCleared(w).requests == w.requests
  {
  }

  // ---------------------------------------------------------------------
  // The token store, on the browser

  method GetStoredTokens(b: Browser) returns (t: StoredTokens)
    ensures t == TokensOf(b.State())
  {
    var a := b.GetItem(AccessTokenKey);
    var r := b.GetItem(RefreshTokenKey);
    t := StoredTokens(a, r);
  }

  method StoreTokens(b: Browser, accessToken: string, refreshToken: string)
    modifies b
    ensures b.State() == TokensStored(old(b.State()), accessToken, refreshToken)
  {
    b.SetItem(AccessTokenKey, accessToken);
    b.SetItem(RefreshTokenKey, refreshToken);
  }

  method ClearTokens(b: Browser)
    modifies b
    ensures b.State() == TokensCleared(old(b.State()))
  {
    b.RemoveItem(AccessTokenKey);
    b.RemoveItem(RefreshTokenKey);
    b.RemoveItem(UserKey);
  }

  // ---------------------------------------------------------------------
  // Responses

  /** `handleApiResponse` of this file: a non-OK response throws the body's
      `message` when it is truthy (as `new Error` prints it), or "API request
      failed"; an OK one yields its parsed body. */
  function HandleApiResponse(resp: Response): (r: Result<Json>)
    ensures resp.Ok() ==> r == resp.body.parsed
    ensures !resp.Ok() ==> r.Err?
    ensures !resp.Ok() && resp.body.parsed.Err? ==> r == Err(resp.body.parsed.error)
    ensures !resp.Ok() && resp.body.parsed == Ok(Null) ==> r == Err(NullPropertyError("message"))
    ensures !resp.Ok() && resp.body.parsed.Ok? && !resp.body.parsed.value.Null? ==>
      r == Err(NewError(TextOr(Get(resp.body.parsed.value, "message"), "API request failed")))
  {
    if !resp.Ok() then
      match resp.body.parsed
      case Err(e) => Err(e)
      case Ok(errorData) =>
        if errorData.Null? then Err(NullPropertyError("message"))
        else Err(NewError(TextOr(Get(errorData, "message"), "API request failed")))
    else resp.body.parsed
  }

  /** `error.message` names a transient network failure. */
  predicate IsNetworkError(message: string) {
    Contains(message, "NetworkError") || Contains(message, "Failed to fetch")
  }

  /** A string without some character of `sub` cannot contain `sub`. */
  lemma MissingCharNotContained(s: string, sub: string, c: char)
    requires c in sub && c !in s
    ensures !Contains(s, sub)
  {
  }

  /** Messages with neither an upper-case `E` nor an upper-case `F` are not network errors. */
  lemma NotNetworkError(message: string)
    requires 'E' !in message && 'F' !in message
    ensures !IsNetworkError(message)
  {
    assert "NetworkError"[7] == 'E';
    MissingCharNotContained(message, "NetworkError", 'E');
    assert "Failed to fetch"[0] == 'F';
    MissingCharNotContained(message, "Failed to fetch", 'F');
  }

  // ---------------------------------------------------------------------
  // Login

  const LoginHeaders: map<string, string> := map[
    "Content-Type" := "application/json",
    "Accept" := "application/json",
    "Access-Control-Allow-Origin" := "*",
    "Access-Control-Allow-Methods" := "POST, GET, OPTIONS",
    "Access-Control-Allow-Headers" := "Content-Type, Authorization"]

  /** The login POST: `{ username: email, password }`. */
  function LoginRequest(email: string, password: string): (req: Request)
    ensures req.url == AuthApiBaseUrl + LoginPath && req.httpMethod == "POST"
    ensures req.body == Some(Obj([Field("username", Str(email)), Field("password", Str(password))]))
  {
    Request(AuthApiBaseUrl + LoginPath, "POST", LoginHeaders,
      Some(Obj([Field("username", Str(email)), Field("password", Str(password))])))
  }

  /** What `AuthLogin` makes of the login fetch: the data it resolves with and
      the tokens it stores (`setItem` keeps `String` of each truthy field), or
      the error it throws. */
  function LoginResult(outcome: FetchOutcome): (r: Result<(Json, NewTokens)>)
    ensures r.Ok? ==> (
      && outcome.Delivered? && outcome.response.Ok()
      && outcome.response.body.parsed == Ok(r.value.0)
      && Present(Get(r.value.0, "access_token")) && Present(Get(r.value.0, "refresh_token"))
      && r.value.1.accessToken == ValueString(Get(r.value.0, "access_token").value)
      && r.value.1.refreshToken == ValueString(Get(r.value.0, "refresh_token").value))
  {
    match outcome
    case Rejected(e) => Err(e)
    case Delivered(resp) =>
      match HandleApiResponse(resp)
      case Err(e) => Err(e)
      case Ok(data) =>
        if data.Null? then Err(NullPropertyError("access"))
        else
          var accessToken := Get(data, "access_token");
          var refreshToken := Get(data, "refresh_token");
          if Present(accessToken) && Present(refreshToken) then
            Ok((data, NewTokens(ValueString(accessToken.value), ValueString(refreshToken.value))))
          else
            Err(NewError("Login failed: No tokens received"))
  }

  /** `AuthLogin(email, password)` as a function of the browser state. */
  function Login(server: Server, w: World, email: string, password: string): (Result<Json>, World) {
    var (outcome, w1) := FetchStep(server, w, LoginRequest(email, password));
    match LoginResult(outcome)
    case Ok((data, t)) => (Ok(data), TokensStored(w1, t.accessToken, t.refreshToken))
    case Err(e) => (Err(e), w1)
  }

  method AuthLogin(b: Browser, email: string, password: string) returns (r: Result<Json>)
    modifies b
    ensures (r, b.State()) == Login(b.server, old(b.State()), email, password)
  {
    var outcome := b.Fetch(LoginRequest(email, password));
    match LoginResult(outcome)
    case Ok((data, t)) =>
      StoreTokens(b, t.accessToken, t.refreshToken);
      r := Ok(data);
    case Err(e) =>
      r := Err(e);
  }

  /** A login sends exactly one request; it changes the store only when it
      succeeds, and then it stores exactly the two token fields of the data
      it resolves with, as `String` prints them. */
  lemma LoginEffect(server: Server, w: World, email: string, password: string)
    ensures var (r, w') := Login(server, w, email, password);
      && w'.requests == w.requests + [LoginRequest(email, password)]
      && w'.navigations == w.navigations && w'.reloads == w.reloads
      && (r.Err? ==> w'.storage == w.storage)
      && (r.Ok? ==>
            && Present(Get(r.value, "access_token")) && Present(Get(r.value, "refresh_token"))
            && w'.storage == w.storage[AccessTokenKey := ValueString(Get(r.value, "access_token").value)]
                                      [RefreshTokenKey := ValueString(Get(r.value, "refresh_token").value)])
  {
    var (r, w') := Login(server, w, email, password);
    var (outcome, w1) := FetchStep(server, w, LoginRequest(email, password));
    if r.Ok? {
      var t := LoginResult(outcome).value.1;
      assert w'.storage == w.storage[AccessTokenKey := t.accessToken][RefreshTokenKey := t.refreshToken];
    }
  }

  /** A non-OK login response throws the body's message (or the fallback)
      before anything is stored. */
  lemma LoginRejectsNonOk(server: Server, w: World, email: string, password: string)
    requires server(LoginRequest(email, password), |w.requests|).Delivered?
    requires !server(LoginRequest(email, password), |w.requests|).response.Ok()
    ensures var (r, w') := Login(server, w, email, password);
      var resp := server(LoginRequest(email, password), |w.requests|).response;
      && r.Err? && w'.storage == w.storage
      && (resp.body.parsed.Ok? && !resp.body.parsed.value.Null? ==>
            r.error.message == TextOr(Get(resp.body.parsed.value, "message"), "API request failed"))
  {
  }

  /** On an OK response with a non-null body, the login succeeds exactly when
      both snake_case token fields are truthy, and then stores them as `String`
      prints them. */
  lemma LoginNeedsBothTokens(server: Server, w: World, email: string, password: string)
    requires server(LoginRequest(email, password), |w.requests|).Delivered?
    requires var resp := server(LoginRequest(email, password), |w.requests|).response;
      resp.Ok() && resp.body.parsed.Ok? && !resp.body.parsed.value.Null?
    ensures var (r, w') := Login(server, w, email, password);
      var data := server(LoginRequest(email, password), |w.requests|).response.body.parsed.value;
      var a := Get(data, "access_token");
      var rt := Get(data, "refresh_token");
      && (r.Ok? <==> Present(a) && Present(rt))
      && (r.Ok? ==> r.value == data && TokensOf(w') == StoredTokens(TruthyText(a), TruthyText(rt)))
      && (r.Err? ==> r.error == NewError("Login failed: No tokens received") && w'.storage == w.storage)
  {
  }

  // ---------------------------------------------------------------------
  // Refresh

  /** The refresh POST: `{ refresh_token }`. */
  function RefreshRequest(refreshToken: string): (req: Request)
    ensures req.url == AuthApiBaseUrl + RefreshTokenPath && req.httpMethod == "POST"
    ensures req.body == Some(Obj([Field("refresh_token", Str(refreshToken))]))
  {
    Request(AuthApiBaseUrl + RefreshTokenPath, "POST", map["Content-Type" := "application/json"],
      Some(Obj([Field("refresh_token", Str(refreshToken))])))
  }

  /** The new access token: `data.accessToken || data.access_token`. */
  function NewAccessToken(data: Json): (t: Option<Json>)
    ensures Present(t) <==> Present(Get(data, "accessToken")) || Present(Get(data, "access_token"))
    ensures Present(Get(data, "accessToken")) ==> t == Get(data, "accessToken")
    ensures !Present(Get(data, "accessToken")) ==> t == Get(data, "access_token")
  {
    if Present(Get(data, "accessToken")) then Get(data, "accessToken") else Get(data, "access_token")
  }

  /** The new refresh token `data.refreshToken || data.refresh_token || previous`,
      as `setItem` stores it. */
  function NewRefreshToken(data: Json, previous: string): (t: string)
    ensures Present(Get(data, "refreshToken")) ==> t == ValueString(Get(data, "refreshToken").value)
    ensures !Present(Get(data, "refreshToken")) && Present(Get(data, "refresh_token")) ==>
      t == ValueString(Get(data, "refresh_token").value)
    ensures !Present(Get(data, "refreshToken")) && !Present(Get(data, "refresh_token")) ==> t == previous
  {
    if Present(Get(data, "refreshToken")) then ValueString(Get(data, "refreshToken").value)
    else TextOr(Get(data, "refresh_token"), previous)
  }

  /** What the refresh fetch gives: the new tokens, or the error thrown in the `try` block. */
  function RefreshResult(outcome: FetchOutcome, previous: string): (r: Result<NewTokens>)
    ensures r.Ok? ==> (
      && outcome.Delivered? && outcome.response.Ok() && outcome.response.body.parsed.Ok?
      && Present(NewAccessToken(outcome.response.body.parsed.value))
      && r.value.accessToken == ValueString(NewAccessToken(outcome.response.body.parsed.value).value)
      && r.value.refreshToken == NewRefreshToken(outcome.response.body.parsed.value, previous))
  {
    match outcome
    case Rejected(e) => Err(e)
    case Delivered(resp) =>
      if !resp.Ok() then Err(NewError("Token refresh failed with status: " + IntToString(resp.status)))
      else
        match HandleApiResponse(resp)
        case Err(e) => Err(e)
        case Ok(data) =>
          if data.Null? then Err(NullPropertyError("accessToken"))
          else
            var accessToken := NewAccessToken(data);
            if Present(accessToken) then Ok(NewTokens(ValueString(accessToken.value), NewRefreshToken(data, previous)))
            else Err(NewError("Token refresh failed: No access token received"))
  }

  /** The `try` block of `refreshAccessToken`. */
  function RefreshAttempt(server: Server, w: World): (Result<NewTokens>, World) {
    var previous := TokensOf(w).refreshToken;
    if !Truthy(previous) then (Err(NewError("No refresh token available")), w)
    else
      var (outcome, w1) := FetchStep(server, w, RefreshRequest(previous.value));
      match RefreshResult(outcome, previous.value)
      case Ok(t) => (Ok(t), TokensStored(w1, t.accessToken, t.refreshToken))
      case Err(e) => (Err(e), w1)
  }

  /** The state after a failure that is not a network error: logged out,
      told to navigate to the login route, and asked to reload. */
  function LoggedOut(w: World): World {
    TokensCleared(w).(navigations := w.navigations + [LoginRoute], reloads := w.reloads + 1)
  }

  /** `refreshAccessToken()` as a function of the browser state. The error,
      if any, is always rethrown. */
  function Refresh(server: Server, w: World): (Result<NewTokens>, World) {
    var (r, w1) := RefreshAttempt(server, w);
    match r
    case Ok(_) => (r, w1)
    case Err(e) => (r, if IsNetworkError(e.message) then w1 else LoggedOut(w1))
  }

  method RefreshAccessToken(b: Browser) returns (r: Result<NewTokens>)
    modifies b
    ensures (r, b.State()) == Refresh(b.server, old(b.State()))
  {
    var stored := GetStoredTokens(b);
    var previous := stored.refreshToken;
    if !Truthy(previous) {
      r := Err(NewError("No refresh token available"));
    } else {
      var outcome := b.Fetch(RefreshRequest(previous.value));
      r := RefreshResult(outcome, previous.value);
      if r.Ok? {
        StoreTokens(b, r.value.accessToken, r.value.refreshToken);
      }
    }
    if r.Err? && !IsNetworkError(r.error.message) {
      ClearTokens(b);
      b.DispatchNavigation(LoginRoute);
      b.Reload();
    }
  }

  /** Without a stored refresh token, refreshing throws before any fetch,
      and the user is logged out. */
  lemma RefreshWithoutToken(server: Server, w: World)
    requires !Truthy(TokensOf(w).refreshToken)
    ensures var (r, w') := Refresh(server, w);
      && r == Err(NewError("No refresh token available"))
      && w' == LoggedOut(w) && w'.requests == w.requests
  {
    NotNetworkError("No refresh token available");
  }

  /** A non-OK refresh response throws "Token refresh failed with status: <status>"
      and logs the user out. */
  lemma RefreshNonOk(server: Server, w: World)
    requires Truthy(TokensOf(w).refreshToken)
    requires server(RefreshRequest(TokensOf(w).refreshToken.value), |w.requests|).Delivered?
    requires !server(RefreshRequest(TokensOf(w).refreshToken.value), |w.requests|).response.Ok()
    ensures var (r, w') := Refresh(server, w);
      var resp := server(RefreshRequest(TokensOf(w).refreshToken.value), |w.requests|).response;
      && r == Err(NewError("Token refresh failed with status: " + IntToString(resp.status)))
      && w' == LoggedOut(w.(requests := w.requests + [RefreshRequest(TokensOf(w).refreshToken.value)]))
  {
    var resp := server(RefreshRequest(TokensOf(w).refreshToken.value), |w.requests|).response;
    var m := "Token refresh failed with status: " + IntToString(resp.status);
    IntToStringChars(resp.status);
    assert 'E' !in m && 'F' !in m by {
      forall k | 0 <= k < |m| ensures m[k] != 'E' && m[k] != 'F' {
        if k >= 34 {
          assert m[k] == IntToString(resp.status)[k - 34];
        }
      }
    }
    NotNetworkError(m);
  }

  /** Every character of a rendered integer is a digit or the minus sign. */
  lemma IntToStringChars(n: int)
    ensures forall k :: 0 <= k < |IntToString(n)| ==> IntToString(n)[k] == '-' || '0' <= IntToString(n)[k] <= '9'
  {
  }

  /** A successful refresh stores the new tokens and resolves with them: the
      access token comes from `accessToken` or else `access_token`, the refresh
      token from `refreshToken`, else `refresh_token`, else the stored one. */
  lemma RefreshSuccess(server: Server, w: World)
    ensures var (r, w') := Refresh(server, w);
      r.Ok? ==>
        && Truthy(TokensOf(w).refreshToken)
        && var outcome := server(RefreshRequest(TokensOf(w).refreshToken.value), |w.requests|);
        && outcome.Delivered? && outcome.response.Ok() && outcome.response.body.parsed.Ok?
        && var data := outcome.response.body.parsed.value;
        && Present(NewAccessToken(data)) && r.value.accessToken == ValueString(NewAccessToken(data).value)
        && r.value.refreshToken == NewRefreshToken(data, TokensOf(w).refreshToken.value)
        && TokensOf(w') == StoredTokens(Some(r.value.accessToken), Some(r.value.refreshToken))
        && w'.requests == w.requests + [RefreshRequest(TokensOf(w).refreshToken.value)]
        && w'.navigations == w.navigations && w'.reloads == w.reloads
  {
  }

  /** The failure policy: every refresh error is rethrown; one whose message
      looks like a network failure leaves the browser as the attempt left it
      (store untouched), any other logs the user out. */
  lemma RefreshFailurePolicy(server: Server, w: World)
    ensures var (r, w') := Refresh(server, w);
      r.Err? ==>
        && var attempt := RefreshAttempt(server, w).1;
        && attempt.storage == w.storage
        && (IsNetworkError(r.error.message) ==> w' == attempt)
        && (!IsNetworkError(r.error.message) ==> w' == LoggedOut(attempt))
  {
  }

  /** A refresh issues at most one fetch, and that fetch is the refresh request. */
  lemma RefreshFetchesAtMostOnce(server: Server, w: World)
    ensures var w' := Refresh(server, w).1;
      || w'.requests == w.requests
      || (Truthy(TokensOf(w).refreshToken) && w'.requests == w.requests + [RefreshRequest(TokensOf(w).refreshToken.value)])
  {
  }
}
