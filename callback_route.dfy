/**
 * `GET /api/auth/jira/callback`: the end of the OAuth 2.0 authorization-code
 * flow. The state cookie is consumed, the query is checked (upstream error,
 * state, code, in that order), the code is exchanged for tokens, the cloud id
 * and the user are fetched, and the browser is redirected to the dashboard or
 * back to the login page with an error code.
 *
 * `CallbackSpec` gives the redirect and the final jar and request log for every
 * input; `Callback` performs the handler against the request's jar and network.
 */
module CallbackRoute {
  import opened Wrappers
  import opened Js
  import opened Cookies
  import opened Sealing
  import opened Http
  import opened JiraTypes
  import opened AuthService
  import opened JiraService
  import RedirectRoute

  const TokenUrl := "https://auth.atlassian.com/oauth/token"

  /** `code`, `state`, `error` and `error_description` from the query string. */
  datatype CallbackQuery = CallbackQuery(
    code: Option<string>,
    state: Option<string>,
    error: Option<string>,
    errorDescription: Option<string>)

  /** `ATLASSIAN_CLIENT_ID`, `ATLASSIAN_CLIENT_SECRET`, `ATLASSIAN_REDIRECT_URI`. */
  datatype ExchangeCredentials = ExchangeCredentials(
    clientId: Option<string>,
    clientSecret: Option<string>,
    redirectUri: Option<string>)

  /** The POST to the token endpoint for `code`. */
  function TokenRequest(creds: ExchangeCredentials, code: string): Request {
    Request(Post, TokenUrl, map["Content-Type" := "application/json"],
      TokenExchangeBody("authorization_code", creds.clientId, creds.clientSecret, code, creds.redirectUri))
  }

  function LoginRedirect(appUrl: string, query: seq<(string, string)>): Location {
    Location(appUrl + "/login", query)
  }

  function DashboardRedirect(appUrl: string): Location {
    Location(appUrl + "/dashboard", [])
  }

  /** Where the browser is sent, and the jar and request log afterwards. */
  datatype Outcome = Outcome(location: Location, after: State)

  /** `errorData.error_description || errorData.error || 'token_exchange_failed'`. */
  function ExchangeFailureDetail(p: Payload): (detail: string)
    ensures p.OAuthErrorBody? && Truthy(p.errorDescription) ==> detail == p.errorDescription.value
    ensures p.OAuthErrorBody? && !Truthy(p.errorDescription) && Truthy(p.error) ==> detail == p.error.value
    ensures !(p.OAuthErrorBody? && (Truthy(p.errorDescription) || Truthy(p.error))) ==> detail == "token_exchange_failed"
  {
    match p
    case OAuthErrorBody(error, description) => OrElse(Or(description, error), "token_exchange_failed")
    case _ => "token_exchange_failed"
  }

  /** The `catch` block: clear the session and report the error's message. */
  function Recovered(s: State, cfg: SessionConfig, appUrl: string, message: string): Outcome {
    Outcome(LoginRedirect(appUrl, [("error", "internal_server_error"), ("message", message)]),
            State(Cleared(s.jar, cfg), s.log))
  }

  /** The query passes the three checks and the code is exchanged. */
  predicate Proceeds(q: CallbackQuery, storedState: Option<string>) {
    !Truthy(q.error) && Truthy(q.state) && q.state == storedState && Truthy(q.code)
  }

  /** After the tokens are stored: resolve the cloud id, fetch the user, store the user. */
  function AfterTokens(s: State, cfg: SessionConfig, respond: Responder, appUrl: string): Outcome {
    var c := JiraService.CloudIdSpec(s, cfg, respond, None);
    match c.result
    case Failure(e) => Recovered(c.after, cfg, appUrl, e)
    case Success(_) =>
      var u := JiraUserSpec(c.after, cfg, respond, None);
      match u.result
      case Failure(e) => Recovered(u.after, cfg, appUrl, e)
      case Success(user) =>
        Outcome(DashboardRedirect(appUrl),
                State(WithUserDetails(u.after.jar, cfg, user.accountId, user.displayName), u.after.log))
  }

  /** The `try` block from the token request on. */
  function Exchange(s: State, cfg: SessionConfig, respond: Responder, appUrl: string, creds: ExchangeCredentials, code: string): Outcome {
    var req := TokenRequest(creds, code);
    var s' := State(s.jar, s.log + [req]);
    match respond(req)
    case Failure(e) => Recovered(s', cfg, appUrl, e)
    case Success(response) =>
      if !response.ok then
        match response.payload
        case NotJson(e) => Recovered(s', cfg, appUrl, e)
        case p =>
          Outcome(LoginRedirect(appUrl, [("error", "token_exchange_failed"), ("message", ExchangeFailureDetail(p))]),
                  State(Cleared(s'.jar, cfg), s'.log))
      else
        match response.payload
        case TokenGrant(accessToken, refreshToken) =>
          AfterTokens(State(WithTokens(s'.jar, cfg, accessToken, refreshToken), s'.log), cfg, respond, appUrl)
        case NotJson(e) => Recovered(s', cfg, appUrl, e)
        case _ => Recovered(s', cfg, appUrl, MalformedBody)
  }

  /** The whole handler. */
  function CallbackSpec(s: State, cfg: SessionConfig, respond: Responder, appUrl: string, creds: ExchangeCredentials, q: CallbackQuery): Outcome {
    var stored := ValueOf(s.jar, RedirectRoute.StateCookieName);
    var s' := State(s.jar - {RedirectRoute.StateCookieName}, s.log);
    if Truthy(q.error) then
      Outcome(LoginRedirect(appUrl, [("error", "atlassian_error"), ("message", OrElse(q.errorDescription, q.error.value))]), s')
    else if !Truthy(q.state) || q.state != stored then
      Outcome(LoginRedirect(appUrl, [("error", "invalid_state")]), s')
    else if !Truthy(q.code) then
      Outcome(LoginRedirect(appUrl, [("error", "missing_code")]), s')
    else
      Exchange(s', cfg, respond, appUrl, creds, q.code.value)
  }

  // ---------------------------------------------------------------------------
  // The handler as a method
  // ---------------------------------------------------------------------------

  method Recover(jar: CookieJar, cfg: SessionConfig, appUrl: string, message: string) returns (loc: Location)
    modifies jar
    ensures jar.entries == Cleared(old(jar.entries), cfg)
    ensures loc == LoginRedirect(appUrl, [("error", "internal_server_error"), ("message", message)])
  {
    ClearSession(jar, cfg);
    loc := LoginRedirect(appUrl, [("error", "internal_server_error"), ("message", message)]);
  }

  method Callback(jar: CookieJar, net: Network, cfg: SessionConfig, appUrl: string, creds: ExchangeCredentials, q: CallbackQuery)
    returns (loc: Location)
    modifies jar, net
    ensures Outcome(loc, State(jar.entries, net.log)) ==
            CallbackSpec(State(old(jar.entries), old(net.log)), cfg, net.respond, appUrl, creds, q)
  {
    var storedState := jar.Get(RedirectRoute.StateCookieName);
    jar.Delete(RedirectRoute.StateCookieName);

    if Truthy(q.error) {
      return LoginRedirect(appUrl, [("error", "atlassian_error"), ("message", OrElse(q.errorDescription, q.error.value))]);
    }
    if !Truthy(q.state) || q.state != storedState {
      return LoginRedirect(appUrl, [("error", "invalid_state")]);
    }
    if !Truthy(q.code) {
      return LoginRedirect(appUrl, [("error", "missing_code")]);
    }

    var tokenResponse := net.Fetch(TokenRequest(creds, q.code.value));
    if tokenResponse.Failure? {
      loc := Recover(jar, cfg, appUrl, tokenResponse.error);
      return;
    }
    var response := tokenResponse.value;
    if !response.ok {
      if response.payload.NotJson? {
        loc := Recover(jar, cfg, appUrl, response.payload.syntaxError);
        return;
      }
      ClearSession(jar, cfg);
      var detail := ExchangeFailureDetail(response.payload);
      return LoginRedirect(appUrl, [("error", "token_exchange_failed"), ("message", detail)]);
    }
    if !response.payload.TokenGrant? {
      var message := if response.payload.NotJson? then response.payload.syntaxError else MalformedBody;
      loc := Recover(jar, cfg, appUrl, message);
      return;
    }
    StoreTokens(jar, cfg, response.payload.accessToken, response.payload.refreshToken);

    var cloudId := JiraService.GetCloudId(jar, net, cfg, None);
    if cloudId.Failure? {
      loc := Recover(jar, cfg, appUrl, cloudId.error);
      return;
    }
    var jiraUser := GetJiraUser(jar, net, cfg, None);
    if jiraUser.Failure? {
      loc := Recover(jar, cfg, appUrl, jiraUser.error);
      return;
    }
    StoreUserDetails(jar, cfg, jiraUser.value.accountId, jiraUser.value.displayName);
    loc := DashboardRedirect(appUrl);
  }

  // ---------------------------------------------------------------------------
  // Properties of the handler
  // ---------------------------------------------------------------------------

  lemma CookieNamesDiffer()
    ensures RedirectRoute.StateCookieName != SessionCookieName
  {
    assert |RedirectRoute.StateCookieName| != |SessionCookieName|;
  }

  /** Removing the state cookie does not change what `getSession` finds. */
  lemma StateCookieIsNotSession(jar: Jar, cfg: SessionConfig)
    ensures Load(jar - {RedirectRoute.StateCookieName}, cfg) == Load(jar, cfg)
  {
    CookieNamesDiffer();
  }

  /** From the stored tokens on, only the session cookie changes and only GETs are sent. */
  lemma AfterTokensEffects(s: State, cfg: SessionConfig, respond: Responder, appUrl: string)
    ensures var o := AfterTokens(s, cfg, respond, appUrl);
            SameExcept(s.jar, o.after.jar, SessionCookieName) && ExtendsWithGets(s.log, o.after.log)
  {
    var c := JiraService.CloudIdSpec(s, cfg, respond, None);
    CloudIdSendsGets(s, cfg, respond, None);
    ClearedIsLoggedOut(c.after.jar, cfg);
    SameExceptTransitive(s.jar, c.after.jar, Cleared(c.after.jar, cfg), SessionCookieName);
    if c.result.Success? {
      var u := JiraUserSpec(c.after, cfg, respond, None);
      JiraUserSendsGets(c.after, cfg, respond, None);
      ExtendsWithGetsTransitive(s.log, c.after.log, u.after.log);
      if u.result.Success? {
        var user := u.result.value;
        WritesTouchOnlySessionCookie(u.after.jar, cfg, "", None, "", user.accountId, user.displayName);
        SameExceptTransitive(s.jar, u.after.jar, WithUserDetails(u.after.jar, cfg, user.accountId, user.displayName), SessionCookieName);
      }
    }
  }

  /** The exchange sends the token request first, then GETs only, and changes only the session cookie. */
  lemma ExchangeEffects(s: State, cfg: SessionConfig, respond: Responder, appUrl: string, creds: ExchangeCredentials, code: string)
    ensures var o := Exchange(s, cfg, respond, appUrl, creds, code);
            SameExcept(s.jar, o.after.jar, SessionCookieName) &&
            ExtendsWithGets(s.log + [TokenRequest(creds, code)], o.after.log)
  {
    var r := respond(TokenRequest(creds, code));
    if r.Success? && r.value.ok && r.value.payload.TokenGrant? {
      GrantEffects(s, cfg, respond, appUrl, creds, code);
    } else {
      NoGrantEffects(s, cfg, respond, appUrl, creds, code);
    }
  }

  lemma GrantEffects(s: State, cfg: SessionConfig, respond: Responder, appUrl: string, creds: ExchangeCredentials, code: string)
    requires var r := respond(TokenRequest(creds, code)); r.Success? && r.value.ok && r.value.payload.TokenGrant?
    ensures var o := Exchange(s, cfg, respond, appUrl, creds, code);
            SameExcept(s.jar, o.after.jar, SessionCookieName) &&
            ExtendsWithGets(s.log + [TokenRequest(creds, code)], o.after.log)
  {
    var req := TokenRequest(creds, code);
    var grant := respond(req).value.payload;
    var s2 := State(WithTokens(s.jar, cfg, grant.accessToken, grant.refreshToken), s.log + [req]);
    assert Exchange(s, cfg, respond, appUrl, creds, code) == AfterTokens(s2, cfg, respond, appUrl);
    WritesTouchOnlySessionCookie(s.jar, cfg, grant.accessToken, grant.refreshToken, "", "", "");
    AfterTokensEffects(s2, cfg, respond, appUrl);
    SameExceptTransitive(s.jar, s2.jar, AfterTokens(s2, cfg, respond, appUrl).after.jar, SessionCookieName);
  }

  lemma NoGrantEffects(s: State, cfg: SessionConfig, respond: Responder, appUrl: string, creds: ExchangeCredentials, code: string)
    requires var r := respond(TokenRequest(creds, code)); !(r.Success? && r.value.ok && r.value.payload.TokenGrant?)
    ensures var o := Exchange(s, cfg, respond, appUrl, creds, code);
            o.after == State(Cleared(s.jar, cfg), s.log + [TokenRequest(creds, code)])
    ensures var o := Exchange(s, cfg, respond, appUrl, creds, code);
            SameExcept(s.jar, o.after.jar, SessionCookieName) &&
            ExtendsWithGets(s.log + [TokenRequest(creds, code)], o.after.log)
  {
    ClearedIsLoggedOut(s.jar, cfg);
    var log := s.log + [TokenRequest(creds, code)];
    assert log[..|log|] == log;
  }

  /**
   * The state cookie is gone afterwards, on every path, and the only other cookie
   * the handler may change is the session cookie.
   */
  lemma StateCookieConsumed(s: State, cfg: SessionConfig, respond: Responder, appUrl: string, creds: ExchangeCredentials, q: CallbackQuery)
    ensures var o := CallbackSpec(s, cfg, respond, appUrl, creds, q);
            RedirectRoute.StateCookieName !in o.after.jar &&
            SameExcept(s.jar - {RedirectRoute.StateCookieName}, o.after.jar, SessionCookieName)
  {
    CookieNamesDiffer();
    var stored := ValueOf(s.jar, RedirectRoute.StateCookieName);
    var s' := State(s.jar - {RedirectRoute.StateCookieName}, s.log);
    if Proceeds(q, stored) {
      ExchangeEffects(s', cfg, respond, appUrl, creds, q.code.value);
    }
  }

  /**
   * A callback that fails any of the three checks sends no request and leaves
   * the session alone; each check has its own error code, upstream error first.
   */
  lemma EarlyExits(s: State, cfg: SessionConfig, respond: Responder, appUrl: string, creds: ExchangeCredentials, q: CallbackQuery)
    ensures var o := CallbackSpec(s, cfg, respond, appUrl, creds, q);
            var stored := ValueOf(s.jar, RedirectRoute.StateCookieName);
            (!Proceeds(q, stored) ==> o.after.log == s.log && Load(o.after.jar, cfg) == Load(s.jar, cfg)) &&
            (Truthy(q.error) ==>
               o.location == LoginRedirect(appUrl, [("error", "atlassian_error"), ("message", OrElse(q.errorDescription, q.error.value))])) &&
            (!Truthy(q.error) && (!Truthy(q.state) || q.state != stored) ==>
               o.location == LoginRedirect(appUrl, [("error", "invalid_state")])) &&
            (!Truthy(q.error) && Truthy(q.state) && q.state == stored && !Truthy(q.code) ==>
               o.location == LoginRedirect(appUrl, [("error", "missing_code")]))
  {
    StateCookieIsNotSession(s.jar, cfg);
  }

  /** The code is exchanged exactly when the checks pass: one POST, to the token endpoint, before anything else. */
  lemma ExchangeOnlyWhenChecksPass(s: State, cfg: SessionConfig, respond: Responder, appUrl: string, creds: ExchangeCredentials, q: CallbackQuery)
    ensures var o := CallbackSpec(s, cfg, respond, appUrl, creds, q);
            var stored := ValueOf(s.jar, RedirectRoute.StateCookieName);
            Posts(o.after.log) == Posts(s.log) + (if Proceeds(q, stored) then 1 else 0) &&
            (Proceeds(q, stored) ==>
               |o.after.log| > |s.log| && o.after.log[..|s.log| + 1] == s.log + [TokenRequest(creds, q.code.value)])
  {
    var stored := ValueOf(s.jar, RedirectRoute.StateCookieName);
    var s' := State(s.jar - {RedirectRoute.StateCookieName}, s.log);
    if Proceeds(q, stored) {
      var req := TokenRequest(creds, q.code.value);
      var o := Exchange(s', cfg, respond, appUrl, creds, q.code.value);
      ExchangeEffects(s', cfg, respond, appUrl, creds, q.code.value);
      GetsAddNoPosts(s.log + [req], o.after.log);
      PostsAppend(s.log, [req]);
      assert Posts([req]) == 1 by {
        assert [req][1..] == [];
      }
    }
  }

  /** A second callback with the same query finds no state cookie and is refused without effect. */
  lemma ReplayRejected(s: State, cfg: SessionConfig, respond: Responder, appUrl: string, creds: ExchangeCredentials, q: CallbackQuery)
    requires !Truthy(q.error)
    ensures var first := CallbackSpec(s, cfg, respond, appUrl, creds, q);
            CallbackSpec(first.after, cfg, respond, appUrl, creds, q) ==
            Outcome(LoginRedirect(appUrl, [("error", "invalid_state")]), first.after)
  {
    var first := CallbackSpec(s, cfg, respond, appUrl, creds, q);
    StateCookieConsumed(s, cfg, respond, appUrl, creds, q);
    assert first.after.jar - {RedirectRoute.StateCookieName} == first.after.jar;
  }

  /**
   * The state stored by the redirect route passes the state check when it comes
   * back unchanged, and any other value is refused.
   */
  lemma RedirectStateAccepted(jar: Jar, state: string, production: bool, q: CallbackQuery)
    requires state != ""
    ensures var stored := ValueOf(jar[RedirectRoute.StateCookieName := Issued(state, RedirectRoute.StateCookieOptions(production))],
                                  RedirectRoute.StateCookieName);
            (q.state == Some(state) ==> Truthy(q.state) && q.state == stored) &&
            (q.state != Some(state) ==> !(Truthy(q.state) && q.state == stored))
  {
  }

  /** Once the exchange has begun, every failure ends logged out. */
  lemma FailuresAfterExchangeLogOut(s: State, cfg: SessionConfig, respond: Responder, appUrl: string, creds: ExchangeCredentials, q: CallbackQuery)
    requires Proceeds(q, ValueOf(s.jar, RedirectRoute.StateCookieName))
    ensures var o := CallbackSpec(s, cfg, respond, appUrl, creds, q);
            o.location != DashboardRedirect(appUrl) ==>
              !Authenticated(o.after.jar, cfg) &&
              |o.location.query| == 2 &&
              o.location.query[0] in {("error", "token_exchange_failed"), ("error", "internal_server_error")}
  {
    var s' := State(s.jar - {RedirectRoute.StateCookieName}, s.log);
    var o := CallbackSpec(s, cfg, respond, appUrl, creds, q);
    var req := TokenRequest(creds, q.code.value);
    var s2 := State(s'.jar, s'.log + [req]);
    ClearedIsLoggedOut(s2.jar, cfg);
    match respond(req)
    case Failure(_) =>
    case Success(response) =>
      if response.ok && response.payload.TokenGrant? {
        var grant := response.payload;
        var s3 := State(WithTokens(s2.jar, cfg, grant.accessToken, grant.refreshToken), s2.log);
        var c := JiraService.CloudIdSpec(s3, cfg, respond, None);
        ClearedIsLoggedOut(c.after.jar, cfg);
        if c.result.Success? {
          var u := JiraUserSpec(c.after, cfg, respond, None);
          ClearedIsLoggedOut(u.after.jar, cfg);
        }
      }
  }

  /** The cloud id is in the session after it is resolved for a live session. */
  lemma CloudIdStored(s: State, cfg: SessionConfig, respond: Responder)
    requires Load(s.jar, cfg).Some?
    requires JiraService.CloudIdSpec(s, cfg, respond, None).result.Success?
    ensures var c := JiraService.CloudIdSpec(s, cfg, respond, None);
            StoredCloudId(c.after.jar, cfg) == Some(c.result.value) && Load(c.after.jar, cfg).Some?
  {
    var stored := StoredCloudId(s.jar, cfg);
    if !Truthy(stored) {
      var r := AccessibleResourcesSpec(s, cfg, respond, None);
      StoreCloudIdThenRead(r.after.jar, cfg, r.result.value[0].id);
    }
  }

  /**
   * Reaching the dashboard means the checks passed, the token endpoint granted a
   * non-empty access token, and the session now holds that token, a cloud id and
   * the user's id and name.
   */
  lemma DashboardMeansSignedIn(s: State, cfg: SessionConfig, respond: Responder, appUrl: string, creds: ExchangeCredentials, q: CallbackQuery)
    requires CallbackSpec(s, cfg, respond, appUrl, creds, q).location == DashboardRedirect(appUrl)
    ensures Proceeds(q, ValueOf(s.jar, RedirectRoute.StateCookieName))
    ensures var grant := respond(TokenRequest(creds, q.code.value));
            var after := CallbackSpec(s, cfg, respond, appUrl, creds, q).after.jar;
            grant.Success? && grant.value.ok && grant.value.payload.TokenGrant? &&
            grant.value.payload.accessToken != "" &&
            AccessTokenOf(after, cfg) == Some(grant.value.payload.accessToken) &&
            Authenticated(after, cfg) &&
            StoredCloudId(after, cfg).Some? &&
            Read(after, cfg, UserId).Some? && Read(after, cfg, UserName).Some?
    ensures var req := TokenRequest(creds, q.code.value);
            var grant := respond(req).value.payload;
            var s3 := State(WithTokens(s.jar - {RedirectRoute.StateCookieName}, cfg, grant.accessToken, grant.refreshToken),
                            s.log + [req]);
            var c := JiraService.CloudIdSpec(s3, cfg, respond, None);
            var u := JiraUserSpec(c.after, cfg, respond, None);
            var after := CallbackSpec(s, cfg, respond, appUrl, creds, q).after.jar;
            c.result.Success? && u.result.Success? &&
            StoredCloudId(after, cfg) == Some(c.result.value) &&
            Read(after, cfg, UserId) == Some(u.result.value.accountId) &&
            Read(after, cfg, UserName) == Some(u.result.value.displayName)
  {
    var stored := ValueOf(s.jar, RedirectRoute.StateCookieName);
    assert |appUrl + "/login"| != |appUrl + "/dashboard"|;
    if !Proceeds(q, stored) {
      assert false;
    }
    var s' := State(s.jar - {RedirectRoute.StateCookieName}, s.log);
    var req := TokenRequest(creds, q.code.value);
    var s2 := State(s'.jar, s'.log + [req]);
    var response := respond(req).value;
    var grant := response.payload;
    var s3 := State(WithTokens(s2.jar, cfg, grant.accessToken, grant.refreshToken), s2.log);
    var c := JiraService.CloudIdSpec(s3, cfg, respond, None);
    var u := JiraUserSpec(c.after, cfg, respond, None);
    CloudIdKeepsToken(s3, cfg, respond, None);
    if Load(s2.jar, cfg).None? {
      assert false;
    }
    StoreTokensThenAccessToken(s2.jar, cfg, grant.accessToken, grant.refreshToken);
    CloudIdStored(s3, cfg, respond);
    var user := u.result.value;
    StoreUserDetailsThenRead(u.after.jar, cfg, user.accountId, user.displayName);
  }

  /**
   * Without a session cookie that unseals, even a granted exchange cannot sign
   * the user in: the tokens are not stored, resolving the cloud id finds no
   * token, and the handler reports "Not authenticated" after the one POST.
   */
  lemma FirstLoginFails(s: State, cfg: SessionConfig, respond: Responder, appUrl: string, creds: ExchangeCredentials,
                        q: CallbackQuery, accessToken: string, refreshToken: Option<string>)
    requires Load(s.jar, cfg).None?
    requires Proceeds(q, ValueOf(s.jar, RedirectRoute.StateCookieName))
    requires respond(TokenRequest(creds, q.code.value)) == Success(Response(true, TokenGrant(accessToken, refreshToken)))
    ensures CallbackSpec(s, cfg, respond, appUrl, creds, q) ==
            Outcome(LoginRedirect(appUrl, [("error", "internal_server_error"), ("message", NotAuthenticated)]),
                    State(s.jar - {RedirectRoute.StateCookieName}, s.log + [TokenRequest(creds, q.code.value)]))
  {
    StateCookieIsNotSession(s.jar, cfg);
    var s' := State(s.jar - {RedirectRoute.StateCookieName}, s.log + [TokenRequest(creds, q.code.value)]);
    NoSessionIgnoresWrites(s'.jar, cfg, CloudId, accessToken, refreshToken, "", "", "");
    NoTokenNoRequest(s', cfg, respond, ResourcesUrl, map[], None);
  }
}
