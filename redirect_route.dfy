/**
 * `GET /api/auth/jira/redirect`: start the OAuth 2.0 authorization-code flow.
 * A fresh state value is stored in a short-lived cookie and sent to Atlassian's
 * authorization endpoint, which hands it back to the callback.
 */
module RedirectRoute {
  import opened Wrappers
  import opened Js
  import opened Cookies
  import opened Http

  const StateCookieName := "jira_oauth_state"
  const AuthorizeUrl := "https://auth.atlassian.com/authorize"

  /** The scopes requested, in order. */
  const Scopes: seq<string> := ["read:jira-user", "read:jira-work", "offline_access", "read:me"]

  /** httpOnly, secure in production, five minutes, path `/`, SameSite=Lax. */
  function StateCookieOptions(production: bool): (o: CookieOptions)
    ensures o.httpOnly && o.secure == production && o.path == "/" && o.sameSite == Some(Lax)
    ensures o.maxAge == 300
  {
    CookieOptions(true, production, 60 * 5, "/", Some(Lax))
  }

  /** The authorization URL, its parameters in the order they are appended. */
  function AuthorizationLocation(clientId: string, redirectUri: string, state: string): (loc: Location)
    ensures loc.base == AuthorizeUrl
    ensures |loc.query| == 7
    ensures loc.query[0].0 == "audience" && loc.query[1].0 == "client_id" && loc.query[2].0 == "scope"
    ensures loc.query[3].0 == "redirect_uri" && loc.query[4].0 == "state"
    ensures loc.query[5].0 == "response_type" && loc.query[6].0 == "prompt"
  {
    Location(AuthorizeUrl, [
      ("audience", "api.atlassian.com"),
      ("client_id", clientId),
      ("scope", Join(Scopes, " ")),
      ("redirect_uri", redirectUri),
      ("state", state),
      ("response_type", "code"),
      ("prompt", "consent")])
  }

  /** Looking each parameter up by name gives the value the handler appended. */
  lemma AuthorizationParameters(clientId: string, redirectUri: string, state: string)
    ensures var query := AuthorizationLocation(clientId, redirectUri, state).query;
            QueryGet(query, "state") == Some(state) &&
            QueryGet(query, "client_id") == Some(clientId) &&
            QueryGet(query, "redirect_uri") == Some(redirectUri) &&
            QueryGet(query, "scope") == Some("read:jira-user read:jira-work offline_access read:me") &&
            QueryGet(query, "audience") == Some("api.atlassian.com") &&
            QueryGet(query, "response_type") == Some("code") &&
            QueryGet(query, "prompt") == Some("consent")
  {
    var query := AuthorizationLocation(clientId, redirectUri, state).query;
    ScopeString();
    assert "scope"[1] != "state"[1];
    QueryGetAt(query, 0, "audience");
    QueryGetAt(query, 1, "client_id");
    QueryGetAt(query, 2, "scope");
    QueryGetAt(query, 3, "redirect_uri");
    QueryGetAt(query, 4, "state");
    QueryGetAt(query, 5, "response_type");
    QueryGetAt(query, 6, "prompt");
  }

  lemma ScopeString()
    ensures Join(Scopes, " ") == "read:jira-user read:jira-work offline_access read:me"
  {
    var last := Scopes[3..];
    assert last == ["read:me"];
    assert Join(last, " ") == "read:me";
    var three := Scopes[1..];
    assert three[1..] == Scopes[2..];
    assert Scopes[2..][1..] == last;
    assert Join(Scopes[2..], " ") == "offline_access" + " " + "read:me";
    assert Join(three, " ") == "read:jira-work" + " " + ("offline_access" + " " + "read:me");
    assert Join(Scopes, " ") == "read:jira-user" + " " + ("read:jira-work" + " " + ("offline_access" + " " + "read:me"));
  }

  /**
   * The handler: `state` is the fresh UUID, `clientId` and `redirectUri` are
   * `JIRA_CLIENT_ID` and `JIRA_REDIRECT_URI`, `production` is `NODE_ENV === 'production'`.
   */
  method Authorize(jar: CookieJar, state: string, clientId: string, redirectUri: string, production: bool)
    returns (loc: Location)
    modifies jar
    ensures jar.entries == old(jar.entries)[StateCookieName := Issued(state, StateCookieOptions(production))]
    ensures loc == AuthorizationLocation(clientId, redirectUri, state)
  {
    jar.Set(StateCookieName, state, StateCookieOptions(production));
    var params: seq<(string, string)> := [];
    params := params + [("audience", "api.atlassian.com")];
    params := params + [("client_id", clientId)];
    params := params + [("scope", Join(Scopes, " "))];
    params := params + [("redirect_uri", redirectUri)];
    params := params + [("state", state)];
    params := params + [("response_type", "code")];
    params := params + [("prompt", "consent")];
    loc := Location(AuthorizeUrl, params);
  }
}
