/** `GET /api/auth/jira/logout`: clear the session and return to the login page. */
module LogoutRoute {
  import opened Cookies
  import opened Http
  import opened AuthService

  function LoggedOutLocation(appUrl: string): Location {
    Location(appUrl + "/login", [("message", "logged_out")])
  }

  method Logout(jar: CookieJar, cfg: SessionConfig, appUrl: string) returns (loc: Location)
    modifies jar
    ensures jar.entries == Cleared(old(jar.entries), cfg)
    ensures !Authenticated(jar.entries, cfg)
    ensures SameExcept(old(jar.entries), jar.entries, SessionCookieName)
    ensures loc == LoggedOutLocation(appUrl)
  {
    ClearSession(jar, cfg);
    ClearedIsLoggedOut(old(jar.entries), cfg);
    loc := LoggedOutLocation(appUrl);
  }

  /** Logging out twice is the same as logging out once. */
  lemma LogoutIdempotent(jar: Jar, cfg: SessionConfig)
    ensures Cleared(Cleared(jar, cfg), cfg) == Cleared(jar, cfg)
  {
    ClearedIsLoggedOut(jar, cfg);
  }
}
