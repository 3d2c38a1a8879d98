/**
 * The cookie-backed session store of src/lib/authService.ts.
 *
 * `getSession` reads the session cookie and unseals it. When there is no
 * cookie, or unsealing fails, it returns a view that answers every `get` with
 * `undefined` and ignores `set`, `save` and `destroy`: writes only take
 * effect when a valid session cookie already exists.
 *
 * The pure functions below (Load, Persist, WithTokens, ...) give the effect of
 * each exported operation on the cookie jar; the methods that perform the
 * operations through a `Session` view are proved to have exactly that effect.
 */
module AuthService {
  import opened Wrappers
  import opened Js
  import opened Cookies
  import opened Sealing

  const SessionCookieName := "jira-board-glance-session"

  /** `SESSION_SECRET` and whether `NODE_ENV` is `production` (the `secure` attribute). */
  datatype SessionConfig = SessionConfig(password: string, production: bool)

  /** httpOnly, secure in production, one week, path `/`. */
  function SessionCookieOptions(cfg: SessionConfig): (o: CookieOptions)
    ensures o.httpOnly && o.secure == cfg.production && o.path == "/" && o.sameSite == None
    ensures o.maxAge == 604800
  {
    CookieOptions(true, cfg.production, 60 * 60 * 24 * 7, "/", None)
  }

  // ---------------------------------------------------------------------------
  // The effect of each operation on the cookie jar
  // ---------------------------------------------------------------------------

  /** The data `getSession` finds: None when there is no cookie or it does not unseal. */
  function Load(jar: Jar, cfg: SessionConfig): Option<SessionData> {
    if SessionCookieName in jar then Unseal(jar[SessionCookieName].value, cfg.password) else None
  }

  /** `save` on a live view holding `d`: delete the cookie when `d` is empty, else store `seal(d)`. */
  function Persist(jar: Jar, cfg: SessionConfig, d: SessionData): Jar {
    if |d| == 0 then jar - {SessionCookieName}
    else jar[SessionCookieName := Issued(Seal(d, cfg.password), SessionCookieOptions(cfg))]
  }

  /** `session.get(f)`. */
  function Read(jar: Jar, cfg: SessionConfig, f: Field): Option<string> {
    match Load(jar, cfg)
    case None => None
    case Some(d) => if f in d then Some(d[f]) else None
  }

  /** The sets `storeTokens` performs on a live view. */
  function TokensUpdate(d: SessionData, accessToken: string, refreshToken: Option<string>): SessionData {
    var d' := d[AccessToken := accessToken];
    if Truthy(refreshToken) then d'[RefreshToken := refreshToken.value] else d'
  }

  function WithTokens(jar: Jar, cfg: SessionConfig, accessToken: string, refreshToken: Option<string>): Jar {
    match Load(jar, cfg)
    case None => jar
    case Some(d) => Persist(jar, cfg, TokensUpdate(d, accessToken, refreshToken))
  }

  function WithCloudId(jar: Jar, cfg: SessionConfig, cloudId: string): Jar {
    match Load(jar, cfg)
    case None => jar
    case Some(d) => Persist(jar, cfg, d[CloudId := cloudId])
  }

  function WithUserDetails(jar: Jar, cfg: SessionConfig, userId: string, userName: string): Jar {
    match Load(jar, cfg)
    case None => jar
    case Some(d) => Persist(jar, cfg, d[UserId := userId][UserName := userName])
  }

  /** `clearSession`: a live view deletes the cookie; a no-op view changes nothing. */
  function Cleared(jar: Jar, cfg: SessionConfig): Jar {
    match Load(jar, cfg)
    case None => jar
    case Some(_) => jar - {SessionCookieName}
  }

  function AccessTokenOf(jar: Jar, cfg: SessionConfig): Option<string> {
    Read(jar, cfg, AccessToken)
  }

  function StoredCloudId(jar: Jar, cfg: SessionConfig): Option<string> {
    Read(jar, cfg, CloudId)
  }

  /** What `getUserDetails` returns when `userId` is truthy. */
  datatype UserDetails = UserDetails(userId: string, userName: Option<string>)

  function UserDetailsOf(jar: Jar, cfg: SessionConfig): Option<UserDetails> {
    var id := Read(jar, cfg, UserId);
    if Truthy(id) then Some(UserDetails(id.value, Read(jar, cfg, UserName))) else None
  }

  /** `isAuthenticated`: `!!accessToken`. */
  predicate Authenticated(jar: Jar, cfg: SessionConfig) {
    Truthy(AccessTokenOf(jar, cfg))
  }

  // ---------------------------------------------------------------------------
  // The session view and the exported operations
  // ---------------------------------------------------------------------------

  /** The object `getSession` returns: a live view over unsealed data, or a no-op view. */
  class Session {
    const jar: CookieJar
    const cfg: SessionConfig
    const live: bool
    var data: SessionData

    constructor (jar: CookieJar, cfg: SessionConfig, live: bool, data: SessionData)
      ensures this.jar == jar && this.cfg == cfg && this.live == live && this.data == data
    {
      this.jar := jar;
      this.cfg := cfg;
      this.live := live;
      this.data := data;
    }

    /** `session.get(key)`: `undefined` on a no-op view. */
    function Get(key: Field): Option<string>
      reads this
    {
      if live && key in data then Some(data[key]) else None
    }

    /** `session.set(key, value)`: replaces one field of a live view. */
    method Set(key: Field, value: string)
      modifies this
      ensures data == if live then old(data)[key := value] else old(data)
      ensures forall k :: k != key ==> Get(k) == old(Get(k))
    {
      if live {
        data := data[key := value];
      }
    }

    /** `session.save()`. */
    method Save()
      modifies jar
      ensures jar.entries == if live then Persist(old(jar.entries), cfg, data) else old(jar.entries)
    {
      if live {
        if |data| == 0 {
          jar.Delete(SessionCookieName);
        } else {
          var sealed := Seal(data, cfg.password);
          jar.Set(SessionCookieName, sealed, SessionCookieOptions(cfg));
        }
      }
    }

    /** `session.destroy()`: empties a live view and deletes the cookie. */
    method Destroy()
      modifies this, jar
      ensures live ==> data == map[] && jar.entries == old(jar.entries) - {SessionCookieName}
      ensures !live ==> data == old(data) && jar.entries == old(jar.entries)
    {
      if live {
        data := map[];
        jar.Delete(SessionCookieName);
      }
    }
  }

  /** `getSession()`. */
  method GetSession(jar: CookieJar, cfg: SessionConfig) returns (s: Session)
    ensures fresh(s) && s.jar == jar && s.cfg == cfg
    ensures s.live == Load(jar.entries, cfg).Some?
    ensures s.data == Load(jar.entries, cfg).GetOr(map[])
  {
    var found := jar.Get(SessionCookieName);
    if found.None? {
      s := new Session(jar, cfg, false, map[]);
      return;
    }
    var unsealed := Unseal(found.value, cfg.password);
    match unsealed {
      case None =>
        s := new Session(jar, cfg, false, map[]);
      case Some(d) =>
        s := new Session(jar, cfg, true, d);
    }
  }

  method StoreTokens(jar: CookieJar, cfg: SessionConfig, accessToken: string, refreshToken: Option<string>)
    modifies jar
    ensures jar.entries == WithTokens(old(jar.entries), cfg, accessToken, refreshToken)
  {
    var session := GetSession(jar, cfg);
    session.Set(AccessToken, accessToken);
    if Truthy(refreshToken) {
      session.Set(RefreshToken, refreshToken.value);
    }
    session.Save();
  }

  method StoreCloudId(jar: CookieJar, cfg: SessionConfig, cloudId: string)
    modifies jar
    ensures jar.entries == WithCloudId(old(jar.entries), cfg, cloudId)
  {
    var session := GetSession(jar, cfg);
    session.Set(CloudId, cloudId);
    session.Save();
  }

  method StoreUserDetails(jar: CookieJar, cfg: SessionConfig, userId: string, userName: string)
    modifies jar
    ensures jar.entries == WithUserDetails(old(jar.entries), cfg, userId, userName)
  {
    var session := GetSession(jar, cfg);
    session.Set(UserId, userId);
    session.Set(UserName, userName);
    session.Save();
  }

  method GetAccessToken(jar: CookieJar, cfg: SessionConfig) returns (token: Option<string>)
    ensures token == AccessTokenOf(jar.entries, cfg)
  {
    var session := GetSession(jar, cfg);
    token := session.Get(AccessToken);
  }

  method GetCloudId(jar: CookieJar, cfg: SessionConfig) returns (cloudId: Option<string>)
    ensures cloudId == StoredCloudId(jar.entries, cfg)
  {
    var session := GetSession(jar, cfg);
    cloudId := session.Get(CloudId);
  }

  method GetUserDetails(jar: CookieJar, cfg: SessionConfig) returns (details: Option<UserDetails>)
    ensures details == UserDetailsOf(jar.entries, cfg)
  {
    var session := GetSession(jar, cfg);
    var userId := session.Get(UserId);
    var userName := session.Get(UserName);
    if Truthy(userId) {
      details := Some(UserDetails(userId.value, userName));
    } else {
      details := None;
    }
  }

  method ClearSession(jar: CookieJar, cfg: SessionConfig)
    modifies jar
    ensures jar.entries == Cleared(old(jar.entries), cfg)
  {
    var session := GetSession(jar, cfg);
    session.Destroy();
  }

  method IsAuthenticated(jar: CookieJar, cfg: SessionConfig) returns (authenticated: bool)
    ensures authenticated == Authenticated(jar.entries, cfg)
  {
    var token := GetAccessToken(jar, cfg);
    authenticated := Truthy(token);
  }

  // ---------------------------------------------------------------------------
  // Properties of the store
  // ---------------------------------------------------------------------------

  /** Saving a non-empty view and loading again gives the view back; saving an empty one logs out. */
  lemma PersistThenLoad(jar: Jar, cfg: SessionConfig, d: SessionData)
    ensures Load(Persist(jar, cfg, d), cfg) == if |d| == 0 then None else Some(d)
    ensures SameExcept(jar, Persist(jar, cfg, d), SessionCookieName)
  {
    if |d| > 0 {
      SealRoundTrip(d, cfg.password);
    }
  }

  /** Without a cookie that unseals, every read is undefined and every write changes nothing. */
  lemma NoSessionIgnoresWrites(jar: Jar, cfg: SessionConfig, f: Field, a: string, r: Option<string>, c: string, id: string, name: string)
    requires Load(jar, cfg) == None
    ensures Read(jar, cfg, f) == None && UserDetailsOf(jar, cfg) == None && !Authenticated(jar, cfg)
    ensures WithTokens(jar, cfg, a, r) == jar
    ensures WithCloudId(jar, cfg, c) == jar
    ensures WithUserDetails(jar, cfg, id, name) == jar
    ensures Cleared(jar, cfg) == jar
  {
  }

  /** A cookie sealed under another password counts as no session, so every write is ignored. */
  lemma ForeignCookieIsNoSession(jar: Jar, cfg: SessionConfig, d: SessionData, otherPassword: string,
                                 a: string, r: Option<string>, c: string, id: string, name: string)
    requires SessionCookieName in jar && jar[SessionCookieName].value == Seal(d, otherPassword)
    requires otherPassword != cfg.password
    ensures Load(jar, cfg) == None && !Authenticated(jar, cfg)
    ensures WithTokens(jar, cfg, a, r) == jar
    ensures WithCloudId(jar, cfg, c) == jar
    ensures WithUserDetails(jar, cfg, id, name) == jar
    ensures Cleared(jar, cfg) == jar
  {
    SealWrongPassword(d, otherPassword, cfg.password);
    NoSessionIgnoresWrites(jar, cfg, AccessToken, a, r, c, id, name);
  }

  /** `storeTokens(a, r)` then `getAccessToken()` gives `a` once a session exists. */
  lemma StoreTokensThenAccessToken(jar: Jar, cfg: SessionConfig, a: string, r: Option<string>)
    requires Load(jar, cfg).Some?
    ensures AccessTokenOf(WithTokens(jar, cfg, a, r), cfg) == Some(a)
    ensures Truthy(r) ==> Read(WithTokens(jar, cfg, a, r), cfg, RefreshToken) == r
    ensures a != "" ==> Authenticated(WithTokens(jar, cfg, a, r), cfg)
  {
    PersistThenLoad(jar, cfg, TokensUpdate(Load(jar, cfg).value, a, r));
  }

  /** `storeTokens` with a falsy refresh token sets only the access token. */
  lemma StoreTokensKeepsRefresh(jar: Jar, cfg: SessionConfig, a: string, r: Option<string>)
    requires Load(jar, cfg).Some? && !Truthy(r)
    ensures Load(WithTokens(jar, cfg, a, r), cfg) == Some(Load(jar, cfg).value[AccessToken := a])
    ensures Read(WithTokens(jar, cfg, a, r), cfg, RefreshToken) == Read(jar, cfg, RefreshToken)
  {
    PersistThenLoad(jar, cfg, TokensUpdate(Load(jar, cfg).value, a, r));
  }

  /** `storeCloudId(c)` replaces only the cloud id of an existing session. */
  lemma StoreCloudIdThenRead(jar: Jar, cfg: SessionConfig, c: string)
    requires Load(jar, cfg).Some?
    ensures Load(WithCloudId(jar, cfg, c), cfg) == Some(Load(jar, cfg).value[CloudId := c])
    ensures StoredCloudId(WithCloudId(jar, cfg, c), cfg) == Some(c)
    ensures forall f :: f != CloudId ==> Read(WithCloudId(jar, cfg, c), cfg, f) == Read(jar, cfg, f)
  {
    PersistThenLoad(jar, cfg, Load(jar, cfg).value[CloudId := c]);
  }

  /** `storeUserDetails(id, name)` then `getUserDetails()`. */
  lemma StoreUserDetailsThenRead(jar: Jar, cfg: SessionConfig, id: string, name: string)
    requires Load(jar, cfg).Some?
    ensures UserDetailsOf(WithUserDetails(jar, cfg, id, name), cfg)
         == if id == "" then None else Some(UserDetails(id, Some(name)))
    ensures AccessTokenOf(WithUserDetails(jar, cfg, id, name), cfg) == AccessTokenOf(jar, cfg)
    ensures StoredCloudId(WithUserDetails(jar, cfg, id, name), cfg) == StoredCloudId(jar, cfg)
    ensures Read(WithUserDetails(jar, cfg, id, name), cfg, UserId) == Some(id)
    ensures Read(WithUserDetails(jar, cfg, id, name), cfg, UserName) == Some(name)
  {
    PersistThenLoad(jar, cfg, Load(jar, cfg).value[UserId := id][UserName := name]);
  }

  /** `getUserDetails` answers exactly when `userId` is truthy, with both stored fields. */
  lemma UserDetailsWhenUserId(jar: Jar, cfg: SessionConfig)
    ensures UserDetailsOf(jar, cfg).Some? <==> Truthy(Read(jar, cfg, UserId))
    ensures UserDetailsOf(jar, cfg).Some? ==>
      Some(UserDetailsOf(jar, cfg).value.userId) == Read(jar, cfg, UserId) &&
      UserDetailsOf(jar, cfg).value.userName == Read(jar, cfg, UserName)
  {
  }

  /** After `clearSession()` nobody is authenticated, whatever the cookie was; no other cookie changes. */
  lemma ClearedIsLoggedOut(jar: Jar, cfg: SessionConfig)
    ensures !Authenticated(Cleared(jar, cfg), cfg)
    ensures Load(Cleared(jar, cfg), cfg) == None
    ensures SameExcept(jar, Cleared(jar, cfg), SessionCookieName)
  {
  }

  /** Every write of the store touches the session cookie only. */
  lemma WritesTouchOnlySessionCookie(jar: Jar, cfg: SessionConfig, a: string, r: Option<string>, c: string, id: string, name: string)
    ensures SameExcept(jar, WithTokens(jar, cfg, a, r), SessionCookieName)
    ensures SameExcept(jar, WithCloudId(jar, cfg, c), SessionCookieName)
    ensures SameExcept(jar, WithUserDetails(jar, cfg, id, name), SessionCookieName)
  {
    match Load(jar, cfg)
    case None =>
    case Some(d) =>
      PersistThenLoad(jar, cfg, TokensUpdate(d, a, r));
      PersistThenLoad(jar, cfg, d[CloudId := c]);
      PersistThenLoad(jar, cfg, d[UserId := id][UserName := name]);
  }
}
