/**
 * `GET /api/auth/jira/user`: the signed-in status the client polls. It reads
 * the session only and never sends a request.
 */
module UserRoute {
  import opened Wrappers
  import opened Js
  import opened Cookies
  import opened Sealing
  import opened AuthService

  /** The `user` property: absent, `null`, or `{ id, name }`. */
  datatype UserField = Omitted | NullUser | UserObject(id: string, name: Option<string>)

  /** The JSON reply; `cloudId` and `error` are absent when None. */
  datatype UserReply = UserReply(
    status: int,
    isAuthenticated: bool,
    user: UserField,
    cloudId: Option<string>,
    error: Option<string>)

  /**
   * The handler's decision, given `isAuthenticated()` and the outcome of the
   * two session reads in the `try` block (a failure stands for a thrown error).
   */
  function UserStatus(authenticated: bool, lookup: Result<(Option<UserDetails>, Option<string>), string>): (r: UserReply)
    ensures r.status in {200, 500}
    ensures r.status == 500 <==> authenticated && lookup.Failure?
    ensures r.isAuthenticated <==> authenticated && lookup.Success?
    ensures r.status == 500 ==> r.error == Some("Failed to retrieve user status") && r.user == Omitted
    ensures !authenticated ==> r == UserReply(200, false, Omitted, None, None)
    ensures authenticated && lookup.Success? ==> r.cloudId == lookup.value.1
    ensures r.user.UserObject? <==> authenticated && lookup.Success? && lookup.value.0.Some? && lookup.value.0.value.userId != ""
    ensures r.user.UserObject? ==> r.user == UserObject(lookup.value.0.value.userId, lookup.value.0.value.userName)
  {
    if !authenticated then UserReply(200, false, Omitted, None, None)
    else
      match lookup
      case Failure(_) => UserReply(500, false, Omitted, None, Some("Failed to retrieve user status"))
      case Success((user, cloudId)) =>
        if user.Some? && user.value.userId != "" then
          UserReply(200, true, UserObject(user.value.userId, user.value.userName), cloudId, None)
        else UserReply(200, true, NullUser, cloudId, None)
  }

  /** The route over the request's session: the lookup cannot fail. */
  function UserRouteSpec(jar: Jar, cfg: SessionConfig): UserReply {
    UserStatus(Authenticated(jar, cfg), Success((UserDetailsOf(jar, cfg), StoredCloudId(jar, cfg))))
  }

  method UserRoute(jar: CookieJar, cfg: SessionConfig) returns (reply: UserReply)
    ensures reply == UserRouteSpec(jar.entries, cfg)
  {
    var authenticated := IsAuthenticated(jar, cfg);
    if !authenticated {
      return UserReply(200, false, Omitted, None, None);
    }
    var user := GetUserDetails(jar, cfg);
    var cloudId := AuthService.GetCloudId(jar, cfg);
    if user.Some? && user.value.userId != "" {
      reply := UserReply(200, true, UserObject(user.value.userId, user.value.userName), cloudId, None);
    } else {
      reply := UserReply(200, true, NullUser, cloudId, None);
    }
  }

  /**
   * Over the session the route always answers 200, says authenticated exactly
   * when `isAuthenticated()` does, and reports the stored user and cloud id.
   */
  lemma UserRouteReportsSession(jar: Jar, cfg: SessionConfig)
    ensures var r := UserRouteSpec(jar, cfg);
            r.status == 200 && r.error == None &&
            (r.isAuthenticated <==> Authenticated(jar, cfg)) &&
            (Authenticated(jar, cfg) ==> r.cloudId == StoredCloudId(jar, cfg)) &&
            (Authenticated(jar, cfg) && Truthy(Read(jar, cfg, UserId)) ==>
               r.user == UserObject(Read(jar, cfg, UserId).value, Read(jar, cfg, UserName))) &&
            (Authenticated(jar, cfg) && !Truthy(Read(jar, cfg, UserId)) ==> r.user == NullUser)
  {
    UserDetailsWhenUserId(jar, cfg);
  }
}
