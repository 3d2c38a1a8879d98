/**
 * The Jira client of src/lib/jiraService.ts: bearer-token requests, cloud-id
 * resolution with caching in the session, the board/configuration/issue
 * readers and the per-board column aggregation.
 *
 * Each `...Spec` function gives the outcome of one operation and the state
 * after it (cookie jar and requests sent) in terms of the state before it;
 * the methods that perform the operations are proved to match them.
 */
module JiraService {
  import opened Wrappers
  import opened Js
  import opened Cookies
  import opened Sealing
  import opened JiraTypes
  import opened Http
  import opened AuthService

  const ApiBase := "https://api.atlassian.com"
  const ResourcesUrl := ApiBase + "/oauth/token/accessible-resources"
  const MeUrl := ApiBase + "/me"

  const NotAuthenticated := "Not authenticated"
  const NoResources := "No accessible JIRA resources found for this user."
  const ResourcesFailed := "Failed to fetch accessible resources"
  const UserFailed := "Failed to fetch user details"
  const BoardsFailed := "Failed to fetch boards"

  function AgileBase(cloudId: string): string {
    ApiBase + "/ex/jira/" + cloudId + "/rest/agile/1.0/board"
  }

  function BoardsUrl(cloudId: string): string {
    AgileBase(cloudId) + "?maxResults=100"
  }

  function ConfigurationUrl(cloudId: string, boardId: int): string {
    AgileBase(cloudId) + "/" + IntToString(boardId) + "/configuration"
  }

  function IssuesUrl(cloudId: string, boardId: int): string {
    AgileBase(cloudId) + "/" + IntToString(boardId) + "/issue?maxResults=500"
  }

  function ConfigurationFailed(boardId: int): string {
    "Failed to fetch configuration for board " + IntToString(boardId)
  }

  function IssuesFailed(boardId: int): string {
    "Failed to fetch issues for board " + IntToString(boardId)
  }

  // ---------------------------------------------------------------------------
  // fetchWithAuth
  // ---------------------------------------------------------------------------

  /** `explicitAccessToken || await getAccessToken()`, then `if (!accessToken) throw`. */
  function SelectToken(explicit: Option<string>, stored: Option<string>): (r: Result<string, string>)
    ensures r.Success? <==> Truthy(explicit) || Truthy(stored)
    ensures Truthy(explicit) ==> r == Success(explicit.value)
    ensures !Truthy(explicit) && Truthy(stored) ==> r == Success(stored.value)
    ensures r.Failure? ==> r.error == NotAuthenticated
  {
    var token := Or(explicit, stored);
    if Truthy(token) then Success(token.value) else Failure(NotAuthenticated)
  }

  /** `{ ...options.headers, Authorization, Accept, Content-Type }`: the three win over the caller's. */
  function AuthHeaders(caller: Headers, token: string): (h: Headers)
    ensures h.Keys == caller.Keys + {"Authorization", "Accept", "Content-Type"}
    ensures h["Authorization"] == "Bearer " + token
    ensures h["Accept"] == "application/json" && h["Content-Type"] == "application/json"
    ensures forall k :: k in caller && k != "Authorization" && k != "Accept" && k != "Content-Type" ==> h[k] == caller[k]
  {
    caller + map["Authorization" := "Bearer " + token, "Accept" := "application/json", "Content-Type" := "application/json"]
  }

  function FetchWithAuthSpec(s: State, cfg: SessionConfig, respond: Responder, url: string, caller: Headers, explicit: Option<string>): Step<Response> {
    match SelectToken(explicit, AccessTokenOf(s.jar, cfg))
    case Failure(e) => Step(Failure(e), s)
    case Success(token) =>
      var req := Request(Get, url, AuthHeaders(caller, token), NoBody);
      Step(respond(req), State(s.jar, s.log + [req]))
  }

  // ---------------------------------------------------------------------------
  // Reading response bodies
  // ---------------------------------------------------------------------------

  /** A rejected fetch propagates; `!response.ok` throws `failMessage`; else the body. */
  function Checked(r: Result<Response, string>, failMessage: string): Result<Payload, string> {
    match r
    case Failure(e) => Failure(e)
    case Success(resp) => if resp.ok then Success(resp.payload) else Failure(failMessage)
  }

  function ReadResources(p: Result<Payload, string>): Result<seq<AccessibleResource>, string> {
    match p
    case Failure(e) => Failure(e)
    case Success(ResourceList(rs)) => Success(rs)
    case Success(NotJson(e)) => Failure(e)
    case Success(_) => Failure(MalformedBody)
  }

  function ReadUser(p: Result<Payload, string>): Result<JiraUser, string> {
    match p
    case Failure(e) => Failure(e)
    case Success(UserProfile(u)) => Success(u)
    case Success(NotJson(e)) => Failure(e)
    case Success(_) => Failure(MalformedBody)
  }

  /** `data.values || []`. */
  function ReadBoards(p: Result<Payload, string>): Result<seq<Board>, string> {
    match p
    case Failure(e) => Failure(e)
    case Success(BoardPage(values)) => Success(values.GetOr([]))
    case Success(NotJson(e)) => Failure(e)
    case Success(_) => Failure(MalformedBody)
  }

  function ReadConfiguration(p: Result<Payload, string>): Result<BoardConfiguration, string> {
    match p
    case Failure(e) => Failure(e)
    case Success(Configuration(c)) => Success(c)
    case Success(NotJson(e)) => Failure(e)
    case Success(_) => Failure(MalformedBody)
  }

  /** `data.issues || []`. */
  function ReadIssues(p: Result<Payload, string>): Result<seq<Issue>, string> {
    match p
    case Failure(e) => Failure(e)
    case Success(IssuePage(issues)) => Success(issues.GetOr([]))
    case Success(NotJson(e)) => Failure(e)
    case Success(_) => Failure(MalformedBody)
  }

  // ---------------------------------------------------------------------------
  // The operations, as functions of the state
  // ---------------------------------------------------------------------------

  function AccessibleResourcesSpec(s: State, cfg: SessionConfig, respond: Responder, explicit: Option<string>): Step<seq<AccessibleResource>> {
    var f := FetchWithAuthSpec(s, cfg, respond, ResourcesUrl, map[], explicit);
    Step(ReadResources(Checked(f.result, ResourcesFailed)), f.after)
  }

  /** `getCloudId(explicit)`: the cached id unless a token is given, else the first resource, stored. */
  function CloudIdSpec(s: State, cfg: SessionConfig, respond: Responder, explicit: Option<string>): Step<string> {
    var stored := StoredCloudId(s.jar, cfg);
    if !Truthy(explicit) && Truthy(stored) then Step(Success(stored.value), s)
    else
      var r := AccessibleResourcesSpec(s, cfg, respond, explicit);
      match r.result
      case Failure(e) => Step(Failure(e), r.after)
      case Success(resources) =>
        if |resources| == 0 then Step(Failure(NoResources), r.after)
        else
          var id := resources[0].id;
          Step(Success(id), State(WithCloudId(r.after.jar, cfg, id), r.after.log))
  }

  function JiraUserSpec(s: State, cfg: SessionConfig, respond: Responder, explicit: Option<string>): Step<JiraUser> {
    var f := FetchWithAuthSpec(s, cfg, respond, MeUrl, map[], explicit);
    Step(ReadUser(Checked(f.result, UserFailed)), f.after)
  }

  function BoardsSpec(s: State, cfg: SessionConfig, respond: Responder): Step<seq<Board>> {
    var c := CloudIdSpec(s, cfg, respond, None);
    match c.result
    case Failure(e) => Step(Failure(e), c.after)
    case Success(cloudId) =>
      var f := FetchWithAuthSpec(c.after, cfg, respond, BoardsUrl(cloudId), map[], None);
      Step(ReadBoards(Checked(f.result, BoardsFailed)), f.after)
  }

  function ConfigurationSpec(s: State, cfg: SessionConfig, respond: Responder, boardId: int): Step<BoardConfiguration> {
    var c := CloudIdSpec(s, cfg, respond, None);
    match c.result
    case Failure(e) => Step(Failure(e), c.after)
    case Success(cloudId) =>
      var f := FetchWithAuthSpec(c.after, cfg, respond, ConfigurationUrl(cloudId, boardId), map[], None);
      Step(ReadConfiguration(Checked(f.result, ConfigurationFailed(boardId))), f.after)
  }

  function IssuesSpec(s: State, cfg: SessionConfig, respond: Responder, boardId: int): Step<seq<Issue>> {
    var c := CloudIdSpec(s, cfg, respond, None);
    match c.result
    case Failure(e) => Step(Failure(e), c.after)
    case Success(cloudId) =>
      var f := FetchWithAuthSpec(c.after, cfg, respond, IssuesUrl(cloudId, boardId), map[], None);
      Step(ReadIssues(Checked(f.result, IssuesFailed(boardId))), f.after)
  }

  // ---------------------------------------------------------------------------
  // Column aggregation
  // ---------------------------------------------------------------------------

  /** `col.statuses.map(s => s.id)`. */
  function StatusIds(col: Column): (ids: seq<string>)
    ensures |ids| == |col.statuses|
    ensures forall j :: 0 <= j < |ids| ==> ids[j] == col.statuses[j].id
  {
    seq(|col.statuses|, j requires 0 <= j < |col.statuses| => col.statuses[j].id)
  }

  /** The number of issues whose status id is in `ids`. */
  function CountIn(issues: seq<Issue>, ids: seq<string>): nat
    decreases |issues|
  {
    if |issues| == 0 then 0
    else CountIn(issues[..|issues| - 1], ids) + (if issues[|issues| - 1].statusId in ids then 1 else 0)
  }

  /** The column summaries of a configuration over a list of issues. */
  function Summaries(columns: seq<Column>, issues: seq<Issue>): (r: seq<ColumnSummary>)
    ensures |r| == |columns|
    ensures forall k :: 0 <= k < |columns| ==>
      r[k] == ColumnSummary(columns[k].name, CountIn(issues, StatusIds(columns[k])), StatusIds(columns[k]))
  {
    seq(|columns|, k requires 0 <= k < |columns| =>
      ColumnSummary(columns[k].name, CountIn(issues, StatusIds(columns[k])), StatusIds(columns[k])))
  }

  /** The `try`/`catch` of getBoardDetailsWithCounts: any failure gives `columns: []`. */
  function Combine(board: Board, config: Result<BoardConfiguration, string>, issues: Result<seq<Issue>, string>): BoardWithDetails {
    if config.Success? && issues.Success? then BoardWithDetails(board, Summaries(config.value.columns, issues.value))
    else BoardWithDetails(board, [])
  }

  /** Both requests of the `Promise.all` are made, configuration first; then the results are combined. */
  function DetailsSpec(s: State, cfg: SessionConfig, respond: Responder, board: Board): Step<BoardWithDetails> {
    var c := ConfigurationSpec(s, cfg, respond, board.id);
    var i := IssuesSpec(c.after, cfg, respond, board.id);
    Step(Success(Combine(board, c.result, i.result)), i.after)
  }

  // ---------------------------------------------------------------------------
  // The operations as methods over the request's jar and network
  // ---------------------------------------------------------------------------

  method FetchWithAuth(jar: CookieJar, net: Network, cfg: SessionConfig, url: string, caller: Headers, explicit: Option<string>)
    returns (r: Result<Response, string>)
    modifies net
    ensures Step(r, State(jar.entries, net.log)) == FetchWithAuthSpec(State(jar.entries, old(net.log)), cfg, net.respond, url, caller, explicit)
  {
    var token := explicit;
    if !Truthy(explicit) {
      token := GetAccessToken(jar, cfg);
    }
    if !Truthy(token) {
      return Failure(NotAuthenticated);
    }
    var headers := AuthHeaders(caller, token.value);
    r := net.Fetch(Request(Get, url, headers, NoBody));
  }

  method GetAccessibleResources(jar: CookieJar, net: Network, cfg: SessionConfig, explicit: Option<string>)
    returns (r: Result<seq<AccessibleResource>, string>)
    modifies net
    ensures Step(r, State(jar.entries, net.log)) == AccessibleResourcesSpec(State(jar.entries, old(net.log)), cfg, net.respond, explicit)
  {
    var response := FetchWithAuth(jar, net, cfg, ResourcesUrl, map[], explicit);
    r := ReadResources(Checked(response, ResourcesFailed));
  }

  method GetCloudId(jar: CookieJar, net: Network, cfg: SessionConfig, explicit: Option<string>)
    returns (r: Result<string, string>)
    modifies jar, net
    ensures Step(r, State(jar.entries, net.log)) == CloudIdSpec(State(old(jar.entries), old(net.log)), cfg, net.respond, explicit)
  {
    if !Truthy(explicit) {
      var stored := AuthService.GetCloudId(jar, cfg);
      if Truthy(stored) {
        return Success(stored.value);
      }
    }
    var resources := GetAccessibleResources(jar, net, cfg, explicit);
    if resources.Failure? {
      return Failure(resources.error);
    }
    if |resources.value| == 0 {
      return Failure(NoResources);
    }
    var id := resources.value[0].id;
    StoreCloudId(jar, cfg, id);
    r := Success(id);
  }

  method GetJiraUser(jar: CookieJar, net: Network, cfg: SessionConfig, explicit: Option<string>)
    returns (r: Result<JiraUser, string>)
    modifies net
    ensures Step(r, State(jar.entries, net.log)) == JiraUserSpec(State(jar.entries, old(net.log)), cfg, net.respond, explicit)
  {
    var response := FetchWithAuth(jar, net, cfg, MeUrl, map[], explicit);
    r := ReadUser(Checked(response, UserFailed));
  }

  method GetBoards(jar: CookieJar, net: Network, cfg: SessionConfig) returns (r: Result<seq<Board>, string>)
    modifies jar, net
    ensures Step(r, State(jar.entries, net.log)) == BoardsSpec(State(old(jar.entries), old(net.log)), cfg, net.respond)
  {
    var cloudId := GetCloudId(jar, net, cfg, None);
    if cloudId.Failure? {
      return Failure(cloudId.error);
    }
    var response := FetchWithAuth(jar, net, cfg, BoardsUrl(cloudId.value), map[], None);
    r := ReadBoards(Checked(response, BoardsFailed));
  }

  method GetBoardConfiguration(jar: CookieJar, net: Network, cfg: SessionConfig, boardId: int)
    returns (r: Result<BoardConfiguration, string>)
    modifies jar, net
    ensures Step(r, State(jar.entries, net.log)) == ConfigurationSpec(State(old(jar.entries), old(net.log)), cfg, net.respond, boardId)
  {
    var cloudId := GetCloudId(jar, net, cfg, None);
    if cloudId.Failure? {
      return Failure(cloudId.error);
    }
    var response := FetchWithAuth(jar, net, cfg, ConfigurationUrl(cloudId.value, boardId), map[], None);
    r := ReadConfiguration(Checked(response, ConfigurationFailed(boardId)));
  }

  method GetBoardIssues(jar: CookieJar, net: Network, cfg: SessionConfig, boardId: int)
    returns (r: Result<seq<Issue>, string>)
    modifies jar, net
    ensures Step(r, State(jar.entries, net.log)) == IssuesSpec(State(old(jar.entries), old(net.log)), cfg, net.respond, boardId)
  {
    var cloudId := GetCloudId(jar, net, cfg, None);
    if cloudId.Failure? {
      return Failure(cloudId.error);
    }
    var response := FetchWithAuth(jar, net, cfg, IssuesUrl(cloudId.value, boardId), map[], None);
    r := ReadIssues(Checked(response, IssuesFailed(boardId)));
  }

  /** The `issues.forEach(... issueCount++ ...)` loop of one column. */
  method CountIssues(issues: seq<Issue>, ids: seq<string>) returns (count: nat)
    ensures count == CountIn(issues, ids)
  {
    count := 0;
    var i := 0;
    while i < |issues|
      invariant 0 <= i <= |issues|
      invariant count == CountIn(issues[..i], ids)
    {
      assert issues[..i + 1][..i] == issues[..i];
      if issues[i].statusId in ids {
        count := count + 1;
      }
      i := i + 1;
    }
    assert issues[..|issues|] == issues;
  }

  /** `config.columnConfig.columns.map(col => ...)`. */
  method BuildColumns(columns: seq<Column>, issues: seq<Issue>) returns (summaries: seq<ColumnSummary>)
    ensures summaries == Summaries(columns, issues)
  {
    summaries := [];
    var k := 0;
    while k < |columns|
      invariant 0 <= k <= |columns|
      invariant summaries == Summaries(columns[..k], issues)
    {
      var ids := StatusIds(columns[k]);
      var count := CountIssues(issues, ids);
      summaries := summaries + [ColumnSummary(columns[k].name, count, ids)];
      k := k + 1;
      assert columns[..k][..k - 1] == columns[..k - 1];
    }
    assert columns[..|columns|] == columns;
  }

  method GetBoardDetailsWithCounts(jar: CookieJar, net: Network, cfg: SessionConfig, board: Board)
    returns (details: BoardWithDetails)
    modifies jar, net
    ensures Step(Success(details), State(jar.entries, net.log)) == DetailsSpec(State(old(jar.entries), old(net.log)), cfg, net.respond, board)
  {
    var config := GetBoardConfiguration(jar, net, cfg, board.id);
    var issues := GetBoardIssues(jar, net, cfg, board.id);
    if config.Success? && issues.Success? {
      var columns := BuildColumns(config.value.columns, issues.value);
      details := BoardWithDetails(board, columns);
    } else {
      details := BoardWithDetails(board, []);
    }
  }

  // ---------------------------------------------------------------------------
  // Properties: token selection, cloud-id caching, defaults
  // ---------------------------------------------------------------------------

  /** With no truthy token anywhere the call throws 'Not authenticated' and sends nothing. */
  lemma NoTokenNoRequest(s: State, cfg: SessionConfig, respond: Responder, url: string, caller: Headers, explicit: Option<string>)
    requires !Truthy(explicit) && !Truthy(AccessTokenOf(s.jar, cfg))
    ensures FetchWithAuthSpec(s, cfg, respond, url, caller, explicit) == Step(Failure(NotAuthenticated), s)
  {
  }

  /** Otherwise exactly one request is sent, bearing the explicit token if truthy, else the session's. */
  lemma TokenBearingRequest(s: State, cfg: SessionConfig, respond: Responder, url: string, caller: Headers, explicit: Option<string>)
    requires Truthy(explicit) || Truthy(AccessTokenOf(s.jar, cfg))
    ensures var token := if Truthy(explicit) then explicit.value else AccessTokenOf(s.jar, cfg).value;
            var req := Request(Get, url, AuthHeaders(caller, token), NoBody);
            FetchWithAuthSpec(s, cfg, respond, url, caller, explicit) == Step(respond(req), State(s.jar, s.log + [req]))
  {
  }

  /** Without an explicit token a stored cloud id is returned and nothing is requested. */
  lemma CachedCloudIdNoRequest(s: State, cfg: SessionConfig, respond: Responder, explicit: Option<string>)
    requires !Truthy(explicit) && Truthy(StoredCloudId(s.jar, cfg))
    ensures CloudIdSpec(s, cfg, respond, explicit) == Step(Success(StoredCloudId(s.jar, cfg).value), s)
  {
  }

  /** The resource path: an empty list throws; otherwise the first id is returned and stored, even with an explicit token. */
  lemma CloudIdFromResources(s: State, cfg: SessionConfig, respond: Responder, explicit: Option<string>, resources: seq<AccessibleResource>)
    requires Truthy(explicit) || !Truthy(StoredCloudId(s.jar, cfg))
    requires AccessibleResourcesSpec(s, cfg, respond, explicit).result == Success(resources)
    ensures var r := AccessibleResourcesSpec(s, cfg, respond, explicit);
            var c := CloudIdSpec(s, cfg, respond, explicit);
            r.after.jar == s.jar &&
            (|resources| == 0 ==> c == Step(Failure(NoResources), r.after)) &&
            (|resources| > 0 ==> c == Step(Success(resources[0].id), State(WithCloudId(s.jar, cfg, resources[0].id), r.after.log)))
  {
  }

  /** Resolving the cloud id never changes the access token or any cookie but the session's. */
  lemma CloudIdKeepsToken(s: State, cfg: SessionConfig, respond: Responder, explicit: Option<string>)
    ensures var c := CloudIdSpec(s, cfg, respond, explicit);
            AccessTokenOf(c.after.jar, cfg) == AccessTokenOf(s.jar, cfg) &&
            SameExcept(s.jar, c.after.jar, SessionCookieName) &&
            |c.after.log| <= |s.log| + 1 && c.after.log[..|s.log|] == s.log
  {
    var c := CloudIdSpec(s, cfg, respond, explicit);
    var stored := StoredCloudId(s.jar, cfg);
    if !Truthy(explicit) && Truthy(stored) {
    } else {
      var r := AccessibleResourcesSpec(s, cfg, respond, explicit);
      if r.result.Success? && |r.result.value| > 0 {
        var id := r.result.value[0].id;
        WritesTouchOnlySessionCookie(s.jar, cfg, "", None, id, "", "");
        if Load(s.jar, cfg).Some? {
          StoreCloudIdThenRead(s.jar, cfg, id);
        }
      }
    }
  }

  /**
   * `getCloudId()` without a token is idempotent once a session exists: the second
   * call returns the same id and sends no request.
   */
  lemma CloudIdIdempotent(s: State, cfg: SessionConfig, respond: Responder, id: string)
    requires Load(s.jar, cfg).Some?
    requires CloudIdSpec(s, cfg, respond, None).result == Success(id) && id != ""
    ensures var first := CloudIdSpec(s, cfg, respond, None);
            CloudIdSpec(first.after, cfg, respond, None) == Step(Success(id), first.after)
  {
    var first := CloudIdSpec(s, cfg, respond, None);
    var stored := StoredCloudId(s.jar, cfg);
    if !Truthy(stored) {
      var r := AccessibleResourcesSpec(s, cfg, respond, None);
      assert r.after.jar == s.jar;
      StoreCloudIdThenRead(s.jar, cfg, id);
      assert StoredCloudId(first.after.jar, cfg) == Some(id);
    }
  }

  /** A board or issue page without its list reads as the empty list. */
  lemma MissingListsDefaultToEmpty()
    ensures ReadBoards(Success(BoardPage(None))) == Success([])
    ensures ReadIssues(Success(IssuePage(None))) == Success([])
    ensures forall bs :: ReadBoards(Success(BoardPage(Some(bs)))) == Success(bs)
    ensures forall xs :: ReadIssues(Success(IssuePage(Some(xs)))) == Success(xs)
  {
  }

  /**
   * A response that arrives but is not ok becomes the reader's own message,
   * whatever its body; a rejected fetch keeps its own error.
   */
  lemma CheckedOutcome(r: Result<Response, string>, failMessage: string)
    ensures r.Failure? ==> Checked(r, failMessage) == Failure(r.error)
    ensures r.Success? && !r.value.ok ==> Checked(r, failMessage) == Failure(failMessage)
    ensures r.Success? && r.value.ok ==> Checked(r, failMessage) == Success(r.value.payload)
  {
  }

  /** Each reader, given a non-ok response to its request, fails with its own message. */
  lemma NonOkResponsesFail(s: State, cfg: SessionConfig, respond: Responder, explicit: Option<string>, boardId: int)
    ensures var f := FetchWithAuthSpec(s, cfg, respond, ResourcesUrl, map[], explicit);
            f.result.Success? && !f.result.value.ok ==>
              AccessibleResourcesSpec(s, cfg, respond, explicit).result == Failure("Failed to fetch accessible resources")
    ensures var f := FetchWithAuthSpec(s, cfg, respond, MeUrl, map[], explicit);
            f.result.Success? && !f.result.value.ok ==>
              JiraUserSpec(s, cfg, respond, explicit).result == Failure("Failed to fetch user details")
    ensures var c := CloudIdSpec(s, cfg, respond, None);
            c.result.Success? ==>
              var f := FetchWithAuthSpec(c.after, cfg, respond, BoardsUrl(c.result.value), map[], None);
              f.result.Success? && !f.result.value.ok ==>
                BoardsSpec(s, cfg, respond).result == Failure("Failed to fetch boards")
    ensures var c := CloudIdSpec(s, cfg, respond, None);
            c.result.Success? ==>
              var f := FetchWithAuthSpec(c.after, cfg, respond, ConfigurationUrl(c.result.value, boardId), map[], None);
              f.result.Success? && !f.result.value.ok ==>
                ConfigurationSpec(s, cfg, respond, boardId).result ==
                  Failure("Failed to fetch configuration for board " + IntToString(boardId))
    ensures var c := CloudIdSpec(s, cfg, respond, None);
            c.result.Success? ==>
              var f := FetchWithAuthSpec(c.after, cfg, respond, IssuesUrl(c.result.value, boardId), map[], None);
              f.result.Success? && !f.result.value.ok ==>
                IssuesSpec(s, cfg, respond, boardId).result ==
                  Failure("Failed to fetch issues for board " + IntToString(boardId))
  {
  }

  // ---------------------------------------------------------------------------
  // Properties: column counting
  // ---------------------------------------------------------------------------

  /** The positions of the issues whose status id is in `ids`. */
  function MatchingIndices(issues: seq<Issue>, ids: seq<string>): set<int> {
    set i | 0 <= i < |issues| && issues[i].statusId in ids
  }

  /** A column's count is the number of issues whose status id is in the column's list. */
  lemma {:induction false} CountInIsMatches(issues: seq<Issue>, ids: seq<string>)
    ensures CountIn(issues, ids) == |MatchingIndices(issues, ids)|
    ensures CountIn(issues, ids) <= |issues|
    decreases |issues|
  {
    if |issues| > 0 {
      var n := |issues| - 1;
      var front := issues[..n];
      CountInIsMatches(front, ids);
      var before := MatchingIndices(front, ids);
      var now := MatchingIndices(issues, ids);
      assert forall i :: 0 <= i < n ==> front[i] == issues[i];
      if issues[n].statusId in ids {
        assert now == before + {n};
        assert n !in before;
      } else {
        assert now == before;
      }
    }
  }

  lemma CountInSnoc(issues: seq<Issue>, x: Issue, ids: seq<string>)
    ensures CountIn(issues + [x], ids) == CountIn(issues, ids) + (if x.statusId in ids then 1 else 0)
  {
    assert (issues + [x])[..|issues|] == issues;
  }

  /** The status-id lists of a configuration's columns. */
  function ColumnIds(columns: seq<Column>): (lists: seq<seq<string>>)
    ensures |lists| == |columns|
    ensures forall k :: 0 <= k < |columns| ==> lists[k] == StatusIds(columns[k])
  {
    seq(|columns|, k requires 0 <= k < |columns| => StatusIds(columns[k]))
  }

  /** No status id belongs to two columns. */
  ghost predicate PairwiseDisjoint(lists: seq<seq<string>>) {
    forall a, b, x :: 0 <= a < b < |lists| && x in lists[a] ==> x !in lists[b]
  }

  function SumCounts(summaries: seq<ColumnSummary>): nat
    decreases |summaries|
  {
    if |summaries| == 0 then 0 else summaries[0].issueCount + SumCounts(summaries[1..])
  }

  function TotalCount(lists: seq<seq<string>>, issues: seq<Issue>): nat
    decreases |lists|
  {
    if |lists| == 0 then 0 else CountIn(issues, lists[0]) + TotalCount(lists[1..], issues)
  }

  /** The number of lists that contain `sid`. */
  function Hits(lists: seq<seq<string>>, sid: string): nat
    decreases |lists|
  {
    if |lists| == 0 then 0 else (if sid in lists[0] then 1 else 0) + Hits(lists[1..], sid)
  }

  lemma {:induction false} NoHits(lists: seq<seq<string>>, sid: string)
    requires forall k :: 0 <= k < |lists| ==> sid !in lists[k]
    ensures Hits(lists, sid) == 0
    decreases |lists|
  {
    if |lists| > 0 {
      NoHits(lists[1..], sid);
    }
  }

  lemma {:induction false} HitsAtMostOne(lists: seq<seq<string>>, sid: string)
    requires PairwiseDisjoint(lists)
    ensures Hits(lists, sid) <= 1
    decreases |lists|
  {
    if |lists| > 0 {
      var rest := lists[1..];
      assert PairwiseDisjoint(rest) by {
        forall a, b, x | 0 <= a < b < |rest| && x in rest[a] ensures x !in rest[b] {
          assert rest[a] == lists[a + 1] && rest[b] == lists[b + 1];
        }
      }
      if sid in lists[0] {
        forall k | 0 <= k < |rest| ensures sid !in rest[k] {
          assert rest[k] == lists[k + 1];
        }
        NoHits(rest, sid);
      } else {
        HitsAtMostOne(rest, sid);
      }
    }
  }

  lemma {:induction false} TotalCountSnoc(lists: seq<seq<string>>, issues: seq<Issue>, x: Issue)
    ensures TotalCount(lists, issues + [x]) == TotalCount(lists, issues) + Hits(lists, x.statusId)
    decreases |lists|
  {
    if |lists| > 0 {
      CountInSnoc(issues, x, lists[0]);
      TotalCountSnoc(lists[1..], issues, x);
    }
  }

  lemma {:induction false} TotalAtMostIssues(lists: seq<seq<string>>, issues: seq<Issue>)
    requires PairwiseDisjoint(lists)
    ensures TotalCount(lists, issues) <= |issues|
    decreases |issues|
  {
    if |issues| == 0 {
      ZeroTotal(lists, issues);
    } else {
      var n := |issues| - 1;
      assert issues == issues[..n] + [issues[n]];
      TotalAtMostIssues(lists, issues[..n]);
      TotalCountSnoc(lists, issues[..n], issues[n]);
      HitsAtMostOne(lists, issues[n].statusId);
    }
  }

  lemma {:induction false} ZeroTotal(lists: seq<seq<string>>, issues: seq<Issue>)
    requires |issues| == 0
    ensures TotalCount(lists, issues) == 0
    decreases |lists|
  {
    if |lists| > 0 {
      ZeroTotal(lists[1..], issues);
    }
  }

  lemma {:induction false} SumCountsIsTotal(columns: seq<Column>, issues: seq<Issue>)
    ensures SumCounts(Summaries(columns, issues)) == TotalCount(ColumnIds(columns), issues)
    decreases |columns|
  {
    if |columns| > 0 {
      assert Summaries(columns, issues)[1..] == Summaries(columns[1..], issues);
      assert ColumnIds(columns)[1..] == ColumnIds(columns[1..]);
      SumCountsIsTotal(columns[1..], issues);
    }
  }

  /** With disjoint status lists the column counts add up to at most the number of issues. */
  lemma DisjointColumnsCountAtMostIssues(columns: seq<Column>, issues: seq<Issue>)
    requires PairwiseDisjoint(ColumnIds(columns))
    ensures SumCounts(Summaries(columns, issues)) <= |issues|
  {
    SumCountsIsTotal(columns, issues);
    TotalAtMostIssues(ColumnIds(columns), issues);
  }

  /** An issue whose status is in no column adds to no column's count. */
  lemma UnmappedIssueCountsNowhere(columns: seq<Column>, issues: seq<Issue>, x: Issue)
    requires forall k :: 0 <= k < |columns| ==> x.statusId !in StatusIds(columns[k])
    ensures Summaries(columns, issues + [x]) == Summaries(columns, issues)
  {
    forall k | 0 <= k < |columns|
      ensures CountIn(issues + [x], StatusIds(columns[k])) == CountIn(issues, StatusIds(columns[k]))
    {
      CountInSnoc(issues, x, StatusIds(columns[k]));
    }
  }

  /** Columns {1, 2} and {3} over issues with statuses 1, 3, 3, 4 count 1 and 2; status 4 is counted nowhere. */
  lemma CountingExample(i1: Issue, i2: Issue, i3: Issue, i4: Issue)
    requires i1.statusId == "1" && i2.statusId == "3" && i3.statusId == "3" && i4.statusId == "4"
    ensures CountIn([i1, i2, i3, i4], ["1", "2"]) == 1
    ensures CountIn([i1, i2, i3, i4], ["3"]) == 2
  {
    CountFour(i1, i2, i3, i4, ["1", "2"]);
    CountFour(i1, i2, i3, i4, ["3"]);
    assert "3" !in ["1", "2"] && "4" !in ["1", "2"] && "1" !in ["3"] && "4" !in ["3"];
  }

  lemma CountFour(i1: Issue, i2: Issue, i3: Issue, i4: Issue, ids: seq<string>)
    ensures CountIn([i1, i2, i3, i4], ids) ==
      (if i1.statusId in ids then 1 else 0) + (if i2.statusId in ids then 1 else 0) +
      (if i3.statusId in ids then 1 else 0) + (if i4.statusId in ids then 1 else 0)
  {
    assert [i1] == [] + [i1];
    CountInSnoc([], i1, ids);
    assert [i1, i2] == [i1] + [i2];
    CountInSnoc([i1], i2, ids);
    assert [i1, i2, i3] == [i1, i2] + [i3];
    CountInSnoc([i1, i2], i3, ids);
    assert [i1, i2, i3, i4] == [i1, i2, i3] + [i4];
    CountInSnoc([i1, i2, i3], i4, ids);
  }

  // ---------------------------------------------------------------------------
  // Properties: the per-board aggregate
  // ---------------------------------------------------------------------------

  /**
   * getBoardDetailsWithCounts never throws and keeps the board; on success each
   * output column is the configuration column of the same position with its
   * count and status ids; if either request failed the columns are empty.
   */
  lemma DetailsShape(s: State, cfg: SessionConfig, respond: Responder, board: Board)
    ensures var d := DetailsSpec(s, cfg, respond, board);
            var c := ConfigurationSpec(s, cfg, respond, board.id);
            var i := IssuesSpec(c.after, cfg, respond, board.id);
            d.result.Success? && d.result.value.board == board && d.after == i.after &&
            (c.result.Failure? || i.result.Failure? ==> d.result.value.columns == []) &&
            (c.result.Success? && i.result.Success? ==>
              var cols := c.result.value.columns;
              |d.result.value.columns| == |cols| &&
              forall k :: 0 <= k < |cols| ==>
                d.result.value.columns[k].name == cols[k].name &&
                d.result.value.columns[k].statuses == StatusIds(cols[k]) &&
                d.result.value.columns[k].issueCount == |MatchingIndices(i.result.value, StatusIds(cols[k]))|)
  {
    var c := ConfigurationSpec(s, cfg, respond, board.id);
    var i := IssuesSpec(c.after, cfg, respond, board.id);
    if c.result.Success? && i.result.Success? {
      var cols := c.result.value.columns;
      forall k | 0 <= k < |cols|
        ensures CountIn(i.result.value, StatusIds(cols[k])) == |MatchingIndices(i.result.value, StatusIds(cols[k]))|
      {
        CountInIsMatches(i.result.value, StatusIds(cols[k]));
      }
    }
  }

  // ---------------------------------------------------------------------------
  // Properties: what the client sends
  // ---------------------------------------------------------------------------

  lemma FetchWithAuthSendsGet(s: State, cfg: SessionConfig, respond: Responder, url: string, caller: Headers, explicit: Option<string>)
    ensures var f := FetchWithAuthSpec(s, cfg, respond, url, caller, explicit);
            f.after.jar == s.jar && ExtendsWithGets(s.log, f.after.log) && |f.after.log| <= |s.log| + 1
  {
  }

  /** Cloud-id resolution sends GET requests only and changes only the session cookie. */
  lemma CloudIdSendsGets(s: State, cfg: SessionConfig, respond: Responder, explicit: Option<string>)
    ensures var c := CloudIdSpec(s, cfg, respond, explicit);
            ExtendsWithGets(s.log, c.after.log) && SameExcept(s.jar, c.after.jar, SessionCookieName)
  {
    FetchWithAuthSendsGet(s, cfg, respond, ResourcesUrl, map[], explicit);
    CloudIdKeepsToken(s, cfg, respond, explicit);
  }

  lemma JiraUserSendsGets(s: State, cfg: SessionConfig, respond: Responder, explicit: Option<string>)
    ensures var u := JiraUserSpec(s, cfg, respond, explicit);
            ExtendsWithGets(s.log, u.after.log) && u.after.jar == s.jar
  {
    FetchWithAuthSendsGet(s, cfg, respond, MeUrl, map[], explicit);
  }
}
