/**
 * `GET /api/jira/boards`: the dashboard's data. Unauthenticated callers get
 * 401; otherwise every board is listed with its column counts, or the whole
 * request fails with 500 when the board list cannot be fetched.
 */
module BoardsRoute {
  import opened Wrappers
  import opened Cookies
  import opened Http
  import opened JiraTypes
  import opened AuthService
  import opened JiraService

  /** The JSON body: `{ error, details? }` or the array of boards with details. */
  datatype BoardsBody =
    | ErrorBody(error: string, details: Option<string>)
    | BoardList(boards: seq<BoardWithDetails>)

  datatype BoardsReply = BoardsReply(status: int, body: BoardsBody)

  datatype BoardsOutcome = BoardsOutcome(reply: BoardsReply, after: State)

  /**
   * `Promise.all(boards.map(getBoardDetailsWithCounts))`, one board after the
   * other: it never fails, and the i-th result belongs to the i-th board.
   */
  function AllDetailsSpec(s: State, cfg: SessionConfig, respond: Responder, boards: seq<Board>): (r: Step<seq<BoardWithDetails>>)
    ensures r.result.Success?
    ensures |r.result.value| == |boards|
    ensures forall k :: 0 <= k < |boards| ==> r.result.value[k].board == boards[k]
    decreases |boards|
  {
    if |boards| == 0 then Step(Success([]), s)
    else
      var init := AllDetailsSpec(s, cfg, respond, boards[..|boards| - 1]);
      var d := DetailsSpec(init.after, cfg, respond, boards[|boards| - 1]);
      Step(Success(init.result.value + [d.result.value]), d.after)
  }

  function BoardsRouteSpec(s: State, cfg: SessionConfig, respond: Responder): BoardsOutcome {
    if !Authenticated(s.jar, cfg) then BoardsOutcome(BoardsReply(401, ErrorBody("Unauthorized", None)), s)
    else
      var b := BoardsSpec(s, cfg, respond);
      match b.result
      case Failure(e) => BoardsOutcome(BoardsReply(500, ErrorBody("Failed to fetch JIRA boards", Some(e))), b.after)
      case Success(boards) =>
        var all := AllDetailsSpec(b.after, cfg, respond, boards);
        BoardsOutcome(BoardsReply(200, BoardList(all.result.value)), all.after)
  }

  /** The boards' details, one after the other. */
  method AllBoardDetails(jar: CookieJar, net: Network, cfg: SessionConfig, boards: seq<Board>)
    returns (details: seq<BoardWithDetails>)
    modifies jar, net
    ensures Step(Success(details), State(jar.entries, net.log)) ==
            AllDetailsSpec(State(old(jar.entries), old(net.log)), cfg, net.respond, boards)
  {
    ghost var start := State(jar.entries, net.log);
    details := [];
    var k := 0;
    while k < |boards|
      invariant 0 <= k <= |boards|
      invariant Step(Success(details), State(jar.entries, net.log)) == AllDetailsSpec(start, cfg, net.respond, boards[..k])
    {
      var d := GetBoardDetailsWithCounts(jar, net, cfg, boards[k]);
      assert boards[..k + 1][..k] == boards[..k];
      details := details + [d];
      k := k + 1;
    }
    assert boards[..|boards|] == boards;
  }

  method BoardsRoute(jar: CookieJar, net: Network, cfg: SessionConfig) returns (reply: BoardsReply)
    modifies jar, net
    ensures BoardsOutcome(reply, State(jar.entries, net.log)) == BoardsRouteSpec(State(old(jar.entries), old(net.log)), cfg, net.respond)
  {
    var authenticated := IsAuthenticated(jar, cfg);
    if !authenticated {
      return BoardsReply(401, ErrorBody("Unauthorized", None));
    }
    var boards := GetBoards(jar, net, cfg);
    if boards.Failure? {
      return BoardsReply(500, ErrorBody("Failed to fetch JIRA boards", Some(boards.error)));
    }
    var details := AllBoardDetails(jar, net, cfg, boards.value);
    reply := BoardsReply(200, BoardList(details));
  }

  // ---------------------------------------------------------------------------
  // Properties of the route
  // ---------------------------------------------------------------------------

  /** An unauthenticated caller gets 401 and nothing is sent or changed. */
  lemma UnauthorizedSendsNothing(s: State, cfg: SessionConfig, respond: Responder)
    requires !Authenticated(s.jar, cfg)
    ensures BoardsRouteSpec(s, cfg, respond) == BoardsOutcome(BoardsReply(401, ErrorBody("Unauthorized", None)), s)
  {
  }

  /**
   * An authenticated caller gets 500 exactly when the board list fails, with its
   * message as details; otherwise 200 with one entry per board in the same order.
   */
  lemma AuthorizedReply(s: State, cfg: SessionConfig, respond: Responder)
    requires Authenticated(s.jar, cfg)
    ensures var o := BoardsRouteSpec(s, cfg, respond);
            var b := BoardsSpec(s, cfg, respond);
            (b.result.Failure? <==> o.reply.status == 500) &&
            (b.result.Failure? ==> o.reply.body == ErrorBody("Failed to fetch JIRA boards", Some(b.result.error))) &&
            (b.result.Success? ==>
               o.reply.status == 200 && o.reply.body.BoardList? &&
               |o.reply.body.boards| == |b.result.value| &&
               forall k :: 0 <= k < |b.result.value| ==> o.reply.body.boards[k].board == b.result.value[k])
  {
  }

  /** The route answers 200, 401 or 500 and never anything else. */
  lemma StatusCodes(s: State, cfg: SessionConfig, respond: Responder)
    ensures BoardsRouteSpec(s, cfg, respond).reply.status in {200, 401, 500}
  {
  }

  /** Each board's entry is what getBoardDetailsWithCounts gives after the boards before it. */
  lemma {:induction false} DetailsInOrder(s: State, cfg: SessionConfig, respond: Responder, boards: seq<Board>, k: nat)
    requires k < |boards|
    ensures var before := AllDetailsSpec(s, cfg, respond, boards[..k]);
            AllDetailsSpec(s, cfg, respond, boards).result.value[k] ==
            DetailsSpec(before.after, cfg, respond, boards[k]).result.value
    decreases |boards|
  {
    var n := |boards| - 1;
    var init := AllDetailsSpec(s, cfg, respond, boards[..n]);
    var d := DetailsSpec(init.after, cfg, respond, boards[n]);
    assert AllDetailsSpec(s, cfg, respond, boards).result.value == init.result.value + [d.result.value];
    if k < n {
      DetailsInOrder(s, cfg, respond, boards[..n], k);
      assert boards[..n][..k] == boards[..k];
      assert boards[..n][k] == boards[k];
    } else {
      assert boards[..k] == boards[..n];
    }
  }
}
