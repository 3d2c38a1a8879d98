/**
 * HTTP as the core sees it: requests it sends with `fetch`, the outcome of
 * each (a response, or a rejection with an error message), the state a
 * request handler threads through its calls, and the redirects it returns.
 */
module Http {
  import opened Wrappers
  import opened Cookies
  import opened JiraTypes

  datatype HttpMethod = Get | Post

  type Headers = map<string, string>

  /** The JSON body of the token exchange; an `undefined` property is dropped from the JSON. */
  datatype RequestBody =
    | NoBody
    | TokenExchangeBody(
        grantType: string,
        clientId: Option<string>,
        clientSecret: Option<string>,
        code: string,
        redirectUri: Option<string>)

  datatype Request = Request(verb: HttpMethod, url: string, headers: Headers, body: RequestBody)

  /** What `response.json()` yields, by the shape the caller reads, or the parse error it throws. */
  datatype Payload =
    | ResourceList(resources: seq<AccessibleResource>)
    | UserProfile(user: JiraUser)
    | BoardPage(values: Option<seq<Board>>)
    | Configuration(config: BoardConfiguration)
    | IssuePage(issues: Option<seq<Issue>>)
    | TokenGrant(accessToken: string, refreshToken: Option<string>)
    | OAuthErrorBody(error: Option<string>, errorDescription: Option<string>)
    | NotJson(syntaxError: string)

  /** A received response: `response.ok` and its body. */
  datatype Response = Response(ok: bool, payload: Payload)

  /** The upstream servers: the outcome of each request; `Failure` is a rejected `fetch`. */
  type Responder = Request -> Result<Response, string>

  /** The message thrown when a body does not have the shape the caller reads. */
  const MalformedBody := "Unexpected response body"

  /** The network a request handler talks to, and the requests it has sent so far. */
  class Network {
    const respond: Responder
    var log: seq<Request>

    constructor (respond: Responder)
      ensures this.respond == respond && log == []
    {
      this.respond := respond;
      log := [];
    }

    /** `fetch(req)`. */
    method Fetch(req: Request) returns (r: Result<Response, string>)
      modifies this
      ensures log == old(log) + [req]
      ensures r == respond(req)
    {
      log := log + [req];
      r := respond(req);
    }
  }

  /** What a handler's effects act on: the cookie jar and the requests sent. */
  datatype State = State(jar: Jar, log: seq<Request>)

  /** The outcome of an effectful call and the state after it. */
  datatype Step<T> = Step(result: Result<T, string>, after: State)

  /** A redirect target: the URL before `?` and its query parameters in order. */
  datatype Location = Location(base: string, query: seq<(string, string)>)

  /** `url.searchParams.get(key)`: the first value of `key`. */
  function QueryGet(query: seq<(string, string)>, key: string): Option<string>
    decreases |query|
  {
    if |query| == 0 then None
    else if query[0].0 == key then Some(query[0].1)
    else QueryGet(query[1..], key)
  }

  /** The first pair whose key is `key` decides `QueryGet`. */
  lemma {:induction false} QueryGetAt(query: seq<(string, string)>, i: nat, key: string)
    requires i < |query| && query[i].0 == key
    requires forall j :: 0 <= j < i ==> query[j].0 != key
    ensures QueryGet(query, key) == Some(query[i].1)
    decreases i
  {
    if i > 0 {
      QueryGetAt(query[1..], i - 1, key);
    }
  }

  /** The number of POST requests in a log. */
  function Posts(log: seq<Request>): nat
    decreases |log|
  {
    if |log| == 0 then 0 else (if log[0].verb == Post then 1 else 0) + Posts(log[1..])
  }

  lemma {:induction false} PostsAppend(a: seq<Request>, b: seq<Request>)
    ensures Posts(a + b) == Posts(a) + Posts(b)
    decreases |a|
  {
    if |a| == 0 {
      assert a + b == b;
    } else {
      assert (a + b)[1..] == a[1..] + b;
      PostsAppend(a[1..], b);
    }
  }

  /** `later` is `earlier` followed by GET requests only. */
  ghost predicate ExtendsWithGets(earlier: seq<Request>, later: seq<Request>) {
    |earlier| <= |later| && later[..|earlier|] == earlier &&
    forall k :: |earlier| <= k < |later| ==> later[k].verb == Get
  }

  lemma {:induction false} NoPosts(log: seq<Request>)
    requires forall k :: 0 <= k < |log| ==> log[k].verb == Get
    ensures Posts(log) == 0
    decreases |log|
  {
    if |log| > 0 {
      NoPosts(log[1..]);
    }
  }

  /** Appending GET requests leaves the number of POSTs unchanged. */
  lemma GetsAddNoPosts(earlier: seq<Request>, later: seq<Request>)
    requires ExtendsWithGets(earlier, later)
    ensures Posts(later) == Posts(earlier)
  {
    var extra := later[|earlier|..];
    assert later == earlier + extra;
    NoPosts(extra);
    PostsAppend(earlier, extra);
  }

  lemma ExtendsWithGetsTransitive(a: seq<Request>, b: seq<Request>, c: seq<Request>)
    requires ExtendsWithGets(a, b) && ExtendsWithGets(b, c)
    ensures ExtendsWithGets(a, c)
  {
    assert c[..|a|] == c[..|b|][..|a|];
  }
}
