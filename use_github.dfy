/** The `useGitHub` hook: `makeRequest` with its token guard, default headers and error
    messages, the REST paths built on it, and the `connect` / `disconnect` session state. */
module UseGitHub {
  import opened Wrappers
  import opened JsText
  import opened JsValues
  import opened GitHubTypes

  const ApiBase := "https://api.github.com"
  const AcceptV3 := "application/vnd.github.v3+json"
  const NoToken := "No token configured"
  const RequestFailed := "Request failed"
  const InvalidToken := "Invalid token or insufficient permissions"

  type Headers = map<string, string>

  /** The headers `makeRequest` puts on every request. */
  function DefaultHeaders(token: string): (h: Headers)
    ensures h.Keys == {"Authorization", "Accept", "Content-Type"}
  {
    map["Authorization" := "Bearer " + token, "Accept" := AcceptV3, "Content-Type" := "application/json"]
  }

  /** `{ ...defaults, ...custom }`: every header of either, the caller's value winning. */
  function MergeHeaders(defaults: Headers, custom: Headers): (h: Headers)
    ensures h.Keys == defaults.Keys + custom.Keys
    ensures forall k :: k in custom ==> h[k] == custom[k]
    ensures forall k :: k in defaults && k !in custom ==> h[k] == defaults[k]
  {
    defaults + custom
  }

  /** The options a caller passes: `method`, `body` (the value given to `JSON.stringify`) and
      `headers`. */
  datatype RequestOptions = RequestOptions(httpMethod: Option<string>, body: Option<JsValue>, headers: Headers)

  const NoOptions := RequestOptions(None, None, map[])

  /** One `fetch` call: address, method (`GET` when none is given), body and headers. */
  datatype FetchRequest = FetchRequest(url: string, httpMethod: string, body: Option<JsValue>, headers: Headers)

  /** The `fetch` call `makeRequest` makes for `path` with a configured token. */
  function BuildRequest(token: string, path: string, options: RequestOptions): (r: FetchRequest)
    ensures ApiBase <= r.url && r.url[|ApiBase|..] == path
    ensures r.httpMethod == options.httpMethod.GetOr("GET") && r.body == options.body
    ensures r.headers.Keys == {"Authorization", "Accept", "Content-Type"} + options.headers.Keys
    ensures "Authorization" !in options.headers ==> r.headers["Authorization"] == "Bearer " + token
    ensures forall k :: k in options.headers ==> r.headers[k] == options.headers[k]
  {
    FetchRequest(ApiBase + path, options.httpMethod.GetOr("GET"), options.body,
                 MergeHeaders(DefaultHeaders(token), options.headers))
  }

  /** A body as `response.json()` reads it: not JSON (with the parser's message), or a value. */
  datatype Parsed<T> = NotJson(parseError: string) | Json(value: T)

  /** What the server does with one request: `fetch` rejects (no answer), a 2xx answer with the
      body read as the expected shape, or an error status with the body's string `message`
      property (`None`: the body has none). */
  datatype Answer<T> =
    | NetworkError(message: string)
    | Answered(body: Parsed<T>)
    | HttpError(status: nat, errorBody: Parsed<Option<string>>)

  /** The message of the `Error` thrown for an error status: the body's `message` if it is not
      empty, otherwise `HTTP <status>`; a body that is not JSON reads as
      `{ message: 'Request failed' }`. */
  function FailureMessage(status: nat, errorBody: Parsed<Option<string>>): (m: string)
    ensures m != ""
    ensures errorBody.NotJson? ==> m == RequestFailed
    ensures errorBody.Json? && errorBody.value.Some? && errorBody.value.value != "" ==> m == errorBody.value.value
    ensures errorBody.Json? && (errorBody.value.None? || errorBody.value.value == "") ==>
      (|m| > 5 && m[..5] == "HTTP " && (forall i :: 5 <= i < |m| ==> '0' <= m[i] <= '9') &&
       DecimalValue(m[5..]) == status)
  {
    match errorBody
    case NotJson(_) => RequestFailed
    case Json(message) =>
      var fallback := "HTTP " + NatToDecimal(status);
      assert fallback[5..] == NatToDecimal(status);
      DecimalRoundTrip(status);
      OrElse(message.GetOr(""), fallback)
  }

  /** What one call of `makeRequest` did: the request it sent (`None`: none) and how it settled. */
  datatype Call<T> = Call(sent: Option<FetchRequest>, result: Result<T>)

  /** A configuration whose token is truthy. */
  predicate HasToken(config: Option<ConnectionConfig>)
  {
    config.Some? && config.value.token != ""
  }

  /** `makeRequest(path, options)` under `config`, when the server does `answer`. */
  function MakeRequest<T>(config: Option<ConnectionConfig>, path: string, options: RequestOptions, answer: Answer<T>)
    : (c: Call<T>)
    ensures !HasToken(config) ==> c == Call(None, Failure(NoToken))
    ensures HasToken(config) ==> c.sent == Some(BuildRequest(config.value.token, path, options))
    ensures c.result.Success? <==> HasToken(config) && answer.Answered? && answer.body.Json?
    ensures c.result.Success? ==> c.result.value == answer.body.value
    ensures HasToken(config) && answer.NetworkError? ==> c.result == Failure(answer.message)
    ensures HasToken(config) && answer.Answered? && answer.body.NotJson? ==> c.result == Failure(answer.body.parseError)
    ensures HasToken(config) && answer.HttpError? ==>
      c.result == Failure(FailureMessage(answer.status, answer.errorBody))
  {
    if !HasToken(config) then Call(None, Failure(NoToken))
    else
      var sent := Some(BuildRequest(config.value.token, path, options));
      match answer
      case NetworkError(m) => Call(sent, Failure(m))
      case HttpError(status, errorBody) => Call(sent, Failure(FailureMessage(status, errorBody)))
      case Answered(body) =>
        match body
        case NotJson(e) => Call(sent, Failure(e))
        case Json(v) => Call(sent, Success(v))
  }

  /** `/repos/<owner>/<repo>`. */
  function RepositoryPath(owner: string, repo: string): string
  {
    "/repos/" + owner + "/" + repo
  }

  /** `/repos/<owner>/<repo>/branches`. */
  function BranchesPath(owner: string, repo: string): string
  {
    RepositoryPath(owner, repo) + "/branches"
  }

  /** `/repos/<owner>/<repo>/commits`, with `?sha=<branch>` only for a non-empty branch. */
  function CommitsPath(owner: string, repo: string, branch: Option<string>): string
  {
    RepositoryPath(owner, repo) + "/commits" + (if Given(branch) then "?sha=" + branch.value else "")
  }

  const UserReposPath := "/user/repos"

  /** Four-piece `Join`, written out. */
  lemma JoinFour(a: string, b: string, c: string, d: string, sep: char)
    ensures Join([a, b, c, d], sep) == a + [sep] + b + [sep] + c + [sep] + d
  {
    var parts := [a, b, c, d];
    assert Join(parts[3..], sep) == d;
    assert Join(parts[2..], sep) == c + [sep] + d;
    assert Join(parts[1..], sep) == b + [sep] + c + [sep] + d;
  }

  /** A repository path splits back into its owner and repository. */
  lemma RepositoryPathParses(owner: string, repo: string)
    requires '/' !in owner && '/' !in repo
    ensures Split(RepositoryPath(owner, repo), '/') == ["", "repos", owner, repo]
  {
    JoinFour("", "repos", owner, repo, '/');
    assert Join(["", "repos", owner, repo], '/') == RepositoryPath(owner, repo);
    var parts := ["", "repos", owner, repo];
    assert forall k :: 0 <= k < |parts| ==> '/' !in parts[k] by {
      forall k | 0 <= k < |parts| ensures '/' !in parts[k] {
        if k == 1 { assert parts[k] == "repos"; }
      }
    }
    SplitJoin(parts, '/');
  }

  /** The branch list path is the repository path with one more segment. */
  lemma BranchesPathParses(owner: string, repo: string)
    requires '/' !in owner && '/' !in repo
    ensures Split(BranchesPath(owner, repo), '/') == ["", "repos", owner, repo, "branches"]
  {
    var parts := ["", "repos", owner, repo, "branches"];
    JoinFour("repos", owner, repo, "branches", '/');
    assert parts[1..] == ["repos", owner, repo, "branches"];
    assert Join(parts, '/') == BranchesPath(owner, repo);
    assert forall k :: 0 <= k < |parts| ==> '/' !in parts[k] by {
      forall k | 0 <= k < |parts| ensures '/' !in parts[k] {
        if k == 1 { assert parts[k] == "repos"; }
        if k == 4 { assert parts[k] == "branches"; }
      }
    }
    SplitJoin(parts, '/');
  }

  /** The commit path has a query exactly when a non-empty branch is given, and the query names
      that branch. */
  lemma CommitsQueryIffBranch(owner: string, repo: string, branch: Option<string>)
    requires '?' !in owner && '?' !in repo && (branch.Some? ==> '?' !in branch.value)
    ensures '?' in CommitsPath(owner, repo, branch) <==> Given(branch)
    ensures Given(branch) ==>
      Split(CommitsPath(owner, repo, branch), '?') == [RepositoryPath(owner, repo) + "/commits", "sha=" + branch.value]
    ensures !Given(branch) ==> CommitsPath(owner, repo, branch) == RepositoryPath(owner, repo) + "/commits"
  {
    var base := RepositoryPath(owner, repo) + "/commits";
    assert '?' !in base by {
      assert base == "/repos/" + owner + "/" + repo + "/commits";
    }
    if Given(branch) {
      var query := "sha=" + branch.value;
      assert '?' !in query;
      assert Join([base, query], '?') == base + "?" + query by {
        assert Join([base, query][1..], '?') == query;
      }
      assert CommitsPath(owner, repo, branch) == base + "?" + query;
      assert CommitsPath(owner, repo, branch)[|base|] == '?';
      SplitJoin([base, query], '?');
    }
  }

  /** The calls the hook offers, each a `makeRequest` of its path. */
  function GetRepository(config: Option<ConnectionConfig>, owner: string, repo: string, answer: Answer<Repository>)
    : (c: Call<Repository>)
    ensures c.sent.Some? ==>
      c.sent.value.url == ApiBase + RepositoryPath(owner, repo) && c.sent.value.httpMethod == "GET"
  {
    MakeRequest(config, RepositoryPath(owner, repo), NoOptions, answer)
  }

  function GetBranches(config: Option<ConnectionConfig>, owner: string, repo: string, answer: Answer<seq<Branch>>)
    : (c: Call<seq<Branch>>)
    ensures c.sent.Some? ==>
      c.sent.value.url == ApiBase + BranchesPath(owner, repo) && c.sent.value.httpMethod == "GET"
  {
    MakeRequest(config, BranchesPath(owner, repo), NoOptions, answer)
  }

  function GetCommits(config: Option<ConnectionConfig>, owner: string, repo: string, branch: Option<string>,
                      answer: Answer<seq<Commit>>)
    : (c: Call<seq<Commit>>)
    ensures c.sent.Some? ==>
      c.sent.value.url == ApiBase + CommitsPath(owner, repo, branch) && c.sent.value.httpMethod == "GET"
  {
    MakeRequest(config, CommitsPath(owner, repo, branch), NoOptions, answer)
  }

  /** The object `createRepository` serialises: `description` is dropped when undefined, and
      the repository is always created with an initial commit. */
  function NewRepositoryBody(name: string, description: Option<string>, isPrivate: bool): (b: JsValue)
    ensures b.JsObject?
    ensures Get(b, "name") == JsString(name) && Get(b, "private") == JsBool(isPrivate)
    ensures Get(b, "auto_init") == JsBool(true)
    ensures "description" in b.fields <==> description.Some?
  {
    var fields := map["name" := JsString(name), "private" := JsBool(isPrivate), "auto_init" := JsBool(true)];
    JsObject(if description.Some? then fields["description" := JsString(description.value)] else fields)
  }

  /** `createRepository`: a `POST` of the new repository's description to `/user/repos`, with
      the default headers only. */
  function CreateRepository(config: Option<ConnectionConfig>, name: string, description: Option<string>,
                            isPrivate: bool, answer: Answer<JsValue>)
    : (c: Call<JsValue>)
    ensures c.sent.Some? ==>
      HasToken(config) &&
      c.sent.value.url == ApiBase + UserReposPath && c.sent.value.httpMethod == "POST" &&
      c.sent.value.body == Some(NewRepositoryBody(name, description, isPrivate)) &&
      c.sent.value.headers == DefaultHeaders(config.value.token)
  {
    MakeRequest(config, UserReposPath, RequestOptions(Some("POST"), Some(NewRepositoryBody(name, description, isPrivate)), map[]), answer)
  }

  /** The `/user` request `connect` uses to check a token: no `Content-Type`. */
  function UserCheck(token: string): (r: FetchRequest)
    ensures r.headers.Keys == {"Authorization", "Accept"}
    ensures r.headers["Authorization"] == "Bearer " + token
  {
    FetchRequest(ApiBase + "/user", "GET", None, map["Authorization" := "Bearer " + token, "Accept" := AcceptV3])
  }

  /** `userData.login` as a string (a missing or non-string login reads as empty). */
  function LoginOf(user: JsValue): string
  {
    match Get(user, "login")
    case JsString(s) => s
    case _ => ""
  }

  /** Reading `login` off `null` or `undefined` throws a `TypeError`. */
  predicate Nullish(v: JsValue)
  {
    v.JsNull? || v.JsUndefined?
  }

  /** The `TypeError` message of `userData.login` on a nullish body. */
  function NullishLogin(v: JsValue): string
  {
    "Cannot read properties of " + (if v.JsNull? then "null" else "undefined") + " (reading 'login')"
  }

  /** The error `connect` rethrows, `None` when the token checks out. */
  function ConnectFailure(answer: Answer<JsValue>): (e: Option<string>)
    ensures e.None? <==> answer.Answered? && answer.body.Json? && !Nullish(answer.body.value)
    ensures answer.HttpError? ==> e == Some(InvalidToken)
    ensures answer.NetworkError? ==> e == Some(answer.message)
    ensures answer.Answered? && answer.body.Json? && Nullish(answer.body.value) ==>
      e == Some(NullishLogin(answer.body.value))
  {
    match answer
    case NetworkError(m) => Some(m)
    case HttpError(_, _) => Some(InvalidToken)
    case Answered(body) =>
      match body
      case NotJson(e) => Some(e)
      case Json(v) => if Nullish(v) then Some(NullishLogin(v)) else None
  }

  /** A notification the hook raises. */
  datatype Toast = Toast(title: string, description: string, destructive: bool)

  /** A token the connection form accepted is one `makeRequest` sends with, whatever login
      the session records for it. */
  lemma AcceptedTokenIsSent<T>(typed: string, login: string, repository: string, path: string,
                               options: RequestOptions, answer: Answer<T>)
    requires !AllWhitespace(typed)
    ensures var config := Some(ConnectionConfig(Trim(typed), login, repository));
      MakeRequest(config, path, options, answer).sent == Some(BuildRequest(Trim(typed), path, options))
  {
    TrimEmptyIffBlank(typed);
  }

  class GitHubSession {
    var isConnected: bool
    var loading: bool
    var config: Option<ConnectionConfig>
    var toasts: seq<Toast>

    /** The session is connected exactly when it holds a configuration. */
    ghost predicate Valid()
      reads this
    {
      isConnected <==> config.Some?
    }

    constructor ()
      ensures Valid() && !isConnected && !loading && config.None? && toasts == []
    {
      isConnected := false;
      loading := false;
      config := None;
      toasts := [];
    }

    /** `connect(connection)` when the `/user` check does `answer`. The results are the request
        it makes and the error it rethrows (`None`: it resolved). */
    method Connect(connection: ConnectionConfig, answer: Answer<JsValue>) returns (request: FetchRequest, thrown: Option<string>)
      requires Valid()
      modifies this
      ensures Valid() && !loading
      ensures request == UserCheck(connection.token)
      ensures thrown == ConnectFailure(answer)
      ensures thrown.None? ==>
        var login := LoginOf(answer.body.value);
        config == Some(connection.(username := login)) && isConnected &&
        toasts == old(toasts) + [Toast("Successfully connected!", "Connected as " + login, false)]
      ensures thrown.Some? ==>
        config == old(config) && isConnected == old(isConnected) &&
        toasts == old(toasts) + [Toast("Connection failed", thrown.value, true)]
    {
      loading := true;
      request := UserCheck(connection.token);
      thrown := ConnectFailure(answer);
      if thrown.None? {
        var login := LoginOf(answer.body.value);
        config := Some(connection.(username := login));
        isConnected := true;
        toasts := toasts + [Toast("Successfully connected!", "Connected as " + login, false)];
      } else {
        toasts := toasts + [Toast("Connection failed", thrown.value, true)];
      }
      loading := false;
    }

    /** `disconnect`. */
    method Disconnect()
      modifies this
      ensures Valid() && config.None? && !isConnected && loading == old(loading)
      ensures toasts == old(toasts) + [Toast("Disconnected", "Successfully disconnected from GitHub", false)]
    {
      config := None;
      isConnected := false;
      toasts := toasts + [Toast("Disconnected", "Successfully disconnected from GitHub", false)];
    }
  }
}
