/**
 * The remote agent client (`JulesClient`): credential handling, request
 * construction and normalisation of the remote service's replies.
 *
 * The network is not modelled: each operation is given the outcome of the one
 * `fetch` it would make (`Fetched`), and returns the request it built (None when
 * it failed before making one) together with its result.
 */
module Jules {
  import opened Results
  import opened Json
  import Text

  const BaseUrl: string := "https://jules.googleapis.com/v1alpha"

  /** Stands for the key compiled into the client, used when no other key is supplied. */
  const BuiltInKey: string := "built-in-test-key"

  const DefaultBranch: string := "main"
  const TitleLength: nat := 50

  /**
   * The build-time environment the client reads: `NEXT_PUBLIC_JULES_API_KEY`,
   * `NEXT_PUBLIC_GITHUB_OWNER` and `NEXT_PUBLIC_GITHUB_REPO`, "" when unset.
   */
  datatype Environment = Environment(julesApiKey: string, githubOwner: string, githubRepo: string) {
    /** The default of `createSession`'s `owner`: `NEXT_PUBLIC_GITHUB_OWNER || 'google'`. */
    function Owner(): string { if githubOwner != "" then githubOwner else "google" }
    /** The default of `createSession`'s `repo`: `NEXT_PUBLIC_GITHUB_REPO || 'jules-samples'`. */
    function Repo(): string { if githubRepo != "" then githubRepo else "jules-samples" }
  }

  /** An HTTP response: its status, its body as text, and the body parsed as JSON (None if it is not JSON). */
  datatype Response = Response(status: int, text: string, json: Option<Json>) {
    /** `response.ok` */
    predicate Ok() { 200 <= status <= 299 }
  }

  /** What `fetch` produced: a response, or a rejected promise (network error). */
  datatype Fetched = NetworkFailure | Received(response: Response)

  datatype Error =
    | ApiKeyNotSet                            // "API Key not set"
    | CreateFailed(status: int, body: string) // "Failed to create session (status): body"
    | SendFailed(status: int, body: string)   // "Failed to send message (status): body"
    | NetworkError                            // fetch rejected
    | InvalidJson                             // response.json() rejected
    | TypeError                               // a property read on null, or a call on a non-string

  datatype Request =
    | ListSourcesRequest(apiKey: string)
    | CreateSessionRequest(apiKey: string, payload: Json)
    | SendMessageRequest(apiKey: string, sessionPath: string, payload: Json)
  {
    function Verb(): string {
      if ListSourcesRequest? then "GET" else "POST"
    }

    function Url(): string {
      match this
      case ListSourcesRequest(_) => BaseUrl + "/sources"
      case CreateSessionRequest(_, _) => BaseUrl + "/sessions"
      case SendMessageRequest(_, path, _) => BaseUrl + "/" + path + ":sendMessage"
    }

    /** `getHeaders()` */
    function Headers(): seq<(string, string)> {
      [("Content-Type", "application/json"), ("X-Goog-Api-Key", apiKey)]
    }
  }

  /** One operation's run: the request it issued, if it got that far, and its outcome. */
  datatype Exchange<T> = Exchange(sent: Option<Request>, result: Result<T, Error>)

  /** The object `createSession` resolves to: the reply's members plus `id`, and its `name`. */
  datatype Session = Session(name: string, record: seq<(string, Json)>)

  /** `JulesActivity`; `createTime` (the clock) is not modelled. */
  datatype Activity = Activity(name: string, kind: string, content: Json, metadata: Json)

  // ---------------------------------------------------------------------------
  // Pure parts: payloads, paths, identifiers, reply text
  // ---------------------------------------------------------------------------

  function SourceName(owner: string, repo: string): string {
    "sources/github/" + owner + "/" + repo
  }

  /** The body `createSession` posts. */
  function SessionPayload(prompt: string, owner: string, repo: string, branch: string): Json {
    JObj([
      ("prompt", JStr(prompt)),
      ("sourceContext", JObj([
        ("source", JStr(SourceName(owner, repo))),
        ("githubRepoContext", JObj([("startingBranch", JStr(branch))]))])),
      ("title", JStr(Text.Take(prompt, TitleLength)))])
  }

  /** The body `sendMessage` posts. */
  function MessagePayload(message: string): Json {
    JObj([("prompt", JStr(message))])
  }

  /** The session's resource path: the argument itself when it already holds a '/', else under "sessions/". */
  function SessionPath(sessionId: string): (path: string)
    ensures '/' in path
    ensures '/' in sessionId ==> path == sessionId
    ensures '/' !in sessionId ==> path == "sessions/" + sessionId
  {
    if '/' in sessionId then sessionId
    else
      var path := "sessions/" + sessionId;
      assert path[8] == '/';
      path
  }

  /** `name.split('/').pop()`: the text after the last '/', or all of `name` if it has none. */
  function LastSegment(name: string): (r: string)
    ensures '/' !in r
    ensures |r| <= |name| && name[|name| - |r|..] == r
    ensures |r| == |name| || name[|name| - |r| - 1] == '/'
  {
    if name == [] then []
    else if name[|name| - 1] == '/' then []
    else
      var r := LastSegment(name[..|name| - 1]);
      assert name[..|name| - 1][|name| - 1 - |r|..] == name[|name| - 1 - |r|..|name| - 1];
      r + [name[|name| - 1]]
  }

  /**
   * The reply text `sendMessage` extracts from the parsed body: the first truthy
   * of `response`, `text`, `content`; else the body itself when it is a string;
   * else its pretty-printed JSON. Reading a property of `null` throws.
   */
  function ReplyContent(data: Json): (r: Result<Json, Error>)
    ensures r.Err? <==> data == JNull
    ensures data.JObj? && Truthy(Get(data.members, "response")) ==> r == Ok(Get(data.members, "response").value)
    ensures data.JObj? && !Truthy(Get(data.members, "response")) && Truthy(Get(data.members, "text"))
      ==> r == Ok(Get(data.members, "text").value)
    ensures (data.JObj? && !Truthy(Get(data.members, "response")) && !Truthy(Get(data.members, "text"))
             && Truthy(Get(data.members, "content"))) ==> r == Ok(Get(data.members, "content").value)
    ensures data.JStr? ==> r == Ok(data)
    ensures data != JNull && !data.JStr?
            && !(data.JObj? && (Truthy(Get(data.members, "response")) || Truthy(Get(data.members, "text"))
                                || Truthy(Get(data.members, "content"))))
      ==> r == Ok(JStr(Stringify(data)))
  {
    match data
    case JNull => Err(TypeError)
    case JObj(ms) =>
      var response := Get(ms, "response");
      var text := Get(ms, "text");
      var content := Get(ms, "content");
      if Truthy(response) then Ok(response.value)
      else if Truthy(text) then Ok(text.value)
      else if Truthy(content) then Ok(content.value)
      else Ok(JStr(Stringify(data)))
    case JStr(_) => Ok(data)
    case _ => Ok(JStr(Stringify(data)))
  }

  /** The session object built from a successful create reply: `{...data, id: data.name.split('/').pop()}`. */
  function SessionOf(data: Json): (r: Result<Session, Error>)
    ensures r.Ok? <==> data.JObj? && Get(data.members, "name").Some? && Get(data.members, "name").value.JStr?
    ensures r.Ok? ==> (Get(data.members, "name") == Some(JStr(r.value.name))
                     && Get(r.value.record, "id") == Some(JStr(LastSegment(r.value.name)))
                     && forall k :: k != "id" ==> Get(r.value.record, k) == Get(data.members, k))
  {
    match data
    case JObj(ms) =>
      var name := Get(ms, "name");
      if name.Some? && name.value.JStr? then
        Ok(Session(name.value.s, Put(ms, "id", JStr(LastSegment(name.value.s)))))
      else Err(TypeError)
    case _ => Err(TypeError)
  }

  // ---------------------------------------------------------------------------
  // The three remote operations, as functions of the key and the fetch outcome
  // ---------------------------------------------------------------------------

  /** `listSources()` */
  function ListSourcesRun(apiKey: string, fetched: Fetched): Exchange<Json> {
    if apiKey == "" then Exchange(None, Err(ApiKeyNotSet))
    else
      var sent := Some(ListSourcesRequest(apiKey));
      match fetched
      case NetworkFailure => Exchange(sent, Ok(JArr([])))
      case Received(resp) =>
        if !resp.Ok() then Exchange(sent, Ok(JArr([])))
        else match resp.json
          case None => Exchange(sent, Ok(JArr([])))
          case Some(JNull) => Exchange(sent, Ok(JArr([])))
          case Some(data) =>
            var sources := if data.JObj? then Get(data.members, "sources") else None;
            Exchange(sent, Ok(if Truthy(sources) then sources.value else JArr([])))
  }

  /**
   * `createSession(prompt, owner, repo, branch)`: None stands for an omitted
   * (`undefined`) argument, which takes the default.
   */
  function CreateSessionRun(apiKey: string, env: Environment, prompt: string, owner: Option<string>, repo: Option<string>,
                            branch: Option<string>, fetched: Fetched): Exchange<Session> {
    if apiKey == "" then Exchange(None, Err(ApiKeyNotSet))
    else
      var payload := SessionPayload(prompt, owner.GetOr(env.Owner()), repo.GetOr(env.Repo()), branch.GetOr(DefaultBranch));
      var sent := Some(CreateSessionRequest(apiKey, payload));
      match fetched
      case NetworkFailure => Exchange(sent, Err(NetworkError))
      case Received(resp) =>
        if !resp.Ok() then Exchange(sent, Err(CreateFailed(resp.status, resp.text)))
        else match resp.json
          case None => Exchange(sent, Err(InvalidJson))
          case Some(data) => Exchange(sent, SessionOf(data))
  }

  /** `sendMessage(sessionId, message)` */
  function SendMessageRun(apiKey: string, sessionId: string, message: string, fetched: Fetched): Exchange<Activity> {
    if apiKey == "" then Exchange(None, Err(ApiKeyNotSet))
    else
      var sent := Some(SendMessageRequest(apiKey, SessionPath(sessionId), MessagePayload(message)));
      match fetched
      case NetworkFailure => Exchange(sent, Err(NetworkError))
      case Received(resp) =>
        if !resp.Ok() then Exchange(sent, Err(SendFailed(resp.status, resp.text)))
        else match resp.json
          case None => Exchange(sent, Err(InvalidJson))
          case Some(data) =>
            match ReplyContent(data)
            case Err(e) => Exchange(sent, Err(e))
            case Ok(content) =>
              Exchange(sent, Ok(Activity("sessions/" + sessionId + "/activities/latest", "message", content, data)))
  }

  // ---------------------------------------------------------------------------
  // The client object
  // ---------------------------------------------------------------------------

  class JulesClient {
    var apiKey: string
    const env: Environment

    /** `new JulesClient(apiKey?)`: the given key, else the environment's, else the built-in one. An empty string stands for absent. */
    constructor (key: string, env: Environment)
      ensures apiKey == if key != "" then key else if env.julesApiKey != "" then env.julesApiKey else BuiltInKey
      ensures apiKey != "" && this.env == env
    {
      apiKey := if key != "" then key else if env.julesApiKey != "" then env.julesApiKey else BuiltInKey;
      this.env := env;
    }

    method SetApiKey(key: string)
      modifies this
      ensures apiKey == key
    {
      apiKey := key;
    }

    method HasApiKey() returns (b: bool)
      ensures b <==> apiKey != ""
    {
      b := apiKey != "";
    }

    method ListSources(fetched: Fetched) returns (sent: Option<Request>, r: Result<Json, Error>)
      ensures apiKey == "" ==> sent == None && r == Err(ApiKeyNotSet)
      ensures apiKey != "" ==> sent == Some(ListSourcesRequest(apiKey)) && r.Ok?
      ensures Exchange(sent, r) == ListSourcesRun(apiKey, fetched)
    {
      if apiKey == "" {
        return None, Err(ApiKeyNotSet);
      }
      sent := Some(ListSourcesRequest(apiKey));
      if fetched.NetworkFailure? || !fetched.response.Ok() {
        return sent, Ok(JArr([]));
      }
      var body := fetched.response.json;
      if body.None? || body.value.JNull? {
        // response.json() rejected, or `data.sources` read on null: caught, []
        return sent, Ok(JArr([]));
      }
      var data := body.value;
      var sources := if data.JObj? then Get(data.members, "sources") else None;
      r := Ok(if Truthy(sources) then sources.value else JArr([]));
    }

    method CreateSession(prompt: string, owner: Option<string>, repo: Option<string>, branch: Option<string>,
                         fetched: Fetched) returns (sent: Option<Request>, r: Result<Session, Error>)
      ensures apiKey == "" ==> sent == None && r == Err(ApiKeyNotSet)
      ensures Exchange(sent, r) == CreateSessionRun(apiKey, env, prompt, owner, repo, branch, fetched)
    {
      if apiKey == "" {
        return None, Err(ApiKeyNotSet);
      }
      var sourceOwner := owner.GetOr(env.Owner());
      var sourceRepo := repo.GetOr(env.Repo());
      var startingBranch := branch.GetOr(DefaultBranch);
      sent := Some(CreateSessionRequest(apiKey, SessionPayload(prompt, sourceOwner, sourceRepo, startingBranch)));
      if fetched.NetworkFailure? {
        return sent, Err(NetworkError);
      }
      var response := fetched.response;
      if !response.Ok() {
        return sent, Err(CreateFailed(response.status, response.text));
      }
      if response.json.None? {
        return sent, Err(InvalidJson);
      }
      r := SessionOf(response.json.value);
    }

    method SendMessage(sessionId: string, message: string, fetched: Fetched)
      returns (sent: Option<Request>, r: Result<Activity, Error>)
      ensures apiKey == "" ==> sent == None && r == Err(ApiKeyNotSet)
      ensures apiKey != "" ==> sent == Some(SendMessageRequest(apiKey, SessionPath(sessionId), MessagePayload(message)))
      ensures Exchange(sent, r) == SendMessageRun(apiKey, sessionId, message, fetched)
    {
      if apiKey == "" {
        return None, Err(ApiKeyNotSet);
      }
      var sessionPath := SessionPath(sessionId);
      sent := Some(SendMessageRequest(apiKey, sessionPath, MessagePayload(message)));
      if fetched.NetworkFailure? {
        return sent, Err(NetworkError);
      }
      var response := fetched.response;
      if !response.Ok() {
        return sent, Err(SendFailed(response.status, response.text));
      }
      if response.json.None? {
        return sent, Err(InvalidJson);
      }
      var data := response.json.value;
      var content := ReplyContent(data);
      if content.Err? {
        return sent, Err(content.error);
      }
      r := Ok(Activity("sessions/" + sessionId + "/activities/latest", "message", content.value, data));
    }
  }

  // ---------------------------------------------------------------------------
  // Properties
  // ---------------------------------------------------------------------------

  /** Normalising a path that is already normalised changes nothing. */
  lemma SessionPathIdempotent(sessionId: string)
    ensures SessionPath(SessionPath(sessionId)) == SessionPath(sessionId)
  {
  }

  /** The segment after a '/' that is followed by no other '/' is the last segment. */
  lemma {:induction false} LastSegmentAfterSlash(prefix: string, rest: string)
    requires '/' !in rest
    ensures LastSegment(prefix + "/" + rest) == rest
  {
    var name := prefix + "/" + rest;
    if rest != [] {
      var shorter := rest[..|rest| - 1];
      assert name[..|name| - 1] == prefix + "/" + shorter;
      assert name[|name| - 1] == rest[|rest| - 1];
      assert '/' !in shorter by {
        assert forall i :: 0 <= i < |shorter| ==> shorter[i] == rest[i];
      }
      LastSegmentAfterSlash(prefix, shorter);
      assert shorter + [rest[|rest| - 1]] == rest;
    }
  }

  /** The short id of a normalised bare id is that id: "abc123" -> "sessions/abc123" -> "abc123". */
  lemma ShortIdOfSessionPath(sessionId: string)
    requires '/' !in sessionId
    ensures LastSegment(SessionPath(sessionId)) == sessionId
  {
    assert SessionPath(sessionId) == "sessions" + "/" + sessionId;
    LastSegmentAfterSlash("sessions", sessionId);
  }

  /** Interface statement, by unfolding the three definitions: without a key, no operation issues a request. */
  lemma NoKeyNoRequest(env: Environment, prompt: string, owner: Option<string>, repo: Option<string>, branch: Option<string>,
                       sessionId: string, f: Fetched)
    ensures ListSourcesRun("", f) == Exchange(None, Err(ApiKeyNotSet))
    ensures CreateSessionRun("", env, prompt, owner, repo, branch, f) == Exchange(None, Err(ApiKeyNotSet))
    ensures SendMessageRun("", sessionId, prompt, f) == Exchange(None, Err(ApiKeyNotSet))
  {
  }

  /** Interface statement, by unfolding `SendMessageRun`: with a key, a send posts the message to the normalised session path under that key. */
  lemma SendRequestShape(apiKey: string, sessionId: string, message: string, f: Fetched)
    requires apiKey != ""
    ensures SendMessageRun(apiKey, sessionId, message, f).sent
      == Some(SendMessageRequest(apiKey, SessionPath(sessionId), MessagePayload(message)))
  {
  }

  /** Interface statement, by unfolding `CreateSessionRun`: with a key, a create posts the payload built from the arguments, each omitted one taking its default. */
  lemma CreateRequestShape(apiKey: string, env: Environment, prompt: string, owner: Option<string>, repo: Option<string>,
                           branch: Option<string>, f: Fetched)
    requires apiKey != ""
    ensures CreateSessionRun(apiKey, env, prompt, owner, repo, branch, f).sent
      == Some(CreateSessionRequest(apiKey, SessionPayload(prompt, owner.GetOr(env.Owner()), repo.GetOr(env.Repo()),
                                                          branch.GetOr(DefaultBranch))))
  {
  }

  /** With a key, listing sources never fails: errors of any kind degrade to []. */
  lemma ListSourcesNeverFailsWithKey(apiKey: string, f: Fetched)
    requires apiKey != ""
    ensures ListSourcesRun(apiKey, f).result.Ok?
    ensures f.NetworkFailure? || !f.response.Ok() ==> ListSourcesRun(apiKey, f).result == Ok(JArr([]))
  {
  }

  /** Interface statement, by unfolding `ListSourcesRun`: with a key, listing sources returns the reply's `sources` when it is truthy. */
  lemma ListSourcesReturnsSources(apiKey: string, resp: Response, ms: seq<(string, Json)>)
    requires apiKey != "" && resp.Ok() && resp.json == Some(JObj(ms))
    ensures ListSourcesRun(apiKey, Received(resp)).result ==
      Ok(if Truthy(Get(ms, "sources")) then Get(ms, "sources").value else JArr([]))
  {
  }

  /** The create payload: source path from owner and repo, branch, prompt, and a title of the prompt's first 50 characters. */
  lemma CreatePayloadShape(apiKey: string, env: Environment, prompt: string, owner: Option<string>, repo: Option<string>,
                           branch: Option<string>, f: Fetched)
    requires apiKey != ""
    ensures var sent := CreateSessionRun(apiKey, env, prompt, owner, repo, branch, f).sent;
      sent.Some? && sent.value.CreateSessionRequest? && sent.value.apiKey == apiKey
      && var p := sent.value.payload.members;
      Get(p, "prompt") == Some(JStr(prompt))
      && Get(p, "title") == Some(JStr(Text.Take(prompt, 50)))
      && |Text.Take(prompt, 50)| <= 50 && Text.Take(prompt, 50) <= prompt
      && Get(p, "sourceContext") == Some(JObj([
           ("source", JStr("sources/github/"
                           + owner.GetOr(if env.githubOwner != "" then env.githubOwner else "google") + "/"
                           + repo.GetOr(if env.githubRepo != "" then env.githubRepo else "jules-samples"))),
           ("githubRepoContext", JObj([("startingBranch", JStr(branch.GetOr("main")))]))]))
  {
    CreateRequestShape(apiKey, env, prompt, owner, repo, branch, f);
    PayloadFields(prompt, owner.GetOr(env.Owner()), repo.GetOr(env.Repo()), branch.GetOr(DefaultBranch));
  }

  lemma PayloadFields(prompt: string, owner: string, repo: string, branch: string)
    ensures var p := SessionPayload(prompt, owner, repo, branch).members;
      Get(p, "prompt") == Some(JStr(prompt))
      && Get(p, "title") == Some(JStr(Text.Take(prompt, TitleLength)))
      && Get(p, "sourceContext") == Some(JObj([
           ("source", JStr(SourceName(owner, repo))),
           ("githubRepoContext", JObj([("startingBranch", JStr(branch))]))]))
  {
    var p := SessionPayload(prompt, owner, repo, branch).members;
    assert Get(p[2..], "title") == Some(JStr(Text.Take(prompt, TitleLength)));
    assert Get(p[1..], "title") == Get(p[2..], "title");
  }

  /** A non-2xx reply to create fails with its status and body; a 2xx reply yields the session with its short id. */
  lemma CreateSessionOutcome(apiKey: string, env: Environment, prompt: string, owner: Option<string>, repo: Option<string>,
                             branch: Option<string>, resp: Response)
    requires apiKey != ""
    ensures var r := CreateSessionRun(apiKey, env, prompt, owner, repo, branch, Received(resp)).result;
      (!resp.Ok() ==> r == Err(CreateFailed(resp.status, resp.text)))
      && (resp.Ok() && resp.json.Some? && SessionOf(resp.json.value).Ok? ==>
            r.Ok? && Get(r.value.record, "id") == Some(JStr(LastSegment(r.value.name)))
            && forall k :: k != "id" ==> Get(r.value.record, k) == Get(resp.json.value.members, k))
  {
    var r := CreateSessionRun(apiKey, env, prompt, owner, repo, branch, Received(resp)).result;
    if resp.Ok() && resp.json.Some? {
      assert r == SessionOf(resp.json.value);
    }
  }

  /** A non-2xx reply to send fails with its status and body. */
  lemma SendFailsOnStatus(apiKey: string, sessionId: string, message: string, resp: Response)
    requires apiKey != "" && !resp.Ok()
    ensures SendMessageRun(apiKey, sessionId, message, Received(resp)).result == Err(SendFailed(resp.status, resp.text))
  {
  }

  /** A successful send: the activity is a 'message' named from the raw argument, carrying the reply as metadata. */
  lemma SendActivityShape(apiKey: string, sessionId: string, message: string, resp: Response)
    requires apiKey != "" && resp.Ok() && resp.json.Some? && resp.json.value != JNull
    ensures var r := SendMessageRun(apiKey, sessionId, message, Received(resp)).result;
      r.Ok? && r.value.kind == "message" && r.value.metadata == resp.json.value
      && r.value.name == "sessions/" + sessionId + "/activities/latest"
      && r.value.content == ReplyContent(resp.json.value).value
  {
  }

  /** The printed text of a value starts with one of `"`, `[`, `{`, `n`, `t`, `f`, `-` or a digit. */
  lemma StringifyHead(data: Json)
    ensures Stringify(data) != [] && Stringify(data)[0] in "\"[{ntf-0123456789"
  {
    match data
    case JNum(n) =>
      if n >= 0 {
        NatToStringHead(n);
      }
    case _ =>
  }

  lemma {:induction false} NatToStringHead(n: nat)
    ensures NatToString(n)[0] in "0123456789"
  {
    if n >= 10 {
      NatToStringHead(n / 10);
    }
  }

  /**
   * Every branch of the extraction assigns: the reply is a truthy field, the
   * string payload itself, or the printed payload, so the initial placeholder
   * "No content returned." comes back only when the payload itself carries it.
   */
  lemma ReplyNeverPlaceholder(data: Json)
    requires data != JNull
    ensures ReplyContent(data).Ok?
    ensures ReplyContent(data).value == JStr("No content returned.") ==>
      data == JStr("No content returned.")
      || (data.JObj? && Some(JStr("No content returned.")) in
            [Get(data.members, "response"), Get(data.members, "text"), Get(data.members, "content")])
  {
    StringifyHead(data);
    assert Stringify(data) != "No content returned.";
  }

  lemma PrettySingleMember(key: string, v: Json, indent: string)
    ensures Pretty(JObj([(key, v)]), indent)
      == "{\n" + (indent + "  " + Quote(key) + ": " + Pretty(v, indent + "  ")) + "\n" + indent + "}"
  {
    var j := JObj([(key, v)]);
    var inner := indent + "  ";
    var parts := seq(|j.members|, i requires 0 <= i < |j.members| =>
      inner + Quote(j.members[i].0) + ": " + Pretty(j.members[i].1, inner));
    assert |parts| == 1;
    assert parts[0] == inner + Quote(key) + ": " + Pretty(v, inner);
    assert Join(parts, ",\n") == parts[0];
  }

  /** `{content: "X"}` yields "X"; `{text: "Here is your form..."}` yields that text. */
  lemma ReplyFieldExamples()
    ensures ReplyContent(JObj([("content", JStr("X"))])) == Ok(JStr("X"))
    ensures ReplyContent(JObj([("text", JStr("Here is your form..."))])) == Ok(JStr("Here is your form..."))
  {
  }

  /** An unrecognised object `{foo: 1}` yields its pretty-printed text, not an error. */
  lemma ReplyUnknownObject()
    ensures ReplyContent(JObj([("foo", JNum(1))])) == Ok(JStr("{\n  \"foo\": 1\n}"))
  {
    var foo := JObj([("foo", JNum(1))]);
    PrintedFooOne();
    assert Get(foo.members, "response") == None;
    assert Get(foo.members, "text") == None;
    assert Get(foo.members, "content") == None;
  }

  lemma PrintedFooOne()
    ensures Stringify(JObj([("foo", JNum(1))])) == "{\n  \"foo\": 1\n}"
  {
    EscapePlain("foo");
    PrettySingleMember("foo", JNum(1), "");
    assert "" + "  " == "  ";
    PrettyOne();
    AssembleFooOne(Quote("foo"), Pretty(JNum(1), "  "));
  }

  lemma PrettyOne()
    ensures Pretty(JNum(1), "  ") == "1"
  {
  }

  lemma AssembleFooOne(key: string, value: string)
    requires key == "\"foo\"" && value == "1"
    ensures "{\n" + ("" + "  " + key + ": " + value) + "\n" + "" + "}" == "{\n  \"foo\": 1\n}"
  {
  }
}
