/**
 * The chat screen's controller: sending a message (with its one-level
 * create-and-retry fallback), the live subscription to the current chat's
 * messages, and loading and saving the agent configuration.
 *
 * The URL's `id` parameter is `sessionId`, with "" standing for absent (an
 * absent and an empty parameter are both falsy in the handler). Signing in is
 * not modelled: the signed-in user's uid is a parameter (None: signed out).
 */
module Chat {
  import opened Results
  import opened Json
  import opened Jules
  import opened Firestore
  import opened ConfigurationModal
  import LocalStorage
  import Text

  const ChatTitleLength: nat := 30

  /** The part of the screen state `handleSendMessage` changes. */
  datatype Screen = Screen(input: string, isLoading: bool, sessionId: string)

  /**
   * What the outside world does during one send: the id the store gives a new
   * chat document, whether each store write is acknowledged (false: `addDoc`
   * rejects), and the outcome of each `fetch` the client may make.
   */
  datatype Network = Network(
    newChatId: string,
    chatWritten: bool, userWritten: bool, agentWritten: bool,
    firstSend: Fetched, create: Fetched, retry: Fetched)

  /** The observable steps of one send, in order. */
  datatype Effect =
    | SetInput(value: string)
    | SetLoading(on: bool)
    | CreateChat(chatId: string, title: string)
    | Navigate(chatId: string)                      // router.replace(`/chat?id=...`)
    | AppendMessage(chatId: string, role: Role, content: Json)
    | Remote(request: Request)

  /** The requests issued while resolving a send, and the reply it ends with. */
  datatype Resolution = Resolution(calls: seq<Request>, reply: Result<Activity, Error>)

  datatype Run = Run(screen: Screen, db: DbState, effects: seq<Effect>)

  function Sent(request: Option<Request>): seq<Request> {
    if request.Some? then [request.value] else []
  }

  /** `value || undefined` */
  function Defined(value: string): Option<string> {
    if value != "" then Some(value) else None
  }

  function Remotes(calls: seq<Request>): (effects: seq<Effect>)
    ensures |effects| == |calls|
    ensures forall i :: 0 <= i < |calls| ==> effects[i] == Remote(calls[i])
  {
    seq(|calls|, i requires 0 <= i < |calls| => Remote(calls[i]))
  }

  /** The requests among a run's effects, in order. */
  function Requests(effects: seq<Effect>): seq<Request> {
    if effects == [] then []
    else if effects[0].Remote? then [effects[0].request] + Requests(effects[1..])
    else Requests(effects[1..])
  }

  /**
   * The fallback's control flow over the three exchanges it may make: the first
   * send's outcome is the reply when it succeeds; otherwise the create's error,
   * or else the retried send's outcome.
   */
  function Fallback(first: Exchange<Activity>, created: Exchange<Session>, retry: Exchange<Activity>): Resolution {
    if first.result.Ok? then Resolution(Sent(first.sent), first.result)
    else if created.result.Err? then Resolution(Sent(first.sent) + Sent(created.sent), Err(created.result.error))
    else Resolution(Sent(first.sent) + Sent(created.sent) + Sent(retry.sent), retry.result)
  }

  /** The session the fallback creates: empty configured fields are passed as `undefined`. */
  function Created(apiKey: string, env: Environment, config: ConfigurationData, content: string, net: Network): Exchange<Session> {
    CreateSessionRun(apiKey, env, content, Defined(config.githubOwner), Defined(config.githubRepo),
                     Defined(config.githubBranch), net.create)
  }

  /** Where the retried send goes: the created session's `name`. */
  function RetryTarget(created: Exchange<Session>): string {
    if created.result.Ok? then created.result.value.name else ""
  }

  /**
   * Sending with the fallback: send to `target`; if that fails for any reason,
   * create one session and send once more to its name. A failure of either propagates.
   */
  function Resolve(apiKey: string, env: Environment, config: ConfigurationData, target: string, content: string, net: Network): Resolution {
    var created := Created(apiKey, env, config, content, net);
    Fallback(SendMessageRun(apiKey, target, content, net.firstSend), created,
             SendMessageRun(apiKey, RetryTarget(created), content, net.retry))
  }

  /** The `finally` of the handler. */
  function Finish(s: Screen, d: DbState, effects: seq<Effect>): Run {
    Run(s.(isLoading := false), d, effects + [SetLoading(false)])
  }

  /** The chat a send writes to: the URL's id, or else the chat document it creates. */
  function Target(s: Screen, net: Network): string {
    if s.sessionId != "" then s.sessionId else net.newChatId
  }

  /** The send is accepted: the input is not blank and someone is signed in. */
  predicate Accepted(s: Screen, user: Option<string>) {
    !Text.IsBlank(s.input) && user.Some?
  }

  /**
   * `handleSendMessage`, given what resolving the send with the remote agent
   * gives (`res`, used only once the user message is stored).
   */
  function Handle(s: Screen, d: DbState, user: Option<string>, net: Network, res: Resolution): Run {
    if !Accepted(s, user) then Run(s, d, [])
    else
      var content := s.input;
      var busy := s.(input := "", isLoading := true);
      var started := [SetInput(""), SetLoading(true)];
      if s.sessionId != "" then
        Converse(busy, d, started, s.sessionId, content, net, res)
      else if !net.chatWritten then
        Finish(busy, d, started)
      else
        var chatId := net.newChatId;
        var title := Text.Take(content, ChatTitleLength);
        Converse(busy.(sessionId := chatId), d.AddChat(chatId, user.value, title),
                 started + [CreateChat(chatId, title), Navigate(chatId)], chatId, content, net, res)
  }

  /** The handler from `if (currentSessionId)` on: the user message, the send, the agent message. */
  function Converse(s: Screen, d: DbState, effects: seq<Effect>, chatId: string, content: string,
                    net: Network, res: Resolution): Run {
    if chatId == "" || !net.userWritten then Finish(s, d, effects)
    else
      var withUser := d.Append(chatId, User, JStr(content));
      var answered := effects + [AppendMessage(chatId, User, JStr(content))] + Remotes(res.calls);
      if res.reply.Err? || !net.agentWritten then Finish(s, withUser, answered)
      else
        var reply := res.reply.value.content;
        Finish(s, withUser.Append(chatId, Agent, reply), answered + [AppendMessage(chatId, Agent, reply)])
  }

  /** The whole send: the handler with the resolver run on its target chat. */
  function Submit(s: Screen, d: DbState, apiKey: string, env: Environment, config: ConfigurationData, user: Option<string>,
                  net: Network): Run {
    Handle(s, d, user, net, Resolve(apiKey, env, config, Target(s, net), s.input, net))
  }

  /** The configuration the chat screen loads: each key `|| ""`, the branch `|| "main"`. */
  function LoadedConfig(items: map<string, string>): ConfigurationData {
    ConfigurationData(
      LocalStorage.ItemOr(items, LocalStorage.ApiKeyKey, ""),
      LocalStorage.ItemOr(items, LocalStorage.OwnerKey, ""),
      LocalStorage.ItemOr(items, LocalStorage.RepoKey, ""),
      LocalStorage.ItemOr(items, LocalStorage.BranchKey, DefaultBranch))
  }

  /** The storage `handleSaveConfig` leaves: the key always written, the GitHub fields only when non-empty. */
  function SavedConfig(items: map<string, string>, data: ConfigurationData): map<string, string> {
    var withKey := items[LocalStorage.ApiKeyKey := data.apiKey];
    var withOwner := if data.githubOwner != "" then withKey[LocalStorage.OwnerKey := data.githubOwner] else withKey;
    var withRepo := if data.githubRepo != "" then withOwner[LocalStorage.RepoKey := data.githubRepo] else withOwner;
    if data.githubBranch != "" then withRepo[LocalStorage.BranchKey := data.githubBranch] else withRepo
  }

  /** The send gets as far as the user message being stored (and so to the remote agent). */
  predicate Reached(s: Screen, user: Option<string>, net: Network) {
    Accepted(s, user) && (s.sessionId != "" || net.chatWritten) && Target(s, net) != "" && net.userWritten
  }

  /** `value || fallback` */
  function Or(value: string, fallback: string): string {
    if value != "" then value else fallback
  }

  /** What the chat's listener sees appended by one send. */
  function Exchanged(s: Screen, user: Option<string>, net: Network, res: Resolution): seq<ChatMessage> {
    if !Reached(s, user, net) then []
    else if res.reply.Ok? && net.agentWritten then
      [ChatMessage(User, JStr(s.input)), ChatMessage(Agent, res.reply.value.content)]
    else [ChatMessage(User, JStr(s.input))]
  }

  // ---------------------------------------------------------------------------
  // The session resolver
  // ---------------------------------------------------------------------------

  /**
   * One to three requests — a send, then possibly one create and one retried
   * send, all under the one key — and none at all without a key.
   */
  lemma ResolveShape(apiKey: string, env: Environment, config: ConfigurationData, target: string, content: string, net: Network)
    ensures var r := Resolve(apiKey, env, config, target, content, net);
      (r.calls == [] <==> apiKey == "") && |r.calls| <= 3
      && (apiKey == "" ==> r.reply == Err(ApiKeyNotSet))
      && (r.calls != [] ==> r.calls[0] == SendMessageRequest(apiKey, SessionPath(target), MessagePayload(content)))
      && forall i :: 0 <= i < |r.calls| ==> (r.calls[i].CreateSessionRequest? <==> i == 1) && r.calls[i].apiKey == apiKey
  {
    var created := Created(apiKey, env, config, content, net);
    var first := SendMessageRun(apiKey, target, content, net.firstSend);
    var retry := SendMessageRun(apiKey, RetryTarget(created), content, net.retry);
    if apiKey == "" {
      NoKeyNoRequest(env, content, None, None, None, target, net.firstSend);
    } else {
      SendRequestShape(apiKey, target, content, net.firstSend);
      CreateRequestShape(apiKey, env, content, Defined(config.githubOwner), Defined(config.githubRepo),
                         Defined(config.githubBranch), net.create);
      SendRequestShape(apiKey, RetryTarget(created), content, net.retry);
      var r := Resolve(apiKey, env, config, target, content, net);
      var c0, c1, c2 := first.sent.value, created.sent.value, retry.sent.value;
      assert c1.CreateSessionRequest? && !c0.CreateSessionRequest? && !c2.CreateSessionRequest?;
      if first.result.Ok? {
        assert r.calls == [c0];
      } else if created.result.Err? {
        assert r.calls == [c0, c1];
      } else {
        assert r.calls == [c0, c1, c2];
      }
    }
  }

  /** A first send that succeeds is the whole exchange: the fallback runs only after a failure. */
  lemma ResolveNoFallbackOnSuccess(apiKey: string, env: Environment, config: ConfigurationData, target: string, content: string, net: Network)
    requires SendMessageRun(apiKey, target, content, net.firstSend).result.Ok?
    ensures var r := Resolve(apiKey, env, config, target, content, net);
      |r.calls| == 1 && r.reply == SendMessageRun(apiKey, target, content, net.firstSend).result
  {
    if apiKey == "" {
      NoKeyNoRequest(env, content, None, None, None, target, net.firstSend);
      assert false;
    }
    SendRequestShape(apiKey, target, content, net.firstSend);
  }

  /**
   * After a failed first send with a key, the one session created carries the
   * configured owner, repository and branch, each falling back to the client's
   * default when empty; if creating fails its error is the reply and nothing is
   * retried, otherwise the reply is that of the send retried to the created
   * session's name.
   */
  lemma ResolveFallback(apiKey: string, env: Environment, config: ConfigurationData, target: string, content: string, net: Network)
    requires apiKey != ""
    requires SendMessageRun(apiKey, target, content, net.firstSend).result.Err?
    ensures var r := Resolve(apiKey, env, config, target, content, net);
      |r.calls| >= 2 && r.calls[1] == CreateSessionRequest(apiKey, SessionPayload(content,
        Or(config.githubOwner, env.Owner()), Or(config.githubRepo, env.Repo()), Or(config.githubBranch, DefaultBranch)))
    ensures var r := Resolve(apiKey, env, config, target, content, net);
      var created := Created(apiKey, env, config, content, net).result;
      (created.Err? ==> |r.calls| == 2 && r.reply == Err(created.error))
      && (created.Ok? ==>
            (|r.calls| == 3
             && r.calls[2] == SendMessageRequest(apiKey, SessionPath(created.value.name), MessagePayload(content))
             && r.reply == SendMessageRun(apiKey, created.value.name, content, net.retry).result))
  {
    var created := Created(apiKey, env, config, content, net);
    SendRequestShape(apiKey, target, content, net.firstSend);
    CreateRequestShape(apiKey, env, content, Defined(config.githubOwner), Defined(config.githubRepo),
                       Defined(config.githubBranch), net.create);
    SendRequestShape(apiKey, RetryTarget(created), content, net.retry);
  }

  /** Interface statement, by unfolding `Fallback`: the reply is Ok exactly when the first send or the retried send succeeded. */
  lemma ResolveOkIff(apiKey: string, env: Environment, config: ConfigurationData, target: string, content: string, net: Network)
    ensures var r := Resolve(apiKey, env, config, target, content, net);
      var created := Created(apiKey, env, config, content, net).result;
      r.reply.Ok? <==> SendMessageRun(apiKey, target, content, net.firstSend).result.Ok?
                       || (created.Ok? && SendMessageRun(apiKey, created.value.name, content, net.retry).result.Ok?)
  {
  }

  // ---------------------------------------------------------------------------
  // The send handler
  // ---------------------------------------------------------------------------

  lemma {:induction false} RequestsAppend(a: seq<Effect>, b: seq<Effect>)
    ensures Requests(a + b) == Requests(a) + Requests(b)
    decreases |a|
  {
    if a == [] {
      assert a + b == b;
    } else {
      assert (a + b)[1..] == a[1..] + b;
      RequestsAppend(a[1..], b);
    }
  }

  lemma {:induction false} RequestsOfRemotes(calls: seq<Request>)
    ensures Requests(Remotes(calls)) == calls
    decreases |calls|
  {
    if calls != [] {
      assert Remotes(calls)[1..] == Remotes(calls[1..]);
      RequestsOfRemotes(calls[1..]);
    }
  }

  /** A send is ignored, with no effect at all, exactly when the input is blank or nobody is signed in. */
  lemma HandleIgnoredIff(s: Screen, d: DbState, user: Option<string>, net: Network, res: Resolution)
    ensures var run := Handle(s, d, user, net, res);
      (run.effects == [] <==> !Accepted(s, user))
      && (!Accepted(s, user) ==> run.screen == s && run.db == d)
  {
  }

  /**
   * An accepted send clears the input and raises the loading flag first, always
   * lowers it last whatever fails, and ends with the input empty and not loading.
   */
  lemma HandleBracketsLoading(s: Screen, d: DbState, user: Option<string>, net: Network, res: Resolution)
    requires Accepted(s, user)
    ensures var run := Handle(s, d, user, net, res);
      |run.effects| >= 3 && run.effects[0] == SetInput("") && run.effects[1] == SetLoading(true)
      && run.effects[|run.effects| - 1] == SetLoading(false)
      && run.screen.input == "" && !run.screen.isLoading
  {
    var busy := s.(input := "", isLoading := true);
    var started := [SetInput(""), SetLoading(true)];
    var run := Handle(s, d, user, net, res);
    if s.sessionId != "" {
      ConverseEnds(busy, d, started, s.sessionId, s.input, net, res);
      assert run.effects[..2] == started;
    } else if net.chatWritten {
      var t := net.newChatId;
      var title := Text.Take(s.input, ChatTitleLength);
      var begun := started + [CreateChat(t, title), Navigate(t)];
      ConverseEnds(busy.(sessionId := t), d.AddChat(t, user.value, title), begun, t, s.input, net, res);
      assert run.effects[..4] == begun;
      assert run.effects[0] == begun[0] && run.effects[1] == begun[1];
    }
  }

  /**
   * The second phase keeps what was done before it, ends by lowering the
   * loading flag, and touches no other part of the screen.
   */
  lemma ConverseEnds(s: Screen, d: DbState, effects: seq<Effect>, chatId: string, content: string,
                     net: Network, res: Resolution)
    ensures var run := Converse(s, d, effects, chatId, content, net, res);
      |run.effects| > |effects| && run.effects[..|effects|] == effects
      && run.effects[|run.effects| - 1] == SetLoading(false) && run.screen == s.(isLoading := false)
  {
    var run := Converse(s, d, effects, chatId, content, net, res);
    if chatId != "" && net.userWritten {
      var answered := effects + [AppendMessage(chatId, User, JStr(content))] + Remotes(res.calls);
      assert answered[..|effects|] == effects;
      if res.reply.Ok? && net.agentWritten {
        var more := answered + [AppendMessage(chatId, Agent, res.reply.value.content)];
        assert run.effects == more + [SetLoading(false)];
        assert more[..|effects|] == effects;
      } else {
        assert run.effects == answered + [SetLoading(false)];
      }
    }
  }

  /** The handler has no entry guard: a send already under way changes nothing it does. */
  lemma SubmitNoEntryGuard(s: Screen, d: DbState, apiKey: string, env: Environment, config: ConfigurationData, user: Option<string>, net: Network)
    requires Accepted(s, user)
    ensures Submit(s.(isLoading := true), d, apiKey, env, config, user, net)
         == Submit(s.(isLoading := false), d, apiKey, env, config, user, net)
  {
  }

  /**
   * Without an id a chat document owned by the user, titled with the first 30
   * characters of the message, is created and becomes the id; with one, no
   * document is created and the id stays, whatever the remote agent answers.
   */
  lemma HandleChatDocument(s: Screen, d: DbState, user: Option<string>, net: Network, res: Resolution)
    requires Accepted(s, user)
    ensures var run := Handle(s, d, user, net, res);
      (s.sessionId != "" ==> run.db.chats == d.chats && run.screen.sessionId == s.sessionId)
      && (s.sessionId == "" && net.chatWritten ==>
            run.db.chats == d.chats + [ChatDoc(net.newChatId, user.value, Text.Take(s.input, ChatTitleLength), d.clock)]
            && run.screen.sessionId == net.newChatId && Navigate(net.newChatId) in run.effects)
      && (s.sessionId == "" && !net.chatWritten ==>
            run.db == d && run.screen.sessionId == "" && |run.effects| == 3)
  {
    var busy := s.(input := "", isLoading := true);
    var started := [SetInput(""), SetLoading(true)];
    var run := Handle(s, d, user, net, res);
    if s.sessionId != "" {
      ConverseEnds(busy, d, started, s.sessionId, s.input, net, res);
      ConverseMessages(busy, d, started, s.sessionId, s.input, net, res);
    } else if net.chatWritten {
      var t := net.newChatId;
      var title := Text.Take(s.input, ChatTitleLength);
      var begun := started + [CreateChat(t, title), Navigate(t)];
      ConverseEnds(busy.(sessionId := t), d.AddChat(t, user.value, title), begun, t, s.input, net, res);
      ConverseMessages(busy.(sessionId := t), d.AddChat(t, user.value, title), begun, t, s.input, net, res);
      assert run.effects[..4] == begun;
      assert run.effects[3] == begun[3];
    }
  }

  /** What the second phase stores: on `chatId` only, its user message and possibly the agent's reply. */
  lemma ConverseMessages(s: Screen, d: DbState, effects: seq<Effect>, chatId: string, content: string,
                         net: Network, res: Resolution)
    ensures var run := Converse(s, d, effects, chatId, content, net, res);
      var stored := if chatId == "" || !net.userWritten then []
                    else if res.reply.Ok? && net.agentWritten then
                      [ChatMessage(User, JStr(content)), ChatMessage(Agent, res.reply.value.content)]
                    else [ChatMessage(User, JStr(content))];
      Snapshot(run.db.Log(chatId)) == Snapshot(d.Log(chatId)) + stored
      && (forall k :: k != chatId ==> run.db.Log(k) == d.Log(k))
      && run.db.chats == d.chats
  {
    if chatId != "" && net.userWritten {
      var d1 := d.Append(chatId, User, JStr(content));
      SnapshotAfterAppend(d, chatId, User, JStr(content));
      if res.reply.Ok? && net.agentWritten {
        SnapshotAfterAppend(d1, chatId, Agent, res.reply.value.content);
      }
    }
  }

  /** The second phase keeps the store's order invariant, and every chat's messages only grow. */
  lemma ConverseKeepsStore(s: Screen, d: DbState, effects: seq<Effect>, chatId: string, content: string,
                           net: Network, res: Resolution)
    requires d.Valid()
    ensures var run := Converse(s, d, effects, chatId, content, net, res);
      run.db.Valid() && forall k :: d.Log(k) <= run.db.Log(k)
  {
    if chatId != "" && net.userWritten {
      var d1 := d.Append(chatId, User, JStr(content));
      AppendKeepsValid(d, chatId, User, JStr(content));
      if res.reply.Ok? && net.agentWritten {
        AppendKeepsValid(d1, chatId, Agent, res.reply.value.content);
      }
    }
  }

  /**
   * The only messages a send stores go to its target chat, after what was there:
   * the user's message, then the agent's reply when one was obtained and written.
   */
  lemma HandleMessages(s: Screen, d: DbState, user: Option<string>, net: Network, res: Resolution)
    ensures var run := Handle(s, d, user, net, res);
      Snapshot(run.db.Log(Target(s, net))) == Snapshot(d.Log(Target(s, net))) + Exchanged(s, user, net, res)
      && forall k :: k != Target(s, net) ==> run.db.Log(k) == d.Log(k)
  {
    if Accepted(s, user) {
      var busy := s.(input := "", isLoading := true);
      var started := [SetInput(""), SetLoading(true)];
      var t := Target(s, net);
      if s.sessionId != "" {
        ConverseMessages(busy, d, started, t, s.input, net, res);
      } else if net.chatWritten {
        var title := Text.Take(s.input, ChatTitleLength);
        var d1 := d.AddChat(t, user.value, title);
        assert forall k :: d1.Log(k) == d.Log(k);
        ConverseMessages(busy.(sessionId := t), d1, started + [CreateChat(t, title), Navigate(t)], t, s.input, net, res);
      }
    }
  }

  /** The second phase issues the resolver's requests, after those already made, once the user message is stored. */
  lemma ConverseRequests(s: Screen, d: DbState, effects: seq<Effect>, chatId: string, content: string,
                         net: Network, res: Resolution)
    ensures Requests(Converse(s, d, effects, chatId, content, net, res).effects)
         == Requests(effects) + if chatId != "" && net.userWritten then res.calls else []
  {
    var closing := [SetLoading(false)];
    assert Requests(closing) == [];
    if chatId != "" && net.userWritten {
      var user := [AppendMessage(chatId, User, JStr(content))];
      assert Requests(user) == [];
      RequestsAppend(effects, user);
      RequestsAppend(effects + user, Remotes(res.calls));
      RequestsOfRemotes(res.calls);
      var answered := effects + user + Remotes(res.calls);
      if res.reply.Ok? && net.agentWritten {
        var tail := [AppendMessage(chatId, Agent, res.reply.value.content)] + closing;
        assert Requests(tail[1..]) == [];
        assert Requests(tail) == [];
        assert answered + [AppendMessage(chatId, Agent, res.reply.value.content)] + closing == answered + tail;
        RequestsAppend(answered, tail);
      } else {
        RequestsAppend(answered, closing);
      }
    } else {
      RequestsAppend(effects, closing);
    }
  }

  /** The requests a send issues are exactly the resolver's, and only once the user message is stored. */
  lemma HandleRequests(s: Screen, d: DbState, user: Option<string>, net: Network, res: Resolution)
    ensures Requests(Handle(s, d, user, net, res).effects) == if Reached(s, user, net) then res.calls else []
  {
    if Accepted(s, user) {
      var busy := s.(input := "", isLoading := true);
      var started := [SetInput(""), SetLoading(true)];
      assert Requests(started[1..]) == [];
      assert Requests(started) == [];
      var t := Target(s, net);
      if s.sessionId != "" {
        ConverseRequests(busy, d, started, t, s.input, net, res);
      } else if net.chatWritten {
        var title := Text.Take(s.input, ChatTitleLength);
        var created := [CreateChat(t, title), Navigate(t)];
        assert Requests(created[1..]) == [];
        assert Requests(created) == [];
        RequestsAppend(started, created);
        ConverseRequests(busy.(sessionId := t), d.AddChat(t, user.value, title), started + created, t, s.input, net, res);
      } else {
        RequestsAppend(started, [SetLoading(false)]);
      }
    }
  }

  /** A send keeps the store's order invariant, and every chat's messages only grow. */
  lemma HandleKeepsStore(s: Screen, d: DbState, user: Option<string>, net: Network, res: Resolution)
    requires d.Valid()
    ensures var run := Handle(s, d, user, net, res);
      run.db.Valid() && forall k :: d.Log(k) <= run.db.Log(k)
  {
    if Accepted(s, user) {
      var busy := s.(input := "", isLoading := true);
      var started := [SetInput(""), SetLoading(true)];
      var t := Target(s, net);
      if s.sessionId != "" {
        ConverseKeepsStore(busy, d, started, t, s.input, net, res);
      } else if net.chatWritten {
        var title := Text.Take(s.input, ChatTitleLength);
        AddChatKeepsValid(d, t, user.value, title);
        var d1 := d.AddChat(t, user.value, title);
        assert forall k :: d1.Log(k) == d.Log(k);
        ConverseKeepsStore(busy.(sessionId := t), d1, started + [CreateChat(t, title), Navigate(t)], t, s.input, net, res);
      }
    }
  }

  // ---------------------------------------------------------------------------
  // Configuration
  // ---------------------------------------------------------------------------

  /**
   * Saving then loading gives back the saved key and every non-empty field; an
   * empty owner, repository or branch does not overwrite: the value loaded
   * before survives.
   */
  lemma ConfigRoundTrip(items: map<string, string>, data: ConfigurationData)
    ensures var loaded := LoadedConfig(SavedConfig(items, data));
      var before := LoadedConfig(items);
      loaded.apiKey == data.apiKey
      && loaded.githubOwner == Or(data.githubOwner, before.githubOwner)
      && loaded.githubRepo == Or(data.githubRepo, before.githubRepo)
      && loaded.githubBranch == Or(data.githubBranch, before.githubBranch)
  {
  }

  /** Saving the configuration touches no other storage key. */
  lemma SavedConfigFrame(items: map<string, string>, data: ConfigurationData, key: string)
    requires key !in {LocalStorage.ApiKeyKey, LocalStorage.OwnerKey, LocalStorage.RepoKey, LocalStorage.BranchKey}
    ensures LocalStorage.GetItem(SavedConfig(items, data), key) == LocalStorage.GetItem(items, key)
  {
  }

  // ---------------------------------------------------------------------------
  // The configuration modal as the chat page renders it
  // ---------------------------------------------------------------------------

  /** What the modal's events can change on the page: whether it is open, and the client's key. */
  datatype Modal = Modal(isOpen: bool, apiKey: string)

  /** A user event on the open modal: a dismissal gesture, or a submit of the form as it stands. */
  datatype ModalEvent = Dismissed(via: Dismissal) | Submitted(form: ConfigurationData)

  /**
   * The modal rendered with `isMandatory={!julesApi.hasApiKey()}`, `onClose`
   * closing it and `onSave` being `handleSaveConfig`: a dismissal closes only
   * while the client has a key; a submit that passes validation installs its
   * key and closes; a rejected submit changes neither.
   */
  function ModalStep(m: Modal, e: ModalEvent): Modal {
    match e
    case Dismissed(_) => if m.apiKey != "" then m.(isOpen := false) else m
    case Submitted(form) => if Validate(form).Ok? then Modal(false, form.apiKey) else m
  }

  function ModalSteps(m: Modal, events: seq<ModalEvent>): Modal
    decreases |events|
  {
    if events == [] then m else ModalSteps(ModalStep(m, events[0]), events[1..])
  }

  /** A submit of a form whose key has a non-space character. */
  predicate SavesKey(e: ModalEvent) {
    e.Submitted? && Validate(e.form).Ok?
  }

  /** The page's modal is closed only when the client holds a key. */
  predicate ClosedOnlyWithKey(m: Modal) {
    !m.isOpen ==> m.apiKey != ""
  }

  /**
   * With no key, one event closes the open modal exactly when it is a submit
   * that passes validation, and the key it leaves is not blank; with a key,
   * either dismissal closes it and keeps the key.
   */
  lemma ModalStepCloses(m: Modal, e: ModalEvent)
    requires m.isOpen
    ensures m.apiKey == "" ==> (!ModalStep(m, e).isOpen <==> SavesKey(e))
    ensures SavesKey(e) ==> ModalStep(m, e) == Modal(false, e.form.apiKey) && !Text.IsBlank(e.form.apiKey)
    ensures m.apiKey != "" && e.Dismissed? ==> ModalStep(m, e) == Modal(false, m.apiKey)
  {
    if SavesKey(e) {
      Text.BlankIffAllSpace(e.form.apiKey);
    }
  }

  /** Without a key, no run of dismissals and rejected submits closes the modal or changes the key. */
  lemma {:induction false} MandatoryModalStaysOpen(m: Modal, events: seq<ModalEvent>)
    requires m.isOpen && m.apiKey == ""
    requires forall i :: 0 <= i < |events| ==> !SavesKey(events[i])
    ensures ModalSteps(m, events) == m
    decreases |events|
  {
    if events != [] {
      assert !SavesKey(events[0]);
      MandatoryModalStaysOpen(ModalStep(m, events[0]), events[1..]);
    }
  }

  /** Whatever the events, the modal is never left closed with no key. */
  lemma {:induction false} ModalStepsClosedOnlyWithKey(m: Modal, events: seq<ModalEvent>)
    requires ClosedOnlyWithKey(m)
    ensures ClosedOnlyWithKey(ModalSteps(m, events))
    decreases |events|
  {
    if events != [] {
      var e := events[0];
      if SavesKey(e) {
        ModalStepCloses(m.(isOpen := true), e);
      }
      ModalStepsClosedOnlyWithKey(ModalStep(m, e), events[1..]);
    }
  }

  class ChatPage {
    var inputValue: string
    var isLoading: bool
    var sessionId: string
    var messages: seq<ChatMessage>
    var configData: ConfigurationData
    var isConfigModalOpen: bool
    /** The chat whose messages the one live listener watches; "" when none is registered. */
    var listening: string

    const client: JulesClient
    const db: Database
    const storage: LocalStorage.KeyValueStore

    ghost predicate Valid()
      reads this, db
    {
      db.Valid()
    }

    function View(): Screen
      reads this
    {
      Screen(inputValue, isLoading, sessionId)
    }

    constructor (sessionId: string, client: JulesClient, db: Database, storage: LocalStorage.KeyValueStore)
      requires db.Valid()
      ensures Valid()
      ensures this.sessionId == sessionId && this.client == client && this.db == db && this.storage == storage
      ensures inputValue == "" && !isLoading && messages == [] && listening == "" && !isConfigModalOpen
      ensures configData == ConfigurationData("", "", "", DefaultBranch)
    {
      this.sessionId := sessionId;
      this.client := client;
      this.db := db;
      this.storage := storage;
      inputValue, isLoading, messages, listening, isConfigModalOpen := "", false, [], "", false;
      configData := ConfigurationData("", "", "", DefaultBranch);
    }

    /** The send button is disabled when the input is blank or a send is under way. */
    predicate SendDisabled()
      reads this
    {
      Text.IsBlank(inputValue) || isLoading
    }

    /** The modal cannot be dismissed while the client has no key. */
    predicate ModalMandatory()
      reads this, client
    {
      client.apiKey == ""
    }

    method EditInput(value: string)
      modifies this
      ensures inputValue == value
      ensures isLoading == old(isLoading) && sessionId == old(sessionId) && messages == old(messages)
      ensures configData == old(configData) && isConfigModalOpen == old(isConfigModalOpen) && listening == old(listening)
    {
      inputValue := value;
    }

    /** The session resolver: one send, and on its failure one create and one retried send. */
    method SendWithFallback(target: string, content: string, net: Network) returns (calls: seq<Request>, reply: Result<Activity, Error>)
      ensures Resolution(calls, reply) == Resolve(client.apiKey, client.env, configData, target, content, net)
    {
      var sent, first := client.SendMessage(target, content, net.firstSend);
      calls := Sent(sent);
      reply := first;
      if first.Err? {
        var created, session := client.CreateSession(content, Defined(configData.githubOwner),
                                                     Defined(configData.githubRepo), Defined(configData.githubBranch), net.create);
        calls := calls + Sent(created);
        if session.Err? {
          reply := Err(session.error);
        } else {
          var retried;
          retried, reply := client.SendMessage(session.value.name, content, net.retry);
          calls := calls + Sent(retried);
        }
      }
    }

    /** `handleSendMessage` (the button's onClick, and Enter without Shift). It does not look at `isLoading`. */
    method HandleSendMessage(user: Option<string>, net: Network) returns (effects: seq<Effect>)
      requires Valid()
      modifies this, db
      ensures Valid()
      ensures var run := Submit(old(View()), old(db.State()), client.apiKey, client.env, configData, user, net);
        View() == run.screen && db.State() == run.db && effects == run.effects
      ensures messages == old(messages) && configData == old(configData)
      ensures isConfigModalOpen == old(isConfigModalOpen) && listening == old(listening)
    {
      if Text.IsBlank(inputValue) || user.None? {
        return [];
      }
      var content := inputValue;
      inputValue := "";
      isLoading := true;
      effects := [SetInput(""), SetLoading(true)];
      var chatId := sessionId;
      if chatId == "" {
        if !net.chatWritten {
          isLoading := false;
          effects := effects + [SetLoading(false)];
          return;
        }
        var opening := StartChat(user.value, content, net.newChatId);
        effects := effects + opening;
        chatId := net.newChatId;
      }
      effects := Reply(effects, chatId, content, net);
    }

    /** The handler's `if (!currentSessionId)` block: a chat document titled with the message's start, and navigation to it. */
    method StartChat(uid: string, content: string, chatId: string) returns (effects: seq<Effect>)
      requires Valid()
      modifies this, db
      ensures Valid()
      ensures var title := Text.Take(content, ChatTitleLength);
        db.State() == old(db.State()).AddChat(chatId, uid, title) && effects == [CreateChat(chatId, title), Navigate(chatId)]
      ensures View() == old(View()).(sessionId := chatId)
      ensures messages == old(messages) && configData == old(configData)
      ensures isConfigModalOpen == old(isConfigModalOpen) && listening == old(listening)
    {
      var title := Text.Take(content, ChatTitleLength);
      db.AddChat(chatId, uid, title);
      effects := [CreateChat(chatId, title), Navigate(chatId)];
      sessionId := chatId;
    }

    /** The handler from `if (currentSessionId)` to its `finally`. */
    method Reply(effects0: seq<Effect>, chatId: string, content: string, net: Network) returns (effects: seq<Effect>)
      requires Valid()
      modifies this, db
      ensures Valid()
      ensures var run := Converse(old(View()), old(db.State()), effects0, chatId, content, net,
                                  Resolve(client.apiKey, client.env, configData, chatId, content, net));
        View() == run.screen && db.State() == run.db && effects == run.effects
      ensures messages == old(messages) && configData == old(configData)
      ensures isConfigModalOpen == old(isConfigModalOpen) && listening == old(listening)
    {
      effects := effects0;
      if chatId != "" && net.userWritten {
        db.AddMessage(chatId, User, JStr(content));
        effects := effects + [AppendMessage(chatId, User, JStr(content))];
        var calls, reply := SendWithFallback(chatId, content, net);
        effects := effects + Remotes(calls);
        if reply.Ok? && net.agentWritten {
          db.AddMessage(chatId, Agent, reply.value.content);
          effects := effects + [AppendMessage(chatId, Agent, reply.value.content)];
        }
      }
      isLoading := false;
      effects := effects + [SetLoading(false)];
    }

    /** The textarea's keydown: Enter without Shift sends; any other key does nothing. */
    method OnKeyDown(key: string, shift: bool, user: Option<string>, net: Network) returns (effects: seq<Effect>)
      requires Valid()
      modifies this, db
      ensures Valid()
      ensures key == "Enter" && !shift ==>
        var run := Submit(old(View()), old(db.State()), client.apiKey, client.env, configData, user, net);
        View() == run.screen && db.State() == run.db && effects == run.effects
      ensures !(key == "Enter" && !shift) ==> View() == old(View()) && db.State() == old(db.State()) && effects == []
      ensures messages == old(messages) && configData == old(configData)
      ensures isConfigModalOpen == old(isConfigModalOpen) && listening == old(listening)
    {
      effects := [];
      if key == "Enter" && !shift {
        effects := HandleSendMessage(user, net);
      }
    }

    /**
     * The subscription effect, run whenever `sessionId` or the user changes: the
     * previous listener is removed; with no chat or no user the view is emptied,
     * otherwise one listener is registered on the current chat.
     */
    method Subscribe(user: Option<string>)
      modifies this
      ensures sessionId == "" || user.None? ==> listening == "" && messages == []
      ensures sessionId != "" && user.Some? ==> listening == sessionId && messages == old(messages)
      ensures inputValue == old(inputValue) && isLoading == old(isLoading) && sessionId == old(sessionId)
      ensures configData == old(configData) && isConfigModalOpen == old(isConfigModalOpen)
    {
      listening := "";
      if sessionId == "" || user.None? {
        messages := [];
        return;
      }
      listening := sessionId;
    }

    /** A snapshot reaching the listener replaces the rendered messages wholesale. */
    method DeliverSnapshot()
      modifies this
      ensures listening != "" ==> messages == Snapshot(db.Log(listening))
      ensures listening == "" ==> messages == old(messages)
      ensures inputValue == old(inputValue) && isLoading == old(isLoading) && sessionId == old(sessionId)
      ensures configData == old(configData) && isConfigModalOpen == old(isConfigModalOpen) && listening == old(listening)
    {
      if listening != "" {
        messages := Snapshot(db.Log(listening));
      }
    }

    /** The configuration-load effect on mount. */
    method LoadConfig()
      modifies this, client
      ensures configData == LoadedConfig(storage.items)
      ensures var saved := LocalStorage.GetItem(storage.items, LocalStorage.ApiKeyKey);
        (saved.Some? && saved.value != "" ==> client.apiKey == saved.value && isConfigModalOpen == old(isConfigModalOpen))
        && (!(saved.Some? && saved.value != "") ==>
              (client.apiKey == old(client.apiKey) && isConfigModalOpen == (old(isConfigModalOpen) || old(client.apiKey) == "")))
      ensures ClosedOnlyWithKey(ModalView())
      ensures inputValue == old(inputValue) && isLoading == old(isLoading) && sessionId == old(sessionId)
      ensures messages == old(messages) && listening == old(listening)
    {
      var savedKey := LocalStorage.GetItem(storage.items, LocalStorage.ApiKeyKey);
      configData := LoadedConfig(storage.items);
      if savedKey.Some? && savedKey.value != "" {
        client.SetApiKey(savedKey.value);
      } else {
        var hasKey := client.HasApiKey();
        if !hasKey {
          isConfigModalOpen := true;
        }
      }
    }

    /** `handleSaveConfig`, the modal's `onSave`. */
    method HandleSaveConfig(data: ConfigurationData)
      modifies this, storage, client
      ensures storage.items == SavedConfig(old(storage.items), data)
      ensures configData == data && client.apiKey == data.apiKey && !isConfigModalOpen
      ensures inputValue == old(inputValue) && isLoading == old(isLoading) && sessionId == old(sessionId)
      ensures messages == old(messages) && listening == old(listening)
    {
      storage.SetItem(LocalStorage.ApiKeyKey, data.apiKey);
      if data.githubOwner != "" {
        storage.SetItem(LocalStorage.OwnerKey, data.githubOwner);
      }
      if data.githubRepo != "" {
        storage.SetItem(LocalStorage.RepoKey, data.githubRepo);
      }
      if data.githubBranch != "" {
        storage.SetItem(LocalStorage.BranchKey, data.githubBranch);
      }
      configData := data;
      client.SetApiKey(data.apiKey);
      isConfigModalOpen := false;
    }

    /** The modal's `onClose`. */
    method CloseConfig()
      modifies this
      ensures !isConfigModalOpen
      ensures inputValue == old(inputValue) && isLoading == old(isLoading) && sessionId == old(sessionId)
      ensures messages == old(messages) && listening == old(listening) && configData == old(configData)
    {
      isConfigModalOpen := false;
    }

    function ModalView(): Modal
      reads this, client
    {
      Modal(isConfigModalOpen, client.apiKey)
    }

    /** A backdrop click or a click on the X of the modal this page renders. */
    method DismissConfig(modal: ConfigurationModal, via: Dismissal)
      modifies this
      ensures ModalView() == ModalStep(old(ModalView()), Dismissed(via))
      ensures old(ModalMandatory()) ==> isConfigModalOpen == old(isConfigModalOpen)
      ensures !old(ModalMandatory()) ==> !isConfigModalOpen
      ensures inputValue == old(inputValue) && isLoading == old(isLoading) && sessionId == old(sessionId)
      ensures messages == old(messages) && listening == old(listening) && configData == old(configData)
    {
      var hasKey := client.HasApiKey();
      var closes := modal.Dismiss(!hasKey, via);
      if closes {
        CloseConfig();
      }
    }

    /** A submit of the modal's form: `handleSubmit`, whose `onSave` is `handleSaveConfig`. */
    method SubmitConfig(modal: ConfigurationModal)
      modifies this, storage, client, modal
      ensures modal.formData == old(modal.formData)
      ensures ModalView() == ModalStep(old(ModalView()), Submitted(modal.formData))
      ensures Validate(modal.formData).Ok? ==>
        storage.items == SavedConfig(old(storage.items), modal.formData) && configData == modal.formData
      ensures Validate(modal.formData).Err? ==>
        storage.items == old(storage.items) && configData == old(configData) && modal.error == ApiKeyRequired
      ensures inputValue == old(inputValue) && isLoading == old(isLoading) && sessionId == old(sessionId)
      ensures messages == old(messages) && listening == old(listening)
    {
      var saved := modal.HandleSubmit();
      if saved.Some? {
        HandleSaveConfig(saved.value);
      }
    }
  }
}
