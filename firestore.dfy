/**
 * The real-time document store the chat screen writes to: a top-level
 * collection of chat documents and, per chat id, an append-only collection of
 * message records ordered by their store-assigned creation time.
 *
 * `serverTimestamp()` is modelled by a logical clock the store advances on
 * every write, so creation times are strictly increasing in write order.
 */
module Firestore {
  import opened Json

  datatype Role = User | Agent

  /** A message record `{role, content, createdAt}`. */
  datatype StoredMessage = StoredMessage(role: Role, content: Json, createdAt: nat)

  /** A chat document `{userId, title, createdAt}` under its document id. */
  datatype ChatDoc = ChatDoc(id: string, userId: string, title: string, createdAt: nat)

  /** The `{role, content}` projection the chat screen renders (`JulesMessage`). */
  datatype ChatMessage = ChatMessage(role: Role, content: Json)

  datatype DbState = DbState(chats: seq<ChatDoc>, logs: map<string, seq<StoredMessage>>, clock: nat) {

    /** The message collection of one chat; empty when nothing was ever written to it. */
    function Log(chatId: string): seq<StoredMessage> {
      if chatId in logs then logs[chatId] else []
    }

    /** `addDoc(collection(db, "chats"), {...})` under the id the store assigns. */
    function AddChat(id: string, userId: string, title: string): DbState {
      DbState(chats + [ChatDoc(id, userId, title, clock)], logs, clock + 1)
    }

    /** `addDoc(collection(db, "chats", chatId, "messages"), {...})` */
    function Append(chatId: string, role: Role, content: Json): (d: DbState)
      ensures d.Log(chatId) == Log(chatId) + [StoredMessage(role, content, clock)]
      ensures forall k :: k != chatId ==> d.Log(k) == Log(k)
      ensures d.chats == chats && d.clock == clock + 1
    {
      DbState(chats, logs[chatId := Log(chatId) + [StoredMessage(role, content, clock)]], clock + 1)
    }

    /** `deleteDoc(doc(db, "chats", id))`: the document goes; its message collection is not deleted with it. */
    function DeleteChat(id: string): DbState {
      DbState(WithoutChat(chats, id), logs, clock)
    }

    /** Every message collection is in strictly increasing creation order, all stamps earlier than the clock. */
    ghost predicate Valid() {
      forall id :: id in logs ==> Ordered(logs[id]) && forall m :: m in logs[id] ==> m.createdAt < clock
    }
  }

  ghost predicate Ordered(log: seq<StoredMessage>) {
    forall i, j :: 0 <= i < j < |log| ==> log[i].createdAt < log[j].createdAt
  }

  function WithoutChat(chats: seq<ChatDoc>, id: string): (r: seq<ChatDoc>)
    ensures forall c :: c in r <==> c in chats && c.id != id
  {
    if chats == [] then []
    else if chats[0].id == id then WithoutChat(chats[1..], id)
    else [chats[0]] + WithoutChat(chats[1..], id)
  }

  /** Removing by id distributes over concatenation, so the entries kept stay in their order. */
  lemma {:induction false} WithoutChatAppend(a: seq<ChatDoc>, b: seq<ChatDoc>, id: string)
    ensures WithoutChat(a + b, id) == WithoutChat(a, id) + WithoutChat(b, id)
    decreases |a|
  {
    if a == [] {
      assert a + b == b;
    } else {
      assert (a + b)[1..] == a[1..] + b;
      WithoutChatAppend(a[1..], b, id);
    }
  }

  /** Entries with another id are all kept, in order: removing an id they lack leaves them as they were. */
  lemma {:induction false} WithoutChatKeepsOthers(chats: seq<ChatDoc>, id: string)
    requires forall i :: 0 <= i < |chats| ==> chats[i].id != id
    ensures WithoutChat(chats, id) == chats
    decreases |chats|
  {
    if chats != [] {
      WithoutChatKeepsOthers(chats[1..], id);
    }
  }

  /** Removing the same id twice is removing it once. */
  lemma WithoutChatIdempotent(chats: seq<ChatDoc>, id: string)
    ensures WithoutChat(WithoutChat(chats, id), id) == WithoutChat(chats, id)
  {
    var r := WithoutChat(chats, id);
    assert forall i :: 0 <= i < |r| ==> r[i] in r;
    WithoutChatKeepsOthers(r, id);
  }

  /** The snapshot a listener on a chat's messages receives: the `{role, content}` of each record, in order. */
  function Snapshot(log: seq<StoredMessage>): (view: seq<ChatMessage>)
    ensures |view| == |log|
    ensures forall i :: 0 <= i < |log| ==> view[i] == ChatMessage(log[i].role, log[i].content)
  {
    seq(|log|, i requires 0 <= i < |log| => ChatMessage(log[i].role, log[i].content))
  }

  /** Appending keeps the store's order invariant. */
  lemma AppendKeepsValid(d: DbState, chatId: string, role: Role, content: Json)
    requires d.Valid()
    ensures d.Append(chatId, role, content).Valid()
  {
    var d' := d.Append(chatId, role, content);
    forall id | id in d'.logs
      ensures Ordered(d'.logs[id]) && forall m :: m in d'.logs[id] ==> m.createdAt < d'.clock
    {
      if id != chatId {
        assert d'.logs[id] == d.logs[id];
      } else {
        var log := d.Log(chatId);
        assert forall m :: m in log ==> m.createdAt < d.clock;
        assert d'.logs[id] == log + [StoredMessage(role, content, d.clock)];
      }
    }
  }

  lemma AddChatKeepsValid(d: DbState, id: string, userId: string, title: string)
    requires d.Valid()
    ensures d.AddChat(id, userId, title).Valid()
  {
  }

  /** After one append, a listener on that chat sees the earlier messages followed by the new one. */
  lemma SnapshotAfterAppend(d: DbState, chatId: string, role: Role, content: Json)
    ensures Snapshot(d.Append(chatId, role, content).Log(chatId)) == Snapshot(d.Log(chatId)) + [ChatMessage(role, content)]
  {
  }

  /** `messages` written to one chat, one `addDoc` after another. */
  function AppendAll(d: DbState, chatId: string, messages: seq<ChatMessage>): DbState
    decreases |messages|
  {
    if messages == [] then d
    else AppendAll(d.Append(chatId, messages[0].role, messages[0].content), chatId, messages[1..])
  }

  /** Appending N messages and then subscribing yields exactly those N messages, in write order, after the earlier ones. */
  lemma {:induction false} SnapshotAfterAppends(d: DbState, chatId: string, messages: seq<ChatMessage>)
    ensures Snapshot(AppendAll(d, chatId, messages).Log(chatId)) == Snapshot(d.Log(chatId)) + messages
    decreases |messages|
  {
    if messages == [] {
      assert Snapshot(d.Log(chatId)) + messages == Snapshot(d.Log(chatId));
    } else {
      var first := messages[0];
      SnapshotAfterAppend(d, chatId, first.role, first.content);
      SnapshotAfterAppends(d.Append(chatId, first.role, first.content), chatId, messages[1..]);
      assert Snapshot(d.Log(chatId)) + [first] + messages[1..] == Snapshot(d.Log(chatId)) + messages;
    }
  }

  class Database {
    var chats: seq<ChatDoc>
    var logs: map<string, seq<StoredMessage>>
    var clock: nat

    function State(): DbState
      reads this
    {
      DbState(chats, logs, clock)
    }

    ghost predicate Valid()
      reads this
    {
      State().Valid()
    }

    function Log(chatId: string): seq<StoredMessage>
      reads this
    {
      State().Log(chatId)
    }

    constructor ()
      ensures State() == DbState([], map[], 0) && Valid()
    {
      chats, logs, clock := [], map[], 0;
    }

    method AddChat(id: string, userId: string, title: string)
      requires Valid()
      modifies this
      ensures Valid()
      ensures State() == old(State()).AddChat(id, userId, title)
    {
      AddChatKeepsValid(State(), id, userId, title);
      chats := chats + [ChatDoc(id, userId, title, clock)];
      clock := clock + 1;
    }

    method AddMessage(chatId: string, role: Role, content: Json)
      requires Valid()
      modifies this
      ensures Valid()
      ensures State() == old(State()).Append(chatId, role, content)
    {
      AppendKeepsValid(State(), chatId, role, content);
      logs := logs[chatId := Log(chatId) + [StoredMessage(role, content, clock)]];
      clock := clock + 1;
    }

    method DeleteChat(id: string)
      modifies this
      ensures State() == old(State()).DeleteChat(id)
      ensures Valid() == old(Valid())
    {
      chats := WithoutChat(chats, id);
    }
  }
}
