/**
 * The chat routes: a store of chats keyed by id, each owned by one user,
 * behind the handlers `/new`, `/send`, `/all`, `GET /:chatId` and
 * `DELETE /:chatId`. Every lookup filters on the chat id AND the caller's id,
 * so another user's chat is indistinguishable from a missing one.
 *
 * The document database is a map with a supply of fresh ids and a logical
 * clock standing for the `createdAt`/`updatedAt` timestamps; each create
 * and each save takes the next tick (a delete stamps nothing). The caller's
 * id is what the (unseen) authentication middleware put on the request.
 */
module ChatRoutes {
  import opened Wrappers
  import opened Js
  import opened AiService

  type UserId = nat
  type ChatId = nat

  /** The title `/send` compares against before retitling. */
  const NewChatTitle: string := "New Chat"
  /** How many characters of the first message become the title. */
  const TitleLength: nat := 30

  datatype Chat = Chat(id: ChatId, owner: UserId, title: string, messages: seq<Message>,
                       createdAt: nat, updatedAt: nat)

  /** What `/all` sends for each chat: `_id`, `title`, `createdAt`. */
  datatype Summary = Summary(id: ChatId, title: string, createdAt: nat)

  datatype Body =
    | NewChat(chatId: ChatId, title: string)
    | SendReply(chatId: ChatId, reply: string)
    | ChatList(chats: seq<Summary>)
    | FullChat(chat: Chat)
    | Notice(message: string)

  datatype Response = Response(status: nat, body: Body)

  const ChatNotFound: Response := Response(404, Notice("Chat not found"))

  function Summarize(c: Chat): Summary
  {
    Summary(c.id, c.title, c.createdAt)
  }

  /** The query `{_id: id, userId: caller}`: the chat only if it exists AND belongs to the caller. */
  function FindOwned(chats: map<ChatId, Chat>, caller: UserId, id: ChatId): (r: Option<Chat>)
    ensures r.Some? <==> id in chats && chats[id].owner == caller
    ensures r.Some? ==> r.value == chats[id]
  {
    if id in chats && chats[id].owner == caller then Some(chats[id]) else None
  }

  /** `/send` reuses a chat only when an id was given and that id is found for the caller. */
  predicate Reuses(chats: map<ChatId, Chat>, caller: UserId, chatId: Option<ChatId>)
  {
    chatId.Some? && FindOwned(chats, caller, chatId.value).Some?
  }

  /** `chat.messages.push(m)`. */
  function Push(c: Chat, m: Message): Chat
  {
    c.(messages := c.messages + [m])
  }

  /**
   * Step 5 of `/send`: a chat still titled "New Chat" takes the message's
   * first 30 characters as its title; any other title stays, and nothing
   * but the title changes.
   */
  function AutoTitle(c: Chat, message: string): (r: Chat)
    ensures r == c.(title := r.title)
    ensures c.title == NewChatTitle ==> r.title <= message && |r.title| == Min(|message|, TitleLength)
    ensures c.title != NewChatTitle ==> r.title == c.title
  {
    if c.title == NewChatTitle then c.(title := Prefix(message, TitleLength)) else c
  }

  /**
   * Steps 2 to 5 of `/send` on the resolved chat: exactly two messages more,
   * the user's then the assistant's, earlier messages untouched, the title
   * replaced by the message's first 30 characters exactly when it was
   * "New Chat", and nothing else changed.
   */
  function Exchange(c: Chat, message: string, reply: string): (r: Chat)
    ensures r.id == c.id && r.owner == c.owner && r.createdAt == c.createdAt && r.updatedAt == c.updatedAt
    ensures r.messages == c.messages + [Message(User, message), Message(Assistant, reply)]
    ensures c.title == NewChatTitle ==> r.title == Prefix(message, TitleLength)
    ensures c.title != NewChatTitle ==> r.title == c.title
  {
    AutoTitle(Push(Push(c, Message(User, message)), Message(Assistant, reply)), message)
  }

  /** The reply `/send` stores and returns for a chat whose log was `before`. */
  function ReplyFor(before: seq<Message>, message: string, provider: CompletionRequest -> Completion): string
  {
    GetAIResponse(before + [Message(User, message)], provider)
  }

  /**
   * Steps 2 to 5 of `/send`, in the source's order, on the chat held in
   * memory: push the user message, ask the gateway with the log that now
   * ends in it, push the reply, retitle.
   */
  method Converse(chat: Chat, message: string, provider: CompletionRequest -> Completion)
    returns (updated: Chat, reply: string)
    ensures reply == ReplyFor(chat.messages, message, provider)
    ensures updated == Exchange(chat, message, reply)
  {
    updated := Push(chat, Message(User, message));
    reply := GetAIResponse(updated.messages, provider);
    updated := Push(updated, Message(Assistant, reply));
    updated := AutoTitle(updated, message);
  }

  class ChatStore {
    var chats: map<ChatId, Chat>
    var nextId: ChatId
    var clock: nat
    /** The title the (unseen) Chat schema gives a new chat. */
    const defaultTitle: string

    ghost predicate Valid()
      reads this
    {
      forall id | id in chats ::
        && chats[id].id == id
        && id < nextId
        && chats[id].createdAt <= chats[id].updatedAt < clock
    }

    constructor (defaultTitle: string)
      ensures Valid()
      ensures chats == map[] && this.defaultTitle == defaultTitle
    {
      this.defaultTitle := defaultTitle;
      chats, nextId, clock := map[], 0, 0;
    }

    /** The chat `Chat.create({userId: owner, messages: []})` would insert now. */
    ghost function FreshChat(owner: UserId): Chat
      reads this
    {
      Chat(nextId, owner, defaultTitle, [], clock, clock)
    }

    /** The chat `/send` continues with after step 1 (resolve or create). */
    ghost function Resolved(caller: UserId, chatId: Option<ChatId>): Chat
      reads this
    {
      if Reuses(chats, caller, chatId) then chats[chatId.value] else FreshChat(caller)
    }

    /** `Chat.create`: one new, empty chat owned by `owner`, with the default title. */
    method Create(owner: UserId) returns (c: Chat)
      requires Valid()
      modifies this
      ensures Valid()
      ensures c == old(FreshChat(owner)) && old(nextId) !in old(chats)
      ensures chats == old(chats)[c.id := c]
      ensures nextId == old(nextId) + 1 && clock == old(clock) + 1
    {
      c := Chat(nextId, owner, defaultTitle, [], clock, clock);
      chats := chats[nextId := c];
      nextId, clock := nextId + 1, clock + 1;
    }

    /** `POST /new`: adds exactly one empty chat owned by the caller and answers 201 with its id and title. */
    method New(caller: UserId) returns (resp: Response)
      requires Valid()
      modifies this
      ensures Valid()
      ensures var c := old(FreshChat(caller));
              && old(nextId) !in old(chats)
              && chats == old(chats)[c.id := c]
              && resp == Response(201, NewChat(c.id, c.title))
    {
      var c := Create(caller);
      resp := Response(201, NewChat(c.id, c.title));
    }

    /** Step 1 of `/send`: the caller's chat with the given id, or a chat created on the spot. */
    method Resolve(caller: UserId, chatId: Option<ChatId>) returns (chat: Chat)
      requires Valid()
      modifies this
      ensures Valid()
      ensures chat == old(Resolved(caller, chatId))
      ensures old(Reuses(chats, caller, chatId)) ==> chats == old(chats) && clock == old(clock)
      ensures !old(Reuses(chats, caller, chatId)) ==>
                chat.id == old(nextId) && chat.id !in old(chats) && chats == old(chats)[chat.id := chat]
      ensures chat.id in chats && chats[chat.id] == chat
    {
      if chatId.Some? && FindOwned(chats, caller, chatId.value).Some? {
        chat := chats[chatId.value];
      } else {
        chat := Create(caller);
      }
    }

    /** `chat.save()`: writes the chat back, stamping `updatedAt` with the next tick. */
    method Save(chat: Chat)
      requires Valid()
      requires chat.id in chats && chat.createdAt == chats[chat.id].createdAt
      modifies this
      ensures Valid()
      ensures chats == old(chats)[chat.id := chat.(updatedAt := old(clock))]
      ensures clock == old(clock) + 1 && nextId == old(nextId)
    {
      var stamped := chat.(updatedAt := clock);
      chats := chats[chat.id := stamped];
      clock := clock + 1;
    }

    /**
     * `POST /send`. `provider` is the hosted model; `saveFails` says whether
     * the one `chat.save()` throws. Only that save persists the messages and
     * the title; a chat created at step 1 is in the store already, so a
     * failed save still leaves it there, empty.
     */
    method Send(caller: UserId, chatId: Option<ChatId>, message: string,
                provider: CompletionRequest -> Completion, saveFails: bool) returns (resp: Response)
      requires Valid()
      modifies this
      ensures Valid()
      ensures !old(Reuses(chats, caller, chatId)) ==>
                old(Resolved(caller, chatId)).id == old(nextId) && old(nextId) !in old(chats)
      ensures saveFails ==> resp == Response(500, Notice("Failed to send message"))
      ensures saveFails ==>
                var c := old(Resolved(caller, chatId));
                chats == if old(Reuses(chats, caller, chatId)) then old(chats) else old(chats)[c.id := c]
      ensures !saveFails ==>
                var c := old(Resolved(caller, chatId));
                resp == Response(200, SendReply(c.id, ReplyFor(c.messages, message, provider)))
      ensures !saveFails ==>
                var c := old(Resolved(caller, chatId));
                var reply := ReplyFor(c.messages, message, provider);
                clock > 0 && chats == old(chats)[c.id := Exchange(c, message, reply).(updatedAt := clock - 1)]
    {
      ghost var before := chats;
      ghost var reused := Reuses(chats, caller, chatId);
      var chat := Resolve(caller, chatId);
      ghost var resolved := chat;
      var reply;
      chat, reply := Converse(chat, message, provider);
      if saveFails {
        resp := Response(500, Notice("Failed to send message"));
        return;
      }
      ghost var stamp := clock;
      Save(chat);
      if !reused {
        UpdateTwice(before, resolved.id, resolved, chat.(updatedAt := stamp));
      }
      resp := Response(200, SendReply(chat.id, reply));
    }

    /** `GET /all`: exactly the caller's chats, as summaries, most recently updated first. */
    method All(caller: UserId) returns (resp: Response)
      requires Valid()
      ensures resp.status == 200 && resp.body.ChatList?
      ensures var list := resp.body.chats;
              && (forall i | 0 <= i < |list| ::
                    list[i].id in chats && chats[list[i].id].owner == caller && list[i] == Summarize(chats[list[i].id]))
              && (forall id | id in chats && chats[id].owner == caller :: exists i :: 0 <= i < |list| && list[i].id == id)
              && (forall i, j | 0 <= i < j < |list| ::
                    list[i].id != list[j].id && chats[list[i].id].updatedAt >= chats[list[j].id].updatedAt)
    {
      var sorted := OwnedByRecency(caller);
      var list := seq(|sorted|, i requires 0 <= i < |sorted| => Summarize(sorted[i]));
      forall id | id in chats && chats[id].owner == caller
        ensures exists i :: 0 <= i < |list| && list[i].id == id
      {
        var c :| c in sorted && c.id == id;
        var i :| 0 <= i < |sorted| && sorted[i] == c;
        assert list[i].id == id;
      }
      resp := Response(200, ChatList(list));
    }

    /** The query and sort behind `/all`: the caller's chats, each once, most recently updated first. */
    method OwnedByRecency(caller: UserId) returns (sorted: seq<Chat>)
      requires Valid()
      ensures forall c | c in sorted :: c.id in chats && chats[c.id] == c && c.owner == caller
      ensures forall id | id in chats && chats[id].owner == caller :: id in Ids(sorted)
      ensures DistinctIds(sorted) && ByRecency(sorted)
    {
      var todo := set id | id in chats && chats[id].owner == caller;
      sorted := [];
      while todo != {}
        invariant todo <= chats.Keys
        invariant forall id | id in todo :: chats[id].owner == caller
        invariant forall c | c in sorted :: c.id in chats && chats[c.id] == c && c.owner == caller && c.id !in todo
        invariant forall id | id in chats && chats[id].owner == caller :: id in todo || id in Ids(sorted)
        invariant DistinctIds(sorted) && ByRecency(sorted)
        decreases todo
      {
        var id :| id in todo;
        InsertKeepsIdsDistinct(chats[id], sorted);
        sorted := InsertByRecency(chats[id], sorted);
        todo := todo - {id};
      }
    }

    /** `GET /:chatId`: the full chat when it exists and is the caller's, otherwise the one 404. */
    method Get(caller: UserId, chatId: ChatId) returns (resp: Response)
      ensures chatId in chats && chats[chatId].owner == caller ==> resp == Response(200, FullChat(chats[chatId]))
      ensures !(chatId in chats && chats[chatId].owner == caller) ==> resp == ChatNotFound
    {
      var found := FindOwned(chats, caller, chatId);
      if found.None? {
        return ChatNotFound;
      }
      resp := Response(200, FullChat(found.value));
    }

    /** `DELETE /:chatId`: removes the caller's chat with that id and nothing else, or answers the one 404. */
    method Delete(caller: UserId, chatId: ChatId) returns (resp: Response)
      requires Valid()
      modifies this
      ensures Valid()
      ensures var owned := chatId in old(chats) && old(chats)[chatId].owner == caller;
              && (owned ==> chats == old(chats) - {chatId}
                            && resp == Response(200, Notice("Chat deleted successfully")))
              && (!owned ==> chats == old(chats) && resp == ChatNotFound)
      ensures forall id | id in old(chats) && id != chatId :: id in chats && chats[id] == old(chats)[id]
      ensures nextId == old(nextId) && clock == old(clock)
    {
      var found := FindOwned(chats, caller, chatId);
      if found.None? {
        return ChatNotFound;
      }
      chats := chats - {chatId};
      resp := Response(200, Notice("Chat deleted successfully"));
    }
  }

  /** A second write under the same key overrides the first. */
  lemma UpdateTwice<K, V>(m: map<K, V>, k: K, a: V, b: V)
    ensures m[k := a][k := b] == m[k := b]
  {
  }

  /** The ids of the chats in a list. */
  function Ids(cs: seq<Chat>): set<ChatId>
  {
    set c | c in cs :: c.id
  }

  predicate DistinctIds(cs: seq<Chat>)
  {
    forall i, j | 0 <= i < j < |cs| :: cs[i].id != cs[j].id
  }

  /** Most recently updated first: the order `.sort({updatedAt: -1})` produces. */
  predicate ByRecency(cs: seq<Chat>)
  {
    forall i, j | 0 <= i < j < |cs| :: cs[i].updatedAt >= cs[j].updatedAt
  }

  /** Puts `c` before the first chat updated no later than it. */
  function InsertByRecency(c: Chat, cs: seq<Chat>): (r: seq<Chat>)
    requires ByRecency(cs)
    ensures ByRecency(r)
    ensures |r| == |cs| + 1
    ensures multiset(r) == multiset(cs) + multiset{c}
    ensures r[0] == c || (|cs| > 0 && r[0] == cs[0])
    ensures forall x :: x in r <==> x == c || x in cs
  {
    if cs == [] || cs[0].updatedAt <= c.updatedAt then
      ConsByRecency(c, cs);
      [c] + cs
    else
      var rest := InsertByRecency(c, cs[1..]);
      assert cs == [cs[0]] + cs[1..];
      ConsByRecency(cs[0], rest);
      assert multiset([cs[0]] + rest) == multiset{cs[0]} + multiset(rest);
      [cs[0]] + rest
  }

  /** A chat updated no earlier than the head of an ordered list can go in front of it. */
  lemma ConsByRecency(x: Chat, cs: seq<Chat>)
    requires ByRecency(cs)
    requires cs == [] || cs[0].updatedAt <= x.updatedAt
    ensures ByRecency([x] + cs)
  {
    forall i, j | 0 <= i < j < |[x] + cs| ensures ([x] + cs)[i].updatedAt >= ([x] + cs)[j].updatedAt {
      if i == 0 {
        assert ([x] + cs)[j] == cs[j - 1];
        assert cs[0].updatedAt >= cs[j - 1].updatedAt || j == 1;
      }
    }
  }

  /** Inserting a chat whose id is new keeps the ids distinct. */
  lemma {:induction false} InsertKeepsIdsDistinct(c: Chat, cs: seq<Chat>)
    requires ByRecency(cs) && DistinctIds(cs)
    requires forall x | x in cs :: x.id != c.id
    ensures DistinctIds(InsertByRecency(c, cs))
  {
    if cs == [] || cs[0].updatedAt <= c.updatedAt {
    } else {
      InsertKeepsIdsDistinct(c, cs[1..]);
      var r := InsertByRecency(c, cs);
      assert r == [cs[0]] + InsertByRecency(c, cs[1..]);
      forall j | 1 <= j < |r| ensures r[0].id != r[j].id {
        assert r[j] in InsertByRecency(c, cs[1..]);
        if r[j] != c {
          var k :| 0 <= k < |cs[1..]| && cs[1..][k] == r[j];
          assert cs[k + 1] == r[j];
        }
      }
    }
  }

  /** Cross-user isolation: two stores that agree on the caller's chats give the caller the same answer for every id. */
  lemma NoLeakAcrossOwners(a: map<ChatId, Chat>, b: map<ChatId, Chat>, caller: UserId, id: ChatId)
    requires forall k | k in a && a[k].owner == caller :: k in b && b[k] == a[k]
    requires forall k | k in b && b[k].owner == caller :: k in a && a[k] == b[k]
    ensures FindOwned(a, caller, id) == FindOwned(b, caller, id)
  {
    if id in a && a[id].owner == caller {
      assert b[id] == a[id];
    }
  }

  /** A failed model call still leaves a visible assistant message: the fallback sentence. */
  lemma FallbackIsRecorded(c: Chat, message: string, provider: CompletionRequest -> Completion)
    requires provider(BuildRequest(c.messages + [Message(User, message)])).Failure?
    ensures var r := Exchange(c, message, ReplyFor(c.messages, message, provider));
            r.messages[|r.messages| - 1] == Message(Assistant, FallbackReply)
  {
  }

  /** The model is asked with a log that already ends in the new user message. */
  lemma ModelSeesNewMessage(c: Chat, message: string)
    ensures var req := BuildRequest(c.messages + [Message(User, message)]);
            req.messages[|req.messages| - 1] == Message(User, message)
  {
    LastEntryForwarded(c.messages, Message(User, message));
  }

  /**
   * Auto-title fires once: after a first exchange on a default-titled chat,
   * a second exchange leaves the title alone, unless the first message was
   * itself exactly "New Chat" (its 30-character prefix is then the default again).
   */
  lemma {:induction false} TitleSetOnce(c: Chat, m1: string, r1: string, m2: string, r2: string)
    requires c.title == NewChatTitle && m1 != NewChatTitle
    ensures Exchange(Exchange(c, m1, r1), m2, r2).title == Prefix(m1, TitleLength)
  {
  }
}
