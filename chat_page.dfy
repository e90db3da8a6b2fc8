/**
 * The chat page's state (`chats`, `activeChat`, `messages`, `loading`) and
 * the handlers that update it after an awaited API call. Each API call is an
 * oracle: a function from its argument to the response data or a rejected
 * promise. A rejected call is caught and logged, and the state it would have
 * updated stays as it was.
 */
module ChatPage {
  import opened Wrappers
  import opened Js
  import opened ClientData
  import ChatWindow

  /** `prev.filter((c) => c._id !== chatId)`. */
  function RemoveId(chats: seq<ListEntry>, id: Option<ChatId>): (r: seq<ListEntry>)
    ensures |r| <= |chats|
    ensures forall e :: e in r <==> e in chats && e.id != id
  {
    if chats == [] then []
    else if chats[0].id == id then RemoveId(chats[1..], id)
    else [chats[0]] + RemoveId(chats[1..], id)
  }

  /** Filtering distributes over concatenation, so the kept entries stay in their order. */
  lemma {:induction false} RemoveIdConcat(a: seq<ListEntry>, b: seq<ListEntry>, id: Option<ChatId>)
    ensures RemoveId(a + b, id) == RemoveId(a, id) + RemoveId(b, id)
  {
    if a != [] {
      assert (a + b)[0] == a[0] && (a + b)[1..] == a[1..] + b;
      RemoveIdConcat(a[1..], b, id);
    } else {
      assert a + b == b;
    }
  }

  /** Deleting an id nobody has leaves the list exactly as it was. */
  lemma {:induction false} RemoveAbsentId(chats: seq<ListEntry>, id: Option<ChatId>)
    requires forall e | e in chats :: e.id != id
    ensures RemoveId(chats, id) == chats
  {
    if chats != [] {
      RemoveAbsentId(chats[1..], id);
      assert chats == [chats[0]] + chats[1..];
    }
  }

  /** The thread `loadChat` shows: `data.messages || []`. */
  function MessagesOf(d: ChatDetail): seq<Entry>
  {
    if d.messages.Some? then d.messages.value else []
  }

  class Page {
    var chats: seq<ListEntry>
    var activeChat: Option<ChatDetail>
    var messages: seq<Entry>
    var loading: bool

    constructor ()
      ensures chats == [] && activeChat == None && messages == [] && !loading
    {
      chats, activeChat, messages, loading := [], None, [], false;
    }

    /** `activeChat?._id`: undefined when no chat is active. */
    function ActiveId(): (id: Option<ChatId>)
      reads this
      ensures activeChat.None? ==> id.None?
      ensures activeChat.Some? ==> id == Some(activeChat.value.id)
    {
      if activeChat.Some? then Some(activeChat.value.id) else None
    }

    /**
     * `loadChat(chatId)`: the loading flag is raised for the call and
     * lowered in `finally`; on success the chat becomes active and its
     * messages (or none) are shown.
     */
    method LoadChat(chatId: Option<ChatId>, getChatById: Option<ChatId> -> ApiResult<ChatDetail>)
      modifies this
      ensures !loading && chats == old(chats)
      ensures getChatById(chatId).Ok? ==>
                activeChat == Some(getChatById(chatId).data) && messages == MessagesOf(getChatById(chatId).data)
      ensures getChatById(chatId).Failed? ==> activeChat == old(activeChat) && messages == old(messages)
    {
      loading := true;
      var result := getChatById(chatId);
      if result.Ok? {
        activeChat := Some(result.data);
        messages := MessagesOf(result.data);
      }
      loading := false;
    }

    /**
     * `fetchChats`: on success the list becomes the fetched one and, when it
     * is not empty, its first chat is loaded. `loaded` is the argument
     * `loadChat` was called with, or None when it was not called.
     */
    method FetchChats(getAllChats: ApiResult<seq<ListEntry>>,
                      getChatById: Option<ChatId> -> ApiResult<ChatDetail>) returns (loaded: Option<Option<ChatId>>)
      modifies this
      ensures loaded.Some? <==> getAllChats.Ok? && |getAllChats.data| > 0
      ensures loaded.Some? ==> loaded.value == getAllChats.data[0].id
      ensures getAllChats.Ok? ==> chats == getAllChats.data
      ensures getAllChats.Failed? ==> chats == old(chats)
      ensures loaded.None? ==> activeChat == old(activeChat) && messages == old(messages) && loading == old(loading)
      ensures loaded.Some? ==> !loading
      ensures loaded.Some? && getChatById(loaded.value).Ok? ==>
                activeChat == Some(getChatById(loaded.value).data) && messages == MessagesOf(getChatById(loaded.value).data)
      ensures loaded.Some? && getChatById(loaded.value).Failed? ==>
                activeChat == old(activeChat) && messages == old(messages)
    {
      loaded := None;
      if getAllChats.Failed? {
        return;
      }
      chats := getAllChats.data;
      if |getAllChats.data| > 0 {
        loaded := Some(getAllChats.data[0].id);
        LoadChat(getAllChats.data[0].id, getChatById);
      }
    }

    /**
     * `handleNewChat`: the `/new` response goes in front of the list, the
     * rest keeps its order, and `loadChat(newChat._id)` follows, with the
     * `_id` that response does not have.
     */
    method HandleNewChat(createNewChat: ApiResult<NewChatReply>,
                         getChatById: Option<ChatId> -> ApiResult<ChatDetail>) returns (loaded: Option<Option<ChatId>>)
      modifies this
      ensures createNewChat.Ok? ==>
                && chats == [AsListEntry(createNewChat.data)] + old(chats)
                && loaded == Some(AsListEntry(createNewChat.data).id)
      ensures createNewChat.Failed? ==>
                && chats == old(chats) && activeChat == old(activeChat) && messages == old(messages)
                && loading == old(loading) && loaded.None?
      ensures loaded.Some? ==> !loading
      ensures loaded.Some? && getChatById(loaded.value).Ok? ==>
                activeChat == Some(getChatById(loaded.value).data) && messages == MessagesOf(getChatById(loaded.value).data)
      ensures loaded.Some? && getChatById(loaded.value).Failed? ==>
                activeChat == old(activeChat) && messages == old(messages)
    {
      loaded := None;
      if createNewChat.Failed? {
        return;
      }
      var entry := AsListEntry(createNewChat.data);
      chats := [entry] + chats;
      loaded := Some(entry.id);
      LoadChat(entry.id, getChatById);
    }

    /**
     * `handleSendMessage(text)`: nothing happens without an active chat or
     * with white-space-only text; otherwise the response is appended to the
     * thread as one item. `called` says whether the API was called.
     */
    method HandleSendMessage(text: string, sendMessage: (ChatId, string) -> ApiResult<SendReply>)
      returns (called: bool)
      modifies this
      ensures called <==> activeChat.Some? && Trim(text) != ""
      ensures chats == old(chats) && activeChat == old(activeChat) && loading == old(loading)
      ensures called && sendMessage(activeChat.value.id, text).Ok? ==>
                var r := sendMessage(activeChat.value.id, text).data;
                messages == old(messages) + [SendResult(r.chatId, r.reply)]
      ensures !(called && sendMessage(activeChat.value.id, text).Ok?) ==> messages == old(messages)
    {
      called := false;
      if activeChat.None? || Trim(text) == "" {
        return;
      }
      called := true;
      var result := sendMessage(activeChat.value.id, text);
      if result.Ok? {
        messages := messages + [SendResult(result.data.chatId, result.data.reply)];
      }
    }

    /**
     * `handleDeleteChat(chatId)`: after the API call succeeds, entries with
     * that `_id` leave the list; the active chat and the thread are cleared
     * only when `activeChat?._id === chatId`.
     */
    method HandleDeleteChat(chatId: Option<ChatId>, deleteChat: Option<ChatId> -> ApiResult<()>)
      modifies this
      ensures deleteChat(chatId).Ok? ==> chats == RemoveId(old(chats), chatId)
      ensures deleteChat(chatId).Ok? && old(ActiveId()) == chatId ==> activeChat.None? && messages == []
      ensures !(deleteChat(chatId).Ok? && old(ActiveId()) == chatId) ==>
                activeChat == old(activeChat) && messages == old(messages)
      ensures deleteChat(chatId).Failed? ==> chats == old(chats)
      ensures loading == old(loading)
    {
      var result := deleteChat(chatId);
      if result.Failed? {
        return;
      }
      chats := RemoveId(chats, chatId);
      if ActiveId() == chatId {
        activeChat := None;
        messages := [];
      }
    }
  }

  /** After a send the thread ends in the response object, which has no role, so "typing..." is not shown. */
  lemma NoTypingIndicatorAfterSend(messages: seq<Entry>, r: SendReply)
    ensures !ChatWindow.ShowTypingIndicator(messages + [SendResult(r.chatId, r.reply)])
  {
  }
}
