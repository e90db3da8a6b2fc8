/**
 * The records the frontend holds, as they arrive through the API client:
 * chat-list entries, full chats, thread items, and the outcome of an awaited
 * call. Fields the JSON may lack are optional, as `undefined` is in the
 * source.
 */
module ClientData {
  import opened Wrappers

  type ChatId = nat

  /**
   * One item of the thread on screen. Loaded chats contribute stored
   * messages; after a send the page appends the `/send` response object
   * itself, which has a chat id and a reply but no role, content or
   * timestamp.
   */
  datatype Entry =
    | Stored(role: string, content: string, timestamp: Option<int>)
    | SendResult(chatId: ChatId, reply: string)

  /** `entry.role`: undefined on a send response. */
  function RoleOf(e: Entry): Option<string>
  {
    if e.Stored? then Some(e.role) else None
  }

  /** `entry.timestamp`: undefined on a send response. */
  function TimestampOf(e: Entry): Option<int>
  {
    if e.Stored? then e.timestamp else None
  }

  /**
   * One entry of the chat list. Entries from `/all` carry `_id`, `title` and
   * `createdAt`; an entry prepended after `/new` is that route's
   * `{chatId, title}` object, so its `_id` is undefined.
   */
  datatype ListEntry = ListEntry(id: Option<ChatId>, title: Option<string>,
                                 createdAt: Option<int>, updatedAt: Option<int>)

  /** The `/new` response. */
  datatype NewChatReply = NewChatReply(chatId: ChatId, title: string)

  /** The list entry the page prepends for a `/new` response: the object as it is, read through `_id`. */
  function AsListEntry(r: NewChatReply): ListEntry
  {
    ListEntry(None, Some(r.title), None, None)
  }

  /** A full chat from `GET /chat/:id`. */
  datatype ChatDetail = ChatDetail(id: ChatId, title: Option<string>, messages: Option<seq<Entry>>)

  /** The `/send` response. */
  datatype SendReply = SendReply(chatId: ChatId, reply: string)

  /** An awaited API call: the response data, or a rejected promise. */
  datatype ApiResult<T> = Ok(data: T) | Failed
}
