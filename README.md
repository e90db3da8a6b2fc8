# AI chat application — a Dafny model

This project models the core of a small AI chat application: an Express
backend that registers and logs in users, keeps each user's chats in a
document store and forwards a conversation to a hosted language model, and a
React frontend that lists the chats, shows one thread grouped by date and
lets the user compose and send messages.

The model is split by source file:

- `ai_service.dfy` (`AiService`) — `getAIResponse`: the last ten messages of
  a chat behind the fixed system prompt, sent to the model
  `HuggingFaceH4/zephyr-7b-beta:featherless-ai`; the first choice's text is
  the reply, and any failure or an answer with no choices gives the fixed
  apology. The hosted model is a function parameter (`provider`).
- `chat_routes.dfy` (`ChatRoutes`) — the chat routes `/new`, `/send`,
  `/all`, `GET /:chatId` and `DELETE /:chatId` as methods of a `ChatStore`
  class whose map of chats the methods update. Ids come from a counter and
  `createdAt`/`updatedAt` from a logical clock that ticks on every create
  and every save (a delete stamps nothing).
- `auth_routes.dfy` (`AuthRoutes`) — `/signup` as a method of a `UserTable`
  class holding the user list, and `/login` and `/me` as functions of that
  list. Password hashing, password comparison and token signing are
  function parameters.
- `chat_window.dfy` (`ChatWindow`) — time and date labels, grouping a
  thread into runs of messages with the same date label, the avatar rule and
  the "typing..." indicator.
- `chat_page.dfy` (`ChatPage`) — the page's state (`chats`, `activeChat`,
  `messages`, `loading`) as a `Page` class, with `fetchChats`, `loadChat`,
  `handleNewChat`, `handleSendMessage` and `handleDeleteChat` as methods.
  The API calls are function parameters returning `Ok(data)` or `Failed`.
- `sidebar.dfy` (`Sidebar`) — avatar colour, relative date label, title and
  initial fallbacks, and the single pending delete confirmation (a
  `DeleteConfirm` class).
- `chat_input.dfy` (`ChatInput`) — the composer (a `Composer` class holding
  the text, the typing flag and the list of texts handed to `sendMessage`),
  the character counter and the textarea height.
- `client_data.dfy` (`ClientData`) — the shapes of the JSON the frontend
  receives; `js.dfy` (`Js`) — the JavaScript string and array primitives
  the code relies on (`trim`, `substring`, `slice` with a negative start);
  `wrappers.dfy` — `Option`.

Frontend behaviour is modelled as written. Two consequences are stated in
the contracts rather than corrected:

- `handleNewChat` prepends the `/new` response `{chatId, title}` to the list
  and calls `loadChat(newChat._id)`. That response has no `_id`, so the new
  list entry has no id and `loadChat` is called with `undefined`
  (`ChatPage.Page.HandleNewChat`).
- `handleSendMessage` appends the `/send` response `{chatId, reply}` itself
  to the thread. That item has no `role`, so it is neither a user nor an
  assistant message (`ChatPage.NoTypingIndicatorAfterSend`).

`/send` with no chat id, or with one that is not the caller's, creates the
chat first and saves the exchange afterwards. If that save fails, the new
empty chat stays in the store. The code is followed here, not the stronger
"no partial persistence" reading: `ChatRoutes.ChatStore.Send` states that
after a failed save the store holds the old chats plus the freshly created
empty chat.

## Model

| member | source | states |
|---|---|---|
| Js.Prefix | backend/routes/chatRoutes.js:64 | `substring(0, n)`: a prefix of the string of length min(length, n) |
| Js.SliceFromEnd | backend/aiService.js:11 | `slice(-n)` is the last min(n, length) elements |
| Js.SliceFrom | backend/aiService.js:11 | `slice(start)` is a suffix of the array, never longer than it |
| Js.Trim | frontend/src/components/ChatInput.jsx:28 | `trim()` keeps an infix of the string; everything cut off at either end is white space and the kept part neither starts nor ends with it |
| Js.TrimEmptyIffBlank | frontend/src/components/ChatInput.jsx:28 | `text.trim()` is empty exactly when every character of the text is ECMAScript white space |
| AiService.RecentMessages | backend/aiService.js:11 | the window is the last min(10, n) messages of the chat, in order |
| AiService.BuildRequest | backend/aiService.js:13-22 | the request names the fixed model and carries the system prompt followed by exactly the recent window |
| AiService.GetAIResponse | backend/aiService.js:8-29 | the reply is either the fallback sentence or a text the model returned for the request built from the window; it never fails |
| AiService.GatewayReply | backend/aiService.js:8-29 | a failed call or an answer with no choices gives the fallback sentence; otherwise the reply is the first choice's text |
| AiService.OlderHistoryIgnored | backend/aiService.js:11 | with ten or more messages, messages older than the last ten do not change the request, so the reply, which depends on the request alone, is the same |
| AiService.LastEntryForwarded | backend/aiService.js:11-22 | the newest message of the chat is always the last message of the request |
| ChatRoutes.FindOwned | backend/routes/chatRoutes.js:92-95 | a chat is found exactly when it exists and its owner is the caller, and then it is that chat |
| ChatRoutes.AutoTitle | backend/routes/chatRoutes.js:63-65 | only the title changes: a "New Chat" title becomes the message's prefix of length min(length, 30); any other title stays |
| ChatRoutes.Exchange | backend/routes/chatRoutes.js:48-65 | one exchange appends exactly the user message then the assistant reply to the earlier messages, keeps ids, owner and timestamps, and sets the title to the first 30 characters exactly when it was "New Chat" |
| ChatRoutes.Converse | backend/routes/chatRoutes.js:48-65 | the reply is the gateway's answer for the log ending in the new user message, and the chat is the one-exchange update with that reply |
| ChatRoutes.ChatStore.constructor | backend/routes/chatRoutes.js:13-16 | an empty store that gives new chats the schema's default title |
| ChatRoutes.ChatStore.Create | backend/routes/chatRoutes.js:13-16 | inserts one empty chat owned by the caller under a new id and changes nothing else |
| ChatRoutes.ChatStore.New | backend/routes/chatRoutes.js:11-25 | adds exactly one empty chat owned by the caller and answers 201 with its id and title |
| ChatRoutes.ChatStore.Resolve | backend/routes/chatRoutes.js:33-45 | continues with the caller's chat when the id is given and found for the caller, else creates and stores a new chat |
| ChatRoutes.ChatStore.Save | backend/routes/chatRoutes.js:67 | writes the chat back under its id with a new `updatedAt` and changes no other chat |
| ChatRoutes.ChatStore.Send | backend/routes/chatRoutes.js:27-76 | on success the resolved chat is replaced by its one-exchange update and 200 carries its id and the reply; on a failed save the answer is 500 and only a chat created at step 1 remains |
| ChatRoutes.ChatStore.All | backend/routes/chatRoutes.js:78-88 | exactly the caller's chats, each once, as id/title/createdAt summaries, most recently updated first |
| ChatRoutes.ChatStore.Get | backend/routes/chatRoutes.js:90-105 | the whole chat with 200 when it exists and is the caller's, otherwise 404 "Chat not found" |
| ChatRoutes.ChatStore.Delete | backend/routes/chatRoutes.js:107-122 | removes the caller's chat with that id and no other with 200, otherwise changes nothing and answers 404 |
| ChatRoutes.ChatStore.OwnedByRecency | backend/routes/chatRoutes.js:80-82 | the query and sort: every chat of the caller exactly once, each as stored, in descending `updatedAt` |
| ChatRoutes.InsertByRecency | backend/routes/chatRoutes.js:82 | inserting into a list ordered by descending `updatedAt` keeps it ordered, and the result holds the old list's chats plus that chat, as a multiset |
| ChatRoutes.InsertKeepsIdsDistinct | backend/routes/chatRoutes.js:80-82 | inserting a chat with a new id keeps the ids of the list distinct |
| ChatRoutes.NoLeakAcrossOwners | backend/routes/chatRoutes.js:92-95 | what a caller gets for any id depends only on that caller's own chats |
| ChatRoutes.FallbackIsRecorded | backend/routes/chatRoutes.js:54-60 | when the model call fails, the stored assistant message is the fallback sentence |
| ChatRoutes.ModelSeesNewMessage | backend/routes/chatRoutes.js:48-54 | the model is asked with a request that ends in the new user message |
| ChatRoutes.TitleSetOnce | backend/routes/chatRoutes.js:63-65 | after the first exchange retitles a "New Chat", a later exchange keeps that title |
| AuthRoutes.FindFirst | backend/routes/authRoutes.js:14 | the first user in table order that matches the query, or none exactly when no user matches |
| AuthRoutes.FindByEmail | backend/routes/authRoutes.js:14 | finds a user with that email exactly when one exists |
| AuthRoutes.FindById | backend/routes/authRoutes.js:89 | finds a user with that id exactly when one exists |
| AuthRoutes.Login | backend/routes/authRoutes.js:51-85 | 200 exactly when the email is known and the password matches its hash, then with the token for that user and the public profile; every other case is 400 "Invalid credentials" |
| AuthRoutes.CurrentUser | backend/routes/authRoutes.js:87-94 | always 200; the public profile of the caller when that user exists, null otherwise |
| AuthRoutes.UserTable.constructor | backend/routes/authRoutes.js:9-49 | an empty user table |
| AuthRoutes.UserTable.Signup | backend/routes/authRoutes.js:9-49 | a known email gives 400 "User already exists" and no change; otherwise one user with the hashed password is appended and 201 carries the token and the public profile |
| AuthRoutes.FindFirstAppend | backend/routes/authRoutes.js:14 | appending a user changes a lookup only when nothing earlier matched, and then finds the new user exactly when it matches |
| AuthRoutes.FindByEmailAppend | backend/routes/authRoutes.js:14 | appending a user changes an email lookup only for that user's email |
| AuthRoutes.SignupThenLogin | backend/routes/authRoutes.js:24-81 | after a signup with a new email, logging in with that email and password succeeds for that user |
| AuthRoutes.LoginDoesNotEnumerate | backend/routes/authRoutes.js:56-65 | an unknown email and a known email with a wrong password give the same answer |
| ChatWindow.FormatTime | frontend/src/components/ChatWindow.jsx:16-20 | no timestamp gives the empty label, otherwise the clock label of the timestamp |
| ChatWindow.FormatDate | frontend/src/components/ChatWindow.jsx:23-37 | no timestamp gives the empty label, otherwise the day label of the timestamp |
| ChatWindow.Tag | frontend/src/components/ChatWindow.jsx:44-52 | each message paired with its index in the thread |
| ChatWindow.FlattenSnoc | frontend/src/components/ChatWindow.jsx:40-56 | reading the groups back in order is compositional |
| ChatWindow.StartGroup | frontend/src/components/ChatWindow.jsx:47-52 | a message whose key differs from the last group's opens a new group, keeping the read-back, keyed and maximal-run properties |
| ChatWindow.ExtendGroup | frontend/src/components/ChatWindow.jsx:47-52 | a message whose key equals the last group's joins it, keeping the same three properties |
| ChatWindow.GroupMessagesByDate | frontend/src/components/ChatWindow.jsx:40-56 | the groups read back in order give every message with its index exactly once, each group holds messages of one date label, neighbouring groups differ in label, and there are no groups exactly when there are no messages |
| ChatWindow.IsSameSender | frontend/src/components/ChatWindow.jsx:59-62 | false without a previous message; otherwise true exactly for two stored messages with the same role or two role-less send responses |
| ChatWindow.AvatarWhereSenderChanges | frontend/src/components/ChatWindow.jsx:129-130 | an avatar is shown for the first message of a group and wherever the role differs from the previous message |
| ChatWindow.ShowTypingIndicator | frontend/src/components/ChatWindow.jsx:269 | "typing..." shows exactly when the last item is a message with role "user" |
| ChatPage.RemoveId | frontend/src/pages/ChatPage.jsx:89 | keeps exactly the entries whose id differs, in order |
| ChatPage.RemoveIdConcat | frontend/src/pages/ChatPage.jsx:89 | the filter works piecewise on concatenated lists |
| ChatPage.RemoveAbsentId | frontend/src/pages/ChatPage.jsx:89 | deleting an id no entry has leaves the list unchanged |
| ChatPage.Page.constructor | frontend/src/pages/ChatPage.jsx:14-17 | no chats, no active chat, no messages, not loading |
| ChatPage.Page.ActiveId | frontend/src/pages/ChatPage.jsx:91 | the active chat's id, undefined when none is active |
| ChatPage.Page.LoadChat | frontend/src/pages/ChatPage.jsx:43-55 | on success the fetched chat becomes active with its messages (none when absent); on failure both stay; loading ends false |
| ChatPage.Page.FetchChats | frontend/src/pages/ChatPage.jsx:27-38 | on success the list becomes the fetched list and the first chat is loaded exactly when the list is not empty, after which loading is off and the loaded chat (if it was fetched) is active with its messages; on failure nothing changes |
| ChatPage.Page.HandleNewChat | frontend/src/pages/ChatPage.jsx:59-68 | on success the response is put in front of the list and `loadChat` is called with its (missing) `_id`, after which loading is off and the fetched chat, if any, is active with its messages; on failure nothing changes |
| ChatPage.Page.HandleSendMessage | frontend/src/pages/ChatPage.jsx:72-82 | the API is called exactly when a chat is active and the text is not blank; on success the response is appended to the thread, otherwise the thread is unchanged |
| ChatPage.Page.HandleDeleteChat | frontend/src/pages/ChatPage.jsx:86-99 | after a successful delete the entries with that id leave the list, and the thread is cleared exactly when the deleted chat was active; on failure nothing changes |
| ChatPage.NoTypingIndicatorAfterSend | frontend/src/pages/ChatPage.jsx:77-78 | once the send response is appended the thread does not show "typing..." |
| Sidebar.FirstCodeUnit | frontend/src/components/Sidebar.jsx:41 | `charCodeAt(0)`: the character itself below U+10000; above, the high surrogate, the unique unit in U+D800..U+DBFF whose block of 0x400 characters holds it |
| Sidebar.AvatarIndex | frontend/src/components/Sidebar.jsx:41 | index 0 for a missing or empty title, else the first code unit mod 8 |
| Sidebar.AvatarColor | frontend/src/components/Sidebar.jsx:30-43 | always one of the eight gradients |
| Sidebar.SameInitialSameColor | frontend/src/components/Sidebar.jsx:41 | titles with the same first character get the same colour |
| Sidebar.FormatDate | frontend/src/components/Sidebar.jsx:12-27 | the label's kind is the one `BucketOf` picks for the distance (time of day, "Yesterday", weekday, month and day); every label but "Yesterday" formats the date itself |
| Sidebar.BucketOf | frontend/src/components/Sidebar.jsx:12-27 | time of day under one day apart, "Yesterday" from one to two days, weekday up to seven days, month and day beyond |
| Sidebar.FutureLikePast | frontend/src/components/Sidebar.jsx:15 | a date d ahead is labelled like a date d behind |
| Sidebar.ShownDate | frontend/src/components/Sidebar.jsx:178 | the date shown is `createdAt`, else `updatedAt`, else now |
| Sidebar.UndatedEntryShowsTime | frontend/src/components/Sidebar.jsx:178 | an entry with no dates shows the current time of day |
| Sidebar.DisplayTitle | frontend/src/components/Sidebar.jsx:172 | the title, or "New Chat" when missing or empty; never empty |
| Sidebar.UpperAscii | frontend/src/components/Sidebar.jsx:159 | upper-cases a to z and leaves every other character alone |
| Sidebar.Initial | frontend/src/components/Sidebar.jsx:159 | one character: the upper-cased first character of the title, or "N" when missing or empty |
| Sidebar.InitialMatchesShownTitle | frontend/src/components/Sidebar.jsx:159-172 | the initial is the upper-cased first character of the title actually shown |
| Sidebar.DeleteConfirm.constructor | frontend/src/components/Sidebar.jsx:10 | no confirmation is pending |
| Sidebar.DeleteConfirm.AskDelete | frontend/src/components/Sidebar.jsx:217-221 | the asked entry, and every entry with the same id, is the one pending |
| Sidebar.DeleteConfirm.Confirm | frontend/src/components/Sidebar.jsx:198-202 | deletes the pending entry's id and clears the confirmation |
| Sidebar.DeleteConfirm.Cancel | frontend/src/components/Sidebar.jsx:209 | clears the confirmation |
| ChatInput.SendDisabled | frontend/src/components/ChatInput.jsx:216 | the send button is disabled exactly when the text is blank |
| ChatInput.CounterBadge | frontend/src/components/ChatInput.jsx:162-166 | hidden exactly for empty text; otherwise length/4000, red above 3500, yellow above 2000, indigo below |
| ChatInput.TextareaHeight | frontend/src/components/ChatInput.jsx:12 | the content height, capped at 120 |
| ChatInput.Composer.constructor | frontend/src/components/ChatInput.jsx:4-5 | empty text, not typing, nothing sent |
| ChatInput.Composer.HandleTypingStart | frontend/src/components/ChatInput.jsx:16-20 | typing becomes true; text and sent list unchanged |
| ChatInput.Composer.OnChange | frontend/src/components/ChatInput.jsx:106-109 | the text becomes the input's value and typing starts |
| ChatInput.Composer.UsePrompt | frontend/src/components/ChatInput.jsx:62-65 | a quick prompt replaces the text without starting typing |
| ChatInput.Composer.HandleSend | frontend/src/components/ChatInput.jsx:27-34 | blank text changes nothing; otherwise the text is sent once and cleared |
| ChatInput.Composer.HandleKeyDown | frontend/src/components/ChatInput.jsx:36-41 | Enter without Shift is prevented and sends; any other key changes nothing |

## Left out

- The hosted model's network call and the client construction with its API key (backend/aiService.js:3-6): the model is the `provider` parameter, and a thrown error is its `Failure` answer.
- The document database: queries, `.sort`, ObjectId generation and automatic timestamps are the map, the id counter and the logical clock of `ChatStore`. Ties in `updatedAt` are left in any order, as the database leaves them.
- Database failures other than the save in `/send`: a failing create in `/new` or `/send`, a failing lookup, and a malformed chat id (a cast error answered with 500) are not modelled; neither are the 500 answers of `/signup`, `/login` and `/me` when the database or the hashing library throws.
- ChatRoutes.ChatStore.Send: `message` is always a string; a request without one is not modelled.
- The password hash with its generated salt and 10 rounds, the hash comparison and the token signing with the server secret are parameters (`salt`, `hash`, `compare`, `sign`); the token's issue time is part of `sign`.
- The authentication middleware and server setup: the caller's id is an argument of every route.
- The hosted model is a function: the same request always gets the same answer. The real model may answer the same request differently on two calls.
- Concurrent requests: each route runs alone, so two `/send` calls on one chat cannot interleave.
- ChatPage.Page.LoadChat: the intermediate `loading = true` state seen during the request is not stated, only the final state.
- ChatPage.Page.FetchChats: `loadChat` is not awaited in the source; the model runs it to completion before returning.
- ChatPage.Page.HandleNewChat: `loadChat` is not awaited in the source either; the model runs it to completion before returning.
- Error logging to the console in every handler.
- Locale formatting of times and dates: the labels are parameters (`clockLabel`, `dayLabel`) or carry the date they format.
- Sidebar.BucketOf: an unparsable date string (an invalid `Date`) is not modelled; dates are milliseconds.
- Sidebar.Initial: `charAt(0)` gives the first UTF-16 code unit, so a title starting above U+FFFF shows its lone high surrogate; the model shows the whole character, since a Dafny character cannot hold a lone surrogate.
- Sidebar.UpperAscii: upper-cases only a to z, not the full Unicode case mapping of `toUpperCase`.
- Js.Prefix: counts code points, not UTF-16 code units as `substring` does; titles differ only for characters above U+FFFF.
- ChatInput.CounterBadge: `text.length` is counted in code points, not UTF-16 code units.
- `handleTypingEnd` and its one-second timer in the composer: timers are not modelled.
- Rendering: auto-scroll, the sidebar toggle, focus handling, the chat count badge and all styling.
