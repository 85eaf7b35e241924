# Chat synchronisation layer of tencent-im-chat, modelled in Dafny

This project models the client-side synchronisation layer of a browser chat
client that delegates messaging to a vendor instant-messaging SDK:

- **Types** (`types.dfy`): message element kinds and their SDK tags, message
  directions, message statuses, session statuses, and the `Conversation`,
  `Message`, `User`, `LoginConfig` and `StreamChunk` records. `outcomes.dfy`
  holds `Option` (for `null`/`undefined`), `Result` and the error kinds that
  stand for the thrown errors.
- **Gateway** (`tim_service.dfy`, module `TimService`): the process-wide SDK
  handle and its initialisation flag (class `Gateway`); `initTIM` with its
  idempotence guard; `login`, `logout`, the read paths that degrade to empty
  results and `sendTextMessage` that raises; the pure normalisers for
  provider conversations and pushed messages (with the JavaScript `||`
  fallbacks, where an empty string counts as absent); the three listener
  arrays with append-only subscription and first-occurrence removal; and the
  fan-out loops that deliver pushes to listeners in registration order.
  Every SDK call is replaced by a `Reply` value (a result code and data, or a
  rejection) passed in; listeners are opaque `HandlerId`s and a fan-out
  returns the log of deliveries it made.
- **Chat store** (`chat_store.dfy`, module `Chat`): the per-conversation
  message map, the selected conversation, the conversation list, the status
  and the login flag (class `ChatStore`). Each state-changing method's
  new state is given exactly, by an effect function on the `ChatState` value
  or inline; `initListeners` changes the gateway's listener lists, not the
  store. Gateway outcomes (the readiness flag, the
  conversation list, a history page, the send/login/logout outcome) and the
  two `Date.now()` readings of a send are parameters.
- **User store** (`user_store.dfy`, module `Users`): the current user and
  the login configuration with their setters and `clearUser`.

Where the code departs from its evident intent, the model follows the code:

- `initListeners` subscribes its three handlers again on every call; nothing
  makes the registration idempotent.
- `getMessageList` without an SDK instance returns a page whose `isCompleted`
  is absent; only the error path marks the page complete.
- The gateway's `logout` ignores the provider's result code: only a rejected
  call raises.
- `getConversationList` reads `conv.userProfile.nickName` without an
  optional chain, so one conversation without a profile makes the whole
  result empty; the push normaliser uses optional chaining and names such a
  conversation "Unknown".
- A history message is outgoing exactly when its sender is the literal
  string `"user"`, not the signed-in user id.
- The store's `login` loads the conversations only if the SDK already
  reports itself ready at that moment.
- `sendMessage` settles the first entry whose id equals the temporary id. If
  an earlier entry carries the same id (two sends in one millisecond), that
  entry is the one settled; `Chat.SendSettlesOwnEntry` states the case of a
  fresh id.

## Model

| member | source | states |
|---|---|---|
| `Types.ParseMessageType` | tencent-im-chat/src/types/index.ts:2-10 | a string is the tag of exactly one of the five element kinds or of none, so the five tags are pairwise distinct |
| `Types.ParseDirection` | tencent-im-chat/src/types/index.ts:13-18 | a direction is exactly `sent` or `received`, with distinct tags |
| `Types.ParseMessageStatus` | tencent-im-chat/src/types/index.ts:41 | a message status is exactly `sending`, `sent` or `failed`, with distinct tags |
| `TimService.TextOrEmpty` | tencent-im-chat/src/services/timService.ts:205 | `text \|\| ''`: an absent text becomes the empty string, a present one is kept |
| `TimService.DisplayName` | tencent-im-chat/src/services/timService.ts:218 | the name is the non-empty nickname, else the non-empty user id, else "Unknown"; it is never empty |
| `TimService.NormaliseConversation` | tencent-im-chat/src/services/timService.ts:89-97 | id, type and unread count are copied; the name follows the fallback; the last message defaults to "" and its time to 0 (also when a last message has no time), so both are always present |
| `TimService.ReceivedMessage` | tencent-im-chat/src/services/timService.ts:199-209 | a pushed message is always `received` and `sent`, has no streaming flag, content "" when the payload has no text, and keeps id, conversation, sender, recipient, kind and time |
| `TimService.IndexOf` | tencent-im-chat/src/services/timService.ts:248 | the result is -1 exactly when the handler is absent, otherwise the first position holding it |
| `TimService.RemoveFirst` | tencent-im-chat/src/services/timService.ts:247-252 | an absent handler leaves the list unchanged; a present one shortens it by one |
| `TimService.RemoveFirstCount` | tencent-im-chat/src/services/timService.ts:258-263 | unsubscribing removes exactly one registration of the handler and no other |
| `TimService.RemoveFirstKeepsOrder` | tencent-im-chat/src/services/timService.ts:269-274 | the removed registration is the first one; the registrations before and after it stay in order |
| `TimService.OffUndoesOn` | tencent-im-chat/src/services/timService.ts:243-252 | subscribing a new handler and unsubscribing it restores the list |
| `TimService.OffRemovesEarliest` | tencent-im-chat/src/services/timService.ts:247-252 | with an earlier registration present, unsubscribing removes that one and keeps the newest |
| `TimService.Broadcast` | tencent-im-chat/src/services/timService.ts:229 | a broadcast makes one delivery per registration, the j-th to the j-th listener |
| `TimService.FanOut` | tencent-im-chat/src/services/timService.ts:198-211 | a push of n messages to m listeners makes n * m deliveries |
| `TimService.FanOutAt` | tencent-im-chat/src/services/timService.ts:198-211 | message i reaches listener j at position i * m + j: message order first, then registration order |
| `TimService.RegisteredTwiceCalledTwice` | tencent-im-chat/src/services/timService.ts:243-245 | a handler registered twice more is called twice more per event (no deduplication) |
| `TimService.Deliver` | tencent-im-chat/src/services/timService.ts:210 | the `forEach` loop produces exactly the broadcast |
| `TimService.Gateway.constructor` | tencent-im-chat/src/services/timService.ts:6-12 | no handle, not initialised, no bindings, three empty listener lists |
| `TimService.Gateway.InitTIM` | tencent-im-chat/src/services/timService.ts:15-41 | once initialised, later calls return the existing handle and bind nothing again; the first call creates the handle for the configured application id and binds the five SDK callbacks |
| `TimService.Gateway.Login` | tencent-im-chat/src/services/timService.ts:44-64 | creates the handle only when none exists; sends the configured user id and signature; succeeds exactly when the provider answers with code 0; a non-zero code or a rejection raises |
| `TimService.Gateway.Logout` | tencent-im-chat/src/services/timService.ts:67-77 | without a handle it succeeds; otherwise it raises exactly when the provider rejects |
| `TimService.Gateway.GetConversationList` | tencent-im-chat/src/services/timService.ts:80-102 | never raises: [] without a handle, on a provider error or when a profile is missing; otherwise the normalised list, same length and order |
| `TimService.Gateway.GetMessageList` | tencent-im-chat/src/services/timService.ts:105-128 | without a handle nothing is requested and the page is empty with no completion flag; otherwise 20 messages are requested for the conversation at the caller's cursor; a provider error gives an empty page marked complete, success the provider's page; it never raises |
| `TimService.Gateway.GetUserProfile` | tencent-im-chat/src/services/timService.ts:172-193 | without a handle nothing is requested and the result is []; otherwise the caller's user ids are requested; never raises: [] on error, otherwise one user per profile with the same id, nickname and avatar |
| `TimService.Gateway.SendTextMessage` | tencent-im-chat/src/services/timService.ts:131-169 | without a handle nothing is requested and it raises; otherwise a one-to-one text message for the recipient with the text is requested; it raises on rejection or a non-zero code; on success the message has the sent text, direction `sent`, status `sent`, and the SDK message's id, conversation, sender, recipient, kind and time |
| `TimService.Gateway.IsTIMReady` | tencent-im-chat/src/services/timService.ts:277-279 | ready only when initialised and the SDK reports ready; because the handle is stored before the flag is set, a ready gateway always has a handle |
| `TimService.ReadyGatewayHasInstance` | tencent-im-chat/src/services/timService.ts:131-134 | after a successful readiness check, a send always requests the message and never raises the missing-instance error: it succeeds exactly when the provider answers with code 0 |
| `TimService.Gateway.OnMessageReceived` | tencent-im-chat/src/services/timService.ts:196-212 | the delivery log is every normalised message to every message listener, message order then registration order |
| `TimService.Gateway.OnConversationListUpdated` | tencent-im-chat/src/services/timService.ts:214-225 | each conversation listener, in order, receives the normalised list, same length and order as the push |
| `TimService.Gateway.OnSdkReady` | tencent-im-chat/src/services/timService.ts:227-230 | each status listener, in order, receives `ready` |
| `TimService.Gateway.OnKickedOut` | tencent-im-chat/src/services/timService.ts:232-235 | each status listener, in order, receives `kicked_out` |
| `TimService.Gateway.OnError` | tencent-im-chat/src/services/timService.ts:237-240 | each status listener, in order, receives `error` |
| `TimService.Gateway.On` | tencent-im-chat/src/services/timService.ts:243-245 | appends the handler to its list without deduplication; the other lists and the handle are unchanged |
| `TimService.Gateway.Off` | tencent-im-chat/src/services/timService.ts:247-252 | removes the first registration of the handler from its list; the other lists are unchanged |
| `Chat.Reversed` | tencent-im-chat/src/stores/chat.ts:106 | reversing keeps the length |
| `Chat.ReversedAt` | tencent-im-chat/src/stores/chat.ts:108 | position k of the reversed page holds position len - 1 - k of the page |
| `Chat.FindMessage` | tencent-im-chat/src/stores/chat.ts:143 | -1 exactly when no entry has the id, otherwise the first position that has it |
| `Chat.FindMessageAfterUpdate` | tencent-im-chat/src/stores/chat.ts:163 | overwriting the found entry with one of the same id keeps it the first match |
| `Chat.Decimal` | tencent-im-chat/src/stores/chat.ts:120 | the spelling of a clock reading is a non-empty string of digits |
| `Chat.DecimalRoundTrip` | tencent-im-chat/src/stores/chat.ts:120 | reading the spelling back gives the clock reading |
| `Chat.TempId` | tencent-im-chat/src/stores/chat.ts:120 | a temporary id starts with `temp_` followed by digits |
| `Chat.TempIdInjective` | tencent-im-chat/src/stores/chat.ts:120 | distinct clock readings give distinct temporary ids |
| `Chat.StoreMessage` | tencent-im-chat/src/stores/chat.ts:92-102 | a history message is `sent` in direction exactly when its sender is "user", is always `sent` in status, has content "" without text, and keeps the provider's fields |
| `Chat.LoadMessagesEffect` | tencent-im-chat/src/stores/chat.ts:87-110 | a no-op when not ready; a first load sets the reversed page; a later load gives reversed page ++ old list, so the old list is a suffix and the length is the sum; other conversations and fields are unchanged |
| `Chat.SelectConversationEffect` | tencent-im-chat/src/stores/chat.ts:77-84 | sets the selection; loads only when the conversation has no list, and leaves the map unchanged otherwise |
| `Chat.LoadConversationsEffect` | tencent-im-chat/src/stores/chat.ts:64-74 | a no-op when not ready; otherwise replaces the list and selects its first entry only when the list is non-empty and nothing is selected; the auto-selected conversation's history is loaded as `Chat.SelectConversationEffect` loads it; an existing selection and every existing message list are kept |
| `Chat.LoginEffect` | tencent-im-chat/src/stores/chat.ts:32-46 | a failed gateway login is re-raised with the state unchanged; on success only the login flag changes when not ready; when ready, the store also holds the fetched list and auto-selects its first entry if nothing was selected; the status and every existing message list are kept; the only key that can be added is the auto-selected conversation's, which, if new, holds the fetched page reversed to oldest-first |
| `Chat.LogoutEffect` | tencent-im-chat/src/stores/chat.ts:49-61 | a failed gateway logout is re-raised with the state unchanged; otherwise selection, conversations and messages are cleared, status is `init` and the login flag false |
| `Chat.TempMessage` | tencent-im-chat/src/stores/chat.ts:119-129 | the optimistic entry has a `temp_` id, status `sending`, kind text, the sent text as content, direction `sent`, sender "user", the conversation as recipient, and no streaming flag |
| `Chat.OptimisticEffect` | tencent-im-chat/src/stores/chat.ts:113-135 | without a selection or readiness it raises and changes nothing; otherwise it creates the list if absent and appends exactly the optimistic entry, earlier entries and other conversations unchanged |
| `Chat.SettleEffect` | tencent-im-chat/src/stores/chat.ts:137-155 | at the first entry with the temporary id, success puts the confirmed message and failure sets status `failed` and re-raises; length and every other position are unchanged |
| `Chat.SendMessageEffect` | tencent-im-chat/src/stores/chat.ts:113-156 | the whole send: raise with no change without selection or readiness; otherwise the list grows by one and the outcome is applied at the first entry with the temporary id, every other position unchanged |
| `Chat.UpdateStreamingEffect` | tencent-im-chat/src/stores/chat.ts:159-171 | a no-op without a selection; raises when the selected conversation has no list; otherwise overwrites the content of the first message with the id in that list only, clears the streaming flag only at the end, and an unknown id changes nothing |
| `Chat.MessagePushEffect` | tencent-im-chat/src/stores/chat.ts:175-183 | a pushed message is appended to the end of its conversation's list (created if absent), other lists, the status and the login flag are untouched; when ready the conversation list is reloaded and its first entry auto-selected if nothing was selected; besides the pushed conversation, the only key that can be added is the auto-selected conversation's, which, if new, holds the fetched page reversed |
| `Chat.SelectTwiceLoadsOnce` | tencent-im-chat/src/stores/chat.ts:77-84 | selecting the same conversation again changes nothing: messages are fetched at most once |
| `Chat.LoadedAt` | tencent-im-chat/src/stores/chat.ts:105-109 | after a load, position i holds page entry len - 1 - i for i below the page length, and old entry i - len after it |
| `Chat.PaginationKeepsOldestFirst` | tencent-im-chat/src/stores/chat.ts:105-109 | a newest-first page of messages no newer than the loaded ones keeps the list oldest-to-newest |
| `Chat.PaginationKeepsIdsDistinct` | tencent-im-chat/src/stores/chat.ts:105-109 | a page of distinct ids not yet in the list keeps the list's ids distinct |
| `Chat.SendSettlesOwnEntry` | tencent-im-chat/src/stores/chat.ts:142-155 | with a fresh temporary id, the earlier entries are kept and the appended entry becomes the confirmed message or the failed optimistic one |
| `Chat.StreamPartialThenFinal` | tencent-im-chat/src/stores/chat.ts:159-171 | a partial then a final update leave the final content and the stream marked ended, everything else unchanged |
| `Chat.ChatStore.constructor` | tencent-im-chat/src/stores/chat.ts:18-22 | nothing selected, no conversations or messages, logged out, status `init` |
| `Chat.ChatStore.CurrentMessages` | tencent-im-chat/src/stores/chat.ts:26-29 | the selected conversation's list, or [] without a selection or list |
| `Chat.ChatStore.Login` | tencent-im-chat/src/stores/chat.ts:32-46 | has the effect `Chat.LoginEffect` |
| `Chat.ChatStore.Logout` | tencent-im-chat/src/stores/chat.ts:49-61 | has the effect `Chat.LogoutEffect` |
| `Chat.ChatStore.LoadConversations` | tencent-im-chat/src/stores/chat.ts:64-74 | has the effect `Chat.LoadConversationsEffect` |
| `Chat.ChatStore.SelectConversation` | tencent-im-chat/src/stores/chat.ts:77-84 | has the effect `Chat.SelectConversationEffect` |
| `Chat.ChatStore.LoadMessages` | tencent-im-chat/src/stores/chat.ts:87-110 | has the effect `Chat.LoadMessagesEffect` |
| `Chat.ChatStore.SendMessage` | tencent-im-chat/src/stores/chat.ts:113-156 | has the effect `Chat.SendMessageEffect` |
| `Chat.ChatStore.UpdateStreamingMessage` | tencent-im-chat/src/stores/chat.ts:159-171 | has the effect `Chat.UpdateStreamingEffect` |
| `Chat.ChatStore.InitListeners` | tencent-im-chat/src/stores/chat.ts:174-192 | appends one handler to each of the gateway's three listener lists, again on every call |
| `Chat.ChatStore.HandleMessagePush` | tencent-im-chat/src/stores/chat.ts:175-183 | has the effect `Chat.MessagePushEffect` |
| `Chat.ChatStore.HandleConversationPush` | tencent-im-chat/src/stores/chat.ts:185-187 | replaces the conversation list and nothing else |
| `Chat.ChatStore.HandleStatusPush` | tencent-im-chat/src/stores/chat.ts:189-191 | sets the status and nothing else |
| `Users.UserStore.constructor` | tencent-im-chat/src/stores/user.ts:6-11 | both fields start null |
| `Users.UserStore.SetUser` | tencent-im-chat/src/stores/user.ts:13-15 | sets the user and keeps the login configuration |
| `Users.UserStore.SetLoginConfig` | tencent-im-chat/src/stores/user.ts:17-23 | sets the login configuration and keeps the user |
| `Users.UserStore.ClearUser` | tencent-im-chat/src/stores/user.ts:25-28 | both fields become null whatever they held, so a second call changes nothing |

## Left out

- The SDK itself: `TIM.create`, `registerPlugin`, `setLogLevel`, `tim.on`, `createTextMessage`, `sendMessage` and `isReady` are results passed in (a fresh handle number, a `Reply`, the SDK's message object, a readiness flag); the five `tim.on` bindings are recorded as a list of events. What `createTextMessage` fills in (id, conversation id, sender, recipient, time) is the SDK's: `TimService.Gateway.SendTextMessage` records the request it makes, but does not relate the SDK's message object to that request. The upload plugin is not modelled.
- Asynchronous scheduling: every operation runs to completion. The un-awaited `selectConversation` inside `loadConversations`, the un-awaited `loadConversations` in the message handler, and a selection that changes while a send is in flight are not modelled.
- Vue reactivity and Pinia wiring are plain class fields; the store's `loading` flag, which is true only while `login` awaits, is not modelled.
- The clock: `Date.now()` readings are parameters; console logging is dropped; thrown error texts are error kinds.
- Aliasing: messages are values. In the source one pushed message object reaches every listener, so a handler registered twice pushes the same object twice, and an in-place content update shows in every alias; the model updates only the first match.
- Handler functions are opaque ids and a fan-out returns its delivery log; the store's handlers are the `Chat.ChatStore.Handle*` methods, not invoked through that log.
- The store receives gateway results as parameters; no lemma composes `Chat.ChatStore` with `TimService.Gateway`. The history cursor only shapes the request (`TimService.Gateway.GetMessageList`), so the store's `loadMessages` takes the page that request produced.
- `msg.type as MessageType` is an unchecked cast; the model's provider messages carry one of the five kinds.
- JavaScript numbers are modelled as unbounded integers; `NaN`, fractions and values beyond 2^53 are not modelled.
- `updateStreamingMessage`'s default `isEnd = false` is not modelled as a default: `Chat.UpdateStreamingEffect` and `Chat.ChatStore.UpdateStreamingMessage` take `isEnd` explicitly, and a call without it is the call with `false`.
- `cleanupListeners` (an empty body) and the router (static route configuration) are not modelled.
- `StreamChunk` is declared only; no operation of the core consumes it.
