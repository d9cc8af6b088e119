# Chat screen decision and scroll logic

This project models the logic inside the `Chat` screen component of the Zulip
mobile client (`src/chat/Chat.js`). Everything else in that file is markup or
store wiring. The model covers four pieces:

- **Scroll handling.** The message list calls `handleMessageListScroll` on
  every scroll. The handler filters the visible message ids down to the
  unread ones. If the `markMessagesRead` callback is present and something is
  unread, it hands that list first to `markMessagesRead` and then to
  `queueMarkAsRead`. It then records the distance from the bottom of the list
  in the `scrollOffset` field and calls `registerAppActivity`.
- **List panels.** `render` picks which of the empty-conversation panel, the
  loading indicator and the message list appear. The choice depends on the
  message count, the two fetch flags and `needsInitialFetch`.
- **Subscription checks.** `isSubscribed` and `showSubscribeButton` look up
  the narrow's first operand by name in the subscription and stream lists.
- **Compose area.** The area below the list is hidden, a compose box, or a
  not-subscribed notice.

Files:

- `chat_types.dfy` (module `ChatTypes`): the props, the scroll event, the
  helper functions and the emitted calls.
- `array_find.dfy` (module `ArrayFind`): JavaScript's `Array.prototype.find`.
- `chat_screen.dfy` (module `ChatScreen`): the pure decisions, the `Chat`
  class and the lemmas about the scroll handler's call log.

The imported helpers are fields of the `Helpers` datatype. They are total
functions with no body in the model: `filterUnreadMessageIds`, `countUnread`,
`canSendToNarrow` and `isStreamOrTopicNarrow`. `Auth`, `Flags` and `ReadIds`
are abstract types.

The three outgoing calls are not run. `Chat.calls` records them in order:
`markMessagesRead`, `queueMarkAsRead(auth, ids)` and
`registerAppActivity(auth)`.

Some expressions throw in JavaScript. The model gives these an `Outcome`,
either `Returned(v)` or `Threw`:

- `narrow[0].operand` on an empty narrow. It is read inside the `find`
  callback, so it throws only when the searched list is non-empty.
- `.invite_only` read on the `undefined` that `find` returns when no stream
  matches.

Behaviour of the code worth stating on its own:

- `needsInitialFetch` only hides the empty-conversation panel. With it set,
  no messages and no fetch in flight, no panel renders at all. With
  messages, the list renders (`VisiblePanels`,
  `InitialFetchOnlySuppressesEmptyPanel`).
- When no stream matches the narrow, `showSubscribeButton` reads a property
  of `undefined` and throws. It has no fallback value (`ShowSubscribeButton`).
- The visible ids are coerced with unary plus and passed to the unread
  filter without de-duplication.
- `Chat.js` itself does no retry, de-duplication, backoff or throttling. Per
  scroll it calls `queueMarkAsRead` at most once, only inside the
  read-marking branch, and `registerAppActivity` exactly once. Whatever those
  two imported helpers do internally is not modelled (see "Left out").

## Model

| member | source | states |
|---|---|---|
| `ArrayFind.Find` | src/chat/Chat.js:66-72 | `find` gives nothing exactly when no element satisfies the predicate. Otherwise it gives the element at the first index that does, and every earlier element fails. |
| `ArrayFind.FindIsAtFirstMatch` | src/chat/Chat.js:72 | If some index matches and no earlier one does, `find` returns the element at that index. So the result is fully determined by its contract. |
| `ChatScreen.ListViewFlags` | src/chat/Chat.js:78-80 | `showMessageList` holds exactly when there are messages. Exactly one of `noMessages`, `noMessagesButLoading` and `showMessageList` holds. Together the first two hold exactly when the count is zero. `noMessages` means no fetch is in flight. `noMessagesButLoading` means some fetch is. |
| `ChatScreen.VisiblePanels` | src/chat/Chat.js:92-94 | The empty panel shows exactly when there is no initial fetch pending, no messages and no fetch in flight. The loading indicator shows exactly when there are no messages and some fetch is in flight, whatever `needsInitialFetch` is. The list shows exactly when there are messages. At most one panel shows. None shows exactly when an initial fetch is pending, there are no messages and no fetch is in flight. |
| `ChatScreen.InitialFetchOnlySuppressesEmptyPanel` | src/chat/Chat.js:92-94 | Toggling `needsInitialFetch` changes neither the loading indicator nor the message list. With it set, the empty panel never shows. |
| `ChatScreen.IsSubscribed` | src/chat/Chat.js:63-68 | True for every narrow that is not a stream or topic narrow. For a stream or topic narrow with a first element, true iff some subscription's name equals that element's operand. With no subscriptions, false. It throws exactly for an empty stream or topic narrow searched over a non-empty list. |
| `ChatScreen.ShowSubscribeButton` | src/chat/Chat.js:70-73 | It returns a value exactly when the narrow has a first element and some stream carries its operand as name. The value is the negated `invite_only` of the first such stream, so the trailing `or false` of the source has no effect. Otherwise it throws. |
| `ChatScreen.ComposeAreaFor` | src/chat/Chat.js:98-102 | Hidden whenever `canSendToNarrow` is false, and `isSubscribed` is then not evaluated. The compose box shows iff sending is allowed and the user is subscribed. The not-subscribed notice, carrying the narrow, shows iff sending is allowed and the user is not subscribed. It throws exactly when `isSubscribed` throws. |
| `ChatScreen.RenderScreen` | src/chat/Chat.js:77-102 | Render throws exactly when the compose decision throws. Otherwise: the panels are exactly those of `VisiblePanels` for the message count, fetch flags and `needsInitialFetch`, so the list shows iff there are messages. The compose area is exactly the `ComposeAreaFor` result, so it is hidden iff sending is not allowed. The unread notice gets the recorded scroll offset, `countUnread` over the message ids, and `canSendToNarrow`. The offline notice shows iff offline. |
| `ChatScreen.MessageIds` | src/chat/Chat.js:81 | `messages.map(msg => msg.id)` keeps the length and takes the id at each position. |
| `ChatScreen.UnreadOnScroll` | src/chat/Chat.js:49-50 | Defines the unread list of one scroll: the unread filter applied to the visible ids and the props' flags. The unary-plus coercion is the identity on integer ids. |
| `ChatScreen.MarksRead` | src/chat/Chat.js:52 | Defines the guard of the read-marking branch: the `markMessagesRead` callback is present and the unread list is non-empty. |
| `ChatScreen.ScrollCalls` | src/chat/Chat.js:52-60 | The calls one scroll emits, in order. There are three when the read-marking branch is taken and one otherwise, and the last is always `registerAppActivity(auth)`. |
| `ChatScreen.ScrollLog` | src/chat/Chat.js:47-61 | Defines the calls a series of handler invocations emits: the concatenation of each event's `ScrollCalls`, in order. |
| `ChatScreen.ScrollLogLength` | src/chat/Chat.js:47-61 | A series' log holds one call per event plus two per event that takes the read-marking branch. When the series is non-empty, the log ends with an activity call. |
| `ChatScreen.CountKindAppend` | src/chat/Chat.js:47-61 | Counting calls of one kind adds up over concatenated call logs. |
| `ChatScreen.ScrollCallsCount` | src/chat/Chat.js:50-60 | One scroll event emits one `registerAppActivity`. It emits one `markMessagesRead` and one `queueMarkAsRead` if the callback is present and the unread list is non-empty, and none otherwise. |
| `ChatScreen.ScrollCallsSpec` | src/chat/Chat.js:50-60 | Per scroll event: each read-marking call is made exactly once when the branch is taken and not at all otherwise. When taken, `markMessagesRead` comes first and `queueMarkAsRead` second, both with the unread list. `registerAppActivity(auth)` is made exactly once and is the last call. |
| `ChatScreen.ScrollLogCounts` | src/chat/Chat.js:47-61 | Over any series of scroll events, `registerAppActivity` is called once per event. `markMessagesRead` and `queueMarkAsRead` are each called once per event that takes the read-marking branch. |
| `ChatScreen.Chat.constructor` | src/chat/Chat.js:31 | A new screen starts with `scrollOffset` 0, the given props and no calls emitted. |
| `ChatScreen.Chat.HandleMessageListScroll` | src/chat/Chat.js:47-61 | After the handler, `scrollOffset` is content height − content offset − layout height, whether or not anything was unread. The call log is the old log extended by exactly the calls of `ScrollCalls`. Only these two fields may change. |
| `ChatScreen.ScrollThenRender` | src/chat/Chat.js:58 | On a fresh screen, a scroll with content height 1000, offset 700 and layout height 200 gives a rendered notice offset of 100. Activity is then registered exactly once. |
| `ChatScreen.ScrollSeries` | src/chat/Chat.js:47-61 | A fresh screen that receives a series of scroll events one after another keeps its props. Its own call log equals `ScrollLog` of the series. So it has registered activity once per event, and each read-marking call was made once per event that took the branch. Its `scrollOffset` is that of the last event, or 0 for no events. |

## Left out

- The JSX markup is not modelled because it is presentation: `WrapperView`, the `Platform.OS` choice, `ActionSheetProvider`, styles from the context, and how `UnreadNotice`, `OfflineNotice`, `NoMessages`, `MessageListLoading`, `MessageList`, `ComposeBox` and `NotSubscribed` draw themselves. `RenderScreen` keeps only the values render passes to them.
- The `connect` mapping from the store to props (lines 108-124) is store plumbing with no logic. Props are a parameter.
- The helper bodies are not modelled because their source is not part of this model: `filterUnreadMessageIds`, `countUnread`, `canSendToNarrow`, `isStreamOrTopicNarrow`, `registerAppActivity` and `queueMarkAsRead`. The modules `src/utils/narrow`, `src/utils/unread`, `src/utils/activity` and `src/api` are not part of this model.
- The internals of `queueMarkAsRead` and `registerAppActivity` are not modelled because their bodies are not part of this model. That covers network delivery, and any queueing, retry, backoff, de-duplication or throttling they may do. `Chat.js` itself does none of these: it makes each call directly, and the model records the call.
- Floating-point layout measurements and the `+x` coercion of visible ids are not modelled. Ids and measurements are integers, so the coercion is the identity, and NaN and string ids are not represented.
- React's prop updates between events are not modelled. `ScrollLog`, `ScrollLogCounts` and `ScrollSeries` fix one set of props for a whole series of events.
- `NotSubscribed` receives the `showSubscribeButton` function itself, not its result, so render never evaluates it. `ComposeArea.NotSubscribed` carries only the narrow.
