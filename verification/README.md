# Chat client lifecycle — a Dafny model

This project models the core of a browser chat client: the top-level chat page that
keeps the list of conversation sessions and drives one WebSocket conversation at a
time, the chat area (input box, send rules, indicators) and the history sidebar
(ordering and row markers), together with the shared record types.

The page is a pure reducer, `ChatPage.Step(state, event)`. It returns the next state
and the socket requests the page makes. The state record holds:

- `sessions`;
- `viewedId` (the page's `currentSessionId`);
- `pending` (the page's `pendingMessage`);
- `loading` (the page's `isBotLoading`);
- `socket` (the handle held in `socketRef`);
- the header's `region` and `language`.

Events are:

- a user send, which carries the socket's ready state, fresh UUIDs, the new socket's
  handle and the time;
- session selection;
- an inbound frame tagged with the socket it came from;
- a socket error or close tagged the same way;
- a header change.

Outbound traffic is a list of `Open`, `Transmit` and `CloseSocket` requests.

Modules, leaves first:

- `ChatTypes` (`types.dfy`): regions, languages, senders, messages and sessions, with
  their wire tags.
- `JsText` (`js_text.dfy`): `String.prototype.trim` over the ECMAScript whitespace set,
  and `substring(0, n)`.
- `SessionOrder` (`session_order.dfy`): the sidebar's comparator, with the live session
  first and then newest first. The page's own comparator is this one with no live
  session. Sorting is a stable insertion sort, as `Array.prototype.sort` is stable.
- `SessionStore` (`session_store.dfy`): the page's list edits. These are find by id,
  append a message to the session with an id, rename the temporary session, and insert
  a new session, each followed by the page's re-sort where the page re-sorts.
- `ChatPage` (`chat_page.dfy`): the reducer and its invariants.
- `ChatArea` (`chat_area.dfy`) and `HistoryPanel` (`history_panel.dfy`): the two view
  components. Each is a function of its props.
- `Scenarios` (`scenarios.dfy`): whole conversations run through the reducer, and the
  points where the page meets the components.

## Model

| member | source | states |
|---|---|---|
| `ChatTypes.ParseRegionTag` | src/lib/types.ts:15 | A session region is exactly one of West, Ontario, Atlantic, Quebec or 'none'; a tag reads back only to the region it is the tag of. |
| `ChatTypes.ParseLanguageTag` | src/lib/types.ts:3 | A language is exactly 'en' or 'fr'; no other tag reads back. |
| `ChatTypes.ParseSenderTag` | src/lib/types.ts:7 | A sender is exactly 'user' or 'bot'; no other tag reads back. |
| `ChatTypes.TagsRoundTrip` | src/lib/types.ts:2-16 | Every region, language and sender survives writing out its tag and reading it back. |
| `ChatTypes.BotMessageId` | src/app/page.tsx:133 | A bot message always gets an id from one of its two sources, the server's question id or the fresh client id. It is never empty when the fresh id is not, so an empty question id is never used. A present, non-empty question id always wins. |
| `JsText.Trim` | src/components/chat/ChatArea.tsx:30-31 | The trimmed text is the piece of the draft starting at its first non-whitespace character, with only whitespace before and after it. It neither starts nor ends with whitespace. |
| `JsText.TrimEmptyIff` | src/components/chat/ChatArea.tsx:30 | A draft trims to empty exactly when it is all whitespace. |
| `JsText.TrimIdempotent` | src/components/chat/ChatArea.tsx:31 | The text handed over is already trimmed: trimming again changes nothing. |
| `JsText.IsWhitespace` | src/components/chat/ChatArea.tsx:30 | No contract of its own: the ECMAScript WhiteSpace and LineTerminator code points that `trim` removes. `JsText.Trim` and `JsText.TrimEmptyIff` state trimming in terms of it. |
| `JsText.Prefix` | src/app/page.tsx:257 | `substring(0, n)` keeps the whole text when it is at most `n` long and exactly its first `n` characters otherwise. Characters are code points (see Left out). |
| `SessionOrder.CompareIsTotalPreorder` | src/components/chat/HistoryPanel.tsx:21-23 | The comparator is consistent: any two sessions compare one way or the other, the order is transitive, and swapping the arguments negates the result. |
| `SessionOrder.Compare` | src/components/chat/HistoryPanel.tsx:19-23 | No contract of its own. `SessionOrder.CompareIsTotalPreorder` states that it is a consistent order, and `SessionOrder.SortedViewOrder` states the order it produces. |
| `SessionOrder.Sort` | src/components/chat/HistoryPanel.tsx:19-24 | The sorted view is a permutation of the input and is ordered by the comparator. |
| `SessionOrder.PinnedComesFirst` | src/components/chat/HistoryPanel.tsx:21-22 | If any session is the live one, the sorted view starts with a live session. |
| `SessionOrder.SortedViewOrder` | src/components/chat/HistoryPanel.tsx:21-23 | Live sessions form a prefix of the view. Among the remaining sessions, start times never increase. |
| `SessionOrder.SortOfSortedIsIdentity` | src/app/page.tsx:120 | Re-sorting a list that is already newest first moves nothing, because the sort is stable. |
| `SessionOrder.InsertSplices` | src/app/page.tsx:260 | Inserting into the sorted list splices the new session in at one position. The other sessions keep their relative order. |
| `SessionStore.IndexOf` | src/app/page.tsx:56 | The index found holds the first session with the id. When nothing is found, no session has the id. |
| `SessionStore.Find` | src/app/page.tsx:208 | `find` yields a session exactly when one has the id, and that session comes from the list. With unique ids it is that session. |
| `SessionStore.AppendWhere` | src/app/page.tsx:138-144 | The mapped append adds `m` to the end of every session with the id. Every other session is left as it was, and the length is unchanged. |
| `SessionStore.AppendTouchesOnlyTarget` | src/app/page.tsx:224-230 | With unique ids, appending changes exactly one session, the one with the id, or nothing when the id is absent. |
| `SessionStore.AppendKeepsShape` | src/app/page.tsx:138-144 | Appending keeps every session's id and start time, so the newest-first order and id uniqueness survive without a re-sort. |
| `SessionStore.RenameWhere` | src/app/page.tsx:116-119 | The rename gives every session with the temporary id the server id and the pending region and language. Its messages, start time and title are kept, and every other session is unchanged. |
| `SessionStore.RenameSession` | src/app/page.tsx:116-120 | After the rename and re-sort, the list has the same length, is newest first, and holds the renamed sessions. |
| `SessionStore.RenameInPlace` | src/app/page.tsx:116-120 | On a newest-first list the re-sort after a rename moves nothing: the result is the rename alone, and every position keeps its messages. |
| `SessionStore.RenameTouchesOnlyTarget` | src/app/page.tsx:116-119 | With unique ids, only the temporary session changes, in place. A server id not yet in use keeps the ids unique, and there is never a window with both ids. |
| `SessionStore.InsertSession` | src/app/page.tsx:260 | The new list has one more session. It is newest first and is the old sessions plus the new one. |
| `SessionStore.InsertInPlace` | src/app/page.tsx:260 | On a newest-first list the new session is spliced in by start time and every other session is unchanged. A fresh id keeps ids unique. |
| `SessionStore.SortedFrom` | src/components/chat/HistoryPanel.tsx:19 | The sorted copy has an id exactly when the input has it. |
| `SessionStore.SortKeepsUniqueIds` | src/components/chat/HistoryPanel.tsx:19 | Sorting a copy with unique ids gives unique ids. |
| `ChatPage.Title` | src/app/page.tsx:257 | The title is the text when it has at most 30 characters. Otherwise it is the first 30 characters followed by "...". It never exceeds 33 characters and is empty only for an empty text. Characters are code points (see Left out). |
| `ChatPage.ViewedSession` | src/app/page.tsx:208 | The viewed session is a session of the list under the viewed id, or none when no session has that id. |
| `ChatPage.CurrentMessages` | src/app/page.tsx:54-58 | The chat area shows no messages when the viewed id is absent or empty (falsy) or names no session. Any messages it shows are those of a session under the viewed id. With unique ids and a non-empty viewed id they are exactly that session's messages. |
| `ChatPage.NothingViewed` | src/app/page.tsx:55 | No contract of its own: the page's falsy test on the viewed id, which treats the empty string like no id. `ChatPage.CurrentMessages` and `ChatPage.AutoSelect` state what follows from it. |
| `ChatPage.NewSession` | src/app/page.tsx:244-258 | No contract of its own. `ChatPage.NewConversation` states what the new session holds and where it lands, and `Scenarios.SentTextIsTitled` states its title. |
| `ChatPage.OnSend` | src/app/page.tsx:205-267 | A send always sets loading. Continuing sends exactly one request on the current socket. Otherwise a new socket is opened last and becomes the current one. |
| `ChatPage.OnSelect` | src/app/page.tsx:64-72 | Selection views the id only when some session has it, and changes nothing else. |
| `ChatPage.OnFrame` | src/app/page.tsx:100-161 | A frame never changes the socket reference, the header or the number of sessions. Whatever it sends goes back to the socket it came from, and it never opens a socket. |
| `ChatPage.OnSocketError` | src/app/page.tsx:164-172 | After an error, nothing is loading and nothing is pending. The socket reference never names the failed socket, and a reference to another socket survives. Sessions, viewed id and header are untouched. |
| `ChatPage.ErrorThenCloseSettles` | src/app/page.tsx:164-190 | When a socket's error is followed by its close, the close finds nothing left to change. |
| `ChatPage.OnSocketClosed` | src/app/page.tsx:174-190 | A close stops loading. It drops the pending question and the socket reference exactly when the closing socket is the current one. |
| `ChatPage.Step` | src/app/page.tsx:64-281 | Selection and header changes send nothing. Only a user send opens a socket. |
| `ChatPage.Newest` | src/app/page.tsx:76-79 | The latest session id exists exactly when there are sessions. It belongs to a session whose start time no other session exceeds. |
| `ChatPage.Init` | src/app/page.tsx:41-52 | The first render shows the seed sessions newest first, with the newest one viewed. Nothing is pending, there is no socket, and the header has no region and English. |
| `ChatPage.AutoSelect` | src/app/page.tsx:74-82 | When nothing is viewed (no id, or the empty id) and sessions exist, the effect views the id of a session whose start time no other session exceeds. Otherwise the state is unchanged, and only the viewed id can ever change. |
| `ChatPage.StepKeepsOrder` | src/app/page.tsx:116-260 | Every event leaves the session list sorted by start time, newest first. |
| `ChatPage.StepKeepsUniqueIds` | src/app/page.tsx:116-260 | Every event keeps session ids unique, given that the temporary UUID and the server's conversation id are not already in use. |
| `ChatPage.StepKeepsHistory` | src/app/page.tsx:116-260 | On a newest-first list, which every step keeps, every old session lives on at its own position. Positions keep their relative order, so no session is dropped or merged into another. Start time and title are kept, and old messages stay a prefix of the new ones. The id is kept unless it is the pending temporary id that the server renames. |
| `ChatPage.SendOpensSocketIffNewConversation` | src/app/page.tsx:210-266 | A send opens a new socket exactly when it cannot continue. Continuing needs the current socket open and a viewed session that exists and already has a bot message. |
| `ChatPage.CanContinue` | src/app/page.tsx:210-214 | No contract of its own. `ChatPage.SendOpensSocketIffNewConversation` states that it decides between the two send paths, and `ChatPage.ContinueConversation` and `ChatPage.NewConversation` state each path. |
| `ChatPage.NewConversation` | src/app/page.tsx:236-265 | The new path adds exactly one session, with the fresh id, one user message and the header's region and language. It is spliced in by start time and every prior session is unchanged. It becomes the viewed session and its question is held as pending. An open socket is sent Close and closed before the new one opens. |
| `ChatPage.ContinueConversation` | src/app/page.tsx:217-234 | The continue path appends the user message to the viewed session only. It sends one question with that session's region on the current socket, and leaves pending, viewed id and socket alone. |
| `ChatPage.InitiateRenamesTemporarySession` | src/app/page.tsx:114-128 | With a question pending, only the temporary session changes: it gets the server id and the pending region and language, and keeps its messages. The server id becomes the viewed id. Exactly one question goes out, carrying the pending text and region. Pending is emptied, and loading and socket are unchanged. When the server id is not yet in use, the list stays newest first with unique ids. |
| `ChatPage.InitiateWithoutPendingCloses` | src/app/page.tsx:107-112 | With nothing pending, the only changes are that loading stops and the socket that sent the frame is closed. |
| `ChatPage.HasPendingQuestion` | src/app/page.tsx:107 | No contract of its own. `ChatPage.InitiateRenamesTemporarySession` and `ChatPage.InitiateWithoutPendingCloses` state the two outcomes it selects. |
| `ChatPage.AnswerAppendsToViewedSession` | src/app/page.tsx:130-145 | An answer appends exactly one bot message to the end of the viewed session. Its id is the question id, or a fresh id. Other sessions and earlier messages are unchanged, loading stops, and nothing is sent. |
| `ChatPage.ErrorFramesClearPending` | src/app/page.tsx:147-161 | An Error frame or a parse failure only stops loading and drops the pending question. A frame of any other type changes nothing. |
| `ChatPage.StaleSocketEvents` | src/app/page.tsx:164-190 | Error and close from a superseded socket leave sessions, viewed id and the socket reference alone. A superseded close also keeps the pending question, while an error drops it either way. |
| `ChatPage.StaleFramesAreNotDiscarded` | src/app/page.tsx:100-145 | Frames carry no check against the current socket, so an answer from a superseded socket still changes the viewed session. |
| `ChatPage.SelectionViewsKnownSession` | src/app/page.tsx:64-72 | Selecting views the id exactly when a session has it, changes nothing else and sends nothing. |
| `ChatPage.HeaderChangeOnlyRecords` | src/app/page.tsx:275-281 | A region or language change only records the header choice. |
| `ChatPage.SendWhileConnectingReplacesPending` | src/app/page.tsx:236-263 | A send that cannot continue the viewed session while a question is pending starts another conversation. The pending question is replaced, and the earlier sessions stay in the list. When the old socket is open, a close request goes out first and the new socket is opened last. |
| `ChatArea.HandleSend` | src/components/chat/ChatArea.tsx:29-34 | A send fires exactly when the input is enabled and the draft is not all whitespace. It hands over the trimmed, non-empty text and empties the draft; otherwise the draft stays. |
| `ChatArea.HandleKeyPress` | src/components/chat/ChatArea.tsx:36-41 | Enter without Shift on an enabled input performs the send action. Any other key, Shift+Enter, or a disabled input sends nothing and keeps the draft. |
| `ChatArea.DraftAfterDisabledChange` | src/components/chat/ChatArea.tsx:53-57 | Disabling the input empties the draft, so even once the input is enabled again a send fires nothing until new text is typed. |
| `ChatArea.ButtonEnabledIffSendFires` | src/components/chat/ChatArea.tsx:105-110 | The field is disabled exactly when the input is disabled or loading. The button is enabled exactly when a click would fire a send and nothing is loading. |
| `ChatArea.PlaceholderAndLabels` | src/components/chat/ChatArea.tsx:103-115 | The placeholder is "Viewing historical chat..." exactly when the input is disabled, and otherwise the en or fr prompt. The button reads "Send" exactly in English. |
| `ChatArea.Indicators` | src/components/chat/ChatArea.tsx:63-94 | "Bot is typing..." shows exactly while loading with a user message last, and "Connecting to chat..." exactly while loading with no messages; never both. The historical notice shows exactly with no messages, a disabled input and no loading. |
| `ChatArea.Render` | src/components/chat/ChatArea.tsx:63-115 | No contract of its own. `ChatArea.ButtonEnabledIffSendFires`, `ChatArea.PlaceholderAndLabels` and `ChatArea.Indicators` state every field of the view. |
| `HistoryPanel.Label` | src/components/chat/HistoryPanel.tsx:56 | A row label is never empty. A non-empty title is shown as it is, and an empty title reads "Untitled Chat". |
| `HistoryPanel.RowFor` | src/components/chat/HistoryPanel.tsx:40-56 | No contract of its own. `HistoryPanel.AtMostOneLiveOneSelected` states its live and selected markers, and `HistoryPanel.PanelRows` states its id and caption. |
| `HistoryPanel.Render` | src/components/chat/HistoryPanel.tsx:19-56 | No contract of its own. `HistoryPanel.PanelRows`, `HistoryPanel.PanelOrder` and `HistoryPanel.LiveRowFirst` state its rows and their order. |
| `HistoryPanel.SortedSessions` | src/components/chat/HistoryPanel.tsx:19-24 | The panel shows a sorted permutation of a copy of the sessions. |
| `HistoryPanel.Click` | src/components/chat/HistoryPanel.tsx:52 | No contract of its own. `HistoryPanel.PanelRows` states that every click names a session of the list, and `Scenarios.ClickingARowViewsIt` states that dispatching it views that session. |
| `HistoryPanel.PanelRows` | src/components/chat/HistoryPanel.tsx:32-56 | An empty list shows the empty state and no rows. Otherwise there is one row per session, in sorted order. Every click names a session of the list, and an empty title reads "Untitled Chat". |
| `HistoryPanel.PanelOrder` | src/components/chat/HistoryPanel.tsx:19-23 | Live rows come first. Among rows that are both live or both not live, start times never increase. |
| `HistoryPanel.LiveRowFirst` | src/components/chat/HistoryPanel.tsx:21-22 | When the live id belongs to a session, the first row is live. |
| `HistoryPanel.AtMostOneLiveOneSelected` | src/components/chat/HistoryPanel.tsx:41-42 | Live and selected are exact id matches, so with unique ids at most one row is live and at most one is selected. |
| `HistoryPanel.NoLiveSessionKeepsPageOrder` | src/components/chat/HistoryPanel.tsx:19-23 | With no live id, the panel shows a newest-first list exactly as the page keeps it. |
| `Scenarios.HelloConversation` | src/app/page.tsx:100-267 | "Hello" on an empty page creates the session titled "Hello". After "c1" the session is renamed and the question sent. After answer "q1" the session has exactly the user and bot messages in order, and the input is enabled again. |
| `Scenarios.AnswerFollowsTheViewedSession` | src/app/page.tsx:138-144 | When a historical session is viewed, an answer lands on that session, not on the live one. |
| `Scenarios.SeedOpensOnNewestSession` | src/app/page.tsx:14-47 | The two seed sessions are shown newest first, and the Quebec one is viewed. |
| `Scenarios.SentTextIsTitled` | src/app/page.tsx:257 | Any text the chat area hands over starts a session whose title is non-empty and at most 33 characters. The history shows that title, never "Untitled Chat". |
| `Scenarios.ClickingARowViewsIt` | src/components/chat/HistoryPanel.tsx:52 | Clicking any history row and dispatching the selection views that row's session. |
| `Scenarios.EmptyConversationIdShowsNothing` | src/app/page.tsx:55 | A server that names the conversation "" leaves the page viewing the empty id. The page treats that id as nothing viewed, so the chat area shows no messages even though the renamed session holds the user's message, and the auto-select effect, which views the newest session, selects that same empty id again. |

## Left out

- WebSocket construction, URL building and the `onopen` log (src/app/page.tsx:85-98)
  are out. A new conversation's socket appears as an `Open(h)` request with a handle
  supplied by the event. `readyState` is the `socketOpen` field of a send event.
- `JSON.parse` and `JSON.stringify` are out. Inbound frames are the `Frame` datatype, and
  `Malformed` stands for a parse failure or a handler that throws. Outbound frames are
  the `Request` datatype.
- The unmount cleanup (src/app/page.tsx:193-203) is out, because it runs only when the
  page is torn down.
- React scheduling and closure capture are out. The socket handlers read
  `pendingMessage` and `currentSessionId` as captured at the render that created them,
  which is before the send's own updates. The model reads the current state instead. In
  the source as written, the first conversation's `InitiateConversationResponse` sees no
  pending message and closes the socket. An answer lands on the session that was viewed
  before the send. That first socket's close handler also captured no pending message
  (src/app/page.tsx:181-186), so the first question is never cleared. The next
  conversation's socket then captures that first question, and its
  `InitiateConversationResponse` renames the first temporary session and re-sends the
  first question (src/app/page.tsx:114-127).
- Toasts, console logging, the history toggle, scrolling (src/components/chat/ChatArea.tsx:43-50),
  date formatting, HeaderBar, MessageBubble and LogoIcon are pure presentation and are
  out. An Error frame's code and message feed only a toast.
- A close event's code and `wasClean` only guard a commented-out toast, so the model's
  close event has neither.
- `uuidv4` and `new Date()` are out. Fresh ids and timestamps are fields of the events,
  and freshness is a precondition of `ChatPage.StepKeepsUniqueIds`.
- The page does not pass `isInputDisabled` to ChatArea or `activeLiveSessionId` to
  HistoryPanel. Both components are modelled as functions of these props. As wired,
  they are undefined, which is the same as `false` and no live id.
- `ChatPage.Title`: counts one character per Unicode code point, whereas JavaScript's
  `length` and `substring` count UTF-16 code units. Text outside the Basic Multilingual
  Plane is cut at a different place: for 16 emoji (32 code units) the source keeps 15
  emoji and adds "...", while the model keeps all 16 and adds nothing.
- `JsText.Prefix`: takes its first n code points, not its first n UTF-16 code units,
  for the same reason. `JsText.Trim` is unaffected, because every ECMAScript whitespace
  character lies in the Basic Multilingual Plane.
- Session and message `Date | string` fields are integer timestamps.
- The code does not do the following, and neither does the model:
  - a region or language change does not remove an empty session or force a reconnect;
  - a send while connecting is not rejected (see `ChatPage.SendWhileConnectingReplacesPending`);
  - frames from a superseded socket are not discarded (see `ChatPage.StaleFramesAreNotDiscarded`);
  - an answer goes to the viewed session rather than the live one
    (see `Scenarios.AnswerFollowsTheViewedSession`).
- `ChatPage.StepKeepsUniqueIds` needs the server's `conversation_id` not to be in use
  already. The source does not check this, so a server that repeats an id yields
  duplicate ids.
- Socket handles come from the send event, and no precondition makes a new handle
  differ from earlier ones. The source's `new WebSocket` always makes a distinct socket.
  `ChatPage.StaleSocketEvents` reads "superseded" as a handle other than the current one.
- `ChatPage.Init` does not promise unique ids for the seed. The source's seed has two
  distinct UUIDs.
