# Pazago chat client: a verified model of its core

Pazago is a browser chat client. It talks to a hosted weather agent through a small relay. This project is a Dafny model of the client's core, with the properties each part promises proved about the model:

- **The conversation store** (`useChatStore`), modelled as the class `ChatStore.Store`. Its fields are the store's state: the conversation list, the current conversation id, the current conversation itself (a copy of a list entry), the message search result and the two loading flags. Its methods are the store's operations:
  - creating a conversation, which reuses an empty "New Chat";
  - switching, deleting and renaming;
  - searching conversations and messages, and exporting;
  - `sendMessage`. It is split at its `await`s into step methods that each state the whole new state, and a driver that runs them without interruption.
- **How the client reads the relay's stream** (module `ClientStream`). Each read is split into lines on its own. `data: ` lines are decoded into actions, and the actions are folded into the agent message's content and the loading flag. `ClientStream.Settle` is the resulting end state of a send.
- **The relay** (`POST` in `src/app/api/chat/route.ts`; module `Relay`):
  - it validates the request;
  - it opens the upstream and turns its reads into `start`, `chunk` and `complete` events through a line buffer;
  - it turns an exception into one `error` event;
  - it closes the stream in every case.
  - The stream controller is a class (`Relay.Controller`) whose methods append to its `events`.
- **The batch decoder** of the agent's line protocol (`parseMastraStream`; module `WeatherAgent`).
- **The rehydration step** `migrate` (module `Persist`), which drops near-duplicate conversations.
- **The sidebar** (module `ChatSidebar`): its filter, its rename guard, its editor state and the conversation preview.
- **The message pane's choice** between search results and the whole conversation (module `ChatContainer`).

The JavaScript string operations the code relies on are in module `Text`: `split`, `join`, `trim`, `indexOf`, `includes`, `startsWith`, `toLowerCase` and number formatting. The generic sequence filters are in `Common`. The abstract JSON value and its JavaScript truthiness, member access and string conversion are in `Json`. The possible outcomes of a `fetch`, as the code observes them, are in `Fetch`.

Two kinds of thing are parameters rather than parts of the model:

- **JSON parsing and printing.** `JSON.parse` is a function `string -> Option<Value>`, with `None` meaning it threw. `JSON.stringify` is a function `Value -> string`. The round-trip lemmas assume only what they need of these: that printing then parsing an event gives it back, and that a printed event holds no newline.
- **Fresh ids and clock readings.** These are passed in. `toLocaleString` is a function `int -> string`.

Behaviours worth knowing:

- **The relay does not always begin with `start`.** `start` is enqueued only after the upstream answers with a readable body. A failed connection, a non-ok status or a missing body gives a stream holding only the `error` event, with no `start`. `Relay.RelayShape` states this: the first event is `start` exactly when the upstream body was established.
- **The "missing body" message differs by one period.** The relay's message has a trailing period ("ReadableStream not supported."). The client's has none ("ReadableStream not supported"). The model keeps both as written.

## Model

| member | source | states |
|---|---|---|
| Chat.ShortTitle | src/hooks/use-chat-store.ts:40-43 | A first message of at most six space-separated words becomes the title unchanged. |
| Chat.GenerateTitle | src/hooks/use-chat-store.ts:40-43 | The title is the first six space-separated pieces joined by spaces; a message of more than six pieces gets a title ending in "...". |
| Chat.LongTitle | src/hooks/use-chat-store.ts:40-43 | The title of a longer message ends in "...". Its stem splits into exactly the first six words, and the message starts with that stem followed by a space. |
| Chat.OpenNewChat | src/hooks/use-chat-store.ts:80-117 | The first empty "New Chat" is reused and the list is unchanged. Otherwise a new empty "New Chat" with the given id and time is put at the front. |
| Chat.OpenKeepsUnique | src/hooks/use-chat-store.ts:100-113 | Creating a conversation under an unused id keeps ids unique. |
| Chat.FindById | src/hooks/use-chat-store.ts:120-122 | The first index holding the id, or none exactly when no conversation has it. |
| Chat.ReplaceById | src/hooks/use-chat-store.ts:254-256 | The list keeps its length; every entry with the id becomes the given conversation and every other entry is unchanged. |
| Chat.ReplaceKeepsIds | src/hooks/use-chat-store.ts:254-256 | Replacing the entry `id` by a conversation with that id keeps the length, every position's id and uniqueness. The replacement is listed and every other conversation stays. |
| Chat.StaleReplaceDuplicates | src/hooks/use-chat-store.ts:332-346 | After a switch during a send, the mapped update copies the new current conversation over the old entry. Ids stop being unique, and the conversation the reply belonged to is gone from the list. |
| Chat.RenameSpec | src/hooks/use-chat-store.ts:168-174 | Exactly the entries with the id get the new title; the ids and their uniqueness are kept. |
| Chat.RenameById | src/hooks/use-chat-store.ts:170-174 | The list keeps its length and every entry keeps its id, messages and creation time; the entries with the id carry the new title and the others keep theirs. |
| Chat.RemoveSpec | src/hooks/use-chat-store.ts:136-140 | Deleting keeps, in order, exactly the conversations with another id. |
| Chat.RemoveById | src/hooks/use-chat-store.ts:138-140 | Every conversation left was listed before and has another id. |
| Chat.UpdatesOnExchange | src/hooks/use-chat-store.ts:265-280 | With fresh ids, the status or content update touches only the user or the agent message of the exchange. |
| Chat.SetStatus | src/hooks/use-chat-store.ts:265-280 | Same length; every message keeps all its fields but its status, and the messages with the id carry the new status while the others keep theirs. |
| Chat.SetContent | src/hooks/use-chat-store.ts:331-337 | Same length; every message keeps all its fields but its content, and the messages with the id carry the new content while the others keep theirs. |
| Chat.MatchingConversationsSpec | src/hooks/use-chat-store.ts:186-195 | The search keeps, in order, exactly the conversations whose lower-cased title or any message contains the lower-cased query. |
| Chat.MatchingMessagesSpec | src/hooks/use-chat-store.ts:430-447 | The message search keeps, in order, exactly the messages whose content matches. |
| Chat.EmptyQueryMatchesAll | src/hooks/use-chat-store.ts:186-195 | The empty query matches every conversation. |
| Chat.MatchesIgnoresCase | src/hooks/use-chat-store.ts:190-192 | Matching is insensitive to the case of either side. |
| Chat.ExportLines | src/hooks/use-chat-store.ts:453-461 | With no newline in any time text or content, the text export reads back as exactly one `[time] sender: content` line per message. |
| ChatStore.Store.constructor | src/hooks/use-chat-store.ts:73-78 | The store starts empty, with no current conversation and not loading; it is consistent. |
| ChatStore.Store.CreateNewConversation | src/hooks/use-chat-store.ts:80-117 | The new list and current conversation are `OpenNewChat`'s and the search result is cleared. Consistency is kept under an unused id. |
| ChatStore.Store.SwitchConversation | src/hooks/use-chat-store.ts:119-134 | An unknown id changes nothing. Otherwise the first entry with the id becomes current, and the search result and the loading flags are cleared. |
| ChatStore.Store.DeleteConversation | src/hooks/use-chat-store.ts:136-166 | The list loses the id. Deleting the current conversation makes the first remaining one current, or none; otherwise the current one stays. Consistency is kept. |
| ChatStore.Store.RenameConversation | src/hooks/use-chat-store.ts:168-184 | The list is renamed by id, and the current copy is renamed when it has the id; the title is not trimmed. Consistency is kept. |
| ChatStore.Store.SearchConversations | src/hooks/use-chat-store.ts:186-195 | Exactly the listed conversations that match the query. |
| ChatStore.Store.SearchMessages | src/hooks/use-chat-store.ts:430-447 | No current conversation or a blank query clears the result. Otherwise the result is the matching messages of the current conversation, and nothing else changes. |
| ChatStore.Store.ExportCurrentChat | src/hooks/use-chat-store.ts:449-476 | The file handed to the download, or none without a current conversation. The text format is the message lines under `<title>.txt`; the JSON format is the serialised conversation under `<title>.json`. |
| ChatStore.Store.ReplaceCurrent | src/hooks/use-chat-store.ts:342-347 | The rebuilt current conversation replaces its list entry and becomes current. Consistency is kept when the send's conversation is still current; after a switch the ids are duplicated and the send's conversation is gone. |
| ChatStore.Store.PostExchange | src/hooks/use-chat-store.ts:241-261 | An unknown conversation leaves the state unchanged. Otherwise the exchange is posted, is current and the store is loading for the agent message. |
| ChatStore.Store.MarkUser | src/hooks/use-chat-store.ts:264-280 | The user message's status is set in the current copy and in the list. It throws exactly when there is no current conversation. |
| ChatStore.Store.ApplyChunk | src/hooks/use-chat-store.ts:315-348 | Guarded by the conversation's existence, the agent message shows the accumulated text. It throws when there is no current conversation; consistency is kept when nothing was switched. |
| ChatStore.Store.ApplyComplete | src/hooks/use-chat-store.ts:349-353 | Only the loading flags are cleared. |
| ChatStore.Store.ApplyError | src/hooks/use-chat-store.ts:354-375 | The agent message shows the error content and the loading flags are cleared. It throws when there is no current conversation. |
| ChatStore.Store.RecordFailure | src/hooks/use-chat-store.ts:383-426 | The agent message shows the apology, the flags are cleared, then the user message is marked failed. With no current conversation nothing changes. |
| ChatStore.Store.Act | src/hooks/use-chat-store.ts:313-376 | One action advances the accumulated text as `ClientStream.Step` does; on a tracked send the store then shows the stepped progress. |
| ChatStore.Store.ReadLine | src/hooks/use-chat-store.ts:309-378 | On a tracked send, one line leaves the store showing the progress folded over the line's action, if it decodes to one, with the accumulated text in step. |
| ChatStore.Store.Fail | src/hooks/use-chat-store.ts:383-426 | On a tracked send, the outer catch leaves the store showing the failure text, the user message failed and loading over. |
| ChatStore.Store.BeginSend | src/hooks/use-chat-store.ts:197-280 | A conversation is opened if none is current. The user and agent messages are appended (retitling a "New Chat") and the user message is marked delivered. From a fresh, consistent store the send is then tracked at "delivered, empty, loading". |
| ChatStore.Store.ReadChunk | src/hooks/use-chat-store.ts:307-380 | After one read, the store shows the fold of that read's line actions and keeps the accumulated text in step. |
| ChatStore.Store.ReadStream | src/hooks/use-chat-store.ts:303-381 | After all reads, the store shows the fold of every read's actions from the initial progress. |
| ChatStore.Store.SendMessage | src/hooks/use-chat-store.ts:197-427 | Run without interruption from a consistent store with fresh ids, the conversation gains the two messages as `ClientStream.Settle` describes them. Its list entry equals the current copy and the store stays consistent. |
| ChatStore.ShownListed | src/hooks/use-chat-store.ts:254-257 | Showing a send in the list keeps its entry listed and the ids unique. |
| ChatStore.ExchangeAppendsTwo | src/hooks/use-chat-store.ts:226-239 | A tracked conversation has exactly the user and the agent message appended. Its id is kept, and it is retitled from the first message only when it was "New Chat". |
| ClientStream.LineActionsBlank | src/hooks/use-chat-store.ts:310-311 | A trailing empty line (what a read ending in a newline splits into) adds no action. |
| ClientStream.LineAction | src/hooks/use-chat-store.ts:309-378 | An action comes only from a `data: ` line whose payload parses to an object whose `type` names that action (`chunk`, `complete` or `error`). |
| ClientStream.Accumulates | src/hooks/use-chat-store.ts:315-316 | The accumulated text is the concatenation of every chunk's text, whatever came between. One action's effect is `ClientStream.Step`: a chunk appends to the accumulated text and shows it, `complete` stops loading, and `error` shows its content and stops loading. |
| ClientStream.StreamingUntilTerminal | src/hooks/use-chat-store.ts:349-373 | The store is loading exactly while no `complete` or `error` has been read. |
| ClientStream.ChunksShowAccumulated | src/hooks/use-chat-store.ts:315-348 | After chunks only, the agent message shows everything accumulated. |
| ClientStream.ErrorOverwrites | src/hooks/use-chat-store.ts:354-375 | An error replaces the agent message's content and stops loading, but keeps the accumulated text. |
| ClientStream.ChunkAfterError | src/hooks/use-chat-store.ts:315-375 | A chunk after an error shows the text accumulated before the error plus the new chunk, without restarting loading. |
| ClientStream.FailureSettles | src/hooks/use-chat-store.ts:383-426 | Every thrown failure ends with the user message failed, loading stopped and an apology as the agent message. |
| ClientStream.WireActions | src/app/api/chat/route.ts:111-176 | A relay stream delivered in one read decodes to exactly the relay's events, as client actions, given that printing then parsing an event gives it back. Each event is framed by `Relay.Frame` as `data: <json>` and a blank line (route.ts:111-119). |
| ClientStream.SplitFrameIsLost | src/hooks/use-chat-store.ts:307-311 | A frame whose `data: ` prefix is cut by a read boundary produces no action: the client loses it. |
| ClientStream.HelloWorldReply | src/app/api/chat/route.ts:121-176 | The upstream lines `0:"Hello"` and `0:" world"`, cut into upstream reads anywhere, end as "Hello world" with loading stopped. This assumes the relay's output reaches the client in one read and that printing then parsing an event gives it back. |
| Relay.ForwardLines | src/app/api/chat/route.ts:132-148 | The controller gains exactly the chunk events of the lines, in order. |
| Relay.Controller.Enqueue | src/app/api/chat/route.ts:111-119 | The event is appended to the stream, which stays open. |
| Relay.Controller.Close | src/app/api/chat/route.ts:44-46 | The stream is closed and its events kept. |
| Relay.BufferedLines | src/app/api/chat/route.ts:125-130 | However the body is cut into reads, the buffer hands on exactly the complete lines of the whole body and keeps its unterminated rest. |
| Relay.Receive | src/app/api/chat/route.ts:124-149 | One read moves the buffer and the stream to their values after that read. |
| Relay.ReadLoop | src/app/api/chat/route.ts:121-149 | The read loop leaves the unterminated rest in the buffer and forwards the complete lines. |
| Relay.StreamBody | src/app/api/chat/route.ts:107-176 | An established body is relayed as `start`, its lines' chunks and `complete`; a failing read stops the relay before the leftover line. |
| Relay.StreamWeatherAgent | src/app/api/chat/route.ts:66-177 | It throws exactly the upstream's failure message, and enqueues only what the body produced. |
| Relay.Post | src/app/api/chat/route.ts:20-64 | An unreadable or null body gives status 500, and a body without a non-empty string `message` gives 400. Otherwise the response is the event stream, closed. |
| Relay.LineEventsAreChunks | src/app/api/chat/route.ts:132-148 | Forwarded lines only ever produce chunk events with truthy content. |
| Relay.ParseOtherPrefix | src/app/api/chat/route.ts:179-202 | A line with any prefix other than `0` forwards nothing. |
| Relay.ParseTextLine | src/app/api/chat/route.ts:179-192 | A `0:` line forwards its parsed payload, even when the payload holds colons. |
| Relay.ParseStreamLine | src/app/api/chat/route.ts:179-202 | A line yields a value exactly when it starts with `0:` and the rest parses, and the value is that parse. |
| Relay.LineEvent | src/app/api/chat/route.ts:133-135 | An event comes only from a non-blank line, is a chunk with truthy content, and carries the line's decoded text value. |
| Relay.SilentLines | src/app/api/chat/route.ts:133-135 | Blank lines and lines with a falsy token produce no event. |
| Relay.RelayShape | src/app/api/chat/route.ts:20-64 | Every stream is non-empty, has only chunks between its ends, and ends with one terminal event. It begins with `start` exactly when the upstream body was established, and ends with `complete` exactly when the body ended normally. |
| Relay.RelayForwardsText | src/app/api/chat/route.ts:121-176 | `0:` lines whose tokens are non-empty strings, cut into upstream reads anywhere, are relayed as `start`, one chunk per token and `complete`. A `0:""` token is falsy and forwards no chunk. |
| WeatherAgent.ParseMastraStream | src/lib/weather-agent.ts:81-116 | The loop computes `WeatherAgent.Decode`: the records and the text tokens of the trimmed lines, the tokens joined with nothing between them. |
| WeatherAgent.DecodeAppend | src/lib/weather-agent.ts:86-108 | Lines are decoded independently of each other. |
| WeatherAgent.IgnoresSurroundingSpace | src/lib/weather-agent.ts:82 | White space around the whole text changes nothing. |
| WeatherAgent.PrefixedLine | src/lib/weather-agent.ts:86-108 | How each prefix is classified: text, tool result (skipped for a `null` payload), metadata, tool call, unknown. |
| WeatherAgent.DecodeLine | src/lib/weather-agent.ts:86-108 | A line is a text token exactly when it starts with `0:` and the rest parses, the token being that parse; a line without a colon is skipped. |
| WeatherAgent.MalformedLine | src/lib/weather-agent.ts:87-107 | A line without a colon, or with a payload that does not parse, is skipped. |
| WeatherAgent.TextOfStrings | src/lib/weather-agent.ts:113 | Joining string tokens with nothing between them concatenates them. |
| WeatherAgent.AgreesWithRelay | src/app/api/chat/route.ts:179-202 | The relay and the batch decoder read the text prefix alike. |
| WeatherAgent.TextLinesDecode | src/lib/weather-agent.ts:81-116 | Newline-separated text lines give their tokens in order and no records. |
| Persist.Migrate | src/hooks/use-chat-store.ts:508-532 | A snapshot without a list is returned as is; otherwise its list is de-duplicated. |
| Persist.DedupSpec | src/hooks/use-chat-store.ts:513-528 | The result of `Persist.Dedup` is the subsequence, in order, at exactly the positions with no earlier conversation of the same title created less than a second apart. |
| Persist.KeepsFirst | src/hooks/use-chat-store.ts:513-528 | The first conversation always survives. |
| Persist.DedupHasNoNearPairs | src/hooks/use-chat-store.ts:513-528 | No two remaining conversations are near duplicates. |
| Persist.DedupKeepsDistinct | src/hooks/use-chat-store.ts:513-528 | A list without near duplicates is left alone. |
| Persist.MigrateIdempotent | src/hooks/use-chat-store.ts:508-532 | Migrating twice is migrating once. |
| Persist.DedupKeepsUnique | src/hooks/use-chat-store.ts:513-528 | Unique ids stay unique. |
| ChatSidebar.FilteredConversations | src/components/chat-sidebar.tsx:46-54 | The empty query lists everything; any other query lists exactly the matching conversations. |
| ChatSidebar.AgreesWithStoreSearch | src/components/chat-sidebar.tsx:46-54 | The sidebar's filter equals the store's search on every query, the empty one included. |
| ChatSidebar.Sidebar.Shown | src/components/chat-sidebar.tsx:46-54 | The component's `filteredConversations`: the store's conversations that match the search box's query, and all of them for an empty query. |
| ChatSidebar.ConversationPreview | src/components/chat-sidebar.tsx:70-76 | "New conversation" for an empty conversation. Otherwise the last message's content, or for content over 50 characters its first 36 followed by "...". |
| ChatSidebar.PreviewBounded | src/components/chat-sidebar.tsx:70-76 | A preview never exceeds 50 characters. |
| ChatSidebar.Sidebar.StartEditing | src/components/chat-sidebar.tsx:64-67 | The editor opens on the conversation with its current title. |
| ChatSidebar.Sidebar.SetSearchQuery | src/components/chat-sidebar.tsx:96 | The search box holds the typed query and the rename editor is untouched. |
| ChatSidebar.Sidebar.HandleRename | src/components/chat-sidebar.tsx:56-62 | A title that is blank once trimmed leaves the store unchanged. Otherwise the store renames to the trimmed title. The editor closes either way and consistency is kept. |
| ChatSidebar.RenamedTitleIsTrimmed | src/components/chat-sidebar.tsx:56-59 | A title set through the sidebar is non-blank and has no surrounding white space. |
| ChatContainer.DisplayMessages | src/components/chat-container.tsx:64-66 | A non-empty search result is shown; otherwise the current conversation's messages, or none. |
| ChatContainer.DisplayAfterSearch | src/components/chat-container.tsx:64-66 | After a message search the pane shows only messages of the current conversation. It shows all of them when the query is blank or matches nothing, and exactly the matching ones otherwise. |

## Left out

- **Browser I/O.** Storage, the URL helpers (`updateURLSearchParams`, `getConversationIdFromURL`, `updateURL`, `loadFromURL`) and `downloadFile` are not modelled: they talk to the browser, not to the store's state. `ExportCurrentChat` returns the file it would hand to the download.
- **The environment.** `generateUniqueId`, `new Date()`, `toLocaleString`, `JSON.parse` and `JSON.stringify` are parameters. Timestamps are plain integers. `updatedAt` and the events' `timestamp` field are not modelled, because nothing the model states depends on them.
- **Text.** Text is a sequence of characters. `toLowerCase` is modelled for ASCII letters only; Unicode case mapping and UTF-16 lengths are not.
- **Decoding of reads.** `TextDecoder` is taken to deliver each read's text as given.
- **Relay outbound request.** The request payload fields sent upstream and the upstream URL are not modelled: they are constants that do not affect the stream's handling. `callWeatherAgent` in src/lib/weather-agent.ts is not part of this model either.
- **Logging.** Console output is not modelled.
- **Invalid dates in migrate.** `Persist.NearDuplicate` compares creation times as integers, so the case of an invalid date (where the difference is NaN and never below 1000) does not arise.
- Json.Value: numbers are integers. Non-integer numbers, and the exponent form JavaScript's `String()` gives magnitudes of 1e21 and above, are not modelled. This touches the numeric tokens the relay forwards, the client appends and the batch decoder joins.
- ClientStream.LineAction: an `error` event's content is stored through its JavaScript string form, with "" when it is missing. The code stores the raw value, which could be a non-string.
- ChatStore.Store.SendMessage: the end state is stated only for a run that starts consistent, with fresh ids, and sees no other operation between its steps. For interleaved runs the step methods (`ApplyChunk`, `ReplaceCurrent` and the others) state each update in any state, including the duplication after a switch.
- ChatStore.Store: the model starts from the constructor. Switching, deleting, renaming, every step of a send and `SendMessage` itself (and `ChatSidebar.Sidebar.HandleRename`) require `Linked`, meaning the id field names the current copy. Creating, searching, exporting and `ApplyComplete` do not. Every operation keeps `Linked`. A reload can break it: the persisted state holds the id and the list but not the copy, and `loadFromURL` does not switch when the URL's id is already the current id. So a reloaded store can hold an id with no copy, a state the methods that require `Linked` cannot start from. Rehydration is not part of this model. Of the operations, only rename would behave differently there.
