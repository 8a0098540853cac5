# Chat client conversation state, in Dafny

This project models the conversation state of a React chat client. The client keeps
a list of conversations, each holding an ordered list of messages, plus the id of the
active conversation. The model covers:

- how the server's room list is reconciled with the conversations held locally
  (server order first, local messages kept, local-only rooms appended), and how the
  active room is chosen after a reload;
- replacing or adding one conversation (`upsertConversation`), selecting a room
  whose history is fetched, and deleting a room (a fresh conversation takes the
  list's place when nothing is left);
- the two message updaters: pushing a message, and appending a streamed chunk to
  one message's content;
- the record constructors and normalisers that turn API payloads into these records;
- the send coordinator `onSend`. It has a re-entrancy lock and an optimistic
  temporary room, which is rewritten to the server's id once the room exists. It
  renames a placeholder title once, pushes the user message and an empty assistant
  placeholder, and streams the reply into that placeholder. A failure appends a
  fixed error marker;
- the standalone demo component `ChatUI`. It loads its list from local storage and
  supports new, delete, rename and push. It sends by streaming a canned reply token
  by token, using a whitespace-preserving split, and then clears the streaming flag.

Each list update is a pure function from one snapshot of the list to the next, in
the modules `ChatUtils`, `Messages`, `ChatRooms`, `SendMessage` and `ChatDemo`. The
state the hooks and the demo component write lives in classes whose methods apply
those functions:

- `ChatRooms.ChatStore` holds the list and the active id;
- `SendMessage.Sender` holds the input, the thinking flag, the lock and the phase of
  the suspended send;
- `ChatDemo.ChatUI` holds the demo's state.

The module `Records` holds the data model: messages, conversations, JavaScript
truthiness, and the id set of a list. The module `Text` holds the JavaScript string
operations the client uses: `trim()`, `slice(0, n)`, `String(n)`, and joining chunks.

Fresh ids (`crypto.randomUUID()`) and times (`Date.now()`) are parameters. So are
the server's responses: the room list, a room's messages, the room-creation
response, and the reply stream given as its chunks plus whether it failed.

The async `onSend` is split at its suspension points into four methods:

- `Begin` runs up to the await of the room id;
- `Resolve` continues once that id settles;
- `Chunk` handles one chunk of the reply stream;
- `Finish` runs when the stream ends or fails.

`OnSend` runs all four in a row with nothing interleaved. A call to `Begin` while the
lock is held changes nothing.

Two behaviours one might expect are not what the code does, and the model follows
the code. On a failed reload, one might expect a fresh conversation when the local
list is empty. The code (`src/Chat/hooks/useChatRooms.jsx:146-149`) returns
`normalizeChatRooms([])` in that case, which is empty, so `ChatRooms.ErrorFallback`
always leaves the list as it was. One might also expect a room's history to be
fetched once, with a fetch in progress cancelled when another room is selected.
The code does neither: a selected room is fetched and upserted every time.

A room's message history arrives as a `JsList` with three cases: missing, `null`,
or an array. `mapMessages` uses its default `[]` only for a missing history. On
`null`, `.map` throws, so `onSelectChat` ends in its `catch` and changes nothing.

## Model

| member | source | states |
|---|---|---|
| Text.LeadingWhitespace | src/Chat/hooks/useSendMessage.jsx:20 | the length of the leading whitespace `trim()` removes: every character before it is whitespace and the one at it (if any) is not |
| Text.TrailingWhitespace | src/Chat/hooks/useSendMessage.jsx:20 | the length of the trailing whitespace `trim()` removes: every character after the cut is whitespace and the one just before it (if any) is not |
| Text.Trim | src/Chat/hooks/useSendMessage.jsx:20 | the trimmed input is no longer than the input and neither starts nor ends with whitespace |
| Text.TrimIsInfix | src/ChatUI.jsx:156 | the trimmed text is an infix of the input with only whitespace on either side |
| Text.TrimEmptyIffBlank | src/Chat/hooks/useSendMessage.jsx:20-21 | the send guard `!trimmed` fires exactly when the input is all whitespace (both directions) |
| Text.Take | src/Chat/hooks/useSendMessage.jsx:33 | `slice(0, n)` is the prefix of length min(n, length) |
| Text.NatToString | src/Chat/utils/chatUtils.jsx:11 | `String(n)` is non-empty, one digit exactly for n < 10 |
| Text.NatToStringInjective | src/Chat/utils/chatUtils.jsx:11 | distinct room ids stay distinct as strings; in JavaScript this holds for ids below 2^53 only (see "## Left out") |
| ChatUtils.CreateMessage | src/Chat/utils/chatUtils.jsx:4-6 | the message has the role, content, fresh id and time, no user id, not streaming |
| ChatUtils.NormalizeRoom | src/Chat/utils/chatUtils.jsx:10-16 | the id is the printed room id, the title defaults to the placeholder, the favourite flag is the truthiness of `isFavorited`, no messages |
| ChatUtils.NormalizeChatRooms | src/Chat/utils/chatUtils.jsx:9-17 | same length and order, each room normalised |
| ChatUtils.NormalizedIds | src/Chat/utils/chatUtils.jsx:9-17 | the ids of the normalised list are exactly the printed server ids |
| ChatUtils.NormalizeKeepsIdsUnique | src/Chat/utils/chatUtils.jsx:9-17 | distinct server ids give distinct conversation ids, for ids below 2^53 (see "## Left out") |
| ChatUtils.CreateConversation | src/Chat/utils/chatUtils.jsx:19-24 | supplied options are used, otherwise the defaults: placeholder title, fresh id, no messages, not temporary |
| ChatUtils.MapMessage | src/Chat/utils/chatUtils.jsx:27-33 | id printed, role user iff `isUser` is truthy, content defaults to empty, user id carried over |
| ChatUtils.MapMessages | src/Chat/utils/chatUtils.jsx:26-34 | the history mapped one for one in order; a missing history gives no messages; it fails exactly on a `null` history |
| Messages.UpdateWhere | src/Chat/hooks/useMessages.jsx:9-16 | the list updater shape: same length, entries with the id transformed, the others untouched |
| Messages.UpdateAbsentId | src/Chat/hooks/useMessages.jsx:9-16 | an updater aimed at an id no entry has leaves the list unchanged |
| Messages.PushMessage | src/Chat/hooks/useMessages.jsx:6-19 | the returned message has the role, content and fresh id and was appended to every entry with the id; the other entries and the order are unchanged |
| Messages.AppendToContent | src/Chat/hooks/useMessages.jsx:28-32 | only messages with the id change, their content growing by the chunk; none is added, dropped or moved |
| Messages.AppendToMessage | src/Chat/hooks/useMessages.jsx:22-36 | the chunk lands in the messages with the id of the conversations with the id, and nothing else changes |
| Messages.AppendEmptyChunk | src/Chat/hooks/useMessages.jsx:22-36 | appending an empty chunk changes nothing |
| Messages.AppendToMissingMessage | src/Chat/hooks/useMessages.jsx:22-36 | a message id absent from the target conversations changes nothing |
| Messages.AppendTwice | src/Chat/hooks/useMessages.jsx:22-36 | appending c1 then c2 is appending c1 + c2 |
| Messages.AppendChunksIsConcat | src/Chat/hooks/useSendMessage.jsx:101-104 | the chunks appended in arrival order equal one append of their concatenation |
| Messages.AppendChunks | src/Chat/hooks/useSendMessage.jsx:101-104 | the chunks of the stream appended one by one in arrival order; `AppendChunksIsConcat` proves this is one append of their concatenation |
| Messages.Retitle | src/Chat/hooks/useSendMessage.jsx:86-90 | entries with the id take the title, the others are untouched |
| ChatRooms.LookupLast | src/Chat/hooks/useChatRooms.jsx:109-113 | the Map lookup is absent iff no entry has the id, and otherwise an entry of the list with that id |
| ChatRooms.LookupLastIsLast | src/Chat/hooks/useChatRooms.jsx:109-113 | the Map keeps the last entry set for a key: the lookup finds the entry with the id that no later entry shares |
| ChatRooms.LookupUnique | src/Chat/hooks/useChatRooms.jsx:109-113 | with unique ids the lookup finds the one entry with the id |
| ChatRooms.Exclude | src/Chat/hooks/useChatRooms.jsx:124 | the filter keeps exactly the entries whose id is not excluded |
| ChatRooms.ExcludeConcat | src/Chat/hooks/useChatRooms.jsx:124 | the filter distributes over concatenation, keeping relative order |
| ChatRooms.ExcludeNothing | src/Chat/hooks/useChatRooms.jsx:124 | nothing is dropped when no entry has an excluded id |
| ChatRooms.ExcludeKeepsIdsUnique | src/Chat/hooks/useChatRooms.jsx:124 | filtering keeps ids distinct |
| ChatRooms.Reconcile | src/Chat/hooks/useChatRooms.jsx:109-125 | server rooms in server order with their server fields; a room known locally takes the local messages and `isTemp` (default false); the local-only rooms follow |
| ChatRooms.MergeRoom | src/Chat/hooks/useChatRooms.jsx:112-121 | one merged server room keeps the server id, title, time and favourite flag; an unknown room is the server room unchanged; a known one takes the messages and `isTemp` (default false) of the local entry the Map keeps |
| ChatRooms.ReconcileKeepsLocalMessages | src/Chat/hooks/useChatRooms.jsx:111-125 | when the local ids are distinct, every local conversation's messages survive the reload under its id |
| ChatRooms.ReconcileKeepsIdsUnique | src/Chat/hooks/useChatRooms.jsx:112-125 | the merged list has no repeated id, so a temporary room is never duplicated |
| ChatRooms.ResolveActiveId | src/Chat/hooks/useChatRooms.jsx:128-134 | priority route id, then current id, then first entry, each only if listed; absent iff the list is empty; otherwise a listed id |
| ChatRooms.ErrorFallback | src/Chat/hooks/useChatRooms.jsx:146-149 | a failed reload leaves the list exactly as it was |
| ChatRooms.Upsert | src/Chat/hooks/useChatRooms.jsx:39-46 | a known id is replaced in place and the length kept; an unknown one is appended; the conversation is then in the list |
| ChatRooms.UpsertIdempotent | src/Chat/hooks/useChatRooms.jsx:39-46 | upserting twice is upserting once |
| ChatRooms.UpsertKeepsIdsUnique | src/Chat/hooks/useChatRooms.jsx:39-46 | upsert keeps ids distinct |
| ChatRooms.AfterDelete | src/Chat/hooks/useChatRooms.jsx:161-167 | the entries with the id are filtered out, or one fresh conversation remains if none is left; never empty |
| ChatRooms.DeleteRemovesId | src/Chat/hooks/useChatRooms.jsx:161-167 | after a delete no entry has the id, and every other entry survives |
| ChatRooms.LoadedConversation | src/Chat/hooks/useChatRooms.jsx:26-33 | the fetched room: printed id, title defaulting to the placeholder, mapped messages, no `isTemp` or favourite flag; it fails exactly when the history is `null` |
| ChatRooms.ChatStore.constructor | src/Chat/hooks/useChatRooms.jsx:8-15 | the store starts from the given list and active id |
| ChatRooms.ChatStore.UpsertConversation | src/Chat/hooks/useChatRooms.jsx:37-49 | the list becomes the upsert of the old list; the active id is kept |
| ChatRooms.ChatStore.LoadChatRooms | src/Chat/hooks/useChatRooms.jsx:88-152 | on success the list is reconciled and the active id resolved and listed, or kept when the list is empty; on failure nothing changes |
| ChatRooms.ChatStore.SelectChat | src/Chat/hooks/useChatRooms.jsx:17-85 | on success the loaded room is upserted and made active; a failed request or a `null` history changes nothing |
| ChatRooms.ChatStore.DeleteChat | src/Chat/hooks/useChatRooms.jsx:159-171 | the list after delete, and the first entry made active |
| SendMessage.TitleFrom | src/Chat/hooks/useSendMessage.jsx:33 | at most 20 characters: the input's first 20, or the placeholder title when the input is empty |
| SendMessage.TakesTempPath | src/Chat/hooks/useSendMessage.jsx:30 | the temporary-room path: on the landing route, or with no active id or an empty one |
| SendMessage.TempConversation | src/Chat/hooks/useSendMessage.jsx:31-38 | the temporary room has the temp id, is temporary and empty, and is titled from the input |
| SendMessage.Persist | src/Chat/hooks/useSendMessage.jsx:56-67 | the temporary entry takes the real id, the server's query as title if sent, and ceases to be temporary, in its slot; nothing else changes |
| SendMessage.StreamIntoIsOneAppend | src/Chat/hooks/useSendMessage.jsx:101-110 | consuming the stream is one append of its chunks joined, then the marker on failure |
| SendMessage.BeginList | src/Chat/hooks/useSendMessage.jsx:25-91 | the list after the synchronous part of `onSend`; `BeginOnTempPath` and `SendToExistingRoom` give its content on each path |
| SendMessage.SendList | src/Chat/hooks/useSendMessage.jsx:19-117 | the list after the whole of `onSend`; `SendToExistingRoom`, `SendCreatesRoom` and `SendCreationFails` give its content on each path |
| SendMessage.SendActiveId | src/Chat/hooks/useSendMessage.jsx:40-68 | the active id after `onSend`: unchanged on an existing room, the server id once created, the temporary id when creation fails |
| SendMessage.SendToExistingRoom | src/Chat/hooks/useSendMessage.jsx:19-117 | a send to an existing room: its entries gain exactly the user message and the streamed reply; the title changes only from a placeholder; the others are untouched |
| SendMessage.BeginOnTempPath | src/Chat/hooks/useSendMessage.jsx:30-82 | on the temporary path the room is added at the end with the user message and an empty placeholder |
| SendMessage.PersistAfterBegin | src/Chat/hooks/useSendMessage.jsx:56-67 | the persisted room is the temporary one under its real id and title, still at the end |
| SendMessage.SendCreatesRoom | src/Chat/hooks/useSendMessage.jsx:19-117 | a created room ends as one new entry under the server id, not temporary, with the user message and the streamed reply; the temporary id is gone |
| SendMessage.MarkerAfterBegin | src/Chat/hooks/useSendMessage.jsx:105-110 | the error marker lands in the placeholder of the temporary room |
| SendMessage.SendCreationFails | src/Chat/hooks/useSendMessage.jsx:44-110 | a failed creation keeps the temporary room with the user message and a reply holding only the marker |
| SendMessage.Sender.constructor | src/Chat/hooks/useSendMessage.jsx:3-17 | idle, unlocked, not thinking, with the given input |
| SendMessage.Sender.SetInput | src/Chat/hooks/useSendMessage.jsx:20 | the composer's text, which `onSend` reads here and clears at line 79, is set; nothing else changes |
| SendMessage.Sender.Begin | src/Chat/hooks/useSendMessage.jsx:19-93 | starts iff the trimmed input is non-empty, not thinking and unlocked; when not started nothing changes; otherwise the lock is taken, the input cleared and the list is the begun list |
| SendMessage.Sender.Start | src/Chat/hooks/useSendMessage.jsx:23-93 | past the guard: the room is opened (temporary and active on that path, otherwise the active id kept), the turn added, the lock taken, the input cleared, thinking raised, and the send waits for the room id |
| SendMessage.Sender.OpenRoom | src/Chat/hooks/useSendMessage.jsx:25-42 | the target room: a new temporary room upserted and made active, or the active room |
| SendMessage.Sender.AddTurn | src/Chat/hooks/useSendMessage.jsx:79-91 | the user message, the empty placeholder, and the placeholder-title rename are applied in that order |
| SendMessage.Sender.Resolve | src/Chat/hooks/useSendMessage.jsx:56-114 | a created room is persisted and activated and streaming begins; failure or an empty id appends the marker and releases the lock |
| SendMessage.Sender.Chunk | src/Chat/hooks/useSendMessage.jsx:101-104 | the thinking flag drops and the chunk is appended to the placeholder |
| SendMessage.Sender.Finish | src/Chat/hooks/useSendMessage.jsx:105-116 | the marker is appended on failure; the thinking flag and the lock are released |
| SendMessage.Sender.StreamReply | src/Chat/hooks/useSendMessage.jsx:101-116 | the loop appends the chunks in order, then finishes; the lock is released |
| SendMessage.Sender.OnSend | src/Chat/hooks/useSendMessage.jsx:19-118 | a guarded send changes nothing; otherwise the whole send yields the send list and the send active id, and the lock is released |
| ChatDemo.NewConversation | src/ChatUI.jsx:28-40 | one greeting from the assistant, title defaulting to "New chat" |
| ChatDemo.LoadConversations | src/ChatUI.jsx:44-55 | a saved non-empty array as is, otherwise one conversation titled "첫 번째 대화"; never empty |
| ChatDemo.FindIndex | src/ChatUI.jsx:130 | -1 iff the id is absent, otherwise the first index with it |
| ChatDemo.ActiveConv | src/ChatUI.jsx:105-108 | absent iff the list is empty; the first entry with the active id when listed, else the first entry |
| ChatDemo.RemoveAt | src/ChatUI.jsx:132-133 | the splice drops exactly the entry at the index |
| ChatDemo.RemoveFoundDropsOne | src/ChatUI.jsx:129-137 | removing the found entry drops one entry with the id and none with any other |
| ChatDemo.AddChunk | src/ChatUI.jsx:176-197 | a streaming assistant message at the end grows by the chunk, otherwise a new streaming one is appended; the result ends streaming |
| ChatDemo.Finalize | src/ChatUI.jsx:205-212 | only the last message can change, and only by losing its streaming flag |
| ChatDemo.FinalizeIdempotent | src/ChatUI.jsx:203-214 | finalizing twice is finalizing once |
| ChatDemo.ChunkInto | src/ChatUI.jsx:174-199 | the chunk updater transforms the active conversation's entries and no other |
| ChatDemo.FinalizeIn | src/ChatUI.jsx:203-214 | the finalize updater transforms the active conversation's entries and no other |
| ChatDemo.StreamMessagesIsOneReply | src/ChatUI.jsx:173-200 | streaming tokens adds exactly one streaming reply holding all the tokens in order |
| ChatDemo.StreamMessages | src/ChatUI.jsx:173-200 | a message list after the chunk updater runs once per token; `StreamMessagesIsOneReply` gives its content |
| ChatDemo.StreamList | src/ChatUI.jsx:167-200 | the list after the chunk updater runs once per token; `StreamListPointwise` reduces it to `StreamMessages` on each matching entry |
| ChatDemo.StreamListPointwise | src/ChatUI.jsx:173-200 | streaming into the list acts on each entry with the id separately |
| ChatDemo.Tokenize | src/ChatUI.jsx:393 | `split(/(\s+)/)`: odd count; words at even positions, non-empty whitespace runs at odd ones; only the end words may be empty |
| ChatDemo.TokenizeConcat | src/ChatUI.jsx:393-397 | the tokens joined back are the text |
| ChatDemo.StreamedReplyMessages | src/ChatUI.jsx:167-214 | streaming and finalizing a reply adds one finished assistant message holding exactly the reply |
| ChatDemo.DemoTurnAt | src/ChatUI.jsx:158-163 | before the reply, the active entries have the user message and a renamed placeholder title |
| ChatDemo.DemoTurn | src/ChatUI.jsx:158-163 | the list once the user message is pushed and a placeholder title renamed; `DemoTurnAt` gives its entries |
| ChatDemo.DemoSendList | src/ChatUI.jsx:155-214 | the list after a whole demo send; `DemoSendAppendsTurn` gives its entries |
| ChatDemo.DemoSendAtTarget | src/ChatUI.jsx:155-216 | an active entry gains the user message and the finished full reply |
| ChatDemo.DemoSendAppendsTurn | src/ChatUI.jsx:155-216 | a demo send gives the active entries exactly the user message and the reply, the title changing only from a placeholder to at most 28 characters of the input; the others are untouched |
| ChatDemo.ChatUI.constructor | src/ChatUI.jsx:98-101 | the loaded list, its first entry active, empty input, not thinking |
| ChatDemo.ChatUI.SetInput | src/ChatUI.jsx:100 | only the input changes |
| ChatDemo.ChatUI.NewChat | src/ChatUI.jsx:123-127 | a new conversation in front, made active and derived as `activeConv` |
| ChatDemo.ChatUI.DeleteChat | src/ChatUI.jsx:129-137 | an unknown id changes nothing; otherwise the entry is spliced out and the first survivor activated, or a new conversation replaces the list with no active id; either way `activeConv` is the first entry |
| ChatDemo.ChatUI.RenameActive | src/ChatUI.jsx:139-143 | the active conversation's entries take the title |
| ChatDemo.ChatUI.PushActive | src/ChatUI.jsx:145-153 | a message pushed to the active conversation's entries |
| ChatDemo.ChatUI.FakeStream | src/ChatUI.jsx:392-398 | one chunk update per token, in order |
| ChatDemo.ChatUI.OnSend | src/ChatUI.jsx:155-216 | blank input or thinking changes nothing; otherwise the list is the demo send list for the canned reply, the input is cleared and thinking is off |

## Left out

- Network requests (`fetch`, response status and JSON bodies) are inputs. Each
  response is `None` or a failure outcome when the request or reading its body fails.
- The reply stream's byte reading and `TextDecoder` are left out. The stream is
  modelled as its already decoded chunks, plus a flag saying whether it failed.
- `crypto.randomUUID()`, `Date.now()`, `Math.random()` and `sleep` are parameters or
  left out. No timing is modelled.
- React's state scheduling is not modelled: update batching, effects and renders.
  Operations from different sources interleaving with a send is not modelled either.
  Each send runs with nothing in between.
- Navigation (`navigate`), the mobile sidebar (`matchMedia`), the theme, scrolling
  and the presentational components are not modelled. They do not touch the
  conversation state.
- Saving to local storage is not modelled. Reading it is given as the outcome of
  `getItem` plus `JSON.parse` (`ChatDemo.Stored`). Items in a parsed array are taken
  to be conversations.
- `onEditChatName` has an empty body in the source and is not modelled.
- `askStream` is not modelled as its own operation. Its effect is the `Stream` input.
- ChatUtils.NormalizeRoom: the room id is a natural number. Other JSON values for
  `chatRoomId` (missing, strings, negative numbers) are not modelled. Ids are taken
  to be below 2^53. JavaScript numbers are doubles, so above that the source rounds
  an id and may print it in exponent form (`1e+21`). Two distinct large ids can then
  print alike.
- Text.NatToStringInjective: prints every natural number in full decimal, so the
  lemma describes `String(n)` only for n below 2^53. The same limit applies to
  `ChatUtils.NormalizeKeepsIdsUnique`.
- ChatUtils.NormalizeChatRooms: every room gets the same `Date.now()` value, whereas
  successive calls could differ.
- ChatUtils.MapMessage: `created_time` is given already parsed as a whole number.
  Date parsing and NaN are not modelled. `messageId` is a natural number below 2^53 too.
  Other JSON values, whose `String(...)` would give other text, are not modelled.
- ChatRooms.LoadedConversation: the `chatRoomId` of a returned history is a natural
  number below 2^53. Above it the source rounds the id and may print exponent form. A missing or non-numeric id is not modelled.
- SendMessage.Sender.Resolve: the created room's `chatRoomId` is a natural number
  below 2^53. Above it the source rounds the id and may print exponent form.
  A response without one, which `String(...)` turns into the id "undefined", is not
  modelled. The same holds for `SendMessage.SendList` and `SendMessage.SendActiveId`.
- Records.Truthy: numbers are whole numbers, so NaN and other floating-point values
  are not modelled.
- Text.Take: counts Unicode scalar values, not the UTF-16 code units JavaScript's
  `slice` counts. The two differ only for characters outside the Basic Multilingual
  Plane.
- ChatDemo.NewConversation: the conversation and its greeting share one `now`. The
  source reads the clock twice.
- ChatDemo.ChunkInto: one fresh id and time per chunk. The source draws a fresh id
  for each matching entry; the two differ only when entries share an id.
- ChatDemo.ChatUI.PushActive: every matching entry receives a message with the same
  id and time. The source calls `createMessage` inside `prev.map`, so each matching
  entry gets a fresh id and time. The two differ only when several entries share the
  active id. The same simplification is in `ChatDemo.ChatUI.OnSend` and
  `ChatDemo.DemoSendList`.
- ChatDemo.ChatUI.OnSend: the thinking flag is raised during the stream, but it is
  only observed at the end, because the steps are not interleaved.
- SendMessage.Sender.Start: one `now` stamps the temporary room, the user message
  and the placeholder. The source reads the clock three times: `createConversation`
  (src/Chat/utils/chatUtils.jsx:23, reached from src/Chat/hooks/useSendMessage.jsx:32)
  and both `pushMessage` calls (:80 and :82, through `createMessage` at
  src/Chat/utils/chatUtils.jsx:5). So the equal `createdAt` values stated by the
  following hold in the model, not in the program: `SendMessage.Sender.AddTurn`,
  `SendMessage.BeginList`, `SendMessage.SendList`, `SendMessage.BeginOnTempPath`,
  `SendMessage.PersistAfterBegin`, `SendMessage.SendCreatesRoom`,
  `SendMessage.MarkerAfterBegin` and `SendMessage.SendCreationFails`.
- SendMessage.Sender.AddTurn: the user message and the placeholder share
  `drawn.now`, whereas the source calls `Date.now()` once for each.
- SendMessage.Sender.OnSend: composes the phases with nothing in between. A second
  `onSend` during a suspended send is covered by `Begin`, which refuses while the
  lock is held.
