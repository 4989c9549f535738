# Visora chat store and simulated chat endpoint, modelled in Dafny

This project models the two parts of the Visora chat app that hold logic
with checkable rules.

- **The persisted chat collection** (`frontend/lib/chat-store.ts`). All chats
  are one serialised list under one storage key. A second key holds the id of
  the chat last opened. The reads (`getChats`, `getChatById`,
  `getCurrentChatId`) write nothing. Each mutator reads the whole list and
  changes its local copy. Creating and deleting always write the whole list
  back; a delete of an absent id writes back the same list it read
  (`RemoveChatsAbsent`). Updating a chat, appending a message and updating a
  message write back only when the chat (and the message) is found.
  `saveChats` overwrites its key; `setCurrentChatId` sets or removes its key.
  `AsyncStore` is the storage backend: it has one field per key, and one
  method per store function. The five list-changing methods are specified by
  a pure transition on the value under the chat-list key (`AfterCreate`,
  `AfterUpdate`, `AfterDelete`, `AfterAddMessage`, `AfterUpdateMessage`).
  `SaveChats` and `SetCurrentChatId` state the new value of their key
  directly. The lemmas about those transitions and about the chat-level
  functions (`AppendMessage`, `ReplaceContent`, `RemoveChats`, `MergePatch`,
  `DeriveTitle`) state what the store promises:
  - an update, append or message update on a missing id writes nothing;
  - messages are only ever appended;
  - the auto-title is derived once, from the first user message, cut to 50
    characters plus `...`;
  - other chats are left alone;
  - deleting is idempotent, and replacing content with the same text twice is
    replacing it once, at the later time.
- **The simulated `/api/chat` endpoint** (`backend/src/index.ts`). It picks the
  prompt from the request: the last `user` message, or `"Hello"` if there is
  none. It lower-cases the prompt, tests keyword groups in a fixed order, and
  picks one of six canned replies. Three of the replies include the model id.
  The reply is then streamed as its `' '`-separated pieces, each followed by
  one space. The model proves these facts:
  - the first matching group wins, and every group can be reached;
  - matching ignores ASCII case;
  - the greeting fires on any prompt containing `hi`, including inside a
    word such as "this", and on the default prompt;
  - the streamed chunks concatenate to the reply plus one trailing space.

Modules: `Wrappers` (Option), `ChatModel` (entities and pure chat-level logic),
`ChatStore` (storage object, store operations, transitions), `Text` (ASCII
lower-casing, `includes`, `split(' ')`/`join(' ')`), `ChatEndpoint` (prompt
selection, dispatch, replies, the streaming loop).

Inputs the source takes from its environment are parameters:
- the clock (`Date.now()`) is `now`;
- the generated chat id (`Date.now()` and `Math.random()`) is `id`;
- the storage backend is the `AsyncStore` object;
- the response stream is a `TextStream` object that records each write.

The serialised value under the chat-list key is one of four things:
- `Missing`;
- `EmptyText`;
- `Serialized(chats)`, assumed to parse back to exactly `chats`;
- `Unparseable`.

Behaviour to note:
- Created ids are not guaranteed unique, since they come from the clock and a
  random number. The new chat is put first, so a lookup of its id always finds
  it (`FindAfterCreate`), and an older chat with the same id can no longer be
  reached by id. Deleting that id removes both chats, because the delete keeps
  only the chats whose id differs. Only an update whose patch gives the newer
  chat another id makes the older one reachable again.
- A partial update may carry `id`, which renames the chat.
- `updatedAt` is always overwritten with the current time.
- An update or append on an absent id writes nothing. A stored value that does
  not parse therefore stays as it is. A delete always writes, so it replaces
  such a value with an empty list.

## Model

| member | source | states |
|---|---|---|
| ChatModel.DeriveTitle | frontend/lib/chat-store.ts:85 | the title is the content itself when it has at most 50 characters; otherwise its first 50 characters followed by "..."; never longer than 53 |
| ChatModel.UserMessages | frontend/lib/chat-store.ts:83 | exactly the user messages of the chat are kept |
| ChatModel.UserMessagesAppend | frontend/lib/chat-store.ts:77-83 | the user messages after a push are those before, plus the pushed one if it is a user message |
| ChatModel.IndexOfChat | frontend/lib/chat-store.ts:58 | the index of the first chat with the id, or none exactly when no chat has it |
| ChatModel.FindChat | frontend/lib/chat-store.ts:36-39 | the first chat in the list with the id, or none exactly when no chat has that id |
| ChatModel.IndexOfMessage | frontend/lib/chat-store.ts:99 | the index of the first message with the id, or none exactly when no message has it |
| ChatModel.RemoveChats | frontend/lib/chat-store.ts:67 | a chat remains exactly when it was in the list and has a different id; the list does not grow |
| ChatModel.RemoveChatsConcat | frontend/lib/chat-store.ts:67 | removal works on each part of a concatenation separately, so the kept chats stay in their original order |
| ChatModel.RemoveChatsAbsent | frontend/lib/chat-store.ts:67 | removing an id no chat has leaves the list unchanged |
| ChatModel.RemoveChatsIdempotent | frontend/lib/chat-store.ts:65-68 | removing the same id twice gives the same list as removing it once |
| ChatModel.RemoveChatsKeepsOthers | frontend/lib/chat-store.ts:67 | after removal, a lookup of any other id finds the same chat as before |
| ChatModel.MergePatch | frontend/lib/chat-store.ts:60 | the merged chat's updatedAt is the current time even when the update carries its own; an empty update changes only updatedAt |
| ChatModel.MergePatchIdempotent | frontend/lib/chat-store.ts:60 | merging the same update twice, at any two times, is merging it once at the later time |
| ChatModel.RetitlesOnAppend | frontend/lib/chat-store.ts:80-84 | the title test as written: the title is "New Chat", the message is from the user, and after the push exactly one message is from the user; RetitlesIffFirstUser states what it means |
| ChatModel.AppendMessage | frontend/lib/chat-store.ts:77-86 | push, stamp and auto-title applied to one chat; AppendMessageShape states its effect, and the Title lemmas state the title rule |
| ChatModel.RetitlesIffFirstUser | frontend/lib/chat-store.ts:80-84 | the three-part title test holds exactly when the title is "New Chat", the message is from the user, and the chat had no user message before |
| ChatModel.AppendMessageShape | frontend/lib/chat-store.ts:77-86 | the message goes at the end and earlier messages stay; updatedAt becomes now; id, model and createdAt stay; the title changes only by the first-user-message rule |
| ChatModel.TitleKeptAfterFirstUser | frontend/lib/chat-store.ts:80-86 | once a chat holds a user message, no append changes its title |
| ChatModel.AppendAll | frontend/lib/chat-store.ts:70-89 | a run of `addMessageToChat` calls on one chat, each at its own time; TitleFixedOnceTitled, TitleAfterAppends and AppendAllMessages state its effect |
| ChatModel.TitleFixedOnceTitled | frontend/lib/chat-store.ts:80-86 | no sequence of appends, each at its own time, re-titles a chat that holds a user message |
| ChatModel.TitleAfterAppends | frontend/lib/chat-store.ts:70-86 | after any sequence of appends, each at its own time, to a chat with no user messages, the title comes from the first user message appended; it stays when there is none or the title was not "New Chat" |
| ChatModel.AppendAllMessages | frontend/lib/chat-store.ts:77-78 | a sequence of appends, each at its own time, leaves the old messages followed by the appended ones, keeps id, model and createdAt, and leaves updatedAt at the last append's time |
| ChatModel.ReplaceContent | frontend/lib/chat-store.ts:99-101 | the content of the first message with the id is replaced; ReplaceContentShape, ReplaceContentIdempotent and ReplaceContentLastWins state its effect |
| ChatModel.ReplaceContentShape | frontend/lib/chat-store.ts:99-101 | count, order, ids, roles and timestamps of messages stay; only the first message with the id gets the new content |
| ChatModel.ReplaceContentIdempotent | frontend/lib/chat-store.ts:101 | replacing with the same content twice is replacing once |
| ChatModel.ReplaceContentLastWins | frontend/lib/chat-store.ts:101 | replacing with a and then b is replacing with b |
| ChatStore.Decode | frontend/lib/chat-store.ts:22-30 | a missing, empty or unparseable value reads as no chats, a serialised list as itself; AsyncStore.GetChats is stated in it |
| ChatStore.AfterCreate | frontend/lib/chat-store.ts:50-52 | the new chat is put in front of the chats read; AsyncStore.CreateChat is stated in it, and FindAfterCreate states its effect on lookups |
| ChatStore.AfterUpdate | frontend/lib/chat-store.ts:57-62 | an absent id writes nothing, otherwise the first match is merged; AsyncStore.UpdateChat is stated in it, and UpdateKeepsOthers and UpdateFindsMerged state its effect |
| ChatStore.AfterDelete | frontend/lib/chat-store.ts:66-67 | the chats read, without those with the id, are always written; AsyncStore.DeleteChat is stated in it, and DeleteIdempotent and FindAfterDelete state its effect |
| ChatStore.AfterAddMessage | frontend/lib/chat-store.ts:74-88 | an absent id writes nothing, otherwise the message is appended to the first match; AsyncStore.AddMessageToChat is stated in it, and AddMessageEffect states its effect |
| ChatStore.AfterUpdateMessage | frontend/lib/chat-store.ts:95-105 | no write unless both the chat and the message are found, otherwise the content is replaced and the chat stamped; AsyncStore.UpdateAssistantMessage is stated in it, and UpdateMessageIdempotent states its effect |
| ChatStore.AsyncStore.GetChats | frontend/lib/chat-store.ts:22-30 | returns the stored list; a missing, empty or unparseable value gives the empty list; it never fails |
| ChatStore.AsyncStore.SaveChats | frontend/lib/chat-store.ts:32-34 | the chat-list key then holds exactly the given list |
| ChatStore.AsyncStore.GetChatById | frontend/lib/chat-store.ts:36-39 | returns the first stored chat with the id, or none exactly when no stored chat has it |
| ChatStore.AsyncStore.CreateChat | frontend/lib/chat-store.ts:41-54 | returns a chat with the given id and model, title "New Chat", no messages, both timestamps now; the stored list becomes that chat followed by all earlier chats |
| ChatStore.AsyncStore.UpdateChat | frontend/lib/chat-store.ts:56-63 | the key is unchanged for an absent id; otherwise only the first match is replaced by the merge |
| ChatStore.AsyncStore.DeleteChat | frontend/lib/chat-store.ts:65-68 | the key then holds the stored chats without those with the id |
| ChatStore.AsyncStore.AddMessageToChat | frontend/lib/chat-store.ts:70-89 | the key is unchanged for an absent id; otherwise only the first match changes, as AppendMessage says |
| ChatStore.AsyncStore.UpdateAssistantMessage | frontend/lib/chat-store.ts:91-106 | the key is unchanged when the chat or the message is absent; otherwise only that chat changes: its messages as ReplaceContent says, updatedAt now |
| ChatStore.AsyncStore.GetCurrentChatId | frontend/lib/chat-store.ts:108-110 | returns what the current-chat key holds |
| ChatStore.AsyncStore.SetCurrentChatId | frontend/lib/chat-store.ts:112-118 | a non-empty id is stored; none or the empty id removes the key |
| ChatStore.FindAfterCreate | frontend/lib/chat-store.ts:41-54 | after a create, the new id is found as the new chat, the list grows by one, earlier chats follow in order, and lookups of other ids are unchanged |
| ChatStore.DeleteIdempotent | frontend/lib/chat-store.ts:65-68 | deleting twice leaves the same stored value as deleting once |
| ChatStore.FindAfterDelete | frontend/lib/chat-store.ts:65-68 | after a delete no chat has the id, and every other id is found as before |
| ChatStore.UpdateKeepsOthers | frontend/lib/chat-store.ts:56-63 | any update, renaming or not, leaves the length unchanged, and a lookup of an id that is neither the updated id nor the new one finds what it found before |
| ChatStore.UpdateFindsMerged | frontend/lib/chat-store.ts:58-60 | after an update of a present chat that keeps its id, the id finds the merged chat |
| ChatStore.AddMessageEffect | frontend/lib/chat-store.ts:70-89 | an absent id writes nothing; otherwise the id finds the appended chat, other ids find what they found before, and the length stays |
| ChatStore.UpdateMessageIdempotent | frontend/lib/chat-store.ts:91-106 | applying the same content update twice, at any two times, leaves the same stored value as applying it once at the later time |
| ChatStore.AddToFront | frontend/lib/chat-store.ts:74-87 | an append to the id of the front chat changes that chat as AppendMessage says and nothing else |
| ChatStore.UpdateAtFront | frontend/lib/chat-store.ts:96-103 | a content update for the front chat's id replaces that chat's message content and stamps it, and changes nothing else |
| ChatStore.FirstTurn | frontend/lib/chat-store.ts:41-106 | create, append a user message, append an empty assistant placeholder, fill it: the chat is first, titled from the user message, holding both messages with the reply as content |
| Text.Lower | backend/src/index.ts:57 | `toLowerCase` on ASCII letters; LowerIdempotent, LowerSlice and ContainsLower state its properties |
| Text.Contains | backend/src/index.ts:59 | `includes`: an occurrence at some position; ContainsAt and ContainsHasPosition state both directions |
| Text.JoinWithSpace | backend/src/index.ts:48 | `join(' ')`, the inverse of SplitOnSpace; JoinSplit and SplitJoin state the round trips |
| Text.LowerIdempotent | backend/src/index.ts:57 | lower-casing twice is lower-casing once |
| Text.ContainsHasPosition | backend/src/index.ts:59 | a contained string occurs at some position |
| Text.ContainsLower | backend/src/index.ts:57-59 | a contained string is still contained, lower-cased, in the lower-cased text |
| Text.SplitOnSpace | backend/src/index.ts:48 | at least one piece; no piece contains a space |
| Text.JoinSplit | backend/src/index.ts:48 | joining the pieces with spaces gives back the reply; there is one piece more than there are spaces |
| Text.SplitJoin | backend/src/index.ts:48 | splitting pieces joined with spaces gives back the pieces when none holds a space |
| ChatEndpoint.UserRequests | backend/src/index.ts:41 | `filter` on role "user" over the request messages, in order; LastUserMessageIsLast states what its last element is |
| ChatEndpoint.LastUserMessage | backend/src/index.ts:41 | `pop` of the filtered list; LastUserMessageIsLast states which message it is |
| ChatEndpoint.LastUserMessageIsLast | backend/src/index.ts:41 | the chosen message is the one at the last index whose role is "user"; none exactly when there is no such message |
| ChatEndpoint.UserPrompt | backend/src/index.ts:41-42 | the prompt is never empty, and is "Hello" when the messages are absent |
| ChatEndpoint.UserPromptChoice | backend/src/index.ts:41-42 | the prompt is the content of the last user message, or "Hello" when that content is absent or empty |
| ChatEndpoint.UserPromptDefault | backend/src/index.ts:41-42 | without any user message the prompt is "Hello" |
| ChatEndpoint.Classify | backend/src/index.ts:59-79 | the keyword groups tested in order; ClassifyFirstMatch and the Reachable lemmas state which group wins |
| ChatEndpoint.ReplyText | backend/src/index.ts:60-79 | the six canned replies; ModelInterpolation states where the model id appears |
| ChatEndpoint.GenerateResponse | backend/src/index.ts:56-80 | the reply for the lower-cased prompt; ResponseIgnoresCase, HiAnywhereGreets, DefaultPromptGreets and ExplainThisGreets state its behaviour |
| ChatEndpoint.ClassifyFirstMatch | backend/src/index.ts:56-80 | the chosen group matches, no group tested earlier matches, and the fallback is chosen exactly when no group matches |
| ChatEndpoint.ModelInterpolation | backend/src/index.ts:56-80 | the greeting, code and fallback replies contain the model id; the summary, explanation and design replies are the same for every model |
| ChatEndpoint.ResponseIgnoresCase | backend/src/index.ts:57 | the reply to a prompt is the reply to its lower-cased form; prompts that lower-case alike get the same reply |
| ChatEndpoint.HiAnywhereGreets | backend/src/index.ts:57-60 | a prompt containing "hi" in any case, even inside a word, gets the greeting |
| ChatEndpoint.DefaultPromptGreets | backend/src/index.ts:42-60 | the default prompt "Hello" gets the greeting |
| ChatEndpoint.ExplainThisGreets | backend/src/index.ts:57-72 | "Explain this" gets the greeting, not the explanation, because "this" contains "hi" |
| ChatEndpoint.CodeReachable | backend/src/index.ts:56-65 | a lower-cased prompt with "code" and no letter h gets the code reply |
| ChatEndpoint.SummaryReachable | backend/src/index.ts:56-69 | a lower-cased prompt with "summary" and no h or o gets the summary reply |
| ChatEndpoint.ExplanationReachable | backend/src/index.ts:56-73 | a lower-cased prompt with "explain" and no h, o or u gets the explanation reply |
| ChatEndpoint.DesignReachable | backend/src/index.ts:56-77 | a lower-cased prompt with "design" and no h, o, u, x or w gets the design reply |
| ChatEndpoint.FallbackReachable | backend/src/index.ts:56-80 | a lower-cased prompt with none of h, o, u, x, w, g matches no group and gets the fallback reply |
| ChatEndpoint.Chunks | backend/src/index.ts:48-50 | each piece followed by one space, as written; ChunksConcat and StreamedText state what the chunks add up to |
| ChatEndpoint.ChunksConcat | backend/src/index.ts:48-51 | the chunks concatenate to the pieces joined with spaces, plus one trailing space |
| ChatEndpoint.StreamedText | backend/src/index.ts:48-51 | the chunks of a reply concatenate to the reply plus one space; there is one chunk per piece |
| ChatEndpoint.StreamText | backend/src/index.ts:47-53 | the stream receives, in order, each piece followed by a space, and nothing else; what it receives concatenates to the reply plus one space, appended to what the stream already held |
| ChatEndpoint.HandleChat | backend/src/index.ts:37-54 | the stream receives the chunks of the reply generated for the selected prompt and the model |

## Left out

- JSON serialisation is not modelled. The stored list is kept as a value, and
  parsing is assumed to invert serialising. Stored text that parses to
  something other than a list of chats (for example `null`) is not modelled.
- Failures of the storage backend are not modelled: a rejected read or write
  would propagate out of every store function.
- ChatStore.AsyncStore.CreateChat: the source reads the clock three times (for
  the id, createdAt and updatedAt), so the two timestamps can differ by a
  millisecond. The model reads one `now`. The id is a parameter because it is
  derived from the clock and a random number.
- ChatModel.MergePatch: a `Partial<Chat>` field is either present or absent.
  An update that spreads an explicit `undefined` into a field is not modelled.
- Concurrency is not modelled. Each operation runs alone; the lost-update race
  between overlapping read-modify-write calls is outside a sequential model.
- Text.Lower: only ASCII letters are lower-cased, not the full Unicode mapping
  of `toLowerCase`. `length` and `slice` count characters, not UTF-16 code units.
- ChatEndpoint.UserPrompt: request messages have a string role and an optional
  string content. A `messages` value that is not a list, and content that is
  not a string, are not modelled. Nor is the parsing of the request body.
- The random 30–70 ms pauses between stream writes are not modelled, nor are
  Hono routing, CORS, and the `/`, `/api/health` and `/api/models` routes.
- The client-side loop that reads the streamed response, decodes it, handles
  aborts and flushes the reply to the store is not part of this model.
