/**
 * Chats and messages as values, and the pure parts of the chat store:
 * looking chats and messages up by id, removing chats, merging a partial
 * update, appending a message with the auto-title rule, and replacing one
 * message's content.
 */
module ChatModel {
  import opened Wrappers

  datatype Role = User | Assistant | System

  datatype ChatMessage = ChatMessage(
    id: string,
    role: Role,
    content: string,
    createdAt: Option<int>)

  datatype Chat = Chat(
    id: string,
    title: string,
    model: string,
    messages: seq<ChatMessage>,
    createdAt: int,
    updatedAt: int)

  /** A `Partial<Chat>`: every field may be absent. */
  datatype ChatPatch = ChatPatch(
    id: Option<string>,
    title: Option<string>,
    model: Option<string>,
    messages: Option<seq<ChatMessage>>,
    createdAt: Option<int>,
    updatedAt: Option<int>)

  /** The title every chat starts with. */
  const NewChatTitle: string := "New Chat"
  /** How many characters of the first user message make up a derived title. */
  const TitleLimit: nat := 50
  /** Appended to a derived title when the message was longer than the limit. */
  const Ellipsis: string := "..."

  // ---------------------------------------------------------------------
  // Titles

  /** The title derived from a message: its first 50 characters, and "..." when it was longer. */
  function DeriveTitle(content: string): (title: string)
    ensures |title| <= TitleLimit + |Ellipsis|
    ensures |content| <= TitleLimit ==> title == content
    ensures |content| > TitleLimit ==>
      |title| == TitleLimit + |Ellipsis| && title[..TitleLimit] == content[..TitleLimit] && title[TitleLimit..] == Ellipsis
  {
    var n := if |content| < TitleLimit then |content| else TitleLimit;
    content[..n] + (if |content| > TitleLimit then Ellipsis else "")
  }

  /** The user messages of `ms`, in order (the `filter` on role in `addMessageToChat`, frontend/lib/chat-store.ts). */
  function UserMessages(ms: seq<ChatMessage>): (us: seq<ChatMessage>)
    ensures forall u :: u in us ==> u in ms && u.role == User
    ensures forall m :: m in ms && m.role == User ==> m in us
  {
    if ms == [] then []
    else (if ms[0].role == User then [ms[0]] else []) + UserMessages(ms[1..])
  }

  lemma {:induction false} UserMessagesAppend(ms: seq<ChatMessage>, m: ChatMessage)
    ensures UserMessages(ms + [m]) == UserMessages(ms) + (if m.role == User then [m] else [])
  {
    if ms == [] {
      assert ms + [m] == [m];
    } else {
      assert (ms + [m])[1..] == ms[1..] + [m];
      UserMessagesAppend(ms[1..], m);
    }
  }

  /** The first user message of `ms`, if any. */
  function FirstUserMessage(ms: seq<ChatMessage>): (r: Option<ChatMessage>)
    ensures r.None? <==> UserMessages(ms) == []
    ensures r.Some? ==> r.value == UserMessages(ms)[0]
  {
    if ms == [] then None
    else if ms[0].role == User then Some(ms[0])
    else FirstUserMessage(ms[1..])
  }

  // ---------------------------------------------------------------------
  // Lookup by id (`findIndex` and `find` in frontend/lib/chat-store.ts)

  /** The index of the first chat with id `id`, or None when there is none. */
  function IndexOfChat(chats: seq<Chat>, id: string): (r: Option<nat>)
    ensures r.Some? ==>
      r.value < |chats| && chats[r.value].id == id &&
      forall j :: 0 <= j < r.value ==> chats[j].id != id
    ensures r.None? <==> forall j :: 0 <= j < |chats| ==> chats[j].id != id
  {
    if chats == [] then None
    else if chats[0].id == id then Some(0)
    else match IndexOfChat(chats[1..], id)
      case None => None
      case Some(k) => Some(k + 1)
  }

  /** Chat lookup depends on the ids alone. */
  lemma {:induction false} IndexOfChatIds(a: seq<Chat>, b: seq<Chat>, id: string)
    requires |a| == |b|
    requires forall j :: 0 <= j < |a| ==> a[j].id == b[j].id
    ensures IndexOfChat(a, id) == IndexOfChat(b, id)
  {
    if a != [] && a[0].id != id {
      IndexOfChatIds(a[1..], b[1..], id);
    }
  }

  /** The first chat with id `id`, or None (`getChatById`'s `find(...) || null`). */
  function FindChat(chats: seq<Chat>, id: string): (r: Option<Chat>)
    ensures r.None? <==> forall c :: c in chats ==> c.id != id
    ensures r.Some? ==> r.value in chats && r.value.id == id
    ensures r.Some? ==>
      exists k :: 0 <= k < |chats| && chats[k] == r.value &&
        forall j :: 0 <= j < k ==> chats[j].id != id
  {
    match IndexOfChat(chats, id)
    case None => None
    case Some(k) => Some(chats[k])
  }

  /** The index of the first message with id `id`, or None when there is none. */
  function IndexOfMessage(ms: seq<ChatMessage>, id: string): (r: Option<nat>)
    ensures r.Some? ==>
      r.value < |ms| && ms[r.value].id == id &&
      forall j :: 0 <= j < r.value ==> ms[j].id != id
    ensures r.None? <==> forall j :: 0 <= j < |ms| ==> ms[j].id != id
  {
    if ms == [] then None
    else if ms[0].id == id then Some(0)
    else match IndexOfMessage(ms[1..], id)
      case None => None
      case Some(k) => Some(k + 1)
  }

  /** Message lookup depends on the ids alone. */
  lemma {:induction false} IndexOfMessageIds(ms: seq<ChatMessage>, ns: seq<ChatMessage>, id: string)
    requires |ms| == |ns|
    requires forall j :: 0 <= j < |ms| ==> ms[j].id == ns[j].id
    ensures IndexOfMessage(ms, id) == IndexOfMessage(ns, id)
  {
    if ms != [] && ms[0].id != id {
      IndexOfMessageIds(ms[1..], ns[1..], id);
    }
  }

  // ---------------------------------------------------------------------
  // Removal (`deleteChat`'s `filter` on id)

  /** `chats` without the chats whose id is `id`, in their original order. */
  function RemoveChats(chats: seq<Chat>, id: string): (r: seq<Chat>)
    ensures |r| <= |chats|
    ensures forall c :: c in r <==> c in chats && c.id != id
  {
    if chats == [] then []
    else (if chats[0].id == id then [] else [chats[0]]) + RemoveChats(chats[1..], id)
  }

  /** Removal keeps the relative order: it works piece by piece on a concatenation. */
  lemma {:induction false} RemoveChatsConcat(a: seq<Chat>, b: seq<Chat>, id: string)
    ensures RemoveChats(a + b, id) == RemoveChats(a, id) + RemoveChats(b, id)
  {
    if a == [] {
      assert a + b == b;
    } else {
      assert (a + b)[1..] == a[1..] + b;
      RemoveChatsConcat(a[1..], b, id);
    }
  }

  /** Removing an id that no chat has changes nothing. */
  lemma {:induction false} RemoveChatsAbsent(chats: seq<Chat>, id: string)
    requires forall c :: c in chats ==> c.id != id
    ensures RemoveChats(chats, id) == chats
  {
    if chats != [] {
      assert chats == [chats[0]] + chats[1..];
      RemoveChatsAbsent(chats[1..], id);
    }
  }

  /** Removing twice is removing once. */
  lemma RemoveChatsIdempotent(chats: seq<Chat>, id: string)
    ensures RemoveChats(RemoveChats(chats, id), id) == RemoveChats(chats, id)
  {
    RemoveChatsAbsent(RemoveChats(chats, id), id);
  }

  /** Removal leaves the chats with other ids exactly where a lookup finds them. */
  lemma {:induction false} RemoveChatsKeepsOthers(chats: seq<Chat>, id: string, other: string)
    requires other != id
    ensures FindChat(RemoveChats(chats, id), other) == FindChat(chats, other)
  {
    if chats != [] {
      RemoveChatsKeepsOthers(chats[1..], id, other);
      if chats[0].id == id {
        assert RemoveChats(chats, id) == RemoveChats(chats[1..], id);
        assert FindChat(chats, other) == FindChat(chats[1..], other);
      } else {
        assert RemoveChats(chats, id) == [chats[0]] + RemoveChats(chats[1..], id);
        var r := RemoveChats(chats, id);
        assert r[0] == chats[0];
        assert r[1..] == RemoveChats(chats[1..], id);
        if chats[0].id != other {
          assert FindChat(r, other) == FindChat(r[1..], other);
          assert FindChat(chats, other) == FindChat(chats[1..], other);
        }
      }
    }
  }

  // ---------------------------------------------------------------------
  // Merging a partial update (`{ ...chat, ...updates, updatedAt: now }`)

  /** An update that carries no field. */
  const NoChanges: ChatPatch := ChatPatch(None, None, None, None, None, None)

  /** The fields of `updates` replace those of `c`; `updatedAt` is always `now`. */
  function MergePatch(c: Chat, updates: ChatPatch, now: int): (r: Chat)
    ensures r.updatedAt == now
    ensures updates == NoChanges ==> r == c.(updatedAt := now)
  {
    Chat(
      id := updates.id.GetOr(c.id),
      title := updates.title.GetOr(c.title),
      model := updates.model.GetOr(c.model),
      messages := updates.messages.GetOr(c.messages),
      createdAt := updates.createdAt.GetOr(c.createdAt),
      updatedAt := now)
  }

  /** Applying the same update twice is applying it once, at the later time. */
  lemma MergePatchIdempotent(c: Chat, updates: ChatPatch, t1: int, t2: int)
    ensures MergePatch(MergePatch(c, updates, t1), updates, t2) == MergePatch(c, updates, t2)
  {
  }

  // ---------------------------------------------------------------------
  // Appending a message, with the auto-title rule

  /**
   * Whether appending `m` to `c` rewrites the title, exactly as
   * `addMessageToChat` tests it: the title is still the sentinel, `m` is a user message, and
   * after the append there is exactly one user message.
   */
  predicate RetitlesOnAppend(c: Chat, m: ChatMessage)
  {
    c.title == NewChatTitle && m.role == User && |UserMessages(c.messages + [m])| == 1
  }

  /** `c` after `m` is pushed onto its messages at time `now`. */
  function AppendMessage(c: Chat, m: ChatMessage, now: int): (r: Chat)
  {
    var pushed := c.(messages := c.messages + [m], updatedAt := now);
    if RetitlesOnAppend(c, m) then pushed.(title := DeriveTitle(m.content)) else pushed
  }

  /** The test on the count after the append means: `m` is the chat's first user message. */
  lemma RetitlesIffFirstUser(c: Chat, m: ChatMessage)
    ensures RetitlesOnAppend(c, m) <==>
      c.title == NewChatTitle && m.role == User && UserMessages(c.messages) == []
  {
    UserMessagesAppend(c.messages, m);
  }

  /** Appending is append-only and touches nothing but messages, updatedAt and maybe the title. */
  lemma AppendMessageShape(c: Chat, m: ChatMessage, now: int)
    ensures AppendMessage(c, m, now).messages == c.messages + [m]
    ensures AppendMessage(c, m, now).updatedAt == now
    ensures AppendMessage(c, m, now).id == c.id
    ensures AppendMessage(c, m, now).model == c.model
    ensures AppendMessage(c, m, now).createdAt == c.createdAt
    ensures AppendMessage(c, m, now).title ==
      if c.title == NewChatTitle && m.role == User && UserMessages(c.messages) == []
      then DeriveTitle(m.content) else c.title
  {
    RetitlesIffFirstUser(c, m);
  }

  /** Once a chat holds a user message, no append changes its title. */
  lemma TitleKeptAfterFirstUser(c: Chat, m: ChatMessage, now: int)
    requires UserMessages(c.messages) != []
    ensures AppendMessage(c, m, now).title == c.title
    ensures UserMessages(AppendMessage(c, m, now).messages) != []
  {
    UserMessagesAppend(c.messages, m);
  }

  /**
   * `c` after each message of `ms` is appended in turn, the `i`-th append
   * happening at time `ts[i]` (each call of the store reads its own clock).
   */
  function AppendAll(c: Chat, ms: seq<ChatMessage>, ts: seq<int>): (r: Chat)
    requires |ts| == |ms|
    decreases |ms|
  {
    if ms == [] then c else AppendAll(AppendMessage(c, ms[0], ts[0]), ms[1..], ts[1..])
  }

  /** No sequence of appends, at whatever times, re-titles a chat that already holds a user message. */
  lemma {:induction false} TitleFixedOnceTitled(c: Chat, ms: seq<ChatMessage>, ts: seq<int>)
    requires |ts| == |ms|
    requires UserMessages(c.messages) != []
    ensures AppendAll(c, ms, ts).title == c.title
    decreases |ms|
  {
    if ms != [] {
      TitleKeptAfterFirstUser(c, ms[0], ts[0]);
      TitleFixedOnceTitled(AppendMessage(c, ms[0], ts[0]), ms[1..], ts[1..]);
    }
  }

  /**
   * Over any sequence of appends to a chat without user messages, at
   * whatever times, the title is decided by the first user message appended
   * and by nothing else: it becomes that message's derived title when the
   * title was still the sentinel, and stays as it was otherwise.
   */
  lemma {:induction false} TitleAfterAppends(c: Chat, ms: seq<ChatMessage>, ts: seq<int>)
    requires |ts| == |ms|
    requires UserMessages(c.messages) == []
    ensures AppendAll(c, ms, ts).title ==
      match FirstUserMessage(ms)
      case None => c.title
      case Some(u) => if c.title == NewChatTitle then DeriveTitle(u.content) else c.title
    decreases |ms|
  {
    if ms != [] {
      var m := ms[0];
      var c1 := AppendMessage(c, m, ts[0]);
      AppendMessageShape(c, m, ts[0]);
      UserMessagesAppend(c.messages, m);
      assert AppendAll(c, ms, ts) == AppendAll(c1, ms[1..], ts[1..]);
      if m.role == User {
        assert FirstUserMessage(ms) == Some(m);
        assert UserMessages(c1.messages) == [m];
        TitleFixedOnceTitled(c1, ms[1..], ts[1..]);
      } else {
        assert FirstUserMessage(ms) == FirstUserMessage(ms[1..]);
        assert c1.title == c.title;
        assert UserMessages(c1.messages) == [];
        TitleAfterAppends(c1, ms[1..], ts[1..]);
      }
    }
  }

  /**
   * Appends only ever add at the end, keep the chat's id, model and
   * creation time, and leave `updatedAt` at the time of the last append.
   */
  lemma {:induction false} AppendAllMessages(c: Chat, ms: seq<ChatMessage>, ts: seq<int>)
    requires |ts| == |ms|
    ensures AppendAll(c, ms, ts).messages == c.messages + ms
    ensures AppendAll(c, ms, ts).id == c.id
    ensures AppendAll(c, ms, ts).model == c.model
    ensures AppendAll(c, ms, ts).createdAt == c.createdAt
    ensures AppendAll(c, ms, ts).updatedAt == if ms == [] then c.updatedAt else ts[|ts| - 1]
    decreases |ms|
  {
    if ms == [] {
      assert c.messages + ms == c.messages;
    } else {
      AppendMessageShape(c, ms[0], ts[0]);
      AppendAllMessages(AppendMessage(c, ms[0], ts[0]), ms[1..], ts[1..]);
      assert c.messages + ms == (c.messages + [ms[0]]) + ms[1..];
    }
  }

  // ---------------------------------------------------------------------
  // Replacing one message's content

  /** `ms` with the content of the first message whose id is `id` set to `content`. */
  function ReplaceContent(ms: seq<ChatMessage>, id: string, content: string): (r: seq<ChatMessage>)
  {
    match IndexOfMessage(ms, id)
    case None => ms
    case Some(k) => ms[k := ms[k].(content := content)]
  }

  /**
   * Replacing content keeps the number, order, ids, roles and timestamps of
   * the messages; only the first message with that id gets the new content
   * and every other message stays as it was.
   */
  lemma ReplaceContentShape(ms: seq<ChatMessage>, id: string, content: string)
    ensures |ReplaceContent(ms, id, content)| == |ms|
    ensures forall j :: 0 <= j < |ms| ==>
      ReplaceContent(ms, id, content)[j].id == ms[j].id &&
      ReplaceContent(ms, id, content)[j].role == ms[j].role &&
      ReplaceContent(ms, id, content)[j].createdAt == ms[j].createdAt
    ensures forall j :: 0 <= j < |ms| ==>
      ReplaceContent(ms, id, content)[j] ==
        if IndexOfMessage(ms, id) == Some(j) then ms[j].(content := content) else ms[j]
  {
  }

  /** Replacing with the same content twice is replacing once. */
  lemma ReplaceContentIdempotent(ms: seq<ChatMessage>, id: string, content: string)
    ensures ReplaceContent(ReplaceContent(ms, id, content), id, content) == ReplaceContent(ms, id, content)
  {
    var once := ReplaceContent(ms, id, content);
    ReplaceContentShape(ms, id, content);
    IndexOfMessageIds(ms, once, id);
  }

  /** The last write wins: replacing with `a` and then `b` is replacing with `b`. */
  lemma ReplaceContentLastWins(ms: seq<ChatMessage>, id: string, a: string, b: string)
    ensures ReplaceContent(ReplaceContent(ms, id, a), id, b) == ReplaceContent(ms, id, b)
  {
    var once := ReplaceContent(ms, id, a);
    ReplaceContentShape(ms, id, a);
    IndexOfMessageIds(ms, once, id);
  }
}
