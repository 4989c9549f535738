/**
 * The persisted chat collection. The key-value storage backend is an object
 * with one field per key: the serialised list of every chat, and the id of
 * the chat last opened. Every mutator reads the whole list and changes its
 * local copy. Deleting always writes the whole list back; updating a chat,
 * appending a message and updating a message write it back only when the
 * chat (and the message) was found, and otherwise leave the key untouched.
 * Each mutator is specified by a pure transition on the stored value of the
 * chat-list key; the lemmas at the end are about those transitions.
 */
module ChatStore {
  import opened Wrappers
  import opened ChatModel

  /**
   * What the chat-list key holds: nothing, the empty text, the serialisation
   * of a list of chats, or text that does not parse.
   */
  datatype StoredChats = Missing | EmptyText | Serialized(chats: seq<Chat>) | Unparseable

  /** The chats a read of the key yields: a missing, empty or unparseable value reads as no chats. */
  function Decode(item: StoredChats): (chats: seq<Chat>)
  {
    if item.Serialized? then item.chats else []
  }

  // ---------------------------------------------------------------------
  // The transitions on the chat-list key

  /** The new chat goes in front of every earlier chat. */
  function AfterCreate(item: StoredChats, chat: Chat): (r: StoredChats)
  {
    Serialized([chat] + Decode(item))
  }

  /** An update of an absent chat writes nothing; otherwise the first match is merged. */
  function AfterUpdate(item: StoredChats, id: string, updates: ChatPatch, now: int): (r: StoredChats)
  {
    var chats := Decode(item);
    match IndexOfChat(chats, id)
    case None => item
    case Some(i) => Serialized(chats[i := MergePatch(chats[i], updates, now)])
  }

  /** Deletion always writes back the chats whose id differs. */
  function AfterDelete(item: StoredChats, id: string): (r: StoredChats)
  {
    Serialized(RemoveChats(Decode(item), id))
  }

  /** Adding to an absent chat writes nothing; otherwise the message is appended to the first match. */
  function AfterAddMessage(item: StoredChats, chatId: string, message: ChatMessage, now: int): (r: StoredChats)
  {
    var chats := Decode(item);
    match IndexOfChat(chats, chatId)
    case None => item
    case Some(i) => Serialized(chats[i := AppendMessage(chats[i], message, now)])
  }

  /** Replacing content writes nothing unless both the chat and the message are present. */
  function AfterUpdateMessage(item: StoredChats, chatId: string, messageId: string, content: string, now: int): (r: StoredChats)
  {
    var chats := Decode(item);
    match IndexOfChat(chats, chatId)
    case None => item
    case Some(i) =>
      if IndexOfMessage(chats[i].messages, messageId).None? then item
      else Serialized(chats[i := chats[i].(
        messages := ReplaceContent(chats[i].messages, messageId, content),
        updatedAt := now)])
  }

  // ---------------------------------------------------------------------
  // The storage backend and the store's operations

  class AsyncStore {
    /** The value under the chat-list key. */
    var chatsItem: StoredChats
    /** The value under the current-chat key. */
    var currentChatItem: Option<string>

    constructor (chats: StoredChats, current: Option<string>)
      ensures chatsItem == chats && currentChatItem == current
    {
      chatsItem := chats;
      currentChatItem := current;
    }

    /** The chats the store currently holds, as a read sees them. */
    function Chats(): seq<Chat>
      reads this
    {
      Decode(chatsItem)
    }

    /** Reads every chat; never fails: nothing, empty text or unparseable text read as no chats. */
    method GetChats() returns (chats: seq<Chat>)
      ensures chatsItem.Serialized? ==> chats == chatsItem.chats
      ensures !chatsItem.Serialized? ==> chats == []
      ensures chats == Chats()
    {
      match chatsItem
      case Missing => chats := [];
      case EmptyText => chats := [];
      case Unparseable => chats := [];
      case Serialized(parsed) => chats := parsed;
    }

    /** Writes the whole list under the chat-list key. */
    method SaveChats(chats: seq<Chat>)
      modifies this`chatsItem
      ensures chatsItem == Serialized(chats)
    {
      chatsItem := Serialized(chats);
    }

    /** The first stored chat with id `id`, or None. */
    method GetChatById(id: string) returns (r: Option<Chat>)
      ensures r.Some? ==> r.value in Chats() && r.value.id == id
      ensures r.None? <==> forall c :: c in Chats() ==> c.id != id
      ensures r == FindChat(Chats(), id)
    {
      var chats := GetChats();
      r := FindChat(chats, id);
    }

    /**
     * Creates a chat with the given id at time `now` (`createChat` derives
     * both from the clock and a random number) and stores it first.
     */
    method CreateChat(model: string, id: string, now: int) returns (chat: Chat)
      modifies this`chatsItem
      ensures chat == Chat(id, NewChatTitle, model, [], now, now)
      ensures chatsItem == AfterCreate(old(chatsItem), chat)
      ensures Chats() == [chat] + old(Chats())
    {
      chat := Chat(id, NewChatTitle, model, [], now, now);
      var chats := GetChats();
      chats := [chat] + chats;
      SaveChats(chats);
    }

    /** Merges `updates` into the first chat with id `id` and stamps it with `now`. */
    method UpdateChat(id: string, updates: ChatPatch, now: int)
      modifies this`chatsItem
      ensures chatsItem == AfterUpdate(old(chatsItem), id, updates, now)
    {
      var chats := GetChats();
      var idx := IndexOfChat(chats, id);
      if idx.Some? {
        var i := idx.value;
        chats := chats[i := MergePatch(chats[i], updates, now)];
        SaveChats(chats);
      }
    }

    /** Removes every chat with id `id`. */
    method DeleteChat(id: string)
      modifies this`chatsItem
      ensures chatsItem == AfterDelete(old(chatsItem), id)
    {
      var chats := GetChats();
      SaveChats(RemoveChats(chats, id));
    }

    /** Pushes `message` onto the first chat with id `chatId`, auto-titling it from its first user message. */
    method AddMessageToChat(chatId: string, message: ChatMessage, now: int)
      modifies this`chatsItem
      ensures chatsItem == AfterAddMessage(old(chatsItem), chatId, message, now)
    {
      var chats := GetChats();
      var idx := IndexOfChat(chats, chatId);
      if idx.Some? {
        var i := idx.value;
        var chat := chats[i];
        chat := chat.(messages := chat.messages + [message]);
        chat := chat.(updatedAt := now);
        if chat.title == NewChatTitle && message.role == User && |UserMessages(chat.messages)| == 1 {
          chat := chat.(title := DeriveTitle(message.content));
        }
        chats := chats[i := chat];
        SaveChats(chats);
      }
    }

    /** Sets the content of the first message with id `messageId` in the first chat with id `chatId`. */
    method UpdateAssistantMessage(chatId: string, messageId: string, content: string, now: int)
      modifies this`chatsItem
      ensures chatsItem == AfterUpdateMessage(old(chatsItem), chatId, messageId, content, now)
    {
      var chats := GetChats();
      var idx := IndexOfChat(chats, chatId);
      if idx.Some? {
        var i := idx.value;
        var msgIdx := IndexOfMessage(chats[i].messages, messageId);
        if msgIdx.Some? {
          var k := msgIdx.value;
          var chat := chats[i];
          chat := chat.(messages := chat.messages[k := chat.messages[k].(content := content)]);
          chat := chat.(updatedAt := now);
          chats := chats[i := chat];
          SaveChats(chats);
        }
      }
    }

    /** The id stored under the current-chat key, if any. */
    method GetCurrentChatId() returns (id: Option<string>)
      ensures id == currentChatItem
    {
      id := currentChatItem;
    }

    /** Stores a non-empty id; None or the empty id (both falsy) removes the key. */
    method SetCurrentChatId(id: Option<string>)
      modifies this`currentChatItem
      ensures currentChatItem.Some? <==> id.Some? && id.value != ""
      ensures currentChatItem.Some? ==> currentChatItem == id
    {
      if id.Some? && id.value != "" {
        currentChatItem := id;
      } else {
        currentChatItem := None;
      }
    }
  }

  // ---------------------------------------------------------------------
  // Properties of the transitions

  /** Rewriting one chat leaves the index of an id that neither its old nor its new id is. */
  lemma {:induction false} IndexOfOtherAfterRewrite(chats: seq<Chat>, i: nat, c: Chat, other: string)
    requires i < |chats| && other != chats[i].id && other != c.id
    ensures IndexOfChat(chats[i := c], other) == IndexOfChat(chats, other)
    decreases |chats|
  {
    if i == 0 {
      assert chats[i := c][1..] == chats[1..];
    } else if chats[0].id != other {
      assert chats[i := c][1..] == chats[1..][i - 1 := c];
      IndexOfOtherAfterRewrite(chats[1..], i - 1, c, other);
    }
  }

  /** Rewriting one chat leaves every lookup of an id that neither its old nor its new id is. */
  lemma FindOtherAfterRewrite(chats: seq<Chat>, i: nat, c: Chat, other: string)
    requires i < |chats| && other != chats[i].id && other != c.id
    ensures FindChat(chats[i := c], other) == FindChat(chats, other)
  {
    IndexOfOtherAfterRewrite(chats, i, c, other);
  }

  /** After a create, looking up the new id finds the new chat, whatever id it has. */
  lemma {:induction false} FindAfterCreate(item: StoredChats, chat: Chat, other: string)
    ensures FindChat(Decode(AfterCreate(item, chat)), chat.id) == Some(chat)
    ensures |Decode(AfterCreate(item, chat))| == |Decode(item)| + 1
    ensures Decode(AfterCreate(item, chat))[1..] == Decode(item)
    ensures other != chat.id ==>
      FindChat(Decode(AfterCreate(item, chat)), other) == FindChat(Decode(item), other)
  {
    var chats := [chat] + Decode(item);
    assert chats[1..] == Decode(item);
    if other != chat.id {
      assert IndexOfChat(chats, other) ==
        match IndexOfChat(chats[1..], other)
        case None => None
        case Some(k) => Some(k + 1);
    }
  }

  /** Deleting twice is deleting once. */
  lemma DeleteIdempotent(item: StoredChats, id: string)
    ensures AfterDelete(AfterDelete(item, id), id) == AfterDelete(item, id)
  {
    RemoveChatsIdempotent(Decode(item), id);
  }

  /** After a delete no chat has the id, and every other chat is found as before. */
  lemma FindAfterDelete(item: StoredChats, id: string, other: string)
    ensures FindChat(Decode(AfterDelete(item, id)), id) == None
    ensures other != id ==>
      FindChat(Decode(AfterDelete(item, id)), other) == FindChat(Decode(item), other)
  {
    if other != id {
      RemoveChatsKeepsOthers(Decode(item), id, other);
    }
  }

  /**
   * An update, renaming or not, changes at most one entry, in place: the
   * number of chats stays, and a lookup of an id that is neither the updated
   * id nor the id the update gives finds what it found before.
   */
  lemma UpdateKeepsOthers(item: StoredChats, id: string, updates: ChatPatch, now: int, other: string)
    requires other != id && updates.id.GetOr(id) != other
    ensures |Decode(AfterUpdate(item, id, updates, now))| == |Decode(item)|
    ensures FindChat(Decode(AfterUpdate(item, id, updates, now)), other) == FindChat(Decode(item), other)
  {
    var chats := Decode(item);
    match IndexOfChat(chats, id)
    case None =>
    case Some(i) =>
      var c := MergePatch(chats[i], updates, now);
      FindOtherAfterRewrite(chats, i, c, other);
  }

  /** An update of a present chat that keeps its id is found by that id, merged. */
  lemma UpdateFindsMerged(item: StoredChats, id: string, updates: ChatPatch, now: int)
    requires IndexOfChat(Decode(item), id).Some? && updates.id.GetOr(id) == id
    ensures FindChat(Decode(AfterUpdate(item, id, updates, now)), id) ==
      Some(MergePatch(FindChat(Decode(item), id).value, updates, now))
  {
    var chats := Decode(item);
    var i := IndexOfChat(chats, id).value;
    IndexOfChatIds(chats, chats[i := MergePatch(chats[i], updates, now)], id);
  }

  /**
   * Adding a message to a present chat changes that chat as AppendMessage
   * says and no other chat; adding to an absent chat writes nothing.
   */
  lemma AddMessageEffect(item: StoredChats, chatId: string, message: ChatMessage, now: int, other: string)
    ensures FindChat(Decode(item), chatId).None? ==> AfterAddMessage(item, chatId, message, now) == item
    ensures FindChat(Decode(item), chatId).Some? ==>
      FindChat(Decode(AfterAddMessage(item, chatId, message, now)), chatId) ==
        Some(AppendMessage(FindChat(Decode(item), chatId).value, message, now))
    ensures other != chatId ==>
      FindChat(Decode(AfterAddMessage(item, chatId, message, now)), other) == FindChat(Decode(item), other)
    ensures |Decode(AfterAddMessage(item, chatId, message, now))| == |Decode(item)|
  {
    var chats := Decode(item);
    match IndexOfChat(chats, chatId)
    case None =>
    case Some(i) =>
      var c := AppendMessage(chats[i], message, now);
      AppendMessageShape(chats[i], message, now);
      IndexOfChatIds(chats, chats[i := c], chatId);
      if other != chatId {
        FindOtherAfterRewrite(chats, i, c, other);
      }
  }

  /** Replacing a message's content twice with the same text is doing it once, at the later time. */
  lemma UpdateMessageIdempotent(item: StoredChats, chatId: string, messageId: string, content: string, t1: int, t2: int)
    ensures AfterUpdateMessage(AfterUpdateMessage(item, chatId, messageId, content, t1), chatId, messageId, content, t2)
      == AfterUpdateMessage(item, chatId, messageId, content, t2)
  {
    var chats := Decode(item);
    match IndexOfChat(chats, chatId)
    case None =>
    case Some(i) =>
      var ms := chats[i].messages;
      if IndexOfMessage(ms, messageId).Some? {
        var ms1 := ReplaceContent(ms, messageId, content);
        var c := chats[i].(messages := ms1, updatedAt := t1);
        var chats1 := chats[i := c];
        IndexOfChatIds(chats, chats1, chatId);
        ReplaceContentShape(ms, messageId, content);
        IndexOfMessageIds(ms, ms1, messageId);
        ReplaceContentIdempotent(ms, messageId, content);
        assert chats1[i := chats1[i].(messages := ReplaceContent(ms1, messageId, content), updatedAt := t2)]
          == chats[i := chats[i].(messages := ms1, updatedAt := t2)];
      }
  }

  /** A chat at the front of the list is the one an append to its id changes. */
  lemma AddToFront(c: Chat, rest: seq<Chat>, m: ChatMessage, now: int)
    ensures AfterAddMessage(Serialized([c] + rest), c.id, m, now) == Serialized([AppendMessage(c, m, now)] + rest)
  {
    assert ([c] + rest)[0 := AppendMessage(c, m, now)] == [AppendMessage(c, m, now)] + rest;
  }

  /** A chat at the front of the list is the one a content update for its id changes. */
  lemma UpdateAtFront(c: Chat, rest: seq<Chat>, messageId: string, content: string, now: int)
    requires IndexOfMessage(c.messages, messageId).Some?
    ensures AfterUpdateMessage(Serialized([c] + rest), c.id, messageId, content, now) ==
      Serialized([c.(messages := ReplaceContent(c.messages, messageId, content), updatedAt := now)] + rest)
  {
    var c' := c.(messages := ReplaceContent(c.messages, messageId, content), updatedAt := now);
    assert ([c] + rest)[0 := c'] == [c'] + rest;
  }

  /**
   * One conversation turn on a fresh chat: create it, append the user
   * message and an empty assistant placeholder, then write the streamed
   * reply into the placeholder. The chat ends up first, titled from the user
   * message, holding both messages with the reply as the assistant's
   * content, and stamped with the time of the last write.
   */
  lemma {:induction false} FirstTurn(item: StoredChats, chatId: string, model: string,
                                     u: ChatMessage, a: ChatMessage, reply: string,
                                     t0: int, t1: int, t2: int, t3: int)
    requires u.role == User && a.role == Assistant && a.content == "" && u.id != a.id
    ensures
      var s1 := AfterCreate(item, Chat(chatId, NewChatTitle, model, [], t0, t0));
      var s2 := AfterAddMessage(s1, chatId, u, t1);
      var s3 := AfterAddMessage(s2, chatId, a, t2);
      var s4 := AfterUpdateMessage(s3, chatId, a.id, reply, t3);
      Decode(s4) == [Chat(chatId, DeriveTitle(u.content), model, [u, a.(content := reply)], t0, t3)] + Decode(item)
  {
    var rest := Decode(item);
    var c0 := Chat(chatId, NewChatTitle, model, [], t0, t0);
    var c1 := AppendMessage(c0, u, t1);
    AppendMessageShape(c0, u, t1);
    assert c1 == Chat(chatId, DeriveTitle(u.content), model, [u], t0, t1);
    var c2 := AppendMessage(c1, a, t2);
    TitleKeptAfterFirstUser(c1, a, t2);
    AppendMessageShape(c1, a, t2);
    assert c2 == Chat(chatId, DeriveTitle(u.content), model, [u, a], t0, t2);
    assert IndexOfMessage(c2.messages, a.id) == Some(1);
    assert ReplaceContent(c2.messages, a.id, reply) == [u, a.(content := reply)];
    AddToFront(c0, rest, u, t1);
    AddToFront(c1, rest, a, t2);
    UpdateAtFront(c2, rest, a.id, reply, t3);
  }
}
