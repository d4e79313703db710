/**
 * The conversation store (lib/chat-storage.ts): chats and their messages kept as one
 * JSON record in the browser's localStorage, read back newest first.
 *
 * The storage record is the field `stored` of a `Store` object; `available` says whether
 * the code runs where `window` exists (otherwise every read yields [] and every write is
 * skipped), and `corrupt` says that the record does not parse (reads yield []).
 * Identifiers and clock readings are parameters.
 */
module ChatStorage {
  import opened Wrappers
  import opened Strings

  datatype ChatMessage = ChatMessage(id: string, content: string, sender: string, timestamp: int)

  datatype Chat = Chat(id: string, title: string, lastMessage: string, timestamp: int, messages: seq<ChatMessage>)

  const NewChatTitle := "New Conversation"
  const TitleLength := 30
  const Ellipsis := "..."

  /** The preview shown for a new chat; the greeting message itself continues it. */
  const GreetingPreview := "Hi there! I'm your AI mental health assistant. How are you feeling today?"
  const Greeting := GreetingPreview + " I'm here to listen and support you. Feel free to share whatever is on your mind, whether you're looking for coping strategies, need someone to talk to, or just want to reflect on your emotions."

  function NotFoundMessage(chatId: string): string {
    "Chat with ID " + chatId + " not found"
  }

  // ---------------------------------------------------------------------------
  // Reading back: newest first (a stable sort on timestamp, descending)
  // ---------------------------------------------------------------------------

  predicate NewestFirst(s: seq<Chat>) {
    forall i, j :: 0 <= i < j < |s| ==> s[i].timestamp >= s[j].timestamp
  }

  /** No two chats share an id. */
  predicate DistinctIds(s: seq<Chat>) {
    forall i, j :: 0 <= i < j < |s| ==> s[i].id != s[j].id
  }

  predicate HasId(s: seq<Chat>, id: string) {
    exists i :: 0 <= i < |s| && s[i].id == id
  }

  /** Places `c` in front of the first chat that is not newer than it. */
  function InsertByRecency(c: Chat, s: seq<Chat>): (r: seq<Chat>)
    ensures multiset(r) == multiset(s) + multiset{c}
  {
    if s == [] || s[0].timestamp <= c.timestamp then
      [c] + s
    else
      assert s == [s[0]] + s[1..];
      [s[0]] + InsertByRecency(c, s[1..])
  }

  lemma InsertMembers(c: Chat, s: seq<Chat>)
    ensures forall x :: x in InsertByRecency(c, s) <==> x == c || x in s
  {
    var r := InsertByRecency(c, s);
    assert forall x :: x in r <==> x in multiset(r);
    assert forall x :: x in s <==> x in multiset(s);
  }

  lemma {:induction false} InsertNewestFirst(c: Chat, s: seq<Chat>)
    requires NewestFirst(s)
    ensures NewestFirst(InsertByRecency(c, s))
  {
    if s != [] && s[0].timestamp > c.timestamp {
      InsertNewestFirst(c, s[1..]);
      InsertMembers(c, s[1..]);
      var t := InsertByRecency(c, s[1..]);
      assert forall x :: x in t ==> x.timestamp <= s[0].timestamp;
      assert forall j :: 0 <= j < |t| ==> t[j] in t;
    }
  }

  lemma {:induction false} InsertDistinct(c: Chat, s: seq<Chat>)
    requires DistinctIds(s) && forall x :: x in s ==> x.id != c.id
    ensures DistinctIds(InsertByRecency(c, s))
  {
    if s != [] && s[0].timestamp > c.timestamp {
      InsertDistinct(c, s[1..]);
      InsertMembers(c, s[1..]);
      var t := InsertByRecency(c, s[1..]);
      assert forall x :: x in t ==> x.id != s[0].id;
      assert forall j :: 0 <= j < |t| ==> t[j] in t;
    }
  }

  /** `getSavedChats`' ordering: newest first; chats with equal timestamps keep their order. */
  function SortByRecency(s: seq<Chat>): (r: seq<Chat>)
    ensures multiset(r) == multiset(s)
  {
    if s == [] then []
    else
      assert s == [s[0]] + s[1..];
      InsertByRecency(s[0], SortByRecency(s[1..]))
  }

  /** The sorted list is newest first, holds the same chats, and keeps ids distinct. */
  lemma {:induction false} SortProperties(s: seq<Chat>)
    ensures NewestFirst(SortByRecency(s))
    ensures forall x :: x in SortByRecency(s) <==> x in s
    ensures DistinctIds(s) ==> DistinctIds(SortByRecency(s))
  {
    if s != [] {
      var t := SortByRecency(s[1..]);
      SortProperties(s[1..]);
      InsertNewestFirst(s[0], t);
      InsertMembers(s[0], t);
      assert forall x :: x in s <==> x == s[0] || x in s[1..];
      if DistinctIds(s) {
        assert forall x :: x in s[1..] ==> x.id != s[0].id;
        InsertDistinct(s[0], t);
      }
    }
  }

  /** Sorting a list that is already newest first leaves it as it is. */
  lemma {:induction false} SortKeepsSorted(s: seq<Chat>)
    requires NewestFirst(s)
    ensures SortByRecency(s) == s
  {
    if s != [] {
      SortKeepsSorted(s[1..]);
      assert [s[0]] + s[1..] == s;
    }
  }

  // ---------------------------------------------------------------------------
  // Lookup, upsert and removal on a list of chats
  // ---------------------------------------------------------------------------

  /** `chats.findIndex((c) => c.id === id)`. */
  function FindIndex(chats: seq<Chat>, id: string): (i: int)
    ensures -1 <= i < |chats|
    ensures i >= 0 ==> chats[i].id == id && forall j :: 0 <= j < i ==> chats[j].id != id
    ensures i == -1 <==> !HasId(chats, id)
  {
    if |chats| == 0 then -1
    else if chats[0].id == id then 0
    else
      var k := FindIndex(chats[1..], id);
      assert chats == [chats[0]] + chats[1..];
      if k == -1 then -1 else k + 1
  }

  /** `chats.find((c) => c.id === id) || null`. */
  function FindChat(chats: seq<Chat>, id: string): (r: Option<Chat>)
    ensures r.Some? <==> HasId(chats, id)
    ensures r.Some? ==> r.value in chats && r.value.id == id
  {
    var i := FindIndex(chats, id);
    if i < 0 then None else Some(chats[i])
  }

  lemma FindDistinct(chats: seq<Chat>, c: Chat)
    requires DistinctIds(chats) && c in chats
    ensures FindChat(chats, c.id) == Some(c)
  {
  }

  /** The list `saveChat` writes back: the chat replaces the first one with its id, or goes in front. */
  function Upsert(chats: seq<Chat>, chat: Chat): (r: seq<Chat>)
    ensures HasId(chats, chat.id) ==>
      var i := FindIndex(chats, chat.id);
      |r| == |chats| && r[i] == chat && forall j :: 0 <= j < |r| && j != i ==> r[j] == chats[j]
    ensures !HasId(chats, chat.id) ==> r == [chat] + chats
    ensures DistinctIds(chats) ==> DistinctIds(r)
  {
    var i := FindIndex(chats, chat.id);
    if i >= 0 then chats[i := chat] else [chat] + chats
  }

  /** `chats.filter((chat) => chat.id !== id)`. */
  function RemoveId(chats: seq<Chat>, id: string): (r: seq<Chat>)
    ensures |r| <= |chats|
  {
    if chats == [] then []
    else
      var rest := RemoveId(chats[1..], id);
      if chats[0].id == id then rest else [chats[0]] + rest
  }

  /** The filter keeps exactly the chats whose id differs. */
  lemma {:induction false} RemoveIdMembers(chats: seq<Chat>, id: string)
    ensures forall c :: c in RemoveId(chats, id) <==> c in chats && c.id != id
  {
    if chats != [] {
      RemoveIdMembers(chats[1..], id);
      assert forall c :: c in chats <==> c == chats[0] || c in chats[1..];
    }
  }

  /** The filter keeps the chats it keeps in their order, so a newest-first list stays so. */
  lemma {:induction false} RemoveIdNewestFirst(chats: seq<Chat>, id: string)
    requires NewestFirst(chats)
    ensures NewestFirst(RemoveId(chats, id))
  {
    if chats != [] {
      var rest := RemoveId(chats[1..], id);
      RemoveIdNewestFirst(chats[1..], id);
      if chats[0].id != id {
        RemoveIdMembers(chats[1..], id);
        var r := [chats[0]] + rest;
        forall i, j | 0 <= i < j < |r|
          ensures r[i].timestamp >= r[j].timestamp
        {
          assert r[j] == rest[j - 1] && rest[j - 1] in chats[1..];
          if i > 0 {
            assert r[i] == rest[i - 1];
          }
        }
      }
    }
  }

  /** The filter keeps ids distinct. */
  lemma {:induction false} RemoveIdDistinct(chats: seq<Chat>, id: string)
    requires DistinctIds(chats)
    ensures DistinctIds(RemoveId(chats, id))
  {
    if chats != [] {
      var rest := RemoveId(chats[1..], id);
      RemoveIdDistinct(chats[1..], id);
      if chats[0].id != id {
        RemoveIdMembers(chats[1..], id);
        assert forall c :: c in chats[1..] ==> c.id != chats[0].id;
        assert forall j :: 0 <= j < |rest| ==> rest[j] in rest;
      }
    }
  }

  /** Removing an id a second time changes nothing. */
  lemma {:induction false} RemoveIdIdempotent(chats: seq<Chat>, id: string)
    ensures RemoveId(RemoveId(chats, id), id) == RemoveId(chats, id)
  {
    if chats != [] {
      RemoveIdIdempotent(chats[1..], id);
    }
  }

  // ---------------------------------------------------------------------------
  // Titles and appending a message
  // ---------------------------------------------------------------------------

  /** Index of `messages.find((msg) => msg.sender === "user")`, or -1. */
  function FirstUserIndex(messages: seq<ChatMessage>): (i: int)
    ensures -1 <= i < |messages|
    ensures i >= 0 ==> messages[i].sender == "user" && forall j :: 0 <= j < i ==> messages[j].sender != "user"
    ensures i == -1 <==> forall j :: 0 <= j < |messages| ==> messages[j].sender != "user"
  {
    if |messages| == 0 then -1
    else if messages[0].sender == "user" then 0
    else
      var k := FirstUserIndex(messages[1..]);
      if k == -1 then -1 else k + 1
  }

  /** The title taken from a first user message: its first 30 characters, with "..." when cut. */
  function TitleFrom(content: string): (t: string)
    ensures |t| <= TitleLength + |Ellipsis|
    ensures |content| <= TitleLength ==> t == content
    ensures |content| > TitleLength ==> t == content[..TitleLength] + Ellipsis
  {
    var title := if |content| <= TitleLength then content else content[..TitleLength];
    if |title| < |content| then title + Ellipsis else title
  }

  function GenerateChatTitle(messages: seq<ChatMessage>): (t: string)
    ensures FirstUserIndex(messages) == -1 ==> t == NewChatTitle
    ensures FirstUserIndex(messages) >= 0 ==> t == TitleFrom(messages[FirstUserIndex(messages)].content)
  {
    var i := FirstUserIndex(messages);
    if i >= 0 then TitleFrom(messages[i].content) else NewChatTitle
  }

  /** `messages.filter((m) => m.sender === "user").length`. */
  function UserCount(messages: seq<ChatMessage>): nat {
    if messages == [] then 0
    else UserCount(messages[..|messages| - 1]) + (if messages[|messages| - 1].sender == "user" then 1 else 0)
  }

  lemma {:induction false} NoUserCountZero(messages: seq<ChatMessage>)
    requires UserCount(messages) == 0
    ensures forall j :: 0 <= j < |messages| ==> messages[j].sender != "user"
  {
    if messages != [] {
      NoUserCountZero(messages[..|messages| - 1]);
      assert forall j :: 0 <= j < |messages| - 1 ==> messages[..|messages| - 1][j] == messages[j];
    }
  }

  /**
   * The chat `addMessageToChat` writes back: the message appended, preview and time copied
   * from it, and the title regenerated exactly when it is the chat's first user message.
   */
  function AppendMessage(chat: Chat, m: ChatMessage): (c: Chat)
    ensures c.id == chat.id && c.messages == chat.messages + [m]
    ensures c.lastMessage == m.content && c.timestamp == m.timestamp
    ensures m.sender == "user" && UserCount(chat.messages) == 0 ==> c.title == TitleFrom(m.content)
    ensures !(m.sender == "user" && UserCount(chat.messages) == 0) ==> c.title == chat.title
  {
    var messages := chat.messages + [m];
    assert messages[..|messages| - 1] == chat.messages;
    var title :=
      if m.sender == "user" && UserCount(messages) == 1 then
        NoUserCountZero(chat.messages);
        assert FirstUserIndex(messages) == |chat.messages|;
        GenerateChatTitle(messages)
      else chat.title;
    Chat(chat.id, title, m.content, m.timestamp, messages)
  }

  /** The chat `createNewChat` builds: one assistant greeting, stamped with the chat's own time. */
  function NewChat(id: string, messageId: string, now: int): (c: Chat)
    ensures c.id == id && c.title == NewChatTitle && c.timestamp == now
    ensures |c.messages| == 1 && c.messages[0].id == messageId
    ensures c.messages[0].sender == "assistant" && c.messages[0].timestamp == c.timestamp
    ensures c.lastMessage < c.messages[0].content
  {
    Chat(id, NewChatTitle, GreetingPreview, now, [ChatMessage(messageId, Greeting, "assistant", now)])
  }

  lemma FindAfterUpsert(chats: seq<Chat>, c: Chat)
    requires DistinctIds(chats)
    ensures FindChat(SortByRecency(Upsert(chats, c)), c.id) == Some(c)
  {
    var u := Upsert(chats, c);
    assert c in u;
    SortProperties(u);
    FindDistinct(SortByRecency(u), c);
  }

  // ---------------------------------------------------------------------------
  // The store
  // ---------------------------------------------------------------------------

  class Store {
    /** The parsed `serenify-chats` record (absent counts as empty). */
    var stored: seq<Chat>
    /** `typeof window !== "undefined"`. */
    var available: bool
    /** The record is present but does not parse. */
    var corrupt: bool

    ghost predicate Valid()
      reads this
    {
      DistinctIds(stored)
    }

    constructor (available: bool, initial: seq<Chat>, corrupt: bool)
      requires DistinctIds(initial)
      ensures Valid()
      ensures this.available == available && stored == initial && this.corrupt == corrupt
    {
      this.available := available;
      stored := initial;
      this.corrupt := corrupt;
    }

    /** `getSavedChats`: every stored chat, newest first; [] without storage or a readable record. */
    function GetSavedChats(): (r: seq<Chat>)
      reads this
      ensures !available || corrupt ==> r == []
      ensures available && !corrupt ==> multiset(r) == multiset(stored)
      ensures NewestFirst(r)
      ensures DistinctIds(stored) ==> DistinctIds(r)
    {
      if !available || corrupt then []
      else
        SortProperties(stored);
        SortByRecency(stored)
    }

    /** `getChatById`: found exactly when a readable record holds a chat with that id. */
    function GetChatById(id: string): (r: Option<Chat>)
      reads this
      ensures r.Some? <==> available && !corrupt && HasId(stored, id)
      ensures r.Some? ==> r.value in stored && r.value.id == id
    {
      var saved := GetSavedChats();
      SortProperties(stored);
      assert available && !corrupt ==> forall i :: 0 <= i < |stored| ==> stored[i] in saved;
      FindChat(saved, id)
    }

    method SaveChat(chat: Chat)
      requires Valid()
      modifies this
      ensures Valid() && available == old(available)
      ensures !available ==> stored == old(stored) && corrupt == old(corrupt)
      ensures available ==> stored == Upsert(old(GetSavedChats()), chat) && !corrupt
    {
      if !available {
        return;
      }
      var chats := GetSavedChats();
      var existingIndex := FindIndex(chats, chat.id);
      if existingIndex >= 0 {
        chats := chats[existingIndex := chat];
      } else {
        chats := [chat] + chats;
      }
      stored := chats;
      corrupt := false;
    }

    method DeleteChat(id: string)
      requires Valid()
      modifies this
      ensures Valid() && available == old(available)
      ensures !available ==> stored == old(stored) && corrupt == old(corrupt)
      ensures available ==> stored == RemoveId(old(GetSavedChats()), id) && !corrupt
      ensures !HasId(GetSavedChats(), id)
    {
      if !available {
        assert GetSavedChats() == [];
        return;
      }
      var chats := GetSavedChats();
      RemoveIdMembers(chats, id);
      RemoveIdDistinct(chats, id);
      RemoveIdNewestFirst(chats, id);
      stored := RemoveId(chats, id);
      corrupt := false;
      SortKeepsSorted(stored);
    }

    method CreateNewChat(newId: string, messageId: string, now: int) returns (chat: Chat)
      requires Valid()
      modifies this
      ensures chat == NewChat(newId, messageId, now)
      ensures Valid() && available == old(available)
      ensures !available ==> stored == old(stored) && corrupt == old(corrupt)
      ensures available ==> stored == Upsert(old(GetSavedChats()), chat) && GetChatById(newId) == Some(chat)
    {
      chat := NewChat(newId, messageId, now);
      SaveChat(chat);
      if available {
        FindAfterUpsert(old(GetSavedChats()), chat);
      }
    }

    method AddMessageToChat(chatId: string, message: ChatMessage) returns (r: Result<Chat, string>)
      requires Valid()
      modifies this
      ensures Valid() && available == old(available)
      ensures old(GetChatById(chatId)).None? ==> r == Failure(NotFoundMessage(chatId)) && unchanged(this)
      ensures old(GetChatById(chatId)).Some? ==>
        && r == Success(AppendMessage(old(GetChatById(chatId)).value, message))
        && stored == Upsert(old(GetSavedChats()), r.value)
        && GetChatById(chatId) == Some(r.value)
    {
      var found := GetChatById(chatId);
      if found.None? {
        return Failure(NotFoundMessage(chatId));
      }
      var chat := AppendMessage(found.value, message);
      SaveChat(chat);
      FindAfterUpsert(old(GetSavedChats()), chat);
      r := Success(chat);
    }
  }

  /** Deleting the same id twice in a row leaves the record as the first deletion did. */
  lemma DeleteTwice(stored: seq<Chat>, id: string)
    ensures var once := RemoveId(SortByRecency(stored), id);
            RemoveId(SortByRecency(once), id) == once
  {
    var once := RemoveId(SortByRecency(stored), id);
    SortProperties(stored);
    RemoveIdNewestFirst(SortByRecency(stored), id);
    SortKeepsSorted(once);
    RemoveIdIdempotent(SortByRecency(stored), id);
  }
}
