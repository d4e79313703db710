/**
 * The conversation list of components/chat-list.tsx: the search filter over titles and
 * previews, the grouping of the filtered chats by age into "Today", "Yesterday", "This Week",
 * "This Month" and "Older", and the confirmed deletion. Navigation and the relative-time
 * labels are not modelled; the clock is a parameter.
 */
module ChatList {
  import opened Wrappers
  import opened Strings
  import opened Calendar
  import opened ChatStorage

  /** The search keeps a chat whose lower-cased title or preview contains the lower-cased query. */
  predicate Matches(chat: Chat, query: string) {
    Contains(ToLower(chat.title), ToLower(query)) || Contains(ToLower(chat.lastMessage), ToLower(query))
  }

  /** `chats.filter(...)` with the search predicate. */
  function Filter(chats: seq<Chat>, query: string): (r: seq<Chat>)
    ensures |r| <= |chats|
  {
    if chats == [] then []
    else (if Matches(chats[0], query) then [chats[0]] else []) + Filter(chats[1..], query)
  }

  lemma {:induction false} FilterMembers(chats: seq<Chat>, query: string)
    ensures forall c :: c in Filter(chats, query) <==> c in chats && Matches(c, query)
  {
    if chats != [] {
      FilterMembers(chats[1..], query);
      assert chats == [chats[0]] + chats[1..];
    }
  }

  /** `a` is `b` with some elements left out, the rest in their order. */
  predicate IsSubsequence(a: seq<Chat>, b: seq<Chat>)
    decreases |b|
  {
    if a == [] then true
    else if b == [] then false
    else if a[0] == b[0] then IsSubsequence(a[1..], b[1..])
    else IsSubsequence(a, b[1..])
  }

  /** The search keeps the chats in their order. */
  lemma {:induction false} FilterSubsequence(chats: seq<Chat>, query: string)
    ensures IsSubsequence(Filter(chats, query), chats)
  {
    if chats != [] {
      FilterSubsequence(chats[1..], query);
      var rest := Filter(chats[1..], query);
      if Matches(chats[0], query) {
        assert Filter(chats, query) == [chats[0]] + rest;
        assert ([chats[0]] + rest)[1..] == rest;
      } else if rest != [] {
        assert Filter(chats, query) == rest;
        FilterMembers(chats[1..], query);
        assert rest[0] in rest;
        assert rest[0] != chats[0];
      }
    }
  }

  /** The empty query is contained in every string, so it keeps every chat. */
  lemma {:induction false} EmptyQueryKeepsAll(chats: seq<Chat>)
    ensures Filter(chats, "") == chats
  {
    if chats != [] {
      EmptyQueryKeepsAll(chats[1..]);
      assert ToLower("") == "";
      assert Matches(chats[0], "");
      assert chats == [chats[0]] + chats[1..];
    }
  }

  datatype DateGroup = Today | Yesterday | ThisWeek | ThisMonth | Older

  /**
   * The group of a chat stamped `t`, with the cut-offs the repeated `setDate` calls produce:
   * the calendar day of `now`, the day before, after seven days back, after 37 days back.
   */
  function GroupOf(t: int, now: int): DateGroup {
    if SameDay(t, now) then Today
    else if SameDay(t, now - DayMs) then Yesterday
    else if t > now - 7 * DayMs then ThisWeek
    else if t > now - 37 * DayMs then ThisMonth
    else Older
  }

  /**
   * The classification as written: `today` starts at the current time and each `setDate`
   * takes it further back (by one, six, then thirty days).
   */
  method DateGroupOf(t: int, now: int) returns (dateGroup: DateGroup)
    ensures dateGroup == GroupOf(t, now)
  {
    var today := now;
    dateGroup := Older;
    if SameDay(t, today) {
      dateGroup := Today;
    } else {
      today := today - DayMs;
      if SameDay(t, today) {
        dateGroup := Yesterday;
      } else {
        today := today - 6 * DayMs;
        if t > today {
          dateGroup := ThisWeek;
        } else {
          today := today - 30 * DayMs;
          if t > today {
            dateGroup := ThisMonth;
          }
        }
      }
    }
  }

  /** The chats of group `g`, in their order. */
  function Grouped(chats: seq<Chat>, now: int, g: DateGroup): (r: seq<Chat>)
    ensures |r| <= |chats|
  {
    if chats == [] then []
    else
      var last := chats[|chats| - 1];
      Grouped(chats[..|chats| - 1], now, g) + (if GroupOf(last.timestamp, now) == g then [last] else [])
  }

  /** The groups in the order they were first filled, the order `Object.entries` lists them. */
  function GroupKeys(chats: seq<Chat>, now: int): (keys: seq<DateGroup>)
    ensures |keys| <= |chats|
  {
    if chats == [] then []
    else
      var keys := GroupKeys(chats[..|chats| - 1], now);
      var g := GroupOf(chats[|chats| - 1].timestamp, now);
      if g in keys then keys else keys + [g]
  }

  /** A chat is in the group of its timestamp and in no other. */
  lemma {:induction false} GroupedMembers(chats: seq<Chat>, now: int, g: DateGroup)
    ensures forall c :: c in Grouped(chats, now, g) <==> c in chats && GroupOf(c.timestamp, now) == g
  {
    if chats != [] {
      var init := chats[..|chats| - 1];
      GroupedMembers(init, now, g);
      assert chats == init + [chats[|chats| - 1]];
    }
  }

  /** The five groups together hold exactly as many chats as were filtered. */
  lemma {:induction false} GroupsPartition(chats: seq<Chat>, now: int)
    ensures |Grouped(chats, now, Today)| + |Grouped(chats, now, Yesterday)| + |Grouped(chats, now, ThisWeek)|
          + |Grouped(chats, now, ThisMonth)| + |Grouped(chats, now, Older)| == |chats|
  {
    if chats != [] {
      GroupsPartition(chats[..|chats| - 1], now);
    }
  }

  /** A group is listed exactly when it holds a chat, and listed once. */
  lemma {:induction false} GroupKeysSpec(chats: seq<Chat>, now: int)
    ensures forall g :: g in GroupKeys(chats, now) <==> Grouped(chats, now, g) != []
    ensures forall i, j :: 0 <= i < j < |GroupKeys(chats, now)| ==> GroupKeys(chats, now)[i] != GroupKeys(chats, now)[j]
  {
    if chats != [] {
      GroupKeysSpec(chats[..|chats| - 1], now);
    }
  }

  /** The empty-state message shows exactly when no group is drawn. */
  lemma EmptyStateIffNoGroups(chats: seq<Chat>, now: int)
    ensures GroupKeys(chats, now) == [] <==> chats == []
  {
  }

  /** The `forEach` that fills `groupedChats`, with the order in which its keys were added. */
  method GroupChats(filteredChats: seq<Chat>, now: int)
    returns (keys: seq<DateGroup>, groupedChats: map<DateGroup, seq<Chat>>)
    ensures keys == GroupKeys(filteredChats, now)
    ensures forall g :: g in groupedChats <==> g in keys
    ensures forall g :: g in groupedChats ==> groupedChats[g] == Grouped(filteredChats, now, g)
  {
    keys := [];
    groupedChats := map[];
    for i := 0 to |filteredChats|
      invariant keys == GroupKeys(filteredChats[..i], now)
      invariant forall g :: g in groupedChats <==> g in keys
      invariant forall g :: g in groupedChats ==> groupedChats[g] == Grouped(filteredChats[..i], now, g)
    {
      var chat := filteredChats[i];
      assert filteredChats[..i + 1][..i] == filteredChats[..i];
      GroupKeysSpec(filteredChats[..i], now);
      var dateGroup := DateGroupOf(chat.timestamp, now);
      if dateGroup !in groupedChats {
        groupedChats := groupedChats[dateGroup := []];
        keys := keys + [dateGroup];
      }
      groupedChats := groupedChats[dateGroup := groupedChats[dateGroup] + [chat]];
    }
    assert filteredChats[..|filteredChats|] == filteredChats;
  }

  class ChatListView {
    var store: Store
    var chats: seq<Chat>
    var chatToDelete: Option<string>
    var deleteDialogOpen: bool

    ghost predicate Valid()
      reads this, store
    {
      store.Valid()
    }

    /** The list starts as the saved chats. */
    constructor (store: Store)
      requires store.Valid()
      ensures Valid() && this.store == store
      ensures chats == store.GetSavedChats() && chatToDelete.None? && !deleteDialogOpen
    {
      this.store := store;
      chats := store.GetSavedChats();
      chatToDelete := None;
      deleteDialogOpen := false;
    }

    /** The search box's result. */
    function FilteredChats(searchQuery: string): seq<Chat>
      reads this
    {
      Filter(chats, searchQuery)
    }

    /** `handleDeleteClick`: remember the chat and ask for confirmation. */
    method HandleDeleteClick(id: string)
      requires Valid()
      modifies this
      ensures Valid() && store == old(store) && chats == old(chats)
      ensures chatToDelete == Some(id) && deleteDialogOpen
    {
      chatToDelete := Some(id);
      deleteDialogOpen := true;
    }

    /**
     * `confirmDelete`: with a pending id (a non-empty one: the empty string is falsy), delete
     * it, reload the list and forget the id; without one, nothing.
     */
    method ConfirmDelete()
      requires Valid()
      modifies this, store
      ensures Valid() && store == old(store) && deleteDialogOpen == old(deleteDialogOpen)
      ensures store.available == old(store.available)
      ensures (old(chatToDelete).None? || old(chatToDelete).value == "") ==> unchanged(this) && unchanged(store)
      ensures old(chatToDelete).Some? && old(chatToDelete).value != "" ==>
        var id := old(chatToDelete).value;
        && (!store.available ==> store.stored == old(store.stored) && store.corrupt == old(store.corrupt))
        && (store.available ==> store.stored == RemoveId(old(store.GetSavedChats()), id) && !store.corrupt)
        && chats == store.GetSavedChats() && !HasId(chats, id)
        && chatToDelete.None?
    {
      if chatToDelete.Some? && chatToDelete.value != "" {
        var id := chatToDelete.value;
        store.DeleteChat(id);
        chats := store.GetSavedChats();
        chatToDelete := None;
      }
    }
  }
}
