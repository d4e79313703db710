/**
 * The two server actions of app/actions/chat-actions.ts: build a message and append it to a
 * chat through the store. The module is a "use server" module, so the store it reaches may
 * have no `window`; that case is the store's `available == false`, where every chat is "not
 * found". Message ids and the clock are parameters.
 */
module ChatActions {
  import opened Wrappers
  import opened ChatStorage

  method SaveUserMessage(store: Store, chatId: string, content: string, messageId: string, now: int)
    returns (r: Result<ChatMessage, string>)
    requires store.Valid()
    modifies store
    ensures store.Valid() && store.available == old(store.available)
    ensures r.Success? <==> old(store.GetChatById(chatId)).Some?
    ensures r.Failure? ==> r.error == NotFoundMessage(chatId) && unchanged(store)
    ensures r.Success? ==> r.value == ChatMessage(messageId, content, "user", now)
    ensures r.Success? ==>
      var before := old(store.GetChatById(chatId)).value;
      && store.GetChatById(chatId) == Some(AppendMessage(before, r.value))
      && (UserCount(before.messages) == 0 ==> store.GetChatById(chatId).value.title == TitleFrom(content))
  {
    var userChatMessage := ChatMessage(messageId, content, "user", now);
    var saved := store.AddMessageToChat(chatId, userChatMessage);
    if saved.Failure? {
      return Failure(saved.error);
    }
    r := Success(userChatMessage);
  }

  method SaveAIMessage(store: Store, chatId: string, content: string, messageId: string, now: int)
    returns (r: Result<ChatMessage, string>)
    requires store.Valid()
    modifies store
    ensures store.Valid() && store.available == old(store.available)
    ensures r.Success? <==> old(store.GetChatById(chatId)).Some?
    ensures r.Failure? ==> r.error == NotFoundMessage(chatId) && unchanged(store)
    ensures r.Success? ==> r.value == ChatMessage(messageId, content, "assistant", now)
    ensures r.Success? ==>
      var before := old(store.GetChatById(chatId)).value;
      && store.GetChatById(chatId) == Some(AppendMessage(before, r.value))
      && store.GetChatById(chatId).value.title == before.title
  {
    var aiChatMessage := ChatMessage(messageId, content, "assistant", now);
    var saved := store.AddMessageToChat(chatId, aiChatMessage);
    if saved.Failure? {
      return Failure(saved.error);
    }
    r := Success(aiChatMessage);
  }
}
