/**
 * The chat widget's store-facing logic: the effect that selects or creates the chat
 * named by the `chatId` prop, and the two send handlers.
 */
module OurChatComponent {
  import opened Wrappers
  import opened OurChatsStore

  const TitlePrefix := "Наш диалог "
  const DefaultSender := "user"
  const AiSender := "ai"
  const TextKind := "text"

  /** JavaScript truthiness of an optional id: null, undefined and "" are falsy. */
  predicate Truthy(id: Option<string>) {
    id.Some? && id.value != ""
  }

  /**
   * The effect on `chatId`/`autoCreate`: a missing chat is created (and so becomes
   * active) when auto-creation is on; otherwise the active id is switched to `chatId`,
   * even when no chat is stored there. A falsy `chatId` does nothing. Auto-creation is
   * on unless the caller turns it off.
   */
  method SyncChat(store: ChatsStore, chatId: Option<string>, autoCreate: bool := true,
                  dateLabel: string, now: Timestamp)
    modifies store
    ensures !Truthy(chatId) ==> store.chats == old(store.chats) && store.activeId == old(store.activeId)
    ensures Truthy(chatId) && chatId.value !in old(store.chats) && autoCreate ==>
      store.chats == old(store.chats)[chatId.value := NewChat(chatId.value, TitlePrefix + dateLabel, now)]
    ensures Truthy(chatId) && (chatId.value in old(store.chats) || !autoCreate) ==>
      store.chats == old(store.chats)
    ensures Truthy(chatId) ==> store.activeId == chatId
  {
    if Truthy(chatId) {
      if chatId.value !in store.chats && autoCreate {
        store.CreateOurChat(chatId.value, TitlePrefix + dateLabel, now);
      } else {
        store.SwitchOurChat(chatId.value);
      }
    }
  }

  /**
   * `handleSendMessage`: with no (truthy) active id nothing is stored and nothing is
   * returned; otherwise `{text, sender, type: 'text'}` is appended to the active id's
   * list (the chat need not exist) and the store's message id is returned. The sender
   * defaults to `user`.
   */
  method HandleSendMessage(store: ChatsStore, text: string, sender: string := DefaultSender,
                           clock: string, suffix: string, now: Timestamp)
    returns (id: Option<string>)
    modifies store
    ensures !Truthy(old(store.activeId)) ==>
      id == None && store.chats == old(store.chats) && store.activeId == old(store.activeId)
    ensures Truthy(old(store.activeId)) ==>
      var active := old(store.activeId).value;
      && id == Some(MessageId(active, clock, suffix))
      && store.chats == old(store.chats)[active := WithMessage(Lookup(old(store.chats), active),
                                                               Message(text, sender, TextKind, id.value, now), now)]
      && store.chats[active].messages[|store.chats[active].messages| - 1]
         == Message(text, sender, TextKind, id.value, now)
      && store.activeId == old(store.activeId)
  {
    if !Truthy(store.activeId) {
      return None;
    }
    var messageId := store.AddOurMessage(store.activeId.value, text, sender, TextKind, clock, suffix, now);
    id := Some(messageId);
  }

  /**
   * `handleAiResponse`: the reply goes through the same path, into the same persisted
   * message list, tagged `ai`.
   */
  method HandleAiResponse(store: ChatsStore, text: string, clock: string, suffix: string, now: Timestamp)
    returns (id: Option<string>)
    modifies store
    ensures !Truthy(old(store.activeId)) ==> id == None && store.chats == old(store.chats)
    ensures Truthy(old(store.activeId)) ==>
      var active := old(store.activeId).value;
      && id == Some(MessageId(active, clock, suffix))
      && store.chats == old(store.chats)[active := WithMessage(Lookup(old(store.chats), active),
                                                               Message(text, AiSender, TextKind, id.value, now), now)]
      && (forall k :: k != active ==> (k in store.chats <==> k in old(store.chats)))
      && (forall k :: k != active && k in store.chats ==> store.chats[k] == old(store.chats)[k])
      && (active in old(store.chats) ==>
            store.chats[active].messages == old(store.chats)[active].messages + [Message(text, AiSender, TextKind, id.value, now)])
      && active in store.chats
      && |store.chats[active].messages| > 0
      && store.chats[active].messages[|store.chats[active].messages| - 1]
         == Message(text, AiSender, TextKind, id.value, now)
    ensures store.activeId == old(store.activeId)
  {
    id := HandleSendMessage(store, text, AiSender, clock, suffix, now);
  }
}
