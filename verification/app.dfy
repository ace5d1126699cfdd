/**
 * The application shell: it owns `currentChatId`, creates the first chat on startup,
 * starts new chats, and builds the placeholder reply from recent history.
 */
module ChatApp {
  import opened Wrappers
  import opened Text
  import opened OurChatsStore

  const FirstChatTitle := "Мой первый диалог"
  const NewChatTitlePrefix := "Новый диалог "
  const ContextSeparator := " | "
  const NoHistory := "нет истории"
  const ReplyOpening := "Ответ на: \""
  const ReplyLabel := "\" \n        \nКонтекст: "
  const ContextSize := 3

  /** The chat id template `our-chat-<clock>`. */
  function ChatIdAt(clock: string): string {
    "our-chat-" + clock
  }

  class App {
    var currentChatId: Option<string>

    constructor ()
      ensures currentChatId == None
    {
      currentChatId := None;
    }

    /** The mount effect: only when the store holds no chat is a first chat created and selected. */
    method OnMount(store: ChatsStore, clock: string, now: Timestamp)
      modifies this, store
      ensures old(store.chats) == map[] ==>
        && store.chats == map[ChatIdAt(clock) := NewChat(ChatIdAt(clock), FirstChatTitle, now)]
        && store.activeId == Some(ChatIdAt(clock))
        && currentChatId == Some(ChatIdAt(clock))
      ensures old(store.chats) != map[] ==>
        && store.chats == old(store.chats) && store.activeId == old(store.activeId)
        && currentChatId == old(currentChatId)
    {
      var allChats, _ := store.GetAllOurChats();
      if |allChats| == 0 {
        var initialChatId := ChatIdAt(clock);
        store.CreateOurChat(initialChatId, FirstChatTitle, now);
        currentChatId := Some(initialChatId);
      } else {
        assert store.chats != map[] by {
          assert |store.chats| != 0;
        }
      }
    }

    /** `startBrandNewChat`: create a chat under a clock-derived id, select it, return the id. */
    method StartBrandNewChat(store: ChatsStore, clock: string, dateLabel: string, now: Timestamp)
      returns (newChatId: string)
      modifies this, store
      ensures newChatId == ChatIdAt(clock)
      ensures store.chats == old(store.chats)[newChatId := NewChat(newChatId, NewChatTitlePrefix + dateLabel, now)]
      ensures store.activeId == Some(newChatId)
      ensures currentChatId == Some(newChatId)
    {
      newChatId := ChatIdAt(clock);
      store.CreateOurChat(newChatId, NewChatTitlePrefix + dateLabel, now);
      currentChatId := Some(newChatId);
    }
  }

  /** `slice(-3)`: the last three entries, or all of them when there are fewer. */
  function ContextWindow(history: seq<Message>): (w: seq<Message>)
    ensures |w| == if |history| < ContextSize then |history| else ContextSize
    ensures w == history[|history| - |w|..]
  {
    if |history| <= ContextSize then history else history[|history| - ContextSize..]
  }

  function Texts(ms: seq<Message>): (ts: seq<string>)
    ensures |ts| == |ms| && forall i :: 0 <= i < |ms| ==> ts[i] == ms[i].text
  {
    seq(|ms|, i requires 0 <= i < |ms| => ms[i].text)
  }

  /** The texts of the window are the last entries of the history's texts, in order. */
  lemma RecentTexts(history: seq<Message>)
    ensures Texts(ContextWindow(history)) == Texts(history)[|history| - |ContextWindow(history)|..]
  {
    var a := |history| - |ContextWindow(history)|;
    assert forall i :: 0 <= i < |history| - a ==> Texts(ContextWindow(history))[i] == Texts(history)[a..][i];
  }

  /** The context string: the texts of the window joined by " | ". */
  function ReplyContext(history: seq<Message>): string {
    Join(Texts(ContextWindow(history)), ContextSeparator)
  }

  /** The reply the placeholder generator resolves with: the quoted message, then the context. */
  function Reply(userMessage: string, history: seq<Message>): (r: string)
    ensures ReplyOpening + userMessage <= r
    ensures ReplyContext(history) == "" ==> r == ReplyHeader(userMessage) + NoHistory
    ensures ReplyContext(history) != "" ==> r == ReplyHeader(userMessage) + ReplyContext(history)
  {
    var context := ReplyContext(history);
    var tail := ReplyLabel + (if context == "" then NoHistory else context);
    assert ReplyHeader(userMessage) + (if context == "" then NoHistory else context)
        == (ReplyOpening + userMessage) + tail;
    ReplyHeader(userMessage) + (if context == "" then NoHistory else context)
  }

  /** Everything before the context: the quoted message, a blank line, the context label. */
  function ReplyHeader(userMessage: string): string {
    ReplyOpening + userMessage + ReplyLabel
  }

  /**
   * The context quotes the last min(3, n) texts of the history, oldest first, each one
   * at its offset and followed by " | " unless it is the newest.
   */
  lemma {:induction false} ContextQuotesRecentTexts(history: seq<Message>, k: nat)
    requires k < |ContextWindow(history)|
    ensures |history| - |ContextWindow(history)| + k < |history|
    ensures var texts := Texts(ContextWindow(history));
            var at := Offset(texts, ContextSeparator, k);
            var entry := history[|history| - |ContextWindow(history)| + k].text;
            && at <= |ReplyContext(history)|
            && entry <= ReplyContext(history)[at..]
            && (k + 1 < |texts| ==> entry + ContextSeparator <= ReplyContext(history)[at..])
            && (k + 1 == |texts| ==> ReplyContext(history)[at..] == entry)
  {
    var w := ContextWindow(history);
    var texts := Texts(w);
    JoinAt(texts, ContextSeparator, k);
    assert w[k] == history[|history| - |w| + k];
  }
}
