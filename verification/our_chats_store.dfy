/**
 * The persisted chat store: a map from chat id to chat record plus the id of the
 * active chat. Every action replaces the map, the active id, or both; the clock and the
 * random suffix of message ids are parameters of the actions that read them.
 */
module OurChatsStore {
  import opened Wrappers
  import opened Sequences

  /** An instant, in milliseconds; the source stores it as an ISO-8601 string. */
  type Timestamp = int

  const DefaultTitle := "Наш диалог"
  const Participants: seq<string> := ["user", "ai"]

  /** A stored message: the caller's fields plus the id and timestamp the store adds. */
  datatype Message = Message(text: string, sender: string, kind: string, id: string, timestamp: Timestamp)

  /**
   * A stored chat. `createOurChat` writes a full `Record`; `addOurMessage` on an id
   * with no chat writes a `Fragment` that has only the messages and `updatedAt`.
   */
  datatype Chat =
    | Record(id: string, title: string, messages: seq<Message>, participants: seq<string>,
             createdAt: Timestamp, updatedAt: Timestamp)
    | Fragment(messages: seq<Message>, updatedAt: Timestamp)

  /** The message id template `our-<chatId>-<clock>-<suffix>`. */
  function MessageId(chatId: string, clock: string, suffix: string): string {
    "our-" + chatId + "-" + clock + "-" + suffix
  }

  /** The record `createOurChat` stores: no messages, both participants, created when last updated. */
  function NewChat(id: string, title: string, now: Timestamp): (c: Chat)
    ensures c.Record? && c.id == id && c.title == title
    ensures c.messages == [] && c.participants == ["user", "ai"]
    ensures c.createdAt == c.updatedAt == now
  {
    Record(id, title, [], Participants, now, now)
  }

  /**
   * The entry `addOurMessage` writes over `prior` (the entry it finds, if any): the
   * earlier messages, then `m`, stamped `now`; a record keeps its id, title,
   * participants and creation time, and a missing entry becomes a fragment.
   */
  function WithMessage(prior: Option<Chat>, m: Message, now: Timestamp): (c: Chat)
    ensures |c.messages| == (if prior.Some? then |prior.value.messages| else 0) + 1
    ensures c.messages[|c.messages| - 1] == m
    ensures prior.Some? ==> c.messages[..|c.messages| - 1] == prior.value.messages
    ensures c.updatedAt == now
    ensures prior.None? ==> c == Fragment([m], now)
    ensures prior.Some? && prior.value.Record? ==>
      c.Record? && c.id == prior.value.id && c.title == prior.value.title &&
      c.participants == prior.value.participants && c.createdAt == prior.value.createdAt
    ensures prior.Some? && prior.value.Fragment? ==> c.Fragment?
  {
    match prior
    case None => Fragment([m], now)
    case Some(chat) => chat.(messages := chat.messages + [m], updatedAt := now)
  }

  /**
   * The first message added to a freshly created chat: the record keeps its id, title,
   * participants and creation time, holds just that message, and was updated at the
   * later instant.
   */
  lemma FirstMessageOfNewChat(id: string, title: string, created: Timestamp, m: Message, later: Timestamp)
    ensures WithMessage(Lookup(map[id := NewChat(id, title, created)], id), m, later)
         == Record(id, title, [m], ["user", "ai"], created, later)
  {
  }

  function Lookup(chats: map<string, Chat>, id: string): (r: Option<Chat>)
    ensures r.Some? <==> id in chats
    ensures r.Some? ==> r.value == chats[id]
  {
    if id in chats then Some(chats[id]) else None
  }

  /** The chats stored under `keys`, in that order. */
  function ValuesAt(chats: map<string, Chat>, keys: seq<string>): (r: seq<Chat>)
    requires forall i :: 0 <= i < |keys| ==> keys[i] in chats
    ensures |r| == |keys|
    ensures forall i :: 0 <= i < |keys| ==> r[i] == chats[keys[i]]
  {
    seq(|keys|, i requires 0 <= i < |keys| => chats[keys[i]])
  }

  /** `keys` lists every key of `chats` exactly once. */
  ghost predicate Enumerates(keys: seq<string>, chats: map<string, Chat>) {
    && (forall i, j :: 0 <= i < j < |keys| ==> keys[i] != keys[j])
    && (forall k :: k in keys <==> k in chats)
  }

  /**
   * Reading the values under an enumeration of the keys lists every stored chat, and
   * lists nothing else.
   */
  lemma EveryChatListed(chats: map<string, Chat>, keys: seq<string>)
    requires Enumerates(keys, chats)
    ensures forall k :: k in chats ==> chats[k] in ValuesAt(chats, keys)
    ensures forall c :: c in ValuesAt(chats, keys) ==> exists k :: k in chats && chats[k] == c
  {
    var values := ValuesAt(chats, keys);
    forall k | k in chats ensures chats[k] in values {
      var i :| 0 <= i < |keys| && keys[i] == k;
      assert values[i] == chats[k];
    }
    forall c | c in values ensures exists k :: k in chats && chats[k] == c {
      var i :| 0 <= i < |values| && values[i] == c;
      assert keys[i] in keys;
    }
  }

  function UpdatedAt(c: Chat): real { c.updatedAt as real }

  class ChatsStore {
    var chats: map<string, Chat>
    var activeId: Option<string>

    constructor ()
      ensures chats == map[] && activeId == None
    {
      chats := map[];
      activeId := None;
    }

    /**
     * `createOurChat`: store a fresh record under `chatId` (replacing any chat already
     * there, messages included) and make it the active chat. The title defaults to
     * "Наш диалог".
     */
    method CreateOurChat(chatId: string, title: string := DefaultTitle, now: Timestamp)
      modifies this
      ensures chats == old(chats)[chatId := NewChat(chatId, title, now)]
      ensures chatId in chats && chats[chatId].messages == []
      ensures chats[chatId].createdAt == chats[chatId].updatedAt == now
      ensures activeId == Some(chatId)
    {
      chats := chats[chatId := NewChat(chatId, title, now)];
      activeId := Some(chatId);
    }

    /**
     * `addOurMessage`: append the message, given its id and timestamp, to the chat's
     * list, bump that chat's `updatedAt`, and return the id. Nothing else changes.
     */
    method AddOurMessage(chatId: string, text: string, sender: string, kind: string,
                         clock: string, suffix: string, now: Timestamp)
      returns (id: string)
      modifies this
      ensures id == MessageId(chatId, clock, suffix)
      ensures chats == old(chats)[chatId := WithMessage(Lookup(old(chats), chatId),
                                                        Message(text, sender, kind, id, now), now)]
      ensures chatId in chats && chats[chatId].updatedAt == now
      ensures chatId in old(chats) ==>
        chats[chatId].messages == old(chats)[chatId].messages + [Message(text, sender, kind, id, now)]
      ensures chatId !in old(chats) ==> chats[chatId] == Fragment([Message(text, sender, kind, id, now)], now)
      ensures forall k :: k != chatId ==> (k in chats <==> k in old(chats))
      ensures forall k :: k != chatId && k in chats ==> chats[k] == old(chats)[k]
      ensures activeId == old(activeId)
    {
      id := MessageId(chatId, clock, suffix);
      var m := Message(text, sender, kind, id, now);
      chats := chats[chatId := WithMessage(Lookup(chats, chatId), m, now)];
    }

    /** `switchOurChat`: point at `chatId`, whether or not a chat is stored under it. */
    method SwitchOurChat(chatId: string)
      modifies this
      ensures activeId == Some(chatId)
      ensures chats == old(chats)
    {
      activeId := Some(chatId);
    }

    /** The property name the active-chat lookup reads: JavaScript turns a null active id into "null". */
    function ActiveKey(): string
      reads this
    {
      match activeId
      case Some(id) => id
      case None => "null"
    }

    /**
     * `getActiveOurChat`: the chat stored under the active id, nothing for a dangling
     * active id, and nothing for a null active id unless a chat is literally keyed "null".
     */
    function GetActiveOurChat(): (c: Option<Chat>)
      reads this
      ensures activeId.Some? && activeId.value in chats ==> c == Some(chats[activeId.value])
      ensures activeId.Some? && activeId.value !in chats ==> c == None
      ensures activeId.None? ==> c == Lookup(chats, "null")
      ensures c.Some? ==> c.value in chats.Values
    {
      Lookup(chats, ActiveKey())
    }

    /**
     * `getAllOurChats`: every stored chat exactly once (gathered key by key, as
     * `Object.values` does), then sorted most recently updated first.
     */
    method GetAllOurChats() returns (all: seq<Chat>, ghost keys: seq<string>)
      ensures Enumerates(keys, chats)
      ensures all == SortDesc(ValuesAt(chats, keys), UpdatedAt)
      ensures |all| == |chats|
      ensures multiset(all) == multiset(ValuesAt(chats, keys))
      ensures forall i, j :: 0 <= i < j < |all| ==> all[i].updatedAt >= all[j].updatedAt
    {
      var pending := chats.Keys;
      keys := [];
      var values := [];
      while pending != {}
        invariant pending <= chats.Keys
        invariant |keys| + |pending| == |chats|
        invariant forall i, j :: 0 <= i < j < |keys| ==> keys[i] != keys[j]
        invariant forall k :: k in keys <==> k in chats && k !in pending
        invariant forall i :: 0 <= i < |keys| ==> keys[i] in chats
        invariant values == ValuesAt(chats, keys)
        decreases pending
      {
        var k :| k in pending;
        assert k !in keys;
        keys := keys + [k];
        values := values + [chats[k]];
        pending := pending - {k};
        assert values == ValuesAt(chats, keys);
      }
      all := SortDesc(values, UpdatedAt);
      assert forall i, j :: 0 <= i < j < |all| ==> UpdatedAt(all[i]) >= UpdatedAt(all[j]);
    }

    /**
     * `deleteOurChat`: drop the key (absent keys change nothing) and clear the active id
     * exactly when it named the deleted id.
     */
    method DeleteOurChat(chatId: string)
      modifies this
      ensures chats == old(chats) - {chatId}
      ensures chatId !in chats
      ensures forall k :: k != chatId ==> (k in chats <==> k in old(chats))
      ensures chatId !in old(chats) ==> chats == old(chats)
      ensures old(activeId) == Some(chatId) ==> activeId == None
      ensures old(activeId) != Some(chatId) ==> activeId == old(activeId)
    {
      chats := chats - {chatId};
      activeId := if activeId == Some(chatId) then None else activeId;
    }
  }
}
