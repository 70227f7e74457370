/** The remote document store, reduced to three collections held as maps:
    `users/<uid>`, `userChats/<uid>` (one inbox document per user, a field per
    conversation) and `chats/<chatId>` (the message document of a conversation). */
module DocStore {
  import opened Types

  datatype LastMessage = LastMessage(text: string, date: int)

  /** One field `<chatId>` of a `userChats/<uid>` document. Every part may be
      missing: a presence write creates the field with only `seen`/`active`. */
  datatype InboxEntry = InboxEntry(
    lastMessage: Option<LastMessage>,
    seen: Option<bool>,
    active: Option<bool>)

  type InboxDoc = map<string, InboxEntry>

  datatype Message = Message(id: string, senderId: string, text: string, date: int)

  datatype ChatDoc = ChatDoc(messages: seq<Message>)

  datatype UserDoc = UserDoc(
    uid: string,
    photoURL: Option<string>,
    displayName: Option<string>,
    email: Option<string>,
    bio: string,
    status: string,
    location: string,
    contacts: seq<string>)

  /** The contents of the whole store. */
  datatype Documents = Documents(
    users: map<string, UserDoc>,
    userChats: map<string, InboxDoc>,
    chats: map<string, ChatDoc>)

  const NoEntry := InboxEntry(None, None, None)

  function EntryAt(doc: InboxDoc, chatId: string): InboxEntry
  {
    if chatId in doc then doc[chatId] else NoEntry
  }

  /** The field update `{<chatId>.active: active}`, plus `{<chatId>.seen: s}`
      when `seen == Some(s)`, applied to one inbox document. */
  function WithPresence(doc: InboxDoc, chatId: string, seen: Option<bool>, active: bool): (r: InboxDoc)
    ensures r.Keys == doc.Keys + {chatId}
    ensures r[chatId].active == Some(active)
    ensures r[chatId].seen == (if seen.Some? then seen else EntryAt(doc, chatId).seen)
    ensures r[chatId].lastMessage == EntryAt(doc, chatId).lastMessage
    ensures forall k :: k in doc && k != chatId ==> r[k] == doc[k]
  {
    var e := EntryAt(doc, chatId);
    doc[chatId := e.(seen := if seen.Some? then seen else e.seen, active := Some(active))]
  }

  /** `updateDoc(userChats/<uid>, …)` with a presence update: an update of a
      document that does not exist is rejected and writes nothing. */
  function PresenceUpdate(d: Documents, uid: string, chatId: string, seen: Option<bool>, active: bool): (r: Documents)
    ensures r.users == d.users && r.chats == d.chats
    ensures r.userChats.Keys == d.userChats.Keys
    ensures uid !in d.userChats ==> r == d
    ensures uid in d.userChats ==> r.userChats[uid] == WithPresence(d.userChats[uid], chatId, seen, active)
    ensures forall u :: u in d.userChats && u != uid ==> r.userChats[u] == d.userChats[u]
  {
    if uid in d.userChats then d.(userChats := d.userChats[uid := WithPresence(d.userChats[uid], chatId, seen, active)])
    else d
  }

  /** The store, mutated in place by the client's writes. */
  class Store {
    var users: map<string, UserDoc>
    var userChats: map<string, InboxDoc>
    var chats: map<string, ChatDoc>

    function Docs(): Documents
      reads this
    {
      Documents(users, userChats, chats)
    }

    constructor (initial: Documents)
      ensures Docs() == initial
    {
      users, userChats, chats := initial.users, initial.userChats, initial.chats;
    }

    method UpdatePresence(uid: string, chatId: string, seen: Option<bool>, active: bool)
      modifies this
      ensures Docs() == PresenceUpdate(old(Docs()), uid, chatId, seen, active)
    {
      if uid in userChats {
        userChats := userChats[uid := WithPresence(userChats[uid], chatId, seen, active)];
      }
    }

    /** `setDoc(users/<uid>, doc)`: creates or overwrites. */
    method SetUserDoc(uid: string, doc: UserDoc)
      modifies this
      ensures Docs() == old(Docs()).(users := old(users)[uid := doc])
    {
      users := users[uid := doc];
    }

    /** `setDoc(userChats/<uid>, doc)`: creates or overwrites. */
    method SetInboxDoc(uid: string, doc: InboxDoc)
      modifies this
      ensures Docs() == old(Docs()).(userChats := old(userChats)[uid := doc])
    {
      userChats := userChats[uid := doc];
    }

    /** `updateDoc(users/<uid>, {displayName: name})`: rejected, writing nothing,
        when the document does not exist. */
    method UpdateDisplayName(uid: string, name: string)
      modifies this
      ensures uid !in old(users) ==> Docs() == old(Docs())
      ensures uid in old(users) ==>
        Docs() == old(Docs()).(users := old(users)[uid := old(users)[uid].(displayName := Some(name))])
    {
      if uid in users {
        users := users[uid := users[uid].(displayName := Some(name))];
      }
    }
  }
}
