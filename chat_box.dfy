/** The open conversation: the effect that runs whenever `chatId` changes
    resets the view, marks the conversation seen and active for the current
    user and listens to the conversation's document; its cleanup marks the
    conversation inactive and stops listening. */
module ConversationView {
  import opened Types
  import opened DocStore

  /** The user and conversation an effect run was made for. */
  datatype Attachment = Attachment(uid: string, chatId: string)

  /** The side effects the component issues, in issue order. */
  datatype Effect =
    | MarkedSeenActive(uid: string, chatId: string)
    | Subscribed(chatId: string)
    | MarkedInactive(uid: string, chatId: string)
    | Unsubscribed(chatId: string)

  /** `t` is a strict alternation of attach blocks
      `[MarkedSeenActive(u, c), Subscribed(c)]` and detach blocks
      `[MarkedInactive(u, c), Unsubscribed(c)]`, each detach closing the attach
      before it; `live` is the attachment left open at the end, if any. */
  ghost predicate Lifecycle(t: seq<Effect>, live: Option<Attachment>)
    decreases |t|
  {
    if |t| == 0 then live.None?
    else if |t| < 2 then false
    else
      var a, b, rest := t[|t| - 2], t[|t| - 1], t[..|t| - 2];
      match live
      case Some(at) => a == MarkedSeenActive(at.uid, at.chatId) && b == Subscribed(at.chatId) && Lifecycle(rest, None)
      case None => a.MarkedInactive? && b == Unsubscribed(a.chatId) && Lifecycle(rest, Some(Attachment(a.uid, a.chatId)))
  }

  function Subscriptions(t: seq<Effect>): nat
  {
    if |t| == 0 then 0 else Subscriptions(t[..|t| - 1]) + (if t[|t| - 1].Subscribed? then 1 else 0)
  }

  function Unsubscriptions(t: seq<Effect>): nat
  {
    if |t| == 0 then 0 else Unsubscriptions(t[..|t| - 1]) + (if t[|t| - 1].Unsubscribed? then 1 else 0)
  }

  /** Every unsubscription closes an earlier subscription, and at most one
      listener is open at any time: exactly one when an attachment is live. */
  lemma {:induction false} LifecycleBalanced(t: seq<Effect>, live: Option<Attachment>)
    requires Lifecycle(t, live)
    ensures Subscriptions(t) == Unsubscriptions(t) + (if live.Some? then 1 else 0)
  {
    if |t| >= 2 {
      var rest := t[..|t| - 2];
      assert t[..|t| - 1][..|t| - 2] == rest;
      if live.Some? {
        LifecycleBalanced(rest, None);
      } else {
        LifecycleBalanced(rest, Some(Attachment(t[|t| - 2].uid, t[|t| - 2].chatId)));
      }
    }
  }

  function DetachEffects(at: Option<Attachment>): seq<Effect>
  {
    if at.None? then [] else [MarkedInactive(at.value.uid, at.value.chatId), Unsubscribed(at.value.chatId)]
  }

  /** The store after the cleanup's write `{<chatId>.active: false}`. */
  function DetachWrite(d: Documents, at: Option<Attachment>): Documents
  {
    if at.None? then d else PresenceUpdate(d, at.value.uid, at.value.chatId, None, false)
  }

  /** Attaching and then detaching leaves the entry seen and inactive, with
      its last message and every other entry of the inbox as they were. */
  lemma AttachThenDetachPresence(d: Documents, uid: string, chatId: string)
    requires uid in d.userChats
    ensures var r := DetachWrite(PresenceUpdate(d, uid, chatId, Some(true), true), Some(Attachment(uid, chatId)));
      && r.userChats[uid][chatId].seen == Some(true)
      && r.userChats[uid][chatId].active == Some(false)
      && r.userChats[uid][chatId].lastMessage == EntryAt(d.userChats[uid], chatId).lastMessage
      && (forall k :: k in d.userChats[uid] && k != chatId ==> r.userChats[uid][k] == d.userChats[uid][k])
  {
  }

  /** What the conversation area shows. */
  datatype ConversationPanels = ConversationPanels(spinner: bool, emptyNotice: bool, messageList: bool)

  function PanelsOf(isPending: bool, messages: seq<Message>): (p: ConversationPanels)
    ensures p.spinner <==> isPending
    ensures p.emptyNotice <==> |messages| == 0 && !isPending
    ensures p.messageList <==> |messages| != 0
    ensures !(p.spinner && p.emptyNotice) && !(p.emptyNotice && p.messageList)
    ensures p.spinner || p.emptyNotice || p.messageList
  {
    ConversationPanels(isPending, |messages| == 0 && !isPending, |messages| != 0)
  }

  class ChatBox {
    var messages: seq<Message>
    var isPending: bool
    /** The effect run currently in place, whose listener is open. */
    var attached: Option<Attachment>
    ghost var effects: seq<Effect>

    ghost predicate Valid()
      reads this
    {
      Lifecycle(effects, attached)
    }

    function Panels(): ConversationPanels
      reads this
    {
      PanelsOf(isPending, messages)
    }

    constructor ()
      ensures Valid() && messages == [] && !isPending && attached.None? && effects == []
    {
      messages, isPending, attached := [], false, None;
      effects := [];
    }

    /** The effect body for `chatId`, with `uid` the current user. */
    method Attach(chatId: string, uid: string, store: Store)
      requires Valid() && attached.None?
      modifies this, store
      ensures Valid()
      ensures attached == Some(Attachment(uid, chatId)) && messages == [] && isPending
      ensures effects == old(effects) + [MarkedSeenActive(uid, chatId), Subscribed(chatId)]
      ensures store.Docs() == PresenceUpdate(old(store.Docs()), uid, chatId, Some(true), true)
    {
      isPending := true;
      messages := [];
      store.UpdatePresence(uid, chatId, Some(true), true);
      effects := effects + [MarkedSeenActive(uid, chatId)];
      attached := Some(Attachment(uid, chatId));
      effects := effects + [Subscribed(chatId)];
      assert effects[..|effects| - 2] == old(effects);
    }

    /** The cleanup of the effect in place. */
    method Detach(store: Store)
      requires Valid() && attached.Some?
      modifies this, store
      ensures Valid() && attached.None?
      ensures messages == old(messages) && isPending == old(isPending)
      ensures effects == old(effects) + DetachEffects(old(attached))
      ensures store.Docs() == DetachWrite(old(store.Docs()), old(attached))
    {
      var at := attached.value;
      store.UpdatePresence(at.uid, at.chatId, None, false);
      effects := effects + [MarkedInactive(at.uid, at.chatId)];
      attached := None;
      effects := effects + [Unsubscribed(at.chatId)];
      assert effects[..|effects| - 2] == old(effects);
    }

    /** A render of the component with the selected `chatId`. The effect
        depends on `chatId` only: the same id does nothing; another id runs
        the previous cleanup and then the effect. */
    method Render(chatId: string, uid: string, store: Store)
      requires Valid()
      modifies this, store
      ensures Valid()
      ensures old(attached).Some? && old(attached).value.chatId == chatId ==>
        unchanged(this) && unchanged(store)
      ensures (old(attached).None? || old(attached).value.chatId != chatId) ==>
        && attached == Some(Attachment(uid, chatId))
        && messages == [] && isPending
        && effects == old(effects) + DetachEffects(old(attached)) + [MarkedSeenActive(uid, chatId), Subscribed(chatId)]
        && store.Docs() == PresenceUpdate(DetachWrite(old(store.Docs()), old(attached)), uid, chatId, Some(true), true)
    {
      if attached.Some? && attached.value.chatId == chatId {
        return;
      }
      if attached.Some? {
        Detach(store);
      }
      Attach(chatId, uid, store);
    }

    /** The store delivers the current snapshot of the conversation document
        to the open listener; with no listener open nothing is delivered. */
    method Deliver(store: Store)
      requires Valid()
      modifies this
      ensures Valid() && attached == old(attached) && effects == old(effects)
      ensures old(attached).None? ==> messages == old(messages) && isPending == old(isPending)
      ensures old(attached).Some? ==> !isPending
      ensures old(attached).Some? ==>
        messages == (if old(attached).value.chatId in store.chats
                     then store.chats[old(attached).value.chatId].messages
                     else old(messages))
    {
      if attached.None? {
        return;
      }
      var chatId := attached.value.chatId;
      if chatId in store.chats {
        messages := store.chats[chatId].messages;
      }
      isPending := false;
    }

    /** The component leaves the screen: the cleanup of the effect in place. */
    method Unmount(store: Store)
      requires Valid()
      modifies this, store
      ensures Valid() && attached.None?
      ensures messages == old(messages) && isPending == old(isPending)
      ensures effects == old(effects) + DetachEffects(old(attached))
      ensures store.Docs() == DetachWrite(old(store.Docs()), old(attached))
    {
      if attached.Some? {
        Detach(store);
      }
    }
  }
}
