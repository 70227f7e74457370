/** The `chat` slice: which conversation is open (`chatId`) and with whom
    (`recipient`), and the conversation key built from two user ids. */
module ChatReducer {
  import opened Types

  /** The client's `<` on two strings: lexicographic comparison of characters,
      a proper prefix being smaller. */
  predicate StrLess(a: string, b: string)
    ensures |a| < |b| && a == b[..|a|] ==> StrLess(a, b)
  {
    if |a| == 0 then |b| > 0
    else if |b| == 0 then false
    else if a[0] != b[0] then a[0] < b[0]
    else StrLess(a[1..], b[1..])
  }

  lemma {:induction false} StrLessIrreflexive(a: string)
    ensures !StrLess(a, a)
  {
    if |a| > 0 {
      StrLessIrreflexive(a[1..]);
    }
  }

  lemma {:induction false} StrLessAsymmetric(a: string, b: string)
    requires StrLess(a, b)
    ensures !StrLess(b, a)
  {
    if |a| > 0 && |b| > 0 && a[0] == b[0] {
      StrLessAsymmetric(a[1..], b[1..]);
    }
  }

  lemma {:induction false} StrLessTransitive(a: string, b: string, c: string)
    requires StrLess(a, b) && StrLess(b, c)
    ensures StrLess(a, c)
  {
    if |a| > 0 && |b| > 0 && |c| > 0 && a[0] == b[0] && b[0] == c[0] {
      StrLessTransitive(a[1..], b[1..], c[1..]);
    }
  }

  /** Any two distinct strings are ordered one way or the other. */
  lemma {:induction false} StrLessTotal(a: string, b: string)
    ensures a == b || StrLess(a, b) || StrLess(b, a)
  {
    if |a| > 0 && |b| > 0 && a[0] == b[0] {
      StrLessTotal(a[1..], b[1..]);
      if a[1..] == b[1..] {
        assert a == [a[0]] + a[1..] && b == [b[0]] + b[1..];
      }
    }
  }

  /** The conversation key of two users: the greater id followed by the lesser. */
  function ChatKey(currentUid: string, recipientUid: string): (k: string)
    ensures |k| == |currentUid| + |recipientUid|
    ensures k == currentUid + recipientUid || k == recipientUid + currentUid
  {
    if StrLess(recipientUid, currentUid) then currentUid + recipientUid
    else recipientUid + currentUid
  }

  /** The key is split into two ids, the first not smaller than the second. */
  lemma ChatKeyGreaterFirst(a: string, b: string)
    ensures || (ChatKey(a, b) == a + b && !StrLess(a, b))
            || (ChatKey(a, b) == b + a && !StrLess(b, a))
  {
  }

  /** Both participants derive the same key, whoever opens the conversation. */
  lemma ChatKeyCommutes(a: string, b: string)
    ensures ChatKey(a, b) == ChatKey(b, a)
  {
    StrLessTotal(a, b);
    if StrLess(a, b) {
      StrLessAsymmetric(a, b);
    } else if StrLess(b, a) {
      StrLessAsymmetric(b, a);
    }
  }

  // ---------------------------------------------------------------------
  // The key as the reducer computes it. The reducer binds the two uid
  // STRINGS (`auth.currentUser.uid`, `action.payload.uid`) and then reads a
  // `.uid` property of each, which a string does not have.

  /** The few client values the written expression produces. */
  datatype JsValue = Undefined | JsString(s: string) | NotANumber

  /** Reading the property `uid` of a primitive string. */
  function UidPropertyOfString(s: string): JsValue
  {
    Undefined
  }

  /** The client's `>`: string comparison on two strings; any comparison
      involving `undefined` is false. */
  function JsGreater(x: JsValue, y: JsValue): bool
  {
    x.JsString? && y.JsString? && StrLess(y.s, x.s)
  }

  /** The client's `+` on the values above: with a string operand it
      concatenates the other operand's text, otherwise both are converted
      to numbers, and `undefined` and `NaN` both become `NaN`. */
  function JsPlus(x: JsValue, y: JsValue): JsValue
  {
    match (x, y)
    case (JsString(a), JsString(b)) => JsString(a + b)
    case (JsString(a), Undefined) => JsString(a + "undefined")
    case (Undefined, JsString(b)) => JsString("undefined" + b)
    case (JsString(a), NotANumber) => JsString(a + "NaN")
    case (NotANumber, JsString(b)) => JsString("NaN" + b)
    case _ => NotANumber
  }

  /** The chat id exactly as the reducer writes it. */
  function AsWrittenChatId(currentUid: string, recipientUid: string): JsValue
  {
    var currentUser := UidPropertyOfString(currentUid);
    var recipient := UidPropertyOfString(recipientUid);
    if JsGreater(currentUser, recipient) then JsPlus(currentUser, recipient)
    else JsPlus(recipient, currentUser)
  }

  /** As written, the chat id is `NaN` whoever the two users are, so every
      pair of users is sent to the same conversation. */
  lemma AsWrittenChatIdIgnoresUsers(a: string, b: string, c: string, d: string)
    ensures AsWrittenChatId(a, b) == NotANumber
    ensures AsWrittenChatId(a, b) == AsWrittenChatId(c, d)
    ensures AsWrittenChatId(a, b) != JsString(ChatKey(a, b))
  {
  }

  // ---------------------------------------------------------------------
  // The slice.

  datatype ChatState = ChatState(chatId: string, recipient: Option<User>)

  const InitialChatState := ChatState("", None)

  /** `changeChat(payload)` with `currentUid` the signed-in user's id, if any. */
  function ChangeChatResult(s: ChatState, currentUid: Option<string>, payload: Option<User>): (r: ChatState)
  {
    if currentUid.None? || payload.None? then s
    else ChatState(ChatKey(currentUid.value, payload.value.uid), payload)
  }

  /** Without a signed-in user or without a payload the state is kept. */
  lemma ChangeChatIgnored(s: ChatState, currentUid: Option<string>, payload: Option<User>)
    requires currentUid.None? || payload.None?
    ensures ChangeChatResult(s, currentUid, payload) == s
  {
  }

  /** Otherwise the payload becomes the recipient and the key of the two
      users the chat id; nothing else is kept from the previous state. */
  lemma ChangeChatSelects(s: ChatState, t: ChatState, currentUid: string, recipient: User)
    ensures ChangeChatResult(s, Some(currentUid), Some(recipient)).recipient == Some(recipient)
    ensures ChangeChatResult(s, Some(currentUid), Some(recipient)).chatId == ChatKey(currentUid, recipient.uid)
    ensures ChangeChatResult(s, Some(currentUid), Some(recipient)) == ChangeChatResult(t, Some(currentUid), Some(recipient))
  {
  }

  lemma ChangeChatIdempotent(s: ChatState, currentUid: Option<string>, payload: Option<User>)
    ensures ChangeChatResult(ChangeChatResult(s, currentUid, payload), currentUid, payload)
         == ChangeChatResult(s, currentUid, payload)
  {
  }

  /** Two users who select each other open the same conversation. */
  lemma ChangeChatAgrees(s: ChatState, t: ChatState, a: User, b: User)
    ensures ChangeChatResult(s, Some(a.uid), Some(b)).chatId == ChangeChatResult(t, Some(b.uid), Some(a)).chatId
  {
    ChatKeyCommutes(a.uid, b.uid);
  }

  /** The slice's state, which the reducer updates in place. */
  class ChatSlice {
    var chatId: string
    var recipient: Option<User>

    function State(): ChatState
      reads this
    {
      ChatState(chatId, recipient)
    }

    constructor ()
      ensures State() == InitialChatState
    {
      chatId := "";
      recipient := None;
    }

    method ChangeChat(currentUid: Option<string>, payload: Option<User>)
      modifies this
      ensures State() == ChangeChatResult(old(State()), currentUid, payload)
    {
      if currentUid.None? || payload.None? {
        return;
      }
      recipient := payload;
      chatId := ChatKey(currentUid.value, payload.value.uid);
    }
  }
}
