/** Adding a contact over the local user fixture: a room id built from the
    two numeric user ids, pushed onto both users' inboxes, and a new room
    record pushed onto the chat table, one second after the click. */
module AddContact {
  import opened Types

  function DigitChar(d: nat): (c: char)
    requires d < 10
    ensures '0' <= c <= '9'
  {
    ('0' as int + d) as char
  }

  predicate IsDigit(c: char)
  {
    '0' <= c <= '9'
  }

  /** A number in a template literal: its decimal digits. */
  function DecimalText(n: nat): (s: string)
    ensures |s| >= 1
    ensures |s| == 1 <==> n < 10
    ensures forall i :: 0 <= i < |s| ==> IsDigit(s[i])
  {
    if n < 10 then [DigitChar(n)] else DecimalText(n / 10) + [DigitChar(n % 10)]
  }

  lemma {:induction false} DecimalTextInjective(a: nat, b: nat)
    requires DecimalText(a) == DecimalText(b)
    ensures a == b
  {
    if a < 10 {
      assert b < 10;
      assert DigitChar(a) == DecimalText(a)[0] == DigitChar(b);
    } else {
      assert b >= 10;
      var sa, sb := DecimalText(a), DecimalText(b);
      assert sa[|sa| - 1] == DigitChar(a % 10) && sb[|sb| - 1] == DigitChar(b % 10);
      assert DecimalText(a / 10) == sa[..|sa| - 1] == sb[..|sb| - 1] == DecimalText(b / 10);
      DecimalTextInjective(a / 10, b / 10);
    }
  }

  /** An optional id in a template literal: `undefined` when absent. */
  function IdText(id: Option<nat>): string
  {
    if id.Some? then DecimalText(id.value) else "undefined"
  }

  predicate NoDash(s: string)
  {
    forall i :: 0 <= i < |s| ==> s[i] != '-'
  }

  lemma IdTextInjective(x: Option<nat>, y: Option<nat>)
    requires IdText(x) == IdText(y)
    ensures x == y
  {
    assert IsDigit(IdText(x)[0]) <==> x.Some?;
    assert IsDigit(IdText(y)[0]) <==> y.Some?;
    if x.Some? {
      DecimalTextInjective(x.value, y.value);
    }
  }

  /** `${currentUser?.user_id}-${recipient?.user_id}`. */
  function ChatRoomId(currentId: Option<nat>, recipientId: Option<nat>): string
  {
    IdText(currentId) + "-" + IdText(recipientId)
  }

  /** Index of the first `-` in `s`, or `|s|` when there is none. */
  function FirstDash(s: string): (k: nat)
    ensures k <= |s|
  {
    if s == [] then 0 else if s[0] == '-' then 0 else 1 + FirstDash(s[1..])
  }

  lemma {:induction false} FirstDashOfJoin(p: string, q: string)
    requires NoDash(p)
    ensures FirstDash(p + "-" + q) == |p|
  {
    if p != [] {
      assert (p + "-" + q)[1..] == p[1..] + "-" + q;
      FirstDashOfJoin(p[1..], q);
    }
  }

  /** The room id is order-dependent: swapping the two users gives the same
      id exactly when their ids are equal. */
  lemma ChatRoomIdOrderDependent(x: Option<nat>, y: Option<nat>)
    ensures ChatRoomId(x, y) == ChatRoomId(y, x) <==> x == y
  {
    var p, q := IdText(x), IdText(y);
    assert NoDash(p) && NoDash(q) by {
      assert NoDash("undefined");
    }
    if ChatRoomId(x, y) == ChatRoomId(y, x) {
      FirstDashOfJoin(p, q);
      FirstDashOfJoin(q, p);
      assert p == (p + "-" + q)[..|p|];
      assert q == (q + "-" + p)[..|q|];
      IdTextInjective(x, y);
    }
  }

  /** A record of the local user fixture; its `inbox` is pushed onto in place. */
  class UserRecord {
    const userId: nat
    var inbox: seq<string>

    constructor (userId: nat, inbox: seq<string>)
      ensures this.userId == userId && this.inbox == inbox
    {
      this.userId := userId;
      this.inbox := inbox;
    }
  }

  /** `UsersData.find(user => user.user_id === id)`: the index of the first
      record with that id; an absent id matches no record. */
  function FindIndex(users: seq<UserRecord>, id: Option<nat>): (r: Option<nat>)
    ensures r.None? <==> forall i :: 0 <= i < |users| ==> Some(users[i].userId) != id
    ensures r.Some? ==> r.value < |users| && Some(users[r.value].userId) == id
    ensures r.Some? ==> forall j :: 0 <= j < r.value ==> Some(users[j].userId) != id
  {
    if users == [] then None
    else if Some(users[0].userId) == id then Some(0)
    else
      match FindIndex(users[1..], id)
      case None => None
      case Some(k) => Some(k + 1)
  }

  function FindUser(users: seq<UserRecord>, id: Option<nat>): (r: UserRecord?)
    ensures r == null <==> forall i :: 0 <= i < |users| ==> Some(users[i].userId) != id
    ensures r != null ==> r in users && Some(r.userId) == id
    ensures r != null ==> r == users[FindIndex(users, id).value]
  {
    var i := FindIndex(users, id);
    if i.Some? then users[i.value] else null
  }

  datatype RoomMessage = RoomMessage(message: string, time: string)

  datatype ChatRoom = ChatRoom(chatRoomId: string, messages: seq<RoomMessage>, lastMessage: string, activeChat: bool)

  /** The room record built for a new contact. */
  function NewRoom(roomId: string): (room: ChatRoom)
    ensures room.chatRoomId == roomId && !room.activeChat && |room.messages| == 1
  {
    ChatRoom(roomId, [RoomMessage("blah", "test")], "test", false)
  }

  /** The local `ChatsData` array. */
  class ChatsTable {
    var rooms: seq<ChatRoom>

    constructor (rooms: seq<ChatRoom>)
      ensures this.rooms == rooms
    {
      this.rooms := rooms;
    }
  }

  /** What the delayed commit will do, fixed at click time. */
  datatype PendingCommit = PendingCommit(currentData: UserRecord?, recipientData: UserRecord?, roomId: string)

  const ToastAdded := "Contact added successfuly."

  class AddContactModal {
    const users: seq<UserRecord>
    const chatsData: ChatsTable
    /** `currentUser?.user_id` and `recipient?.user_id`. */
    const currentId: Option<nat>
    const recipientId: Option<nat>
    /** The enclosing page's `showModal`. */
    var showModal: bool
    var isBtnDisabled: bool
    var toastMsg: string
    /** The commit the one-second timer will run. */
    var scheduled: Option<PendingCommit>

    function Planned(): PendingCommit
    {
      PendingCommit(FindUser(users, currentId), FindUser(users, recipientId), ChatRoomId(currentId, recipientId))
    }

    ghost predicate Valid()
      reads this
    {
      && (scheduled.Some? <==> isBtnDisabled)
      && (scheduled.Some? ==> scheduled.value == Planned())
    }

    constructor (users: seq<UserRecord>, chatsData: ChatsTable, currentId: Option<nat>, recipientId: Option<nat>, toastMsg: string)
      ensures Valid() && showModal && !isBtnDisabled && this.toastMsg == toastMsg
      ensures this.users == users && this.chatsData == chatsData
      ensures this.currentId == currentId && this.recipientId == recipientId
    {
      this.users, this.chatsData := users, chatsData;
      this.currentId, this.recipientId := currentId, recipientId;
      this.toastMsg := toastMsg;
      showModal, isBtnDisabled, scheduled := true, false, None;
    }

    /** The two records the commit pushes onto. */
    function Targets(): set<object>
      reads this
    {
      if scheduled.None? then {}
      else
        (if scheduled.value.currentData == null then {} else {scheduled.value.currentData})
        + (if scheduled.value.recipientData == null then {} else {scheduled.value.recipientData})
    }

    /** "Add Contact": a disabled button ignores the click; otherwise the
        button is disabled and the commit is scheduled. */
    method AddContactClick()
      requires Valid()
      modifies this
      ensures Valid()
      ensures old(isBtnDisabled) ==> unchanged(this)
      ensures !old(isBtnDisabled) ==> isBtnDisabled && scheduled == Some(Planned())
      ensures showModal == old(showModal) && toastMsg == old(toastMsg)
    {
      if isBtnDisabled {
        return;
      }
      isBtnDisabled := true;
      var currentData := FindUser(users, currentId);
      var recipientData := FindUser(users, recipientId);
      var roomId := ChatRoomId(currentId, recipientId);
      scheduled := Some(PendingCommit(currentData, recipientData, roomId));
    }

    /** The timer fires: the room id is pushed onto each record found (twice
        onto the same record when a user adds themself), one room record is
        pushed onto the chat table, and the modal closes. */
    method TimerFires()
      requires Valid() && scheduled.Some?
      modifies this, chatsData, Targets()
      ensures Valid() && scheduled.None? && !isBtnDisabled && !showModal && toastMsg == ToastAdded
      ensures chatsData.rooms == old(chatsData.rooms) + [NewRoom(old(scheduled).value.roomId)]
      ensures var p := old(scheduled).value;
        && (p.currentData != null && p.currentData == p.recipientData ==>
              p.currentData.inbox == old(p.currentData.inbox) + [p.roomId, p.roomId])
        && (p.currentData != null && p.currentData != p.recipientData ==>
              p.currentData.inbox == old(p.currentData.inbox) + [p.roomId])
        && (p.recipientData != null && p.currentData != p.recipientData ==>
              p.recipientData.inbox == old(p.recipientData.inbox) + [p.roomId])
        && (forall u :: u in users && u != p.currentData && u != p.recipientData ==> u.inbox == old(u.inbox))
    {
      var p := scheduled.value;
      if p.currentData != null {
        p.currentData.inbox := p.currentData.inbox + [p.roomId];
      }
      if p.recipientData != null {
        p.recipientData.inbox := p.recipientData.inbox + [p.roomId];
      }
      chatsData.rooms := chatsData.rooms + [NewRoom(p.roomId)];
      showModal := false;
      isBtnDisabled := false;
      scheduled := None;
      toastMsg := ToastAdded;
    }

    /** "Cancel" (disabled, like "Add Contact", while a commit is pending). */
    method CancelClick()
      requires Valid()
      modifies this
      ensures Valid()
      ensures old(isBtnDisabled) ==> unchanged(this)
      ensures !old(isBtnDisabled) ==>
        !showModal && isBtnDisabled == old(isBtnDisabled) && scheduled == old(scheduled) && toastMsg == old(toastMsg)
    {
      if !isBtnDisabled {
        showModal := false;
      }
    }
  }
}
