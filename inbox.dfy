/** The inbox: a listener on the current user's `userChats` document whose
    every snapshot replaces the list of conversations, shown newest first. */
module Inbox {
  import opened Types
  import opened DocStore
  import opened ChatReducer

  /** `Object.entries` of the inbox document: its fields in the order the
      document lists them. */
  type Listing = seq<(string, InboxEntry)>

  /** `s` lists exactly the fields of `doc`, each once. */
  ghost predicate Lists(s: Listing, doc: InboxDoc)
  {
    && (forall i, j :: 0 <= i < j < |s| ==> s[i].0 != s[j].0)
    && (forall i :: 0 <= i < |s| ==> s[i].0 in doc && doc[s[i].0] == s[i].1)
    && (forall k :: k in doc ==> exists i :: 0 <= i < |s| && s[i].0 == k)
  }

  predicate HasDate(e: (string, InboxEntry))
  {
    e.1.lastMessage.Some?
  }

  /** `lastMessage.date` of an entry (only read of entries that have one). */
  function Date(e: (string, InboxEntry)): int
  {
    if e.1.lastMessage.Some? then e.1.lastMessage.value.date else 0
  }

  predicate SortedByDateDesc(s: Listing)
  {
    forall i, j :: 0 <= i < j < |s| ==> Date(s[i]) >= Date(s[j])
  }

  /** Places `x` before the first entry that is not newer than it. */
  function Insert(x: (string, InboxEntry), s: Listing): (r: Listing)
    ensures multiset(r) == multiset(s) + multiset{x}
  {
    if s == [] || Date(s[0]) <= Date(x) then [x] + s
    else
      assert s == [s[0]] + s[1..];
      [s[0]] + Insert(x, s[1..])
  }

  lemma {:induction false} InsertSorted(x: (string, InboxEntry), s: Listing)
    requires SortedByDateDesc(s)
    ensures SortedByDateDesc(Insert(x, s))
  {
    if s != [] && Date(s[0]) > Date(x) {
      var t := Insert(x, s[1..]);
      InsertSorted(x, s[1..]);
      forall k | 0 <= k < |t|
        ensures Date(s[0]) >= Date(t[k])
      {
        assert t[k] in multiset(t);
        if t[k] != x {
          assert t[k] in multiset(s[1..]);
          var j :| 0 <= j < |s[1..]| && s[1..][j] == t[k];
          assert s[j + 1] == t[k];
        }
      }
      assert Insert(x, s) == [s[0]] + t;
    }
  }

  /** The comparator sort `(a, b) => b.date - a.date`, as a stable insertion
      sort: entries with equal dates keep their listing order. */
  function SortByDateDesc(s: Listing): (r: Listing)
    ensures multiset(r) == multiset(s)
    ensures SortedByDateDesc(r)
  {
    if s == [] then []
    else
      assert s == [s[0]] + s[1..];
      InsertSorted(s[0], SortByDateDesc(s[1..]));
      Insert(s[0], SortByDateDesc(s[1..]))
  }

  /** The entries of `s` whose date is `v`, in listing order. */
  function WithDate(s: Listing, v: int): Listing
  {
    if s == [] then [] else (if Date(s[0]) == v then [s[0]] else []) + WithDate(s[1..], v)
  }

  lemma {:induction false} InsertStable(x: (string, InboxEntry), t: Listing, v: int)
    ensures WithDate(Insert(x, t), v) == WithDate([x] + t, v)
  {
    if t != [] && Date(t[0]) > Date(x) {
      InsertStable(x, t[1..], v);
      assert ([t[0]] + Insert(x, t[1..]))[1..] == Insert(x, t[1..]);
      assert ([x] + t[1..])[1..] == t[1..];
      assert ([x] + t)[1..] == t;
    }
  }

  /** The sort is stable: for every date, the entries with that date keep
      their listing order. */
  lemma {:induction false} SortByDateDescStable(s: Listing, v: int)
    ensures WithDate(SortByDateDesc(s), v) == WithDate(s, v)
  {
    if s != [] {
      SortByDateDescStable(s[1..], v);
      InsertStable(s[0], SortByDateDesc(s[1..]), v);
      assert ([s[0]] + SortByDateDesc(s[1..]))[1..] == SortByDateDesc(s[1..]);
    }
  }

  datatype SortOutcome = Sorted(entries: Listing) | ComparatorThrows

  /** The order the inbox is shown in. The comparator reads
      `lastMessage.date` of the entries it compares, so with two or more
      entries one without a `lastMessage` makes it throw; a single entry is
      never compared. */
  function DisplayOrder(chats: Listing): (r: SortOutcome)
    ensures r.ComparatorThrows? <==> |chats| >= 2 && exists i :: 0 <= i < |chats| && !HasDate(chats[i])
    ensures r.Sorted? ==> multiset(r.entries) == multiset(chats) && SortedByDateDesc(r.entries)
    ensures r.Sorted? && |chats| >= 2 ==> forall i :: 0 <= i < |r.entries| ==> HasDate(r.entries[i])
  {
    if |chats| >= 2 && exists i :: 0 <= i < |chats| && !HasDate(chats[i]) then ComparatorThrows
    else
      var r := SortByDateDesc(chats);
      assert forall i :: 0 <= i < |r| ==> r[i] in multiset(chats);
      Sorted(r)
  }

  /** What the inbox area shows. The sort runs during render, so a
      comparator that throws makes the whole view throw: nothing is shown,
      the spinner included. */
  datatype InboxDisplay =
    | Shown(list: Option<Listing>, emptyNotice: bool, spinner: bool)
    | RenderThrows

  function DisplayOf(chats: Listing, isPending: bool): (d: InboxDisplay)
    ensures d.RenderThrows? <==> DisplayOrder(chats).ComparatorThrows?
    ensures d.RenderThrows? ==> |chats| >= 2
    ensures d.Shown? ==> (d.list.Some? <==> |chats| != 0)
    ensures d.Shown? && d.list.Some? ==> DisplayOrder(chats) == Sorted(d.list.value)
    ensures d.Shown? ==> (d.emptyNotice <==> |chats| == 0 && !isPending)
    ensures d.Shown? ==> (d.spinner <==> isPending)
    ensures d.Shown? ==> !(d.list.Some? && d.emptyNotice) && !(d.emptyNotice && d.spinner)
  {
    if |chats| == 0 then Shown(None, !isPending, isPending)
    else match DisplayOrder(chats)
      case ComparatorThrows => RenderThrows
      case Sorted(entries) => Shown(Some(entries), false, isPending)
  }

  /** A uid that the client treats as false (`undefined` or `""`). */
  predicate Falsy(uid: Option<string>)
  {
    uid.None? || uid.value == ""
  }

  class InboxView {
    var isPending: bool
    var chats: Listing
    /** `currentUser.uid` as of the last effect run. */
    var effectUid: Option<string>
    /** The user whose inbox document is being listened to. */
    var listener: Option<string>
    var mounted: bool

    ghost predicate Valid()
      reads this
    {
      && (listener.Some? ==> mounted && effectUid == listener && !Falsy(listener))
      && (mounted && !Falsy(effectUid) ==> listener == effectUid)
    }

    function Display(): InboxDisplay
      reads this
    {
      DisplayOf(chats, isPending)
    }

    /** Runs the effect for `uid`: nothing for a falsy uid, otherwise pending
        and a new listener. */
    method Subscribe(uid: Option<string>)
      requires listener.None?
      modifies this
      ensures effectUid == uid && chats == old(chats) && mounted == old(mounted)
      ensures Falsy(uid) ==> listener.None? && isPending == old(isPending)
      ensures !Falsy(uid) ==> listener == uid && isPending
    {
      effectUid := uid;
      if Falsy(uid) {
        return;
      }
      isPending := true;
      listener := uid;
    }

    /** First render: initial state (`isPending` false, no chats) and the
        first effect run. */
    constructor (uid: Option<string>)
      ensures Valid() && mounted && effectUid == uid && chats == []
      ensures Falsy(uid) ==> listener.None? && !isPending
      ensures !Falsy(uid) ==> listener == uid && isPending
    {
      isPending, chats, mounted := false, [], true;
      effectUid, listener := uid, None;
      if !Falsy(uid) {
        isPending := true;
        listener := uid;
      }
    }

    /** A re-render with `currentUser.uid == uid`. The effect depends on the
        uid only; when it changed, the cleanup cancels the listener and the
        effect runs again. The list is kept until the next snapshot. */
    method Render(uid: Option<string>)
      requires Valid() && mounted
      modifies this
      ensures Valid() && mounted && chats == old(chats)
      ensures uid == old(effectUid) ==> unchanged(this)
      ensures uid != old(effectUid) ==> effectUid == uid
      ensures uid != old(effectUid) && Falsy(uid) ==> listener.None? && isPending == old(isPending)
      ensures uid != old(effectUid) && !Falsy(uid) ==> listener == uid && isPending
    {
      if uid == effectUid {
        return;
      }
      listener := None;
      Subscribe(uid);
    }

    /** The store delivers a snapshot of the listened-to document, whose
        fields come in the order `listing`. A missing document reads as no
        fields. With no listener open nothing is delivered. */
    method Snapshot(store: Store, listing: Listing)
      requires Valid()
      requires listener.Some? && listener.value in store.userChats ==> Lists(listing, store.userChats[listener.value])
      modifies this
      ensures Valid() && listener == old(listener) && effectUid == old(effectUid) && mounted == old(mounted)
      ensures old(listener).None? ==> unchanged(this)
      ensures old(listener).Some? ==> !isPending
      ensures old(listener).Some? ==> chats == if old(listener).value in store.userChats then listing else []
    {
      if listener.None? {
        return;
      }
      chats := if listener.value in store.userChats then listing else [];
      isPending := false;
    }

    method Unmount()
      requires Valid()
      modifies this
      ensures Valid() && listener.None? && !mounted
      ensures chats == old(chats) && isPending == old(isPending) && effectUid == old(effectUid)
    {
      listener := None;
      mounted := false;
    }

    /** Clicking an entry dispatches `changeChat` with that entry's user. */
    method ChatClick(slice: ChatSlice, currentUid: Option<string>, recipient: User)
      modifies slice
      ensures slice.State() == ChangeChatResult(old(slice.State()), currentUid, Some(recipient))
    {
      slice.ChangeChat(currentUid, Some(recipient));
    }
  }
}
