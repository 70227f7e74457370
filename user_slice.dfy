/** The `user` slice: the signed-in user, the status of the last
    authentication request and its error message; and the two helpers that
    write the user's documents. */
module UserSlice {
  import opened Types
  import opened DocStore

  datatype Status = Idle | Pending | Successful | Failed

  /** What `state.user` holds: `{}`, a login payload, or, after `logout`,
      the whole initial state object. */
  datatype UserField = EmptyUser | SignedIn(user: User) | WholeInitialState

  datatype SliceState = SliceState(user: UserField, status: Status, errorMsg: string)

  const InitialState := SliceState(EmptyUser, Idle, "")

  // ---------------------------------------------------------------------
  // Actions of the four asynchronous requests.

  datatype Thunk = EmailLogin | GoogleLogin | SignUp | EditProfile

  /** The type prefixes the requests were created with: sign-up was given
      the same prefix as the Google login. */
  datatype TypePrefix = EmailLoginPrefix | GoogleLoginPrefix | EditProfilePrefix

  function PrefixOf(t: Thunk): TypePrefix
  {
    match t
    case EmailLogin => EmailLoginPrefix
    case GoogleLogin => GoogleLoginPrefix
    case SignUp => GoogleLoginPrefix
    case EditProfile => EditProfilePrefix
  }

  datatype Phase = PendingPhase | FulfilledPhase | RejectedPhase

  datatype ActionType = ActionType(prefix: TypePrefix, phase: Phase)

  function TypeOf(t: Thunk, p: Phase): ActionType
  {
    ActionType(PrefixOf(t), p)
  }

  datatype SerializedError = SerializedError(message: Option<string>)

  /** A dispatched action; only rejected actions carry an `error`. */
  datatype Action = Action(actionType: ActionType, error: Option<SerializedError>)

  function PendingAction(t: Thunk): Action
  {
    Action(TypeOf(t, PendingPhase), None)
  }

  function FulfilledAction(t: Thunk): Action
  {
    Action(TypeOf(t, FulfilledPhase), None)
  }

  function RejectedAction(t: Thunk, message: Option<string>): Action
  {
    Action(TypeOf(t, RejectedPhase), Some(SerializedError(message)))
  }

  /** Sign-up and Google login cannot be told apart by their actions. */
  lemma SignUpActionsAreGoogleLoginActions(p: Phase, message: Option<string>)
    ensures PendingAction(SignUp) == PendingAction(GoogleLogin)
    ensures FulfilledAction(SignUp) == FulfilledAction(GoogleLogin)
    ensures RejectedAction(SignUp, message) == RejectedAction(GoogleLogin, message)
  {
  }

  datatype CaseReducer = MarkSuccessful | MarkPending | MarkFailed

  /** `addMatcher(isAnyOf(…types), reducer)`. */
  datatype Matcher = Matcher(types: seq<ActionType>, reducer: CaseReducer)

  /** The three matchers in registration order. The failure matcher lists
      `editProfile.fulfilled`, also listed by the success matcher. */
  const Matchers: seq<Matcher> := [
    Matcher([TypeOf(EmailLogin, FulfilledPhase), TypeOf(GoogleLogin, FulfilledPhase),
             TypeOf(SignUp, FulfilledPhase), TypeOf(EditProfile, FulfilledPhase)], MarkSuccessful),
    Matcher([TypeOf(EmailLogin, PendingPhase), TypeOf(GoogleLogin, PendingPhase),
             TypeOf(SignUp, PendingPhase), TypeOf(EditProfile, PendingPhase)], MarkPending),
    Matcher([TypeOf(EmailLogin, RejectedPhase), TypeOf(GoogleLogin, RejectedPhase),
             TypeOf(SignUp, RejectedPhase), TypeOf(EditProfile, FulfilledPhase)], MarkFailed)
  ]

  /** `message || ""`. */
  function OrEmpty(message: Option<string>): string
  {
    if message.Some? then message.value else ""
  }

  /** One case reducer; `None` when it throws. The failure reducer reads
      `action.error.message`, which throws when the action has no `error`. */
  function ApplyCase(s: SliceState, c: CaseReducer, a: Action): (r: Option<SliceState>)
    ensures r.None? <==> c == MarkFailed && a.error.None?
    ensures r.Some? ==> r.value.user == s.user
    ensures r.Some? && c != MarkFailed ==> r.value.errorMsg == s.errorMsg
  {
    match c
    case MarkSuccessful => Some(s.(status := Successful))
    case MarkPending => Some(s.(status := Pending))
    case MarkFailed =>
      if a.error.None? then None
      else Some(s.(status := Failed, errorMsg := OrEmpty(a.error.value.message)))
  }

  /** Every matcher that matches the action's type runs, in order; a
      throwing case reducer aborts the whole reduction. */
  function RunMatchers(s: SliceState, ms: seq<Matcher>, a: Action): (r: Option<SliceState>)
    ensures r.Some? ==> r.value.user == s.user
    ensures (forall i :: 0 <= i < |ms| ==> a.actionType !in ms[i].types) ==> r == Some(s)
    decreases |ms|
  {
    if ms == [] then Some(s)
    else
      var next := if a.actionType in ms[0].types then ApplyCase(s, ms[0].reducer, a) else Some(s);
      if next.None? then None else RunMatchers(next.value, ms[1..], a)
  }

  function ReduceThunkAction(s: SliceState, a: Action): (r: Option<SliceState>)
    ensures r.Some? ==> r.value.user == s.user
  {
    RunMatchers(s, Matchers, a)
  }

  /** A pending action of any request sets the status to pending, nothing else. */
  lemma PendingSetsPending(s: SliceState, t: Thunk)
    ensures ReduceThunkAction(s, PendingAction(t)) == Some(s.(status := Pending))
  {
  }

  /** A fulfilled login or sign-up sets the status to successful, nothing else. */
  lemma FulfilledSetsSuccessful(s: SliceState, t: Thunk)
    requires t != EditProfile
    ensures ReduceThunkAction(s, FulfilledAction(t)) == Some(s.(status := Successful))
  {
  }

  /** A rejected login or sign-up sets the status to failed and the error
      message to the error's message, or `""` without one. */
  lemma RejectedSetsFailed(s: SliceState, t: Thunk, message: Option<string>)
    requires t != EditProfile
    ensures ReduceThunkAction(s, RejectedAction(t, message))
         == Some(s.(status := Failed, errorMsg := OrEmpty(message)))
  {
  }

  /** A rejected profile edit matches no matcher. */
  lemma EditProfileRejectedIgnored(s: SliceState, message: Option<string>)
    ensures ReduceThunkAction(s, RejectedAction(EditProfile, message)) == Some(s)
  {
  }

  /** A fulfilled profile edit reaches the failure reducer, which throws. */
  lemma EditProfileFulfilledThrows(s: SliceState)
    ensures ReduceThunkAction(s, FulfilledAction(EditProfile)).None?
  {
  }

  /** The slice's state, which the reducers update in place. */
  class UserStore {
    var user: UserField
    var status: Status
    var errorMsg: string

    function State(): SliceState
      reads this
    {
      SliceState(user, status, errorMsg)
    }

    constructor ()
      ensures State() == InitialState
    {
      user, status, errorMsg := EmptyUser, Idle, "";
    }

    method Login(payload: User)
      modifies this
      ensures State() == old(State()).(user := SignedIn(payload))
    {
      user := SignedIn(payload);
    }

    /** Assigns the whole initial state object to `user`; the provider's
        sign-out is not part of this model. */
    method Logout()
      modifies this
      ensures State() == old(State()).(user := WholeInitialState)
    {
      user := WholeInitialState;
    }

    method ClearUserStateErr()
      modifies this
      ensures State() == old(State()).(errorMsg := "")
    {
      errorMsg := "";
    }

    /** Dispatches a request action. When a case reducer throws, the
        dispatch throws and the previous state is kept. */
    method DispatchThunkAction(a: Action) returns (threw: bool)
      modifies this
      ensures threw <==> ReduceThunkAction(old(State()), a).None?
      ensures State() == if threw then old(State()) else ReduceThunkAction(old(State()), a).value
    {
      var s := State();
      var i := 0;
      while i < |Matchers|
        invariant 0 <= i <= |Matchers|
        invariant RunMatchers(s, Matchers[i..], a) == ReduceThunkAction(old(State()), a)
        invariant State() == old(State())
      {
        if a.actionType in Matchers[i].types {
          var next := ApplyCase(s, Matchers[i].reducer, a);
          if next.None? {
            assert Matchers[i..][1..] == Matchers[i + 1..];
            return true;
          }
          s := next.value;
        }
        assert Matchers[i..][1..] == Matchers[i + 1..];
        i := i + 1;
      }
      user, status, errorMsg := s.user, s.status, s.errorMsg;
      return false;
    }
  }

  // ---------------------------------------------------------------------
  // Documents written after sign-in and by a profile edit.

  /** The user document created on first sign-in. */
  function DefaultUserDoc(u: User): (d: UserDoc)
    ensures d.uid == u.uid && d.bio == "A Bio." && d.status == "off" && d.location == "Earth" && d.contacts == []
  {
    UserDoc(u.uid, u.photoURL, u.displayName, u.email, "A Bio.", "off", "Earth", [])
  }

  /** `setUserInfoDoc` for the signed-in user `current`: creates the user
      document and an empty inbox document when they are absent. */
  function EnsureUserDocs(d: Documents, current: Option<User>): (r: Documents)
    ensures current.None? ==> r == d
    ensures r.chats == d.chats
    ensures current.Some? ==> r.users.Keys == d.users.Keys + {current.value.uid}
    ensures current.Some? ==> r.userChats.Keys == d.userChats.Keys + {current.value.uid}
    ensures forall uid :: uid in d.users ==> r.users[uid] == d.users[uid]
    ensures forall uid :: uid in d.userChats ==> r.userChats[uid] == d.userChats[uid]
    ensures current.Some? && current.value.uid !in d.users ==> r.users[current.value.uid] == DefaultUserDoc(current.value)
    ensures current.Some? && current.value.uid !in d.userChats ==> r.userChats[current.value.uid] == map[]
  {
    if current.None? then d
    else
      var uid := current.value.uid;
      var users := if uid in d.users then d.users else d.users[uid := DefaultUserDoc(current.value)];
      var userChats := if uid in d.userChats then d.userChats else d.userChats[uid := map[]];
      d.(users := users, userChats := userChats)
  }

  /** Running the helper again changes nothing. */
  lemma EnsureUserDocsIdempotent(d: Documents, current: Option<User>)
    ensures EnsureUserDocs(EnsureUserDocs(d, current), current) == EnsureUserDocs(d, current)
  {
  }

  method SetUserInfoDoc(store: Store, current: Option<User>)
    modifies store
    ensures store.Docs() == EnsureUserDocs(old(store.Docs()), current)
  {
    if current.None? {
      return;
    }
    var uid := current.value.uid;
    var userDocExists := uid in store.users;
    var userChatsDocExists := uid in store.userChats;
    if !userDocExists {
      store.SetUserDoc(uid, DefaultUserDoc(current.value));
    }
    if !userChatsDocExists {
      store.SetInboxDoc(uid, map[]);
    }
  }

  /** The profile fields a caller may pass. */
  datatype EditInfo = EditInfo(displayName: Option<string>, bio: Option<string>, location: Option<string>)

  /** The store write of `editProfile`: only a non-empty display name is
      written, and only to an existing user document. */
  function EditProfileWrite(d: Documents, current: Option<User>, info: EditInfo): (r: Documents)
    ensures r.userChats == d.userChats && r.chats == d.chats && r.users.Keys == d.users.Keys
    ensures forall uid :: uid in d.users && (current.None? || uid != current.value.uid) ==> r.users[uid] == d.users[uid]
    ensures current.Some? && current.value.uid in d.users ==>
      r.users[current.value.uid] ==
        if info.displayName.Some? && info.displayName.value != ""
        then d.users[current.value.uid].(displayName := info.displayName)
        else d.users[current.value.uid]
  {
    if current.None? || info.displayName.None? || info.displayName.value == "" then d
    else
      var uid := current.value.uid;
      if uid in d.users then d.(users := d.users[uid := d.users[uid].(displayName := info.displayName)])
      else d
  }

  /** The bio and location a caller passes are never written. */
  lemma EditProfileIgnoresBioAndLocation(d: Documents, current: Option<User>, name: Option<string>,
                                         bio1: Option<string>, loc1: Option<string>,
                                         bio2: Option<string>, loc2: Option<string>)
    ensures EditProfileWrite(d, current, EditInfo(name, bio1, loc1)) == EditProfileWrite(d, current, EditInfo(name, bio2, loc2))
  {
  }

  method EditProfileRequest(store: Store, current: Option<User>, info: EditInfo)
    modifies store
    ensures store.Docs() == EditProfileWrite(old(store.Docs()), current, info)
  {
    if current.None? {
      return;
    }
    if info.displayName.Some? && info.displayName.value != "" {
      store.UpdateDisplayName(current.value.uid, info.displayName.value);
    }
  }
}
