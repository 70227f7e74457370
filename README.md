# ac-messenger: a Dafny model of the messaging client's state logic

The messenger is a React client over a push-capable document store. Most of
its code renders views. This model covers the state transitions behind them:

- **Chat selection.** The `chat` slice is meant to derive a conversation
  key from the current user's id and the recipient's id: the greater id
  followed by the lesser (as written it yields `NaN`; see Findings).
- **Open conversation.** Selecting a conversation resets the view and marks
  the current user's inbox entry `seen` and `active`. It then listens to the
  conversation document. Switching away or unmounting writes `active: false`
  and stops listening.
- **Inbox.** A listener on the user's `userChats` document replaces the list
  on every snapshot. The list is shown newest first, with a spinner while
  pending and a notice when empty.
- **Legacy inbox.** Clicking a chat object marks it active in place and
  clears the mark on the chat clicked before.
- **Legacy add-contact.** A room id `"<current>-<recipient>"` is pushed onto
  both users' inboxes, and one room record is pushed onto the chat table.
- **`user` slice.** Request actions set `status` and `errorMsg`, and there
  are the `login`, `logout` and `clearUserStateErr` reducers. Two helpers
  write documents: `setUserInfoDoc` creates the user's documents if they are
  absent, and `editProfile` writes a new display name.

The store is modelled as maps (`DocStore.Store`), one per collection. A
write that updates a missing document writes nothing, as a rejected update
does. A listener delivery is a method call on the view (`Deliver`,
`Snapshot`) that reads the store's current document. When no listener is
open, a delivery does nothing, so a late delivery after unsubscribing has no
effect. The signed-in user is passed in as a parameter (`currentUid`,
`current`). Writes the source does not await are modelled as happening in
program order.

One file per source file: `chat_reducer.dfy`, `chat_box.dfy`, `inbox.dfy`,
`legacy_inbox.dfy`, `add_contact.dfy`, `user_slice.dfy`. `types.dfy` and
`doc_store.dfy` hold the shared values and the store.

Behaviour of the source that the model keeps as written:

- **`editProfile.fulfilled` is listed in the failure matcher as well as the
  success matcher.** The failure reducer reads `action.error.message` on an
  action that has no `error`, so it throws. The dispatch then throws too,
  and the store keeps its previous state. `UserStore.DispatchThunkAction`
  reports `threw` and keeps the state unchanged.
- **Sign-up shares the action type prefix `user/googleLogin`.** A sign-up
  action therefore cannot be told apart from a Google-login action.
- **Inbox sort with a missing `lastMessage`.** The comparator reads
  `lastMessage.date`, so with two or more entries, one without a
  `lastMessage` makes the sort throw. One entry alone is never compared.
- **Inbox `isPending` can stay true.** If the uid becomes empty while a
  snapshot is still pending, the cleanup cancels the listener but
  `isPending` keeps its value.
- **Cancel is disabled while a commit is pending,** so clicking it then does
  nothing.

## Model

| member | source | states |
|---|---|---|
| DocStore.WithPresence | src/features/conversation/ChatBox.tsx:60-63 | the presence update sets `active` on the conversation's field, sets `seen` only when asked, keeps `lastMessage`, and leaves every other field of the inbox document unchanged |
| DocStore.PresenceUpdate | src/features/conversation/ChatBox.tsx:72-74 | an update of a missing inbox document writes nothing; otherwise only the current user's inbox document changes |
| DocStore.Store.UpdatePresence | src/features/conversation/ChatBox.tsx:60-63 | the store afterwards equals the presence update applied to the old store |
| DocStore.Store.SetUserDoc | src/features/authentication/userSlice.ts:52-61 | setting a user document creates or overwrites exactly that document |
| DocStore.Store.SetInboxDoc | src/features/authentication/userSlice.ts:65 | setting an inbox document creates or overwrites exactly that document |
| DocStore.Store.UpdateDisplayName | src/features/authentication/userSlice.ts:81-83 | only `displayName` of an existing user document changes; a missing document is not created |
| ChatReducer.StrLess | src/features/inbox/chatReducer.ts:26 | the client's string `>` (read with the operands swapped): lexicographic, and a proper prefix sorts first; `StrLessIrreflexive`, `StrLessAsymmetric`, `StrLessTransitive` and `StrLessTotal` prove it a strict total order |
| ChatReducer.StrLessIrreflexive | src/features/inbox/chatReducer.ts:26 | no string id is greater than itself |
| ChatReducer.StrLessAsymmetric | src/features/inbox/chatReducer.ts:26 | if a is less than b, then b is not less than a |
| ChatReducer.StrLessTransitive | src/features/inbox/chatReducer.ts:26 | the string order used for the comparison is transitive |
| ChatReducer.StrLessTotal | src/features/inbox/chatReducer.ts:26 | any two distinct ids are ordered one way or the other |
| ChatReducer.ChatKey | src/features/inbox/chatReducer.ts:25-28 | the key is one id followed by the other, and its length is the sum of their lengths |
| ChatReducer.ChatKeyGreaterFirst | src/features/inbox/chatReducer.ts:25-28 | the key starts with the id that is not smaller and ends with the other id |
| ChatReducer.ChatKeyCommutes | src/features/inbox/chatReducer.ts:25-28 | swapping the two users gives the same key, including when the ids are equal |
| ChatReducer.AsWrittenChatId | src/features/inbox/chatReducer.ts:21-28 | no contract: its body is the model of the expression as written (`.uid` read on the uid strings, then the client's `>` and `+`); `AsWrittenChatIdIgnoresUsers` states what it yields |
| ChatReducer.AsWrittenChatIdIgnoresUsers | src/features/inbox/chatReducer.ts:21-28 | the expression as written produces the same `NaN` for every pair of users, never the key |
| ChatReducer.ChangeChatResult | src/features/inbox/chatReducer.ts:18-31 | no contract: its body is the model of the `changeChat` case (early return, then recipient and corrected key); `ChangeChatIgnored`, `ChangeChatSelects`, `ChangeChatIdempotent` and `ChangeChatAgrees` state its properties |
| ChatReducer.ChangeChatIgnored | src/features/inbox/chatReducer.ts:19 | with no signed-in user or no payload, the state is unchanged |
| ChatReducer.ChangeChatSelects | src/features/inbox/chatReducer.ts:24-28 | on success the recipient is the payload, the chat id is the key of the two uids, and the result does not depend on the previous state |
| ChatReducer.ChangeChatIdempotent | src/features/inbox/chatReducer.ts:18-31 | applying `changeChat` twice with the same payload equals applying it once |
| ChatReducer.ChangeChatAgrees | src/features/inbox/chatReducer.ts:25-28 | two users who select each other get the same chat id |
| ChatReducer.ChatSlice.constructor | src/features/inbox/chatReducer.ts:9-12 | the initial state has an empty chat id and no recipient |
| ChatReducer.ChatSlice.ChangeChat | src/features/inbox/chatReducer.ts:18-31 | the reducer's in-place update yields exactly the `changeChat` result of the old state, with the chat id built by the corrected key (see Findings) |
| ConversationView.LifecycleBalanced | src/features/conversation/ChatBox.tsx:65-77 | in any run of effects, the number of subscriptions equals the number of unsubscriptions plus one while a listener is open, so at most one listener is ever live |
| ConversationView.AttachThenDetachPresence | src/features/conversation/ChatBox.tsx:57-74 | after attach and then cleanup, the entry is seen and inactive, keeps its last message, and the rest of the inbox is unchanged |
| ConversationView.PanelsOf | src/features/conversation/ChatBox.tsx:85-97 | the spinner shows exactly when pending, and the empty notice exactly when there are no messages and it is not pending; the spinner and the notice never show together, and some panel always shows |
| ConversationView.ChatBox.constructor | src/features/conversation/ChatBox.tsx:28-29 | the component starts with no messages, not pending, and no listener |
| ConversationView.ChatBox.Attach | src/features/conversation/ChatBox.tsx:52-69 | the effect sets pending, empties the messages, marks the user's entry seen and active, and opens exactly one listener on the new chat, in that order |
| ConversationView.ChatBox.Detach | src/features/conversation/ChatBox.tsx:71-76 | the cleanup writes only `active: false`, for the old chat and the captured user, then unsubscribes; messages and pending are kept |
| ConversationView.ChatBox.Render | src/features/conversation/ChatBox.tsx:52-77 | the same chat id does nothing (no writes, no resubscription); a new chat id runs the old cleanup and then the new effect, keeping the attach/detach alternation |
| ConversationView.ChatBox.Deliver | src/features/conversation/ChatBox.tsx:65-69 | a snapshot of an existing document sets the messages to the document's messages; for a missing one the messages are kept; pending becomes false in both cases; with no listener nothing changes |
| ConversationView.ChatBox.Unmount | src/features/conversation/ChatBox.tsx:71-77 | unmounting runs the cleanup of the live effect, if there is one, and leaves no listener |
| Inbox.Insert | src/features/inbox/ChatsContainer.tsx:54-56 | inserting adds exactly the one entry to the multiset of entries |
| Inbox.InsertSorted | src/features/inbox/ChatsContainer.tsx:54-56 | inserting into a list ordered newest first keeps it ordered |
| Inbox.SortByDateDesc | src/features/inbox/ChatsContainer.tsx:52-56 | the result is a permutation of the entries, with `lastMessage.date` non-increasing |
| Inbox.InsertStable | src/features/inbox/ChatsContainer.tsx:54-56 | inserting never moves an entry past another entry with the same date |
| Inbox.SortByDateDescStable | src/features/inbox/ChatsContainer.tsx:53-56 | the sort is stable, as the client's array sort is: for every date, the entries with that date keep their listing order |
| Inbox.DisplayOrder | src/features/inbox/ChatsContainer.tsx:52-57 | the sort throws exactly when two or more entries include one without a last message; otherwise the shown list is a date-descending permutation of the entries |
| Inbox.DisplayOf | src/features/inbox/ChatsContainer.tsx:52-73 | the view throws exactly when the comparator does; otherwise the list shows exactly when there are entries, sorted, the empty notice exactly when there are none and it is not pending, and the spinner exactly when pending |
| Inbox.InboxView.Subscribe | src/features/inbox/ChatsContainer.tsx:26-33 | for a falsy uid, no listener is registered and nothing else changes; otherwise pending is set and one listener is opened for that uid |
| Inbox.InboxView.constructor | src/features/inbox/ChatsContainer.tsx:16-33 | the first render starts with no chats and, for a non-empty uid, is pending with one listener |
| Inbox.InboxView.Render | src/features/inbox/ChatsContainer.tsx:25-38 | the same uid does nothing; a changed uid cancels the old listener and reruns the effect; the list is kept |
| Inbox.InboxView.Snapshot | src/features/inbox/ChatsContainer.tsx:30-33 | each snapshot replaces the chats wholesale with the document's fields (none for a missing document) and clears pending; with no listener nothing changes |
| Inbox.InboxView.Unmount | src/features/inbox/ChatsContainer.tsx:35-37 | unmounting cancels the listener and keeps the view state |
| Inbox.InboxView.ChatClick | src/features/inbox/ChatsContainer.tsx:21-23 | clicking an entry applies `changeChat` with that recipient |
| LegacyInbox.ChatsContainer.ChatClick | src/features/inbox/components/ChatsContainer.tsx:17-25 | the clicked chat becomes active, even when clicked twice; the previously clicked chat becomes inactive; the ref and the current chat become the clicked chat; no other chat changes; if only the ref was active before, after the click the clicked chat is the only active one |
| AddContact.DecimalText | src/features/add-contacts/components/AddContactModal.tsx:35 | a numeric id prints as one or more decimal digits, a single digit exactly below ten |
| AddContact.DecimalTextInjective | src/features/add-contacts/components/AddContactModal.tsx:35 | distinct ids print differently |
| AddContact.IdTextInjective | src/features/add-contacts/components/AddContactModal.tsx:35 | distinct optional ids print differently (`undefined` differs from every number) |
| AddContact.ChatRoomId | src/features/add-contacts/components/AddContactModal.tsx:35 | no contract: its body is the model of the template literal (each id's text, `undefined` when absent, joined by `-`); `ChatRoomIdOrderDependent` states its property |
| AddContact.ChatRoomIdOrderDependent | src/features/add-contacts/components/AddContactModal.tsx:35 | swapping the two users gives the same room id exactly when their ids are equal |
| AddContact.FindIndex | src/features/add-contacts/components/AddContactModal.tsx:29-34 | the lookup finds the first record with the id, or none when no record has it (an absent id never matches) |
| AddContact.FindUser | src/features/add-contacts/components/AddContactModal.tsx:29-34 | `find` gives `undefined` (null) exactly when no record has the id, and otherwise the first record in the list whose id it is |
| AddContact.NewRoom | src/features/add-contacts/components/AddContactModal.tsx:36-41 | the new room record carries the room id, is not active, and has exactly one placeholder message |
| AddContact.AddContactModal.constructor | src/features/add-contacts/components/AddContactModal.tsx:23 | the modal opens with the button enabled and nothing scheduled |
| AddContact.AddContactModal.AddContactClick | src/features/add-contacts/components/AddContactModal.tsx:26-44 | a click disables the button and schedules the commit for the records found and the built id; a click on the disabled button does nothing |
| AddContact.AddContactModal.TimerFires | src/features/add-contacts/components/AddContactModal.tsx:44-51 | the commit appends the room id once to each found user's inbox (twice to the same inbox when a user adds themself) and skips a missing user; it appends one room record, leaves the other users unchanged, re-enables the button, closes the modal and sets the toast |
| AddContact.AddContactModal.CancelClick | src/features/add-contacts/components/AddContactModal.tsx:54 | cancel closes the modal and changes no data; while disabled it does nothing |
| UserSlice.SignUpActionsAreGoogleLoginActions | src/features/authentication/userSlice.ts:108-118 | sign-up actions are identical to Google-login actions |
| UserSlice.ApplyCase | src/features/authentication/userSlice.ts:165-190 | the three case reducers: only the failure reducer can throw, and it does exactly when the action carries no `error`; no case reducer touches the user, and only the failure reducer changes the error message |
| UserSlice.RunMatchers | src/features/authentication/userSlice.ts:156-191 | the registered matchers run in order; the user is never changed, and an action no matcher lists leaves the state as it was |
| UserSlice.ReduceThunkAction | src/features/authentication/userSlice.ts:156-191 | the slice's extra reducers are the three matchers of `Matchers` (success, pending, failure, in registration order) run by `RunMatchers`; the user is never changed |
| UserSlice.PendingSetsPending | src/features/authentication/userSlice.ts:168-178 | any of the four pending actions sets the status to pending and changes nothing else |
| UserSlice.FulfilledSetsSuccessful | src/features/authentication/userSlice.ts:157-167 | a fulfilled email login, Google login or sign-up sets the status to successful and changes nothing else |
| UserSlice.RejectedSetsFailed | src/features/authentication/userSlice.ts:179-190 | a rejected login or sign-up sets the status to failed and the error message to the error's message, or "" if there is none |
| UserSlice.EditProfileRejectedIgnored | src/features/authentication/userSlice.ts:179-185 | a rejected profile edit matches no matcher and leaves the state unchanged |
| UserSlice.EditProfileFulfilledThrows | src/features/authentication/userSlice.ts:157-190 | a fulfilled profile edit reaches the failure reducer, which throws |
| UserSlice.UserStore.constructor | src/features/authentication/userSlice.ts:37-41 | the initial state is user `{}`, status idle and error message "" |
| UserSlice.UserStore.Login | src/features/authentication/userSlice.ts:144-146 | `login` sets the user to the payload and keeps the status and error message |
| UserSlice.UserStore.Logout | src/features/authentication/userSlice.ts:147-151 | `logout` assigns the whole initial state object to the user and changes nothing else |
| UserSlice.UserStore.ClearUserStateErr | src/features/authentication/userSlice.ts:152-154 | `clearUserStateErr` sets the error message to "" and changes nothing else |
| UserSlice.UserStore.DispatchThunkAction | src/features/authentication/userSlice.ts:156-191 | running the matchers in order over the state gives exactly the reduction; when a case reducer throws, the dispatch reports it and keeps the previous state |
| UserSlice.DefaultUserDoc | src/features/authentication/userSlice.ts:52-61 | the created user document has the user's uid, bio "A Bio.", status "off", location "Earth" and no contacts |
| UserSlice.EnsureUserDocs | src/features/authentication/userSlice.ts:43-66 | with no signed-in user nothing changes; otherwise the user document and an empty inbox document are created only when absent, and existing documents are untouched |
| UserSlice.EnsureUserDocsIdempotent | src/features/authentication/userSlice.ts:43-66 | running `setUserInfoDoc` twice equals running it once |
| UserSlice.SetUserInfoDoc | src/features/authentication/userSlice.ts:43-66 | the sequence of reads and conditional writes yields exactly the create-if-absent result |
| UserSlice.EditProfileWrite | src/features/authentication/userSlice.ts:77-84 | only `displayName` of the signed-in user's existing document is written, and only when it is non-empty |
| UserSlice.EditProfileIgnoresBioAndLocation | src/features/authentication/userSlice.ts:31-35 | the bio and location passed to `editProfile` never affect the store |
| UserSlice.EditProfileRequest | src/features/authentication/userSlice.ts:69-89 | the request's store write is exactly the profile-edit write |

## Left out

- Authentication provider calls (`signInWithEmailAndPassword`, `signInWithPopup`, `createUserWithEmailAndPassword`, `updateProfile`, `signOut`): external. The signed-in user is passed in as a parameter, and the thunks' own bodies are modelled only through the store writes they make.
- Concurrency of writes the source does not await: the writes are modelled in program order. Failures of the writes themselves are not modelled, except that an update of a missing document writes nothing.
- The store client library's path checks (for example, a document reference with an empty id throws): not modelled.
- `console.log` calls, scrolling with the down-arrow button, `src/features/conversation/ChatBox.jsx` (a websocket client whose hook is not part of this model), and the presentation-only pages and forms.
- Message sending (`ChatForm`, which may also set the message list) and `MessageBox`: not part of this model.
- Inbox.Date: `lastMessage.date` is modelled as an integer. The source subtracts store timestamps, which goes through floating point.
- ChatReducer.StrLess: compares Dafny characters, which are Unicode scalar values, whereas the client compares UTF-16 code units. The two orders agree on ids whose characters all lie below U+10000 (the Basic Multilingual Plane). An id holding a character above U+FFFF, which the client stores as a surrogate pair, can order differently.
- AddContact.AddContactModal.TimerFires: the one-second delay is modelled as a separate event that runs the whole commit as one step. The toast display itself is not modelled.
- AddContact.AddContactModal.TimerFires: the user fixture records have no `inbox` field, so as written `currentUserData?.inbox.push` and `recipientData?.inbox.push` throw whenever either record is found. Then no room is added, the button stays disabled and the modal stays open. Only when neither record is found does the commit finish, pushing just the room record. The model instead gives every record an `inbox` sequence and models the commit the code evidently means.
- AddContact.DecimalText: user ids are modelled as natural numbers. The fixture uses 1, 2 and 3.
- ConversationView.ChatBox.Render: a change of the current user while the chat id stays the same does not rerun the effect (it depends on `chatId` only), so the captured uid is kept. A remount after `Unmount` is modelled as a fresh component.

## Findings

| source | as written | input that shows it | evidently intended | confidence | as-written member | corrected member |
|---|---|---|---|---|---|---|
| src/features/inbox/chatReducer.ts:21-28 | binds the two uid strings, then reads `.uid` of each (undefined), so the comparison is false and the chat id is `undefined + undefined`, i.e. `NaN` | current user "alice", recipient "bob": chat id `NaN` instead of "bobalice"; every pair of users gets the same id | greater uid followed by the lesser uid, the same for both orders of the users (proved as `ChatKeyCommutes`) | high (not executed) | ChatReducer.AsWrittenChatIdIgnoresUsers | ChatReducer.ChatKey |
