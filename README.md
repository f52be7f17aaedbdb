# instaChat client logic in Dafny

A model of the self-contained logic inside a React Native chat client whose
screens call Firebase directly. The backend is abstract state: the Firestore
`users` collection and the per-pair `chats/<key>/messages` collections are
Dafny maps, and the Storage bucket is a map from path to uploaded file. The
results of SDK calls, the clock and uids are parameters.

What is modelled, by source file:

- `src/store/userSlice.js` (module `UserSlice`): the Redux `user` slice as a
  class with one field, `userData`. `setUserData` replaces it.
  `updateUserData` merges the payload over it with the object spread defined
  once in `Records.Merge`. The payload's keys win, other keys are kept,
  merging onto null gives the payload, and a second identical update changes
  nothing.
- `src/Chats/index.js` (module `Chats`): the case-insensitive substring
  filter over the signed-in user's contacts. The model proves that it is
  sound and complete, that it keeps the input order, that it keeps every
  matching contact as often as it occurs, that the empty query keeps
  everything and that the letter case of the query does not matter. It also
  proves that the "No contacts available" placeholder is shown exactly when
  nothing matches.
- `src/components/Header/index.js` (module `Header`): `handleAddContact` as a
  method over the `users` map, covering the query answer, the early return,
  the two merge writes, partial failure and the clearing of the email box.
  The two contact lists are pure functions. Lemmas show that each list gets
  exactly one new entry, with no duplicate or self check, and that only the
  `contacts` fields are written. The caller's list is rebuilt from the local
  store copy, which this flow never updates. So a second add of another
  user in the same session rewrites the caller's list from that copy and drops the first
  add, and adding one's own email leaves only the second write.
- `src/Chat/index.js` (module `Chat`): message stamping (the spread that
  overwrites `senderId`, `receiverId` and `createdAt`), the writes to both
  mirrored collections, the local append and the snapshot replacement. It
  also covers media handling: cancel or error, MIME-prefix classification,
  the basename and storage path, upload failure, and the stamped media
  message. Lemmas show that after a send, each party's subscribed collection
  holds the message. They also show that ids of one fixed length make a chat key name its
  pair, while ids of different lengths can collide.
- `src/Login/index.js` (module `Login`): the normalised profile record (its
  defaults, `uid` from the credential, idempotence) and the two independent
  substring checks that turn an error message into toasts. A missing
  profile document shows no toast. `saveUserData` swallows storage errors,
  so the dispatch and the navigation to Chats happen either way and
  "Failed to store" is never shown. `isLoading` is already false when
  `handleLogin` returns.

Shared modules: `Wrappers` (Option), `Strings` (ASCII `toLowerCase`,
`includes`, `startsWith`, `lastIndexOf`), `Records` (JavaScript values,
objects, truthiness, `||` and spread), `Backend` (Firestore and Storage as
maps).

## Model

| member | source | states |
|---|---|---|
| `UserSlice.UserStore.constructor` | src/store/userSlice.js:5-7 | the initial `userData` is null |
| `UserSlice.UserStore.SetUserData` | src/store/userSlice.js:13-15 | `userData` becomes exactly the payload, whatever it was |
| `UserSlice.UserStore.UpdateUserData` | src/store/userSlice.js:16-18 | `userData` becomes a non-null object: payload keys take the payload's values, other old keys keep theirs, and no other key appears |
| `UserSlice.UserStore.SelectUserData` | src/store/userSlice.js:24 | the selector returns the stored `userData` unchanged |
| `UserSlice.UpdateTwiceSameAsOnce` | src/store/userSlice.js:17 | two `updateUserData` calls with one payload leave the store as one call does |
| `Records.Merge` | src/store/userSlice.js:17 | `{...base, ...payload}` has the keys of both; payload values win; base values survive elsewhere; a null operand contributes nothing |
| `Records.MergeOntoNull` | src/store/userSlice.js:17 | merging onto null yields exactly the payload |
| `Records.MergeIdempotent` | src/store/userSlice.js:17 | merging the same payload twice equals merging it once |
| `Records.MergeSequential` | src/store/userSlice.js:17 | two successive merges equal one merge of the combined payload |
| `Records.Or` | src/Login/index.js:34-37 | `a \|\| b` is `a` when truthy, else `b` |
| `Strings.IncludesIffOccurs` | src/Chats/index.js:48 | `includes` holds exactly when the pattern occurs at some index |
| `Strings.LowerOfUpper` | src/Chats/index.js:48 | lower-casing an upper-cased text equals lower-casing the text |
| `Strings.LastIndexOf` | src/Chat/index.js:100 | the result is -1 or an index holding the character, with no later index holding it |
| `Chats.Matches` | src/Chats/index.js:48 | a contact matches exactly when its lowercased name contains the lowercased query at some index |
| `Chats.FilterContacts` | src/Chats/index.js:47-48 | a contact is in the result iff it is in the list and its lowercased name includes the lowercased query; never longer than the input |
| `Chats.FilterIsSubsequence` | src/Chats/index.js:47 | the result is an order-preserving subsequence of the contacts |
| `Chats.FilterCounts` | src/Chats/index.js:47-48 | each matching contact appears as often as in the input, others never |
| `Chats.EmptyQueryKeepsAll` | src/Chats/index.js:47-48 | the empty query returns the whole contact list |
| `Chats.FilterIgnoresQueryCase` | src/Chats/index.js:48 | an upper-cased query gives the same result as the query |
| `Chats.FilteredContacts` | src/Chats/index.js:47-49 | no user or no contacts array gives `[]`; otherwise the sound and complete filter of the contacts |
| `Chats.RenderChats` | src/Chats/index.js:59-69 | the list view is shown only with the non-empty filtered contacts |
| `Chats.NoContactsIffNothingMatches` | src/Chats/index.js:59-69 | the placeholder is shown exactly when there is no user or no contact matches |
| `Backend.SetMerge` | src/components/Header/index.js:41-53 | a merge write sets the given fields of one document, creating it if needed, and keeps its other fields and all other documents |
| `Backend.AddMessage` | src/Chat/index.js:61-71 | an `add` puts one more copy of the message in that collection and leaves the others alone |
| `Backend.Firestore.SetUser` | src/components/Header/index.js:41-46 | the `users` map becomes the merge write's result; chats are untouched |
| `Backend.Firestore.AddChatMessage` | src/Chat/index.js:61-65 | the chats map gains the message in that collection; users are untouched |
| `Backend.Storage.PutFile` | src/Chat/index.js:101-102 | the object at the path now holds the file |
| `Header.CallerContacts` | src/components/Header/index.js:35-38 | `updatedContacts` is the caller's local list (or `[]`) unchanged, followed by one entry with the found document's email, name and id |
| `Header.FoundContacts` | src/components/Header/index.js:31-32 | `updatedUserDetailsContacts` is the found user's list (or `[]`) unchanged, followed by one entry with the caller's email, name and uid |
| `Header.AfterFirstWrite` | src/components/Header/index.js:41-46 | after the first merge write the caller's document exists and its `contacts` is `updatedContacts`; every other document is unchanged |
| `Header.AfterBothWrites` | src/components/Header/index.js:41-53 | after both writes the found document's `contacts` is `updatedUserDetailsContacts`; documents other than the two parties are unchanged |
| `Header.AddWritesKeySets` | src/components/Header/index.js:41-53 | after both writes each document has exactly its old fields, plus `contacts` for the two parties' documents |
| `Header.EmptyAnswerMeansNoSuchUser` | src/components/Header/index.js:19-25 | the query is empty exactly when no user document has the email |
| `Header.AddAppendsExactlyOne` | src/components/Header/index.js:31-38 | with no duplicate check, each list counts its new entry once more than before, even when already present, and every other entry as often as before |
| `Header.AddWritesOnlyContacts` | src/components/Header/index.js:41-53 | the writes create at most the two parties' documents, keep every non-`contacts` field's value, leave all other documents unchanged and add no field but `contacts` |
| `Header.AddLinksBothParties` | src/components/Header/index.js:28-53 | for distinct parties, each document's contacts end with an entry for the other |
| `Header.SecondAddRebuildsFromLocalCopy` | src/components/Header/index.js:35-46 | a second add of another user from the same local profile leaves the caller's list as that copy plus only the second entry |
| `Header.SelfAddKeepsSecondWrite` | src/components/Header/index.js:28-53 | adding one's own email leaves the list built from the snapshot plus one self entry |
| `Header.HeaderScreen.constructor` | src/components/Header/index.js:9 | the email box starts empty |
| `Header.HeaderScreen.HandleAddContact` | src/components/Header/index.js:16-60 | a failed or empty query, or no user, writes nothing; otherwise the caller's write then the found user's, stopping at a failed write; the box is cleared only when both succeed |
| `Chat.SubscriptionKey` | src/Chat/index.js:39 | the key a screen listens on is the peer's uid followed by the own uid |
| `Chat.BothPartiesSeeSentMessage` | src/Chat/index.js:37-71 | after the two `add` calls of a send, the collection each party subscribes to (`peer + me` for the sender, `me + peer` for the receiver) holds the message |
| `Chat.KeyDeterminesPair` | src/Chat/index.js:39 | with ids of one length, equal chat keys mean equal pairs |
| `Chat.KeysCollideForUnequalLengths` | src/Chat/index.js:39 | ids of different lengths can give two pairs the same key |
| `Chat.Stamp` | src/Chat/index.js:54-59 | `senderId`, `receiverId` and `createdAt` (ms × 1000) are always overwritten; other fields of the first message are kept; no other field is added |
| `Chat.First` | src/Chat/index.js:53 | `newMessages[0]` is present exactly when the batch is non-empty, and is then the first message |
| `Chat.OnlyFirstMessageCounts` | src/Chat/index.js:53 | messages after the first in the batch do not affect what is sent |
| `Chat.GiftedAppend` | src/Chat/index.js:73-75 | the new list is the old list with the message added at the newest-first end |
| `Chat.Basename` | src/Chat/index.js:100 | the longest `/`-free suffix of the URI: the whole URI when it has no `/` |
| `Chat.BasenameOfPath` | src/Chat/index.js:115 | the basename of `dir/file` is `file` |
| `Chat.PlanMedia` | src/Chat/index.js:96-135 | cancel or error does nothing; `image…` uploads to `images/<basename>`; otherwise `video…` to `videos/<basename>`; anything else is refused |
| `Chat.MediaMessage` | src/Chat/index.js:105-111 | the media message has exactly the fields `_id`, `type`, `image` or `video`, `createdAt` and `user`: type and URL from the upload, a `Date` and numeric `_id` from the clock, the caller as author |
| `Chat.MediaMessageAsSent` | src/Chat/index.js:105-127 | a sent media message keeps its type, URL and author, and its `createdAt` is the stamp's number |
| `Chat.ChatScreen.constructor` | src/Chat/index.js:24 | the message list starts empty |
| `Chat.ChatScreen.OnSnapshot` | src/Chat/index.js:42-46 | a snapshot replaces the whole local list with its documents, in order |
| `Chat.ChatScreen.OnSend` | src/Chat/index.js:52-76 | with a user: the stamped first message is added under `peer + me` and `me + peer` and put in the local list; without one nothing changes |
| `Chat.ChatScreen.HandleMediaResponse` | src/Chat/index.js:96-137 | unsupported types show one error; an upload stores the file at its path; a message is sent only after a successful upload with a signed-in user, and is then the stamped media message added to both collections and the local list |
| `Chat.ChatScreen.SendMedia` | src/Chat/index.js:105-112 | with a signed-in user the media message is stamped, added under both keys and put in the local list; without one nothing changes |
| `Login.Normalize` | src/Login/index.js:31-38 | six keys; email and name copied; gender and profileImg default to `''` when falsy; contacts is the stored value when truthy and `[]` otherwise; uid from the credential |
| `Login.NormalizeIgnoresStoredUid` | src/Login/index.js:29-35 | the document's own `uid` has no effect on the record |
| `Login.NormalizeIsIdempotent` | src/Login/index.js:31-38 | normalising a normalised record returns it unchanged |
| `Login.ErrorToasts` | src/Login/index.js:59-77 | 'Invalid Email or password' iff the message includes `invalid-credential`; 'Try again after some time' iff it includes `too-many-requests`; both in that order, or none |
| `Login.MissingCharExcludes` | src/Login/index.js:60-68 | a message lacking one of the pattern's characters does not include it |
| `Login.NoMarkerNoToast` | src/Login/index.js:59-77 | a message including neither `invalid-credential` nor `too-many-requests` shows no toast |
| `Login.NoMarkerLettersNoToast` | src/Login/index.js:60-68 | a message with no `v` and no `q` cannot include either marker and shows no toast |
| `Login.CredentialOnlyToast` | src/Login/index.js:60-76 | a message including `invalid-credential` but not `too-many-requests` shows exactly the 'Invalid Email or password' toast |
| `Login.BothMarkersTwoToasts` | src/Login/index.js:60-76 | a message including both markers shows both toasts, credential first |
| `Login.MissingDocShowsNothing` | src/Login/index.js:30-32 | a missing profile document fails with a TypeError that shows no toast |
| `Login.LoginScreen.constructor` | src/Login/index.js:15 | `isLoading` starts false, no toast shown, on the Login route |
| `Login.LoginScreen.SaveUserData` | src/Login/index.js:17-23 | the entry is written, or left as it was on a storage error; the call never fails |
| `Login.LoginScreen.HandleLogin` | src/Login/index.js:25-80 | `isLoading` is false when `handleLogin` returns |
| `Login.LoginScreen.LoadProfile` | src/Login/index.js:31-48 | the store holds the normalised record, the device entry holds it unless storage failed, the welcome toast is shown and Chats is opened |
| `Login.LoginScreen.SignInSettled` | src/Login/index.js:28-77 | on success the normalised record is stored, welcomed and Chats is opened, saved or not; errors give only their toasts; "Failed to store" is never shown |

## Left out

- `Header.HeaderScreen.HandleAddContact`: requires the signed-in profile to hold string `email`, `name` and `uid`, and the found document a string `name`, as every profile Signup writes does. A profile without them would put `undefined` into the new entry, which `Contact` cannot hold.
- `Chat.ChatScreen.OnSend`: requires the signed-in profile's `uid` to be a string (as `Chat.ChatScreen.HandleMediaResponse` does). With an undefined `uid` the source would write under the keys `<peer>undefined` and `undefined<peer>`.
- `Header.CallerContacts`: reads the caller's `contacts` through `Records.ContactsOr`, so a truthy value that is not an array counts as `[]`. The source would spread a string into its characters, or throw on a non-iterable value.
- `Header.FoundContacts`: the same reading of the found document's `contacts`, with the same difference.
- `Chat.ChatScreen.OnSend`: the source wraps `onSend` in `useCallback(..., [])`, so it keeps the `userData` and `route.params` of the first render. The model reads the store when the call is made; the two differ only if the profile changes while the screen is open.
- `Chat.PlanMedia`: an asset always has a string MIME type. An asset whose optional `type` is undefined makes `startsWith` throw, so nothing happens, as with `NoAsset`; the model cannot represent that input.
- `Chats.FilteredContacts`: a truthy `contacts` value that is not an array reads as no contacts. The source would throw there, and no code path stores one.
- `Strings`: `toLowerCase` is modelled for ASCII letters only; other characters are left unchanged. Unicode case mapping is not modelled.
- `Chat.GiftedAppend`: GiftedChat is not part of this model. Its `append` is taken in its default newest-first form, which puts the new message in front.
- Time is one parameter `nowMs` per operation. The source reads the clock separately for `_id`, the `Date` and the stamp.
- The Firestore query in `handleAddContact` is a parameter, constrained to answer the email over the `users` map. Which matching document comes first is the server's order.
- Real-time listener delivery, server-side ordering (`orderBy("createdAt", "desc")`), atomicity of the two mirrored writes and races between concurrent adds are not modelled.
- The sign-in call, the document read, AsyncStorage and the upload are inputs (their outcomes are parameters). JSON serialisation is not modelled: the device entry holds the record itself.
- An error thrown inside the `then` callback after `saveUserData` (by dispatch, flash message or navigation) is not modelled. Such an error is the only way to reach "Failed to store User's Data".
- Flash message styling, console logging, navigation parameters, rendering and the Chats screen's redirect to Login on mount are UI, not modelled.
- The picker and camera launchers (`handlePickImage`, `handleTakePhoto`, `handleTakeVideo`) only start I/O and are not modelled.
- `App.js`, `firebase.js`, `src/Profile/index.js` and `src/Signup/index.js` are not part of this model. Profile's store changes are `updateUserData` calls, covered by `UserSlice.UserStore.UpdateUserData`.
