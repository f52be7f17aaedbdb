/** The login screen: after a successful sign-in the stored profile is
    normalised, saved on the device and put in the store; sign-in errors
    become flash messages by substring checks. */
module Login {
  import opened Wrappers
  import opened Strings
  import opened Records
  import opened UserSlice
  import opened Backend

  /** How `signInWithEmailAndPassword` settles. */
  datatype SignInResult = SignedIn(uid: string) | SignInFailed(message: string)

  /** How `users.doc(uid).get()` settles: the document's `data()` (undefined
      for a missing document), or an error. */
  datatype DocRead = DocRead(data: Option<Record>) | ReadFailed(message: string)

  /** The flash messages the screen can show. */
  datatype Toast =
    | Welcome(name: Value)       // `Welcome Back ${userData.name}`
    | InvalidEmailOrPassword     // 'Invalid Email or password'
    | TryAgainLater              // 'Try again after some time'
    | StoreFailed                // "Failed to store User's Data"

  const InvalidCredential := "invalid-credential"
  const TooManyRequests := "too-many-requests"

  /** The message of the TypeError thrown by `userDoc.data().email` when the
      document does not exist (as React Native's JavaScript engine words it). */
  const MissingDocMessage := "Cannot read property 'email' of undefined"

  /** The six keys of the normalised profile. */
  const ProfileKeys: set<string> := {"email", "name", "gender", "uid", "contacts", "profileImg"}

  /** The record built from the stored profile: `email` and `name` copied
      as they are, `gender` and `profileImg` defaulting to `''`, `contacts`
      to `[]`, and `uid` taken from the credential. */
  function Normalize(doc: Record, uid: string): (u: Record)
    ensures u.Keys == ProfileKeys
    ensures u["uid"] == Str(uid)
    ensures u["email"] == Get(doc, "email") && u["name"] == Get(doc, "name")
    ensures Truthy(Get(doc, "gender")) ==> u["gender"] == Get(doc, "gender")
    ensures !Truthy(Get(doc, "gender")) ==> u["gender"] == Str("")
    ensures Truthy(Get(doc, "profileImg")) ==> u["profileImg"] == Get(doc, "profileImg")
    ensures !Truthy(Get(doc, "profileImg")) ==> u["profileImg"] == Str("")
    ensures Truthy(Get(doc, "contacts")) ==> u["contacts"] == Get(doc, "contacts")
    ensures !Truthy(Get(doc, "contacts")) ==> u["contacts"] == List([])
  {
    map["email" := Get(doc, "email"),
        "name" := Get(doc, "name"),
        "gender" := Or(Get(doc, "gender"), Str("")),
        "uid" := Str(uid),
        "contacts" := Or(Get(doc, "contacts"), List([])),
        "profileImg" := Or(Get(doc, "profileImg"), Str(""))]
  }

  /** Whatever `uid` the stored document holds, the record's `uid` is the
      credential's. */
  lemma NormalizeIgnoresStoredUid(doc: Record, uid: string, stored: Value)
    ensures Normalize(doc["uid" := stored], uid) == Normalize(doc, uid)
  {
  }

  /** Normalising a normalised record gives it back. */
  lemma NormalizeIsIdempotent(doc: Record, uid: string)
    ensures Normalize(Normalize(doc, uid), uid) == Normalize(doc, uid)
  {
  }

  /** `error.message.includes(...)` twice, as two independent `if`s: a
      toast for each substring found, in the order of the checks. */
  function ErrorToasts(message: string): (ts: seq<Toast>)
    ensures InvalidEmailOrPassword in ts <==> Includes(message, InvalidCredential)
    ensures TryAgainLater in ts <==> Includes(message, TooManyRequests)
    ensures |ts| == (if Includes(message, InvalidCredential) then 1 else 0)
                    + (if Includes(message, TooManyRequests) then 1 else 0)
    ensures |ts| == 2 ==> ts == [InvalidEmailOrPassword, TryAgainLater]
  {
    (if Includes(message, InvalidCredential) then [InvalidEmailOrPassword] else [])
    + (if Includes(message, TooManyRequests) then [TryAgainLater] else [])
  }

  /** A text that lacks one of the pattern's characters does not include
      the pattern. */
  lemma MissingCharExcludes(s: string, t: string, c: char)
    requires c in t && c !in s
    ensures !Includes(s, t)
  {
  }

  /** A message that includes neither marker shows no toast. */
  lemma NoMarkerNoToast(message: string)
    requires !Includes(message, InvalidCredential) && !Includes(message, TooManyRequests)
    ensures ErrorToasts(message) == []
  {
  }

  /** A message with neither a `v` nor a `q` cannot include either marker,
      so it shows no toast. */
  lemma NoMarkerLettersNoToast(message: string)
    requires 'v' !in message && 'q' !in message
    ensures ErrorToasts(message) == []
  {
    assert InvalidCredential[2] == 'v';
    MissingCharExcludes(message, InvalidCredential, 'v');
    assert TooManyRequests[11] == 'q';
    MissingCharExcludes(message, TooManyRequests, 'q');
  }

  /** A missing profile document throws a TypeError whose message matches
      neither check, so the user is shown nothing. */
  lemma MissingDocShowsNothing()
    ensures ErrorToasts(MissingDocMessage) == []
  {
    NoMarkerLettersNoToast(MissingDocMessage);
  }

  /** A message naming only the invalid credential gives exactly the one
      toast. */
  lemma CredentialOnlyToast(message: string)
    requires Includes(message, InvalidCredential) && !Includes(message, TooManyRequests)
    ensures ErrorToasts(message) == [InvalidEmailOrPassword]
  {
  }

  /** A message naming both markers gives both toasts, in the order of the
      checks. */
  lemma BothMarkersTwoToasts(message: string)
    requires Includes(message, InvalidCredential) && Includes(message, TooManyRequests)
    ensures ErrorToasts(message) == [InvalidEmailOrPassword, TryAgainLater]
  {
  }

  /** The device's AsyncStorage entry `@user_data`. */
  class DeviceStorage {
    var userDataEntry: Option<Record>

    constructor (entry: Option<Record>)
      ensures userDataEntry == entry
    {
      userDataEntry := entry;
    }
  }

  class LoginScreen {
    var isLoading: bool
    /** Flash messages shown, oldest first. */
    var toasts: seq<Toast>
    /** The screen last navigated to. */
    var route: string
    const store: UserStore
    const db: Firestore
    const device: DeviceStorage

    constructor (store: UserStore, db: Firestore, device: DeviceStorage)
      ensures !isLoading && toasts == [] && route == "Login"
      ensures this.store == store && this.db == db && this.device == device
    {
      isLoading, toasts, route := false, [], "Login";
      this.store, this.db, this.device := store, db, device;
    }

    /** `saveUserData`: writes the entry, and on a storage error only logs;
        it never fails. */
    method SaveUserData(userData: Record, storageFails: bool)
      modifies device
      ensures device.userDataEntry == if storageFails then old(device.userDataEntry) else Some(userData)
    {
      if !storageFails {
        device.userDataEntry := Some(userData);
      }
    }

    /** The synchronous part of `handleLogin`: the spinner is switched on,
        the sign-in is started, and the spinner is switched off again before
        the sign-in settles. */
    method HandleLogin()
      modifies this`isLoading
      ensures !isLoading
    {
      isLoading := true;
      // the sign-in promise is pending here; it settles in SignInSettled
      isLoading := false;
    }

    /** The success path: normalise the profile, save it (errors
        swallowed), put it in the store, welcome the user and open Chats. */
    method LoadProfile(uid: string, doc: Record, storageFails: bool)
      modifies this`toasts, this`route, store, device
      ensures store.userData == Some(Normalize(doc, uid))
      ensures device.userDataEntry == if storageFails then old(device.userDataEntry) else Some(Normalize(doc, uid))
      ensures toasts == old(toasts) + [Welcome(Get(doc, "name"))]
      ensures route == "Chats"
    {
      var userData := Normalize(doc, uid);
      SaveUserData(userData, storageFails);
      store.SetUserData(Some(userData));
      toasts := toasts + [Welcome(Get(userData, "name"))];
      route := "Chats";
    }

    /** The continuation of `handleLogin` once the sign-in settles. */
    method SignInSettled(signIn: SignInResult, read: DocRead, storageFails: bool)
      requires signIn.SignedIn? && read.DocRead? ==> read.data == Lookup(db.users, signIn.uid)
      modifies this`toasts, this`route, store, device
      ensures |toasts| >= |old(toasts)| && StoreFailed !in toasts[|old(toasts)|..]
      ensures signIn.SignInFailed? ==>
                toasts == old(toasts) + ErrorToasts(signIn.message)
                && route == old(route) && unchanged(store, device)
      ensures signIn.SignedIn? && read.ReadFailed? ==>
                toasts == old(toasts) + ErrorToasts(read.message)
                && route == old(route) && unchanged(store, device)
      ensures signIn.SignedIn? && read.DocRead? && read.data.None? ==>
                toasts == old(toasts) && route == old(route) && unchanged(store, device)
      ensures signIn.SignedIn? && read.DocRead? && read.data.Some? ==>
                var u := Normalize(read.data.value, signIn.uid);
                && store.userData == Some(u)
                && device.userDataEntry == (if storageFails then old(device.userDataEntry) else Some(u))
                && toasts == old(toasts) + [Welcome(Get(read.data.value, "name"))]
                && route == "Chats"
    {
      var message := "";
      match signIn {
        case SignInFailed(m) =>
          message := m;
        case SignedIn(uid) =>
          match read {
            case ReadFailed(m) =>
              message := m;
            case DocRead(data) =>
              if data.None? {
                // `userDoc.data().email` throws a TypeError
                MissingDocShowsNothing();
                message := MissingDocMessage;
              } else {
                LoadProfile(uid, data.value, storageFails);
                return;
              }
          }
      }
      toasts := toasts + ErrorToasts(message);
    }
  }
}
