/** The two-party chat screen: the live message list, sending (stamping a
    message and writing it to both mirrored collections), and sending a
    picked image or video. */
module Chat {
  import opened Wrappers
  import opened Strings
  import opened Records
  import opened UserSlice
  import opened Backend

  /** The collection `me` listens to when chatting with `peer`:
      `chats/<peer + me>/messages`. */
  function SubscriptionKey(me: string, peer: string): (key: string)
    ensures |key| == |peer| + |me| && key[..|peer|] == peer && key[|peer|..] == me
  {
    peer + me
  }

  /** Whoever sends, after the two adds of `onSend` (to `peer + me`, then
      to `me + peer`) the message is in the collection each party listens
      to. */
  lemma BothPartiesSeeSentMessage(chats: map<string, multiset<Record>>, me: string, peer: string, m: Record)
    ensures var after := AddMessage(AddMessage(chats, peer + me, m), me + peer, m);
            && SubscriptionKey(me, peer) in after && m in after[SubscriptionKey(me, peer)]
            && SubscriptionKey(peer, me) in after && m in after[SubscriptionKey(peer, me)]
  {
  }

  /** With user ids of one fixed length (Firebase Auth ids are), a chat key
      determines its two ids, so no two pairs share a collection. */
  lemma {:induction false} KeyDeterminesPair(a: string, b: string, c: string, d: string)
    requires |a| == |c| && a + b == c + d
    ensures a == c && b == d
  {
    assert a == (a + b)[..|a|];
    assert c == (c + d)[..|c|];
    assert b == (a + b)[|a|..];
    assert d == (c + d)[|c|..];
  }

  /** Without the fixed length, two different pairs can share a
      collection. */
  lemma KeysCollideForUnequalLengths()
    ensures SubscriptionKey("c", "ab") == SubscriptionKey("bc", "a")
  {
  }

  /** `{ senderId: userData?.uid, receiverId: route.params.uid,
      createdAt: new Date().getTime() * 1000 }` */
  function StampFields(me: string, peer: string, nowMs: int): Record {
    map["senderId" := Str(me), "receiverId" := Str(peer), "createdAt" := Num(nowMs * 1000)]
  }

  /** `myMsg = { ...newMessages[0], ...StampFields }`: the three stamped
      fields always take the new values; every other field of the first
      message is kept; nothing else is added. */
  function Stamp(first: Option<Record>, me: string, peer: string, nowMs: int): (m: Record)
    ensures Get(m, "senderId") == Str(me)
    ensures Get(m, "receiverId") == Str(peer)
    ensures Get(m, "createdAt") == Num(nowMs * 1000)
    ensures forall k :: k in Spread(first) && k != "senderId" && k != "receiverId" && k != "createdAt" ==>
              k in m && m[k] == Spread(first)[k]
    ensures m.Keys == Spread(first).Keys + {"senderId", "receiverId", "createdAt"}
  {
    Merge(first, Some(StampFields(me, peer, nowMs)))
  }

  /** `newMessages[0]`, or undefined for an empty batch. */
  function First(newMessages: seq<Record>): (first: Option<Record>)
    ensures first.Some? <==> newMessages != []
    ensures first.Some? ==> first.value == newMessages[0]
  {
    if |newMessages| > 0 then Some(newMessages[0]) else None
  }

  /** Only the first message of a batch is sent. */
  lemma OnlyFirstMessageCounts(m: Record, rest: seq<Record>, me: string, peer: string, nowMs: int)
    ensures Stamp(First([m] + rest), me, peer, nowMs) == Stamp(First([m]), me, peer, nowMs)
  {
  }

  /** `GiftedChat.append(previous, m)`: GiftedChat keeps its list newest
      first, so the new message goes in front. */
  function GiftedAppend(previous: seq<Record>, m: Record): (r: seq<Record>)
    ensures |r| == |previous| + 1 && r[0] == m && r[1..] == previous
  {
    [m] + previous
  }

  /** The text after the last `/` of a file URI, or the whole URI when it
      has none: `uri.substring(uri.lastIndexOf("/") + 1)`. The result is the
      longest suffix of `uri` without a `/`. */
  function Basename(uri: string): (name: string)
    ensures |name| <= |uri| && uri[|uri| - |name|..] == name
    ensures '/' !in name
    ensures |name| < |uri| ==> uri[|uri| - |name| - 1] == '/'
  {
    var i := LastIndexOf(uri, '/');
    uri[i + 1..]
  }

  /** A file name under a directory comes back out unchanged. */
  lemma BasenameOfPath(dir: string, file: string)
    requires '/' !in file
    ensures Basename(dir + "/" + file) == file
  {
    var uri := dir + "/" + file;
    var i := LastIndexOf(uri, '/');
    assert uri[|dir|] == '/';
    assert i == |dir|;
    assert uri[|dir| + 1..] == file;
  }

  datatype Asset = Asset(mimeType: string, uri: string)

  /** What the image picker or camera hands back. */
  datatype MediaResponse = MediaResponse(didCancel: bool, failed: bool, assets: seq<Asset>)

  datatype MediaKind = Image | Video

  /** What `handleMediaResponse` does with a response: nothing (cancelled or
      failed), throw (no asset to read), refuse the type, or upload the
      file to a storage path. */
  datatype MediaPlan = Ignored | NoAsset | Unsupported | Upload(kind: MediaKind, uri: string, path: string)

  /** The message `type` and the field holding the download URL. */
  function KindName(kind: MediaKind): string {
    match kind
    case Image => "image"
    case Video => "video"
  }

  function Folder(kind: MediaKind): string {
    match kind
    case Image => "images/"
    case Video => "videos/"
  }

  /** Classification by MIME prefix: `image…` before `video…`, anything else
      refused. */
  function PlanMedia(r: MediaResponse): (p: MediaPlan)
    ensures p.Ignored? <==> r.didCancel || r.failed
    ensures p.NoAsset? <==> !r.didCancel && !r.failed && r.assets == []
    ensures p.Upload? ==> r.assets != [] && p.uri == r.assets[0].uri && p.path == Folder(p.kind) + Basename(p.uri)
    ensures p.Upload? && p.kind == Image <==>
              !r.didCancel && !r.failed && r.assets != [] && StartsWith(r.assets[0].mimeType, "image")
    ensures p.Upload? && p.kind == Video <==>
              !r.didCancel && !r.failed && r.assets != [] && !StartsWith(r.assets[0].mimeType, "image")
              && StartsWith(r.assets[0].mimeType, "video")
    ensures p.Unsupported? <==>
              !r.didCancel && !r.failed && r.assets != [] && !StartsWith(r.assets[0].mimeType, "image")
              && !StartsWith(r.assets[0].mimeType, "video")
  {
    if r.didCancel || r.failed then Ignored
    else if r.assets == [] then NoAsset
    else
      var asset := r.assets[0];
      if StartsWith(asset.mimeType, "image") then Upload(Image, asset.uri, Folder(Image) + Basename(asset.uri))
      else if StartsWith(asset.mimeType, "video") then Upload(Video, asset.uri, Folder(Video) + Basename(asset.uri))
      else Unsupported
  }

  /** `{ _id, type, image|video: url, createdAt: new Date(), user: { _id: uid } }` */
  function MediaMessage(kind: MediaKind, url: string, me: string, nowMs: int): (m: Record)
    ensures m.Keys == {"_id", "type", KindName(kind), "createdAt", "user"}
    ensures Get(m, "type") == Str(KindName(kind)) && Get(m, KindName(kind)) == Str(url)
    ensures Get(m, "createdAt") == Date(nowMs) && Get(m, "user") == Author(me) && Get(m, "_id") == Num(nowMs)
  {
    map["_id" := Num(nowMs), "type" := Str(KindName(kind)), KindName(kind) := Str(url),
        "createdAt" := Date(nowMs), "user" := Author(me)]
  }

  /** A media message as sent: its type, URL and author survive the stamp,
      and the `Date` it was built with is replaced by the stamp's number. */
  lemma MediaMessageAsSent(kind: MediaKind, url: string, me: string, peer: string, nowMs: int)
    ensures var m := Stamp(Some(MediaMessage(kind, url, me, nowMs)), me, peer, nowMs);
            && Get(m, "type") == Str(KindName(kind))
            && Get(m, KindName(kind)) == Str(url)
            && Get(m, "user") == Author(me)
            && Get(m, "createdAt") == Num(nowMs * 1000)
  {
  }

  /** How the upload of a picked file ends. */
  datatype UploadResult = PutFailed | UrlFailed | Uploaded(url: string)

  const UnsupportedMediaType := "Unsupported media type"

  class ChatScreen {
    /** The `messages` state shown by GiftedChat, newest first. */
    var messages: seq<Record>
    /** Flash messages shown, oldest first. */
    var flashes: seq<string>
    /** `route.params.uid`: the other party. */
    const peer: string
    const store: UserStore
    const db: Firestore
    const bucket: Storage

    constructor (peer: string, store: UserStore, db: Firestore, bucket: Storage)
      ensures messages == [] && flashes == []
      ensures this.peer == peer && this.store == store && this.db == db && this.bucket == bucket
    {
      messages, flashes := [], [];
      this.peer, this.store, this.db, this.bucket := peer, store, db, bucket;
    }

    /** The snapshot listener: the local list becomes a copy of the
        snapshot's documents (`{ ...item._data }` copies every field), in
        the snapshot's order, whatever it held before. */
    method OnSnapshot(docs: seq<Record>)
      modifies this`messages
      ensures messages == docs
    {
      messages := docs;
    }

    /** `onSend`: stamp the first message, add it to both mirrored
        collections, then put it in the local list. Without a signed-in user
        the first write throws and nothing happens. */
    method OnSend(newMessages: seq<Record>, nowMs: int) returns (sent: Option<Record>)
      requires store.userData.Some? ==> HasText(store.userData.value, "uid")
      modifies this`messages, db
      ensures db.users == old(db.users)
      ensures store.userData.None? ==>
                sent == None && messages == old(messages) && db.chats == old(db.chats)
      ensures store.userData.Some? ==>
                var me := Text(store.userData.value, "uid");
                var m := Stamp(First(newMessages), me, peer, nowMs);
                && sent == Some(m)
                && db.chats == AddMessage(AddMessage(old(db.chats), peer + me, m), me + peer, m)
                && messages == GiftedAppend(old(messages), m)
    {
      if store.userData.None? {
        return None;
      }
      var me := Text(store.userData.value, "uid");
      var m := Stamp(First(newMessages), me, peer, nowMs);
      db.AddChatMessage(peer + me, m);
      db.AddChatMessage(me + peer, m);
      messages := GiftedAppend(messages, m);
      sent := Some(m);
    }

    /** `handleMediaResponse`: classify, upload, then send a message with
        the download URL. */
    method HandleMediaResponse(response: MediaResponse, upload: UploadResult, nowMs: int)
      returns (sent: Option<Record>)
      requires store.userData.Some? ==> HasText(store.userData.value, "uid")
      modifies this`messages, this`flashes, db, bucket
      ensures db.users == old(db.users)
      ensures var plan := PlanMedia(response);
              && (plan.Unsupported? ==> flashes == old(flashes) + [UnsupportedMediaType])
              && (!plan.Unsupported? ==> flashes == old(flashes))
              && (!plan.Upload? || upload.PutFailed? ==> bucket.files == old(bucket.files))
              && (plan.Upload? && !upload.PutFailed? ==> bucket.files == old(bucket.files)[plan.path := plan.uri])
      ensures sent.None? ==> messages == old(messages) && db.chats == old(db.chats)
      ensures sent.Some? <==> PlanMedia(response).Upload? && upload.Uploaded? && store.userData.Some?
      ensures sent.Some? ==>
                var plan, me := PlanMedia(response), Text(store.userData.value, "uid");
                var m := Stamp(Some(MediaMessage(plan.kind, upload.url, me, nowMs)), me, peer, nowMs);
                && sent == Some(m)
                && db.chats == AddMessage(AddMessage(old(db.chats), peer + me, m), me + peer, m)
                && messages == GiftedAppend(old(messages), m)
    {
      var plan := PlanMedia(response);
      match plan {
        case Ignored =>
          return None;
        case NoAsset =>
          // reading `assets[0].type` throws: the promise rejects unhandled
          return None;
        case Unsupported =>
          flashes := flashes + [UnsupportedMediaType];
          return None;
        case Upload(kind, uri, path) =>
          if upload.PutFailed? {
            return None;
          }
          bucket.PutFile(path, uri);
          if upload.UrlFailed? {
            return None;
          }
          sent := SendMedia(kind, upload.url, nowMs);
      }
    }

    /** The end of `handleMediaResponse` once the download URL is known:
        build the media message and hand it to `onSend`. */
    method SendMedia(kind: MediaKind, url: string, nowMs: int) returns (sent: Option<Record>)
      requires store.userData.Some? ==> HasText(store.userData.value, "uid")
      modifies this`messages, db
      ensures db.users == old(db.users)
      ensures sent.None? <==> store.userData.None?
      ensures sent.None? ==> messages == old(messages) && db.chats == old(db.chats)
      ensures sent.Some? ==>
                var me := Text(store.userData.value, "uid");
                var m := Stamp(Some(MediaMessage(kind, url, me, nowMs)), me, peer, nowMs);
                && sent == Some(m)
                && db.chats == AddMessage(AddMessage(old(db.chats), peer + me, m), me + peer, m)
                && messages == GiftedAppend(old(messages), m)
    {
      if store.userData.None? {
        // reading `userData.uid` throws before anything is sent
        return None;
      }
      var me := Text(store.userData.value, "uid");
      var m := MediaMessage(kind, url, me, nowMs);
      assert First([m]) == Some(m);
      sent := OnSend([m], nowMs);
    }
  }
}
