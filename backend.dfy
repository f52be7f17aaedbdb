/** The parts of Firebase the screens write to, as abstract state: the
    Firestore `users` collection (document id to profile), the per-pair
    `chats/<key>/messages` collections, and the Storage bucket (path to the
    uploaded local file). Real-time delivery, server ordering and the
    atomicity of separate writes are not part of this model. */
module Backend {
  import opened Wrappers
  import opened Records

  /** The document `id` of `docs`, or null when it does not exist. */
  function Lookup(docs: map<string, Record>, id: string): Option<Record> {
    if id in docs then Some(docs[id]) else None
  }

  /** `doc(id).set(fields, { merge: true })`: the named fields are written
      over the document (creating it when missing); its other fields and
      every other document stay as they were. */
  function SetMerge(docs: map<string, Record>, id: string, fields: Record): (r: map<string, Record>)
    ensures r.Keys == docs.Keys + {id}
    ensures r[id].Keys == Spread(Lookup(docs, id)).Keys + fields.Keys
    ensures forall k :: k in fields ==> k in r[id] && r[id][k] == fields[k]
    ensures forall k :: k in Spread(Lookup(docs, id)) && k !in fields ==>
              k in r[id] && r[id][k] == docs[id][k]
    ensures forall other :: other in docs && other != id ==> r[other] == docs[other]
  {
    docs[id := Merge(Lookup(docs, id), Some(fields))]
  }

  /** `collection('chats').doc(key).collection('messages').add(m)`: one more
      copy of `m` in that collection; the collection is unordered. */
  function AddMessage(chats: map<string, multiset<Record>>, key: string, m: Record)
    : (r: map<string, multiset<Record>>)
    ensures r.Keys == chats.Keys + {key}
    ensures r[key] == (if key in chats then chats[key] else multiset{}) + multiset{m}
    ensures forall other :: other in chats && other != key ==> r[other] == chats[other]
  {
    chats[key := (if key in chats then chats[key] else multiset{}) + multiset{m}]
  }

  class Firestore {
    var users: map<string, Record>
    var chats: map<string, multiset<Record>>

    constructor (users0: map<string, Record>, chats0: map<string, multiset<Record>>)
      ensures users == users0 && chats == chats0
    {
      users, chats := users0, chats0;
    }

    /** `collection('users').doc(id).set(fields, { merge: true })` */
    method SetUser(id: string, fields: Record)
      modifies this
      ensures users == SetMerge(old(users), id, fields)
      ensures chats == old(chats)
    {
      users := SetMerge(users, id, fields);
    }

    /** `collection('chats').doc(key).collection('messages').add(m)` */
    method AddChatMessage(key: string, m: Record)
      modifies this
      ensures chats == AddMessage(old(chats), key, m)
      ensures users == old(users)
    {
      chats := AddMessage(chats, key, m);
    }
  }

  class Storage {
    var files: map<string, string>

    constructor (files0: map<string, string>)
      ensures files == files0
    {
      files := files0;
    }

    /** `ref(path).putFile(uri)`: the object at `path` now holds the file. */
    method PutFile(path: string, uri: string)
      modifies this
      ensures files == old(files)[path := uri]
    {
      files := files[path := uri];
    }
  }
}
