/** The header's "Add contact" flow: look the typed email up in the
    `users` collection, then append an entry for each party to the other's
    `contacts` array with two merge writes. */
module Header {
  import opened Records
  import opened UserSlice
  import opened Backend

  /** One document of a query snapshot: its id and its `data()`. */
  datatype DocSnapshot = DocSnapshot(id: string, data: Record)

  /** The result of `users.where('email', '==', email).get()`. */
  datatype QueryResult = QueryFailed | QuerySnapshot(docs: seq<DocSnapshot>)

  datatype AddOutcome = NoUserFound | Failed | Added

  /** `docs` is what Firestore answers for `email` over `users`: documents
      of `users` whose email is `email`, and every such document. */
  predicate AnswersQuery(docs: seq<DocSnapshot>, users: map<string, Record>, email: string) {
    && (forall i :: 0 <= i < |docs| ==>
          docs[i].id in users && users[docs[i].id] == docs[i].data && Get(docs[i].data, "email") == Str(email))
    && (forall id :: id in users && Get(users[id], "email") == Str(email) ==>
          exists i :: 0 <= i < |docs| && docs[i].id == id)
  }

  /** The query comes back empty exactly when no user has that email. */
  lemma EmptyAnswerMeansNoSuchUser(docs: seq<DocSnapshot>, users: map<string, Record>, email: string)
    requires AnswersQuery(docs, users, email)
    ensures docs == [] <==> forall id :: id in users ==> Get(users[id], "email") != Str(email)
  {
    if docs != [] {
      assert Get(users[docs[0].id], "email") == Str(email);
    }
  }

  /** The signed-in profile carries the three strings a contact entry is
      made of. */
  predicate CallerReady(me: Record) {
    HasText(me, "email") && HasText(me, "name") && HasText(me, "uid")
  }

  /** The found user's document carries an email and a name. */
  predicate FoundReady(found: DocSnapshot) {
    HasText(found.data, "email") && HasText(found.data, "name")
  }

  /** `{ email: userDetails.email, name: userDetails.name, uid }` */
  function FoundEntry(found: DocSnapshot): Contact
    requires FoundReady(found)
  {
    Contact(Text(found.data, "email"), Text(found.data, "name"), found.id)
  }

  /** `{ email: userData.email, name: userData.name, uid: userData.uid }` */
  function CallerEntry(me: Record): Contact
    requires CallerReady(me)
  {
    Contact(Text(me, "email"), Text(me, "name"), Text(me, "uid"))
  }

  /** `updatedContacts`: the caller's list (from the local profile) with the
      found user appended. */
  function CallerContacts(me: Record, found: DocSnapshot): (r: seq<Contact>)
    requires FoundReady(found)
    ensures |r| == |ContactsOr(me)| + 1 && r[..|ContactsOr(me)|] == ContactsOr(me)
    ensures r[|ContactsOr(me)|] == Contact(Text(found.data, "email"), Text(found.data, "name"), found.id)
  {
    ContactsOr(me) + [FoundEntry(found)]
  }

  /** `updatedUserDetailsContacts`: the found user's list with the caller
      appended. */
  function FoundContacts(me: Record, found: DocSnapshot): (r: seq<Contact>)
    requires CallerReady(me)
    ensures |r| == |ContactsOr(found.data)| + 1 && r[..|ContactsOr(found.data)|] == ContactsOr(found.data)
    ensures r[|ContactsOr(found.data)|] == Contact(Text(me, "email"), Text(me, "name"), Text(me, "uid"))
  {
    ContactsOr(found.data) + [CallerEntry(me)]
  }

  /** There is no duplicate check: each new entry is counted once more
      than before, even when the list already held it, and every other
      entry keeps its count. */
  lemma AddAppendsExactlyOne(me: Record, found: DocSnapshot)
    requires CallerReady(me) && FoundReady(found)
    ensures forall c :: multiset(CallerContacts(me, found))[c]
                        == multiset(ContactsOr(me))[c] + (if c == FoundEntry(found) then 1 else 0)
    ensures forall c :: multiset(FoundContacts(me, found))[c]
                        == multiset(ContactsOr(found.data))[c] + (if c == CallerEntry(me) then 1 else 0)
  {
    assert CallerContacts(me, found) == ContactsOr(me) + [FoundEntry(found)];
    assert FoundContacts(me, found) == ContactsOr(found.data) + [CallerEntry(me)];
  }

  /** The document written: only a `contacts` field. */
  function ContactsField(cs: seq<Contact>): Record {
    map["contacts" := List(cs)]
  }

  /** The first write: the caller's document gets `updatedContacts`. */
  function AfterFirstWrite(users: map<string, Record>, me: Record, found: DocSnapshot): (after: map<string, Record>)
    requires CallerReady(me) && FoundReady(found)
    ensures after.Keys == users.Keys + {Text(me, "uid")}
    ensures Get(after[Text(me, "uid")], "contacts") == List(CallerContacts(me, found))
    ensures forall id :: id in users && id != Text(me, "uid") ==> after[id] == users[id]
  {
    SetMerge(users, Text(me, "uid"), ContactsField(CallerContacts(me, found)))
  }

  /** Both writes, in the source's order. */
  function AfterBothWrites(users: map<string, Record>, me: Record, found: DocSnapshot): (after: map<string, Record>)
    requires CallerReady(me) && FoundReady(found)
    ensures after.Keys == users.Keys + {Text(me, "uid"), found.id}
    ensures Get(after[found.id], "contacts") == List(FoundContacts(me, found))
    ensures forall id :: id in users && id != Text(me, "uid") && id != found.id ==> after[id] == users[id]
  {
    SetMerge(AfterFirstWrite(users, me, found), found.id, ContactsField(FoundContacts(me, found)))
  }

  /** Field by field: each written document gains at most a `contacts`
      field, and every other document keeps its own fields. */
  lemma AddWritesKeySets(users: map<string, Record>, me: Record, found: DocSnapshot)
    requires CallerReady(me) && FoundReady(found)
    ensures var after := AfterBothWrites(users, me, found);
            forall id :: id in after ==>
              after[id].Keys == (if id in users then users[id].Keys else {})
                                + (if id == Text(me, "uid") || id == found.id then {"contacts"} else {})
  {
    var uid := Text(me, "uid");
    var mid := AfterFirstWrite(users, me, found);
    var after := AfterBothWrites(users, me, found);
    assert mid == SetMerge(users, uid, ContactsField(CallerContacts(me, found)));
    assert after == SetMerge(mid, found.id, ContactsField(FoundContacts(me, found)));
    forall id | id in after
      ensures after[id].Keys == (if id in users then users[id].Keys else {})
                                + (if id == uid || id == found.id then {"contacts"} else {})
    {
      if id == found.id {
        assert mid.Keys == users.Keys + {uid};
        if id == uid {
          assert mid[id].Keys == Spread(Lookup(users, id)).Keys + {"contacts"};
        } else if id in users {
          assert mid[id] == users[id];
        }
      } else if id == uid {
        assert after[id] == mid[id];
      } else {
        assert after[id] == users[id];
      }
    }
  }

  /** The writes touch the `contacts` field of the two documents and no
      other field or document. */
  lemma AddWritesOnlyContacts(users: map<string, Record>, me: Record, found: DocSnapshot)
    requires CallerReady(me) && FoundReady(found)
    ensures var after := AfterBothWrites(users, me, found);
            && after.Keys == users.Keys + {Text(me, "uid"), found.id}
            && (forall id, k :: id in users && k in users[id] && k != "contacts" ==>
                  k in after[id] && after[id][k] == users[id][k])
            && (forall id :: id in users && id != Text(me, "uid") && id != found.id ==> after[id] == users[id])
            && (forall id :: id in after ==>
                  after[id].Keys == (if id in users then users[id].Keys else {})
                                    + (if id == Text(me, "uid") || id == found.id then {"contacts"} else {}))
  {
    AddWritesKeySets(users, me, found);
  }

  /** When both parties are distinct, each ends up listing the other. */
  lemma AddLinksBothParties(users: map<string, Record>, me: Record, found: DocSnapshot)
    requires CallerReady(me) && FoundReady(found) && found.id != Text(me, "uid")
    ensures var after := AfterBothWrites(users, me, found);
            && Get(after[Text(me, "uid")], "contacts") == List(ContactsOr(me) + [FoundEntry(found)])
            && Get(after[found.id], "contacts") == List(ContactsOr(found.data) + [CallerEntry(me)])
  {
  }

  /** The caller's list is rebuilt from the local profile, which the flow
      does not update: a second add in the same session overwrites the
      caller's list again from that stale copy, dropping the first one. */
  lemma SecondAddRebuildsFromLocalCopy(users: map<string, Record>, me: Record, first: DocSnapshot, second: DocSnapshot)
    requires CallerReady(me) && FoundReady(first) && FoundReady(second)
    requires second.id != Text(me, "uid")
    ensures var after := AfterBothWrites(AfterBothWrites(users, me, first), me, second);
            Get(after[Text(me, "uid")], "contacts") == List(ContactsOr(me) + [FoundEntry(second)])
  {
  }

  /** Adding one's own email: the second write, built from the snapshot
      taken before the first, replaces the list the first write stored. */
  lemma SelfAddKeepsSecondWrite(users: map<string, Record>, me: Record, found: DocSnapshot)
    requires CallerReady(me) && FoundReady(found) && found.id == Text(me, "uid")
    ensures var after := AfterBothWrites(users, me, found);
            Get(after[found.id], "contacts") == List(ContactsOr(found.data) + [CallerEntry(me)])
  {
  }

  class HeaderScreen {
    /** The text typed in the "Enter Email" box. */
    var email: string
    const store: UserStore
    const db: Firestore

    constructor (store: UserStore, db: Firestore)
      ensures email == "" && this.store == store && this.db == db
    {
      email := "";
      this.store := store;
      this.db := db;
    }

    /** `handleAddContact`, with the query answer and whether each of the two
        writes succeeds given by the backend. */
    method HandleAddContact(query: QueryResult, firstWriteOk: bool, secondWriteOk: bool)
      returns (outcome: AddOutcome)
      requires query.QuerySnapshot? ==> AnswersQuery(query.docs, db.users, email)
      requires query.QuerySnapshot? && query.docs != [] ==> FoundReady(query.docs[0])
      requires store.userData.Some? ==> CallerReady(store.userData.value)
      modifies this, db
      ensures db.chats == old(db.chats)
      ensures outcome == NoUserFound <==> query.QuerySnapshot? && query.docs == []
      ensures outcome == Added ==> email == ""
      ensures outcome != Added ==> email == old(email)
      ensures query.QueryFailed? || query.docs == [] || store.userData.None? ==>
                db.users == old(db.users) && outcome != Added
      ensures query.QuerySnapshot? && query.docs != [] && store.userData.Some? ==>
                var me, found := store.userData.value, query.docs[0];
                && (!firstWriteOk ==> db.users == old(db.users) && outcome == Failed)
                && (firstWriteOk && !secondWriteOk ==>
                      db.users == AfterFirstWrite(old(db.users), me, found) && outcome == Failed)
                && (firstWriteOk && secondWriteOk ==>
                      db.users == AfterBothWrites(old(db.users), me, found) && outcome == Added)
    {
      if query.QueryFailed? {
        return Failed;
      }
      if query.docs == [] {
        // no user with that email: nothing is written
        return NoUserFound;
      }
      var found := query.docs[0];
      if store.userData.None? {
        // reading `userData.email` throws; the catch only logs
        return Failed;
      }
      var me := store.userData.value;
      var theirs := FoundContacts(me, found);
      var mine := CallerContacts(me, found);
      if !firstWriteOk {
        return Failed;
      }
      db.SetUser(Text(me, "uid"), ContactsField(mine));
      if !secondWriteOk {
        return Failed;
      }
      db.SetUser(found.id, ContactsField(theirs));
      email := "";
      outcome := Added;
    }
  }
}
