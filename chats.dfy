/** The contact list screen: a case-insensitive search over the signed-in
    user's contacts and the choice between the list and the
    "No contacts available" placeholder. */
module Chats {
  import opened Wrappers
  import opened Strings
  import opened Records

  /** `contact.name.toLowerCase().includes(searchQuery.toLowerCase())` */
  predicate Matches(c: Contact, query: string)
    ensures Matches(c, query) <==> exists i :: OccursAt(LowerStr(c.name), LowerStr(query), i)
  {
    IncludesIffOccurs(LowerStr(c.name), LowerStr(query));
    Includes(LowerStr(c.name), LowerStr(query))
  }

  /** `contacts.filter(contact => Matches(contact, query))`: the matching
      contacts, and no others. */
  function FilterContacts(contacts: seq<Contact>, query: string): (r: seq<Contact>)
    ensures forall c :: c in r <==> c in contacts && Matches(c, query)
    ensures |r| <= |contacts|
  {
    if contacts == [] then []
    else (if Matches(contacts[0], query) then [contacts[0]] else []) + FilterContacts(contacts[1..], query)
  }

  /** `sub` is `s` with some elements left out, the rest in their order:
      either the heads agree and the tails are related, or the head of `s`
      is left out. */
  predicate IsSubsequence(sub: seq<Contact>, s: seq<Contact>)
    decreases |s|
  {
    if s == [] then sub == []
    else (sub != [] && sub[0] == s[0] && IsSubsequence(sub[1..], s[1..]))
         || IsSubsequence(sub, s[1..])
  }

  /** The filter keeps the input's order. */
  lemma {:induction false} FilterIsSubsequence(contacts: seq<Contact>, query: string)
    ensures IsSubsequence(FilterContacts(contacts, query), contacts)
    decreases |contacts|
  {
    if contacts != [] {
      var rest := FilterContacts(contacts[1..], query);
      FilterIsSubsequence(contacts[1..], query);
      if Matches(contacts[0], query) {
        assert FilterContacts(contacts, query) == [contacts[0]] + rest;
        assert ([contacts[0]] + rest)[1..] == rest;
      } else {
        assert FilterContacts(contacts, query) == rest;
      }
    }
  }

  /** Each matching contact appears as often as in the input, every other
      contact not at all. */
  lemma {:induction false} FilterCounts(contacts: seq<Contact>, query: string, c: Contact)
    ensures multiset(FilterContacts(contacts, query))[c] ==
            if Matches(c, query) then multiset(contacts)[c] else 0
    decreases |contacts|
  {
    if contacts != [] {
      FilterCounts(contacts[1..], query, c);
      assert contacts == [contacts[0]] + contacts[1..];
    }
  }

  /** An empty search shows the whole list. */
  lemma {:induction false} EmptyQueryKeepsAll(contacts: seq<Contact>)
    ensures FilterContacts(contacts, "") == contacts
    decreases |contacts|
  {
    if contacts != [] {
      IncludesEmpty(LowerStr(contacts[0].name));
      assert LowerStr("") == "";
      EmptyQueryKeepsAll(contacts[1..]);
    }
  }

  /** Typing the search in capitals gives the same list. */
  lemma {:induction false} FilterIgnoresQueryCase(contacts: seq<Contact>, query: string)
    ensures FilterContacts(contacts, UpperStr(query)) == FilterContacts(contacts, query)
    decreases |contacts|
  {
    LowerOfUpper(query);
    if contacts != [] {
      FilterIgnoresQueryCase(contacts[1..], query);
    }
  }

  /** `filteredContacts`: the filter over `userData?.contacts`, or `[]` when
      there is no user or no contacts array. */
  function FilteredContacts(userData: Option<Record>, query: string): (r: seq<Contact>)
    ensures userData.None? ==> r == []
    ensures userData.Some? && !Get(userData.value, "contacts").List? ==> r == []
    ensures userData.Some? ==>
              forall c :: c in r <==> c in ContactsOr(userData.value) && Matches(c, query)
  {
    if userData.Some? && Truthy(Get(userData.value, "contacts"))
    then FilterContacts(ContactsOr(userData.value), query)
    else []
  }

  /** What the screen shows under the search box. */
  datatype ChatsView = ContactList(items: seq<Contact>) | NoContacts

  /** `filteredContacts.length > 0 ? <FlatList …/> : "No contacts available"` */
  function RenderChats(userData: Option<Record>, query: string): (v: ChatsView)
    ensures v.ContactList? ==> v.items == FilteredContacts(userData, query) && v.items != []
  {
    var items := FilteredContacts(userData, query);
    if |items| > 0 then ContactList(items) else NoContacts
  }

  /** The placeholder is shown exactly when no contact of the signed-in
      user matches the search. */
  lemma NoContactsIffNothingMatches(userData: Option<Record>, query: string)
    ensures RenderChats(userData, query).NoContacts? <==>
            (userData.None? || forall c :: c in ContactsOr(userData.value) ==> !Matches(c, query))
  {
    var items := FilteredContacts(userData, query);
    if userData.Some? && items == [] {
      forall c | c in ContactsOr(userData.value)
        ensures !Matches(c, query)
      {
        assert c !in items;
      }
    }
    if userData.Some? && items != [] {
      assert items[0] in items;
    }
  }
}
