/** The plain JavaScript objects the app passes around (the signed-in
    user's profile, Firestore documents, chat messages), and the object
    spread `{ ...a, ...b }` that the store and the chat screen use to
    combine them. */
module Records {
  import opened Wrappers

  /** One entry of a user's `contacts` array: `{ email, name, uid }`. */
  datatype Contact = Contact(email: string, name: string, uid: string)

  /** The field values the app stores: `undefined`, a string, a number, a
      `Date`, a GiftedChat author object `{ _id }`, or a contacts array. */
  datatype Value =
    | Undefined
    | Str(s: string)
    | Num(n: int)
    | Date(ms: int)
    | Author(id: string)
    | List(contacts: seq<Contact>)

  /** A JavaScript object: its own keys and their values. */
  type Record = map<string, Value>

  /** Property read `r.key`: a missing key reads as `undefined`. */
  function Get(r: Record, key: string): Value {
    if key in r then r[key] else Undefined
  }

  /** JavaScript truthiness on the values above: `undefined`, `''` and `0`
      are falsy; objects and arrays (even empty ones) are truthy. */
  predicate Truthy(v: Value) {
    match v
    case Undefined => false
    case Str(s) => s != ""
    case Num(n) => n != 0
    case _ => true
  }

  /** `a || b` */
  function Or(a: Value, b: Value): (r: Value)
    ensures Truthy(a) ==> r == a
    ensures !Truthy(a) ==> r == b
  {
    if Truthy(a) then a else b
  }

  /** `r.key` holds a string. */
  predicate HasText(r: Record, key: string) {
    key in r && r[key].Str?
  }

  function Text(r: Record, key: string): string
    requires HasText(r, key)
  {
    r[key].s
  }

  /** `r.contacts || []`, for a `contacts` field that is an array or falsy. */
  function ContactsOr(r: Record): seq<Contact> {
    if Get(r, "contacts").List? then Get(r, "contacts").contacts else []
  }

  /** The keys `...o` contributes: none when `o` is null or undefined. */
  function Spread(o: Option<Record>): Record {
    if o.Some? then o.value else map[]
  }

  /** `{ ...base, ...payload }`: every key of either operand, the payload's
      value winning where both have the key. */
  function Merge(base: Option<Record>, payload: Option<Record>): (r: Record)
    ensures r.Keys == Spread(base).Keys + Spread(payload).Keys
    ensures forall k :: k in Spread(payload) ==> r[k] == Spread(payload)[k]
    ensures forall k :: k in Spread(base) && k !in Spread(payload) ==> r[k] == Spread(base)[k]
  {
    Spread(base) + Spread(payload)
  }

  /** Spreading over a null object yields a copy of the payload. */
  lemma MergeOntoNull(payload: Record)
    ensures Merge(None, Some(payload)) == payload
  {
  }

  /** Merging the same payload a second time changes nothing. */
  lemma MergeIdempotent(base: Option<Record>, payload: Option<Record>)
    ensures Merge(Some(Merge(base, payload)), payload) == Merge(base, payload)
  {
  }

  /** Two payloads merged one after the other act as their own merge. */
  lemma MergeSequential(base: Option<Record>, p: Record, q: Record)
    ensures Merge(Some(Merge(base, Some(p))), Some(q)) == Merge(base, Some(Merge(Some(p), Some(q))))
  {
  }
}
