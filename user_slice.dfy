/** The Redux `user` slice: one field, `userData`, null until a profile is
    stored, replaced by `setUserData` and merged by `updateUserData`. */
module UserSlice {
  import opened Wrappers
  import opened Records

  class UserStore {
    var userData: Option<Record>

    /** `initialState`: no signed-in user. */
    constructor ()
      ensures userData == None
    {
      userData := None;
    }

    /** `setUserData`: the payload becomes `userData`, whatever was there. */
    method SetUserData(payload: Option<Record>)
      modifies this
      ensures userData == payload
    {
      userData := payload;
    }

    /** `updateUserData`: `userData` becomes `{ ...userData, ...payload }`,
        always a (possibly empty) object, never null. */
    method UpdateUserData(payload: Option<Record>)
      modifies this
      ensures userData.Some?
      ensures forall k :: k in Spread(payload) ==> k in userData.value && userData.value[k] == Spread(payload)[k]
      ensures forall k :: k in Spread(old(userData)) && k !in Spread(payload) ==>
                k in userData.value && userData.value[k] == Spread(old(userData))[k]
      ensures userData.value.Keys == Spread(old(userData)).Keys + Spread(payload).Keys
      ensures userData == Some(Merge(old(userData), payload))
    {
      userData := Some(Merge(userData, payload));
    }

    /** `selectUserData(state)`: the slice's `userData`, as stored. */
    function SelectUserData(): (r: Option<Record>)
      reads this
      ensures r == userData
    {
      userData
    }
  }

  /** Applying `updateUserData` twice with one payload leaves the store as a
      single application does. */
  method UpdateTwiceSameAsOnce(store: UserStore, payload: Option<Record>)
    modifies store
    ensures store.userData == Some(Merge(old(store.userData), payload))
  {
    store.UpdateUserData(payload);
    store.UpdateUserData(payload);
    MergeIdempotent(old(store.userData), payload);
  }
}
