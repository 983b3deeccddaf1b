/**
  The user store: the user directory and its loading / error flags, with the
  pending / fulfilled / rejected phases of the fetch action. The list that
  the fetch action resolves with is an input here.
*/
module UsersSlice {
  import opened JsValues

  /** The custom-data block of a user record. */
  datatype CustomData = CustomData(
    userType: Value,
    userEmployer: Value,
    score: Value,
    phone: Value,
    country: Value,
    name: Value)

  /** A user record; `customData` is None when the block is absent. */
  datatype User = User(
    id: string,
    name: Value,
    email: Value,
    status: Value,
    isVerified: Value,
    customData: Option<CustomData>)

  datatype UsersState = UsersState(users: seq<User>, loading: bool, error: Option<string>)

  /** The user store; each method is one reducer case. */
  class UserStore {
    var users: seq<User>
    var loading: bool
    var error: Option<string>

    function State(): UsersState
      reads this
    {
      UsersState(users, loading, error)
    }

    /** The initial state: no users, not loading, no error. */
    constructor ()
      ensures State() == UsersState([], false, None)
    {
      users := [];
      loading := false;
      error := None;
    }

    method ClearError()
      modifies this
      ensures State() == old(State()).(error := None)
    {
      error := None;
    }

    /** Loading starts and the previous error is cleared; the list stays. */
    method FetchPending()
      modifies this
      ensures State() == old(State()).(loading := true, error := None)
    {
      loading := true;
      error := None;
    }

    /** The list is replaced by the fetched one. */
    method FetchFulfilled(fetched: seq<User>)
      modifies this
      ensures State() == old(State()).(loading := false, users := fetched)
    {
      loading := false;
      users := fetched;
    }

    /** A failed fetch records the reason and keeps the previous list. */
    method FetchRejected(reason: string)
      modifies this
      ensures State() == old(State()).(loading := false, error := Some(reason))
    {
      loading := false;
      error := Some(reason);
    }
  }
}
