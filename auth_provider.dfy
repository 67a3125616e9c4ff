/**
 * The session context: the provider keeps the signed-in user in its state and mirrors it into
 * the storage entry. It fails closed: whatever the server does not confirm is cleared.
 */
module Session {
  import opened Wrappers
  import opened UserStore
  import opened ApiClient

  const OutsideProvider := "useAuth must be used within an AuthProvider"

  /** The user a `getCurrentUser` result confirms: a success carrying data. */
  function Confirmed(r: ApiResponse<User>): Option<User> {
    if r.Success? && r.data.Some? then r.data else None
  }

  /** The storage entries after adopting `r`: its confirmed user written, or the entry removed. */
  function Adopted(entries: map<string, string>, hasWindow: bool, r: ApiResponse<User>): map<string, string> {
    if !hasWindow then entries
    else if r.Success? && r.data.Some? then entries[UserKey := EncodeUser(r.data.value)]
    else entries - {UserKey}
  }

  class AuthProvider {
    var user: Option<User>
    var isLoading: bool
    const storage: Storage
    /** The backend calls made so far, in order. */
    var calls: seq<Call>

    /** The provider's state and the storage entry agree; no user means no entry. */
    predicate Mirrored()
      reads this, storage
    {
      (storage.hasWindow ==> storage.Stored() == user)
      && (user.None? ==> UserKey !in storage.entries || !storage.hasWindow)
    }

    /** `isAuthenticated: !!user` */
    function IsAuthenticated(): (b: bool)
      reads this
      ensures b <==> user.Some?
    {
      user.Some?
    }

    /** The first render: no user yet, loading, and whatever the storage already holds. */
    constructor(storage: Storage)
      ensures this.storage == storage && user == None && isLoading && calls == []
    {
      this.storage := storage;
      user := None;
      isLoading := true;
      calls := [];
    }

    /** Storage and state follow one `getCurrentUser` result. */
    method Adopt(r: ApiResponse<User>)
      modifies this, storage
      ensures user == Confirmed(r)
      ensures Mirrored()
      ensures isLoading == old(isLoading) && calls == old(calls)
      ensures storage.entries == Adopted(old(storage.entries), storage.hasWindow, r)
    {
      if r.Success? && r.data.Some? {
        storage.SetUser(r.data.value);
        user := r.data;
      } else {
        storage.ClearAuth();
        user := None;
      }
    }

    /**
     * The mount effect: one call for the current user, whose confirmed profile is written to
     * storage and state; anything else clears both. Loading ends in every case.
     */
    method Mount(outcome: Outcome<User>)
      modifies this, storage
      ensures user == Confirmed(Execute(outcome))
      ensures !isLoading
      ensures Mirrored()
      ensures calls == old(calls) + [GetCurrentUser]
      ensures storage.entries == Adopted(old(storage.entries), storage.hasWindow, Execute(outcome))
    {
      calls := calls + [GetCurrentUser];
      Adopt(Execute(outcome));
      isLoading := false;
    }

    /** `login(user)`: storage and state set to the user, with no backend call. */
    method Login(u: User)
      modifies this, storage
      ensures user == Some(u) && Mirrored()
      ensures calls == old(calls) && isLoading == old(isLoading)
      ensures storage.entries == if storage.hasWindow then old(storage.entries)[UserKey := EncodeUser(u)]
        else old(storage.entries)
    {
      storage.SetUser(u);
      user := Some(u);
    }

    /** `updateUser(user)` does what `login` does. */
    method UpdateUser(u: User)
      modifies this, storage
      ensures user == Some(u) && Mirrored()
      ensures calls == old(calls) && isLoading == old(isLoading)
      ensures storage.entries == if storage.hasWindow then old(storage.entries)[UserKey := EncodeUser(u)]
        else old(storage.entries)
    {
      storage.SetUser(u);
      user := Some(u);
    }

    /**
     * `logout`: one call to the backend, whose outcome is ignored; storage and state are
     * cleared whatever it was.
     */
    method Logout()
      modifies this, storage
      ensures user == None && Mirrored()
      ensures calls == old(calls) + [LogoutCall] && isLoading == old(isLoading)
      ensures storage.entries == if storage.hasWindow then old(storage.entries) - {UserKey} else old(storage.entries)
    {
      calls := calls + [LogoutCall];
      storage.ClearAuth();
      user := None;
    }

    /** `refreshUser`: like the mount effect, without touching `isLoading`. */
    method RefreshUser(outcome: Outcome<User>)
      modifies this, storage
      ensures user == Confirmed(Execute(outcome)) && Mirrored()
      ensures calls == old(calls) + [GetCurrentUser] && isLoading == old(isLoading)
      ensures storage.entries == Adopted(old(storage.entries), storage.hasWindow, Execute(outcome))
    {
      calls := calls + [GetCurrentUser];
      Adopt(Execute(outcome));
    }
  }

  /** A session is kept only on a reply that says success and carries a user. */
  lemma ConfirmedOnlyBySuccess(outcome: Outcome<User>)
    ensures Confirmed(Execute(outcome)).Some? <==>
      outcome.Responded? && outcome.body.Some? && outcome.body.value.success && outcome.body.value.data.Some?
    ensures Confirmed(Execute(outcome)).Some? ==> Confirmed(Execute(outcome)) == outcome.body.value.data
  {
    ExecuteSuccessIff(outcome);
  }

  /** What `useAuth` yields: the context, or the error it throws outside a provider. */
  datatype Hooked<C> = Context(value: C) | Thrown(message: string)

  function UseAuth<C>(context: Option<C>): (r: Hooked<C>)
    ensures r.Thrown? <==> context.None?
    ensures r.Thrown? ==> r.message == OutsideProvider
    ensures r.Context? ==> r.value == context.value
  {
    if context.None? then Thrown(OutsideProvider) else Context(context.value)
  }
}
