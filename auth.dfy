/** The authentication slice as a state machine over its five fields and the
    browser's key-value storage, which here is a map the slice owns. */
module Auth {
  import opened Common

  /** The signed-in user, as the login response describes it. */
  datatype User = User(fields: map<string, string>)

  const TokenKey: string := "token"
  const UserKey: string := "user"

  class AuthSlice {
    var token: Option<string>
    var isAuthenticated: bool
    var user: Option<User>
    var loading: bool
    var error: Option<string>
    /** `localStorage`. */
    var storage: map<string, string>

    /** The stored token and the state's token agree, and a signed-in state
        holds a token, a user and the stored user text. */
    predicate Valid()
      reads this
    {
      && (token.Some? <==> TokenKey in storage)
      && (token.Some? ==> storage[TokenKey] == token.value)
      && (isAuthenticated ==> token.Some? && user.Some? && UserKey in storage)
    }

    /** The initial state reads the token back from storage. */
    constructor(storage: map<string, string>)
      ensures Valid()
      ensures this.storage == storage
      ensures token == (if TokenKey in storage then Some(storage[TokenKey]) else None)
      ensures !isAuthenticated && user.None? && !loading && error.None?
    {
      this.storage := storage;
      token := if TokenKey in storage then Some(storage[TokenKey]) else None;
      isAuthenticated := false;
      user := None;
      loading := false;
      error := None;
    }

    /** `loginStart()`. */
    method LoginStart()
      modifies this`loading, this`error
      ensures loading && error.None?
      ensures old(Valid()) ==> Valid()
    {
      loading := true;
      error := None;
    }

    /** `loginSuccess({ token, user })`; `userText` is `JSON.stringify(user)`. */
    method LoginSuccess(newToken: string, newUser: User, userText: string)
      modifies this`loading, this`isAuthenticated, this`token, this`user, this`storage
      ensures !loading && isAuthenticated && token == Some(newToken) && user == Some(newUser)
      ensures storage == old(storage)[TokenKey := newToken][UserKey := userText]
      ensures error == old(error)
      ensures Valid()
    {
      loading := false;
      isAuthenticated := true;
      token := Some(newToken);
      user := Some(newUser);
      storage := storage[TokenKey := newToken];
      storage := storage[UserKey := userText];
    }

    /** `loginFailure(message)`. */
    method LoginFailure(message: Option<string>)
      modifies this`loading, this`error, this`isAuthenticated, this`token, this`user, this`storage
      ensures !loading && error == message
      ensures !isAuthenticated && token.None? && user.None?
      ensures storage == old(storage) - {TokenKey, UserKey}
      ensures Valid()
    {
      loading := false;
      error := message;
      SignOut();
    }

    /** `logout()`: the session is gone; `error` and `loading` are kept. */
    method Logout()
      modifies this`isAuthenticated, this`token, this`user, this`storage
      ensures !isAuthenticated && token.None? && user.None?
      ensures storage == old(storage) - {TokenKey, UserKey}
      ensures Valid()
    {
      SignOut();
    }

    /** The part `loginFailure` and `logout` share. */
    method SignOut()
      modifies this`isAuthenticated, this`token, this`user, this`storage
      ensures !isAuthenticated && token.None? && user.None?
      ensures storage == old(storage) - {TokenKey, UserKey}
      ensures Valid()
    {
      isAuthenticated := false;
      token := None;
      user := None;
      storage := storage - {TokenKey};
      storage := storage - {UserKey};
    }

    /** `clearError()`. */
    method ClearError()
      modifies this`error
      ensures error.None?
      ensures old(Valid()) ==> Valid()
    {
      error := None;
    }
  }

  /** `selectIsAuthenticated`: false when the slice is missing. */
  function SelectIsAuthenticated(slice: AuthSlice?): (r: bool)
    reads slice
    ensures r <==> slice != null && slice.isAuthenticated
  {
    slice != null && slice.isAuthenticated
  }

  /** `selectCurrentUser`: null when the slice is missing. */
  function SelectCurrentUser(slice: AuthSlice?): (r: Option<User>)
    reads slice
    ensures slice == null ==> r.None?
    ensures slice != null ==> r == slice.user
    ensures slice != null && slice.Valid() && slice.isAuthenticated ==> r.Some?
  {
    if slice == null then None else slice.user
  }

  /** `selectAuthLoading`: false when the slice is missing. */
  function SelectAuthLoading(slice: AuthSlice?): (r: bool)
    reads slice
    ensures r <==> slice != null && slice.loading
  {
    slice != null && slice.loading
  }

  /** `selectAuthError`: null when the slice is missing, and an empty
      message reads as null too. */
  function SelectAuthError(slice: AuthSlice?): (r: Option<string>)
    reads slice
    ensures r.Some? <==> slice != null && Truthy(slice.error)
    ensures r.Some? ==> r == slice.error
  {
    if slice != null && Truthy(slice.error) then slice.error else None
  }
}
