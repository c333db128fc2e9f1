/** The client's session store (frontend/src/Store/User/user-slice.js):
    five fields and one reducer per action, each assigning fields in place.
    The invariant worth keeping is that the session is authenticated
    exactly when a user is held. */
module UserSlice {
  import opened Wrappers

  /** The user object the server sends back; only its presence matters
      here. */
  datatype User = User(id: string, name: string, email: string)

  /** The slice's state. */
  class UserState {
    var isAuthenticated: bool
    var loading: bool
    var user: Option<User>
    var errors: Option<string>
    var success: bool

    /** `isAuthenticated` iff a user is held. */
    predicate Consistent()
      reads this
    {
      isAuthenticated <==> user.Some?
    }

    /** `initialState`. */
    constructor()
      ensures !isAuthenticated && !loading && user.None? && errors.None? && !success
      ensures Consistent()
    {
      isAuthenticated := false;
      loading := false;
      user := None;
      errors := None;
      success := false;
    }

    /** What every `*Request` reducer does: raise `loading`, nothing else. */
    method StartLoading()
      modifies this`loading
      ensures loading
      ensures old(Consistent()) ==> Consistent()
    {
      loading := true;
    }

    method SignUpRequest()
      modifies this`loading
      ensures loading
      ensures old(Consistent()) ==> Consistent()
    {
      StartLoading();
    }

    method LoginRequest()
      modifies this`loading
      ensures loading
      ensures old(Consistent()) ==> Consistent()
    {
      StartLoading();
    }

    method CurrentUserRequest()
      modifies this`loading
      ensures loading
      ensures old(Consistent()) ==> Consistent()
    {
      StartLoading();
    }

    method UpdateUserRequest()
      modifies this`loading
      ensures loading
      ensures old(Consistent()) ==> Consistent()
    {
      StartLoading();
    }

    method LogOutRequest()
      modifies this`loading
      ensures loading
      ensures old(Consistent()) ==> Consistent()
    {
      StartLoading();
    }

    method PasswordRequest()
      modifies this`loading
      ensures loading
      ensures old(Consistent()) ==> Consistent()
    {
      StartLoading();
    }

    /** What `getSignUpDetails` and `getLoginDetails` do: hold the payload
        and mark the session authenticated, whatever the payload is; the
        invariant holds afterwards exactly when the payload is a user. */
    method HoldUser(payload: Option<User>)
      modifies this`user, this`isAuthenticated, this`loading
      ensures user == payload && isAuthenticated && !loading
      ensures Consistent() <==> payload.Some?
    {
      user := payload;
      isAuthenticated := true;
      loading := false;
    }

    method SignUpDetails(payload: Option<User>)
      modifies this`user, this`isAuthenticated, this`loading
      ensures user == payload && isAuthenticated && !loading
      ensures Consistent() <==> payload.Some?
    {
      HoldUser(payload);
    }

    method LoginDetails(payload: Option<User>)
      modifies this`user, this`isAuthenticated, this`loading
      ensures user == payload && isAuthenticated && !loading
      ensures Consistent() <==> payload.Some?
    {
      HoldUser(payload);
    }

    /** `getError`: record the error and stop loading; nothing else. */
    method Error(payload: Option<string>)
      modifies this`errors, this`loading
      ensures errors == payload && !loading
      ensures old(Consistent()) ==> Consistent()
    {
      errors := payload;
      loading := false;
    }

    /** `getCurrentUser`: a user payload authenticates with it, a null one
        signs out; loading stops either way. */
    method CurrentUser(payload: Option<User>)
      modifies this`user, this`isAuthenticated, this`loading
      ensures payload.Some? ==> user == payload && isAuthenticated
      ensures payload.None? ==> user.None? && !isAuthenticated
      ensures !loading
      ensures Consistent()
    {
      if payload.Some? {
        user := payload;
        isAuthenticated := true;
      } else {
        user := None;
        isAuthenticated := false;
      }
      loading := false;
    }

    /** `getLogout`: drop the user and stop loading; errors and success stay. */
    method Logout()
      modifies this`user, this`isAuthenticated, this`loading
      ensures user.None? && !isAuthenticated && !loading
      ensures Consistent()
    {
      user := None;
      isAuthenticated := false;
      loading := false;
    }

    /** `getPasswordSuccess`: record the payload as `success`, stop loading. */
    method PasswordSuccess(payload: bool)
      modifies this`success, this`loading
      ensures success == payload && !loading
      ensures old(Consistent()) ==> Consistent()
    {
      success := payload;
      loading := false;
    }

    /** `clearError`: forget the error, nothing else. */
    method ClearError()
      modifies this`errors
      ensures errors.None?
      ensures old(Consistent()) ==> Consistent()
    {
      errors := None;
    }
  }
}
