/** `AuthContext`: the session state shared by every screen. */
module Auth {
  import opened Wrappers
  import opened Domain

  /** What `signIn` and `signUp` return: `{success: true}` or
      `{success: false, error}`. */
  datatype AuthResult = AuthResult(success: bool, error: Option<string>)

  class AuthContext {
    var user: Option<Usuario>
    var isAuthenticated: bool
    var loading: bool

    constructor ()
      ensures user == None && !isAuthenticated && loading
      ensures Valid()
    {
      user, isAuthenticated, loading := None, false, true;
    }

    /** Signed in exactly when a user is held. */
    predicate Valid()
      reads this
    {
      isAuthenticated <==> user.Some?
    }

    /** `checkUserSession`: restores the stored user only when a stored
        token is present too (a missing or empty token is falsy). A failed
        read of storage yields no data. */
    method CheckUserSession(userData: Option<Usuario>, token: Option<string>)
      modifies this
      ensures !loading
      ensures userData.Some? && token.Some? && token.value != "" ==> user == userData && isAuthenticated
      ensures !(userData.Some? && token.Some? && token.value != "") ==>
        user == old(user) && isAuthenticated == old(isAuthenticated)
      ensures old(Valid()) ==> Valid()
    {
      if userData.Some? && token.Some? && token.value != "" {
        user := userData;
        isAuthenticated := true;
      }
      loading := false;
    }

    /** `signIn`, given the outcome of `authService.login`. */
    method SignIn(res: Result<Usuario, string>) returns (r: AuthResult)
      modifies this
      ensures r.success == res.Success?
      ensures res.Success? ==> user == Some(res.value) && isAuthenticated && r.error == None
      ensures res.Failure? ==> user == old(user) && isAuthenticated == old(isAuthenticated) && r.error == Some(res.error)
      ensures loading == old(loading)
      ensures old(Valid()) ==> Valid()
    {
      if res.Success? {
        user := Some(res.value);
        isAuthenticated := true;
        r := AuthResult(true, None);
      } else {
        r := AuthResult(false, Some(res.error));
      }
    }

    /** `signUp`, given the outcome of `authService.register`; its effect on
        the state is that of `signIn`. */
    method SignUp(res: Result<Usuario, string>) returns (r: AuthResult)
      modifies this
      ensures r.success == res.Success?
      ensures res.Success? ==> user == Some(res.value) && isAuthenticated && r.error == None
      ensures res.Failure? ==> user == old(user) && isAuthenticated == old(isAuthenticated) && r.error == Some(res.error)
      ensures loading == old(loading)
      ensures old(Valid()) ==> Valid()
    {
      r := SignIn(res);
    }

    /** `signOut`: `authService.logout` never throws, so the session always ends. */
    method SignOut()
      modifies this
      ensures user == None && !isAuthenticated
      ensures loading == old(loading)
      ensures Valid()
    {
      user := None;
      isAuthenticated := false;
    }
  }
}
