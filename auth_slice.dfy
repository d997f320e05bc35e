/** The authentication slice of the front-end store and its three reducers. */
module AuthSlice {
  import opened Common

  class AuthState<User> {
    var isLoggedIn: bool
    var isInitialized: bool
    var user: Option<User>
    var token: Option<string>

    /** The initial state: logged out, not yet initialised, no user and no token. */
    constructor ()
      ensures !isLoggedIn && !isInitialized && user == None && token == None
    {
      isLoggedIn := false;
      isInitialized := false;
      user := None;
      token := None;
    }

    /** login: logged in with the payload's user and token. */
    method Login(u: User, t: string)
      modifies this
      ensures isLoggedIn && isInitialized && user == Some(u) && token == Some(t)
    {
      isLoggedIn := true;
      isInitialized := true;
      user := Some(u);
      token := Some(t);
    }

    /** logout: logged out, without user or token. */
    method Logout()
      modifies this
      ensures !isLoggedIn && isInitialized && user == None && token == None
    {
      isLoggedIn := false;
      isInitialized := true;
      user := None;
      token := None;
    }

    /** initialize: whatever the payload says about the session, and initialised from then on. */
    method Initialize(loggedIn: bool, u: Option<User>, t: Option<string>)
      modifies this
      ensures isInitialized && isLoggedIn == loggedIn && user == u && token == t
    {
      isInitialized := true;
      isLoggedIn := loggedIn;
      user := u;
      token := t;
    }
  }
}
