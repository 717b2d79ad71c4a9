/**
 * The login screen (`src/screens/LoginScreen.tsx`): both fields must be filled in, and
 * a successful reply becomes the session that is saved in the cache and handed to the
 * app.
 */
module Login {
  import opened Wrappers
  import opened JsString
  import opened Records
  import opened Storage

  /** The `data` object of a login reply; `userId` is `None` where the server sent none. */
  datatype LoginData = LoginData(userId: Option<string>)

  /** The user id the server sent, when it sent a non-empty one (JavaScript's `||`
      falls through on both `undefined` and `''`). */
  predicate HasServerId(d: LoginData) {
    d.userId.Some? && d.userId.value != ""
  }

  /** The session a login reply yields: a user exactly when the reply succeeded and
      carried data, named after what was typed, with the server's user id or, failing
      that, the typed name as its id. */
  function SessionFor(username: string, reply: Reply<LoginData>): (r: Option<User>)
    ensures r.Some? <==> reply.success && reply.data.Some?
    ensures r.Some? ==> r.value.userName == username
    ensures r.Some? && HasServerId(reply.data.value) ==> r.value.userId == reply.data.value.userId.value
    ensures r.Some? && !HasServerId(reply.data.value) ==> r.value.userId == username
  {
    if reply.success && reply.data.Some? then
      var d := reply.data.value;
      Some(User(username, if HasServerId(d) then d.userId.value else username))
    else None
  }

  /** A session built from a filled-in name always has a non-empty user id, so the
      stock-out screen never records scans under an empty NPK. */
  lemma SessionHasUserId(username: string, reply: Reply<LoginData>)
    requires !IsBlank(username)
    requires SessionFor(username, reply).Some?
    ensures SessionFor(username, reply).value.userId != ""
  {
  }

  class LoginScreen {
    const store: Store
    var username: string
    var password: string
    var loading: bool

    constructor (store: Store)
      ensures this.store == store && username == "" && password == "" && !loading
    {
      this.store := store;
      username := "";
      password := "";
      loading := false;
    }

    method SetUsername(text: string)
      modifies this`username
      ensures username == text
    {
      username := text;
    }

    method SetPassword(text: string)
      modifies this`password
      ensures password == text
    {
      password := text;
    }

    /** `handleLogin`: with either field blank no request is made; otherwise the reply
        decides the session, which is saved under `userDataLogin` and returned for the
        app to switch to the stock-out screen. The typed name is kept untrimmed. */
    method HandleLogin(reply: Reply<LoginData>) returns (loggedIn: Option<User>)
      modifies this`loading, store`userDataLogin
      ensures IsBlank(username) || IsBlank(password) ==>
        loggedIn == None && loading == old(loading)
      ensures !IsBlank(username) && !IsBlank(password) ==>
        loggedIn == SessionFor(username, reply) && !loading
      ensures loggedIn.Some? ==> store.userDataLogin == loggedIn
      ensures loggedIn.None? ==> store.userDataLogin == old(store.userDataLogin)
    {
      if IsBlank(username) || IsBlank(password) {
        return None;
      }
      loading := true;
      if reply.success && reply.data.Some? {
        var userData := User(username, if HasServerId(reply.data.value) then reply.data.value.userId.value else username);
        store.userDataLogin := Some(userData);
        loggedIn := Some(userData);
      } else {
        loggedIn := None;
      }
      loading := false;
    }
  }
}
