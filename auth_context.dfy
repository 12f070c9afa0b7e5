/**
 * The session provider: the signed-in user, the loading flag and the error
 * message, kept alongside two entries of the browser's key-value store.
 *
 * The store is a map from keys to strings. `JSON.stringify` and `JSON.parse`
 * are parameters: `serialize` turns the response's user into text (`None`
 * is the empty object of a failed answer) and `parse` yields `None` where
 * `JSON.parse` throws. The asynchronous `login` is split at its `await`:
 * `BeginLogin` runs before the call and `CompleteLogin` after it, given
 * what the call produced.
 */
module AuthContext {
  import opened Wrappers
  import opened AuthApi

  const TokenKey := "auth-token"
  const UserKey := "auth-user"
  const LoginFailed := "Error en el login"
  const ConnectionError := "Error de conexión. Intenta nuevamente."

  /** `localStorage.getItem(key)` tested for truthiness: present and not empty. */
  predicate HasTruthy(store: map<string, string>, key: string) {
    key in store && store[key] != ""
  }

  /** `response.message || 'Error en el login'`: an absent or empty message gives the default. */
  function ErrorMessage(response: LoginResponse): (m: string)
    ensures m != ""
    ensures response.message.Some? && response.message.value != "" ==> m == response.message.value
    ensures response.message.None? || response.message.value == "" ==> m == "Error en el login"
  {
    if response.message.Some? && response.message.value != "" then response.message.value else LoginFailed
  }

  /** What the awaited call produced: an answer, or an exception. */
  datatype CallOutcome = Answered(response: LoginResponse) | Threw

  /** The answer `login` hands back when the call throws. */
  function ConnectionFailure(): (r: LoginResponse)
    ensures !r.success && r.token == "" && r.user.None? && r.message == Some("Error de conexión. Intenta nuevamente.")
  {
    LoginResponse(false, "", None, Some(ConnectionError))
  }

  /** The two entries written after a successful answer. */
  function SaveSession(store: map<string, string>, response: LoginResponse, serialize: Option<User> -> string): (s: map<string, string>)
    ensures s.Keys == store.Keys + {"auth-token", "auth-user"}
    ensures s["auth-token"] == response.token && s["auth-user"] == serialize(response.user)
    ensures forall k :: k in store && k != "auth-token" && k != "auth-user" ==> s[k] == store[k]
  {
    store[TokenKey := response.token][UserKey := serialize(response.user)]
  }

  /** Both entries removed, every other one kept. */
  function ClearSession(store: map<string, string>): (s: map<string, string>)
    ensures s.Keys == store.Keys - {"auth-token", "auth-user"}
    ensures forall k :: k in s ==> s[k] == store[k]
  {
    store - {TokenKey, UserKey}
  }

  /** The session state. */
  class AuthProvider {
    var user: Option<User>
    var isLoading: bool
    var error: Option<string>
    var store: map<string, string>

    /** The provider mounts signed out, idle and without error, over the existing store. */
    constructor (store: map<string, string>)
      ensures user.None? && !isLoading && error.None? && this.store == store
    {
      user := None;
      isLoading := false;
      error := None;
      this.store := store;
    }

    /**
     * The effect on mount: with both entries present and non-empty, the
     * parsed user is signed in; if parsing fails both entries are dropped.
     */
    method RestoreSession(parse: string -> Option<User>)
      modifies this
      ensures isLoading == old(isLoading) && error == old(error)
      ensures !(HasTruthy(old(store), "auth-token") && HasTruthy(old(store), "auth-user")) ==>
                user == old(user) && store == old(store)
      ensures HasTruthy(old(store), "auth-token") && HasTruthy(old(store), "auth-user") ==>
                var parsed := parse(old(store)["auth-user"]);
                if parsed.Some? then user == parsed && store == old(store)
                else user == old(user) && store == ClearSession(old(store))
    {
      if HasTruthy(store, TokenKey) && HasTruthy(store, UserKey) {
        var parsed := parse(store[UserKey]);
        if parsed.Some? {
          user := parsed;
        } else {
          store := ClearSession(store);
        }
      }
    }

    /** `login` up to its `await`: loading, with the previous error cleared. */
    method BeginLogin()
      modifies this
      ensures isLoading && error.None?
      ensures user == old(user) && store == old(store)
    {
      isLoading := true;
      error := None;
    }

    /** `login` after its `await`, including the `finally` that ends loading. */
    method CompleteLogin(outcome: CallOutcome, serialize: Option<User> -> string) returns (response: LoginResponse)
      modifies this
      ensures !isLoading
      ensures outcome.Threw? ==>
                response == ConnectionFailure() && error == Some("Error de conexión. Intenta nuevamente.")
                && user == old(user) && store == old(store)
      ensures outcome.Answered? ==> response == outcome.response
      ensures outcome.Answered? && response.success ==>
                user == response.user && store == SaveSession(old(store), response, serialize) && error == old(error)
      ensures outcome.Answered? && !response.success ==>
                error == Some(ErrorMessage(response)) && user == old(user) && store == old(store)
    {
      match outcome {
        case Threw =>
          error := Some(ConnectionError);
          response := ConnectionFailure();
        case Answered(r) =>
          if r.success {
            user := r.user;
            store := SaveSession(store, r, serialize);
          } else {
            error := Some(ErrorMessage(r));
          }
          response := r;
      }
      isLoading := false;
    }

    /** `logout`: signed out, no error, both entries removed. */
    method Logout()
      modifies this
      ensures user.None? && error.None? && store == ClearSession(old(store))
      ensures isLoading == old(isLoading)
    {
      user := None;
      error := None;
      store := ClearSession(store);
    }

    /**
     * A whole `login` against the user directory, whose call answers: the
     * provider signs in exactly when the email is known and the password
     * matches, and is idle afterwards.
     */
    method Login(directory: UserDirectory, credentials: LoginRequest, now: string, stamp: string,
                 serialize: Option<User> -> string) returns (response: LoginResponse)
      requires directory != this as object
      modifies this, directory
      ensures !isLoading
      ensures (response, directory.users) == LoginStep(old(directory.users), credentials, now, stamp)
      ensures response.success <==> KnownEmail(old(directory.users), credentials.email) && PasswordMatches(credentials)
      ensures response.success ==> user == response.user && user.Some?
      ensures response.success ==> store == SaveSession(old(store), response, serialize)
      ensures response.success ==> error.None?
      ensures !response.success ==> user == old(user) && store == old(store) && error == Some(ErrorMessage(response))
    {
      BeginLogin();
      var answer := directory.Login(credentials, now, stamp);
      SuccessIff(old(directory.users), credentials, now, stamp);
      LoginEffect(old(directory.users), credentials, now, stamp);
      response := CompleteLogin(Answered(answer), serialize);
    }
  }

  /** After `logout`, restoring finds no session: the user stays signed out. */
  method LogoutThenRestore(p: AuthProvider, parse: string -> Option<User>)
    modifies p
    ensures p.user.None? && p.error.None?
    ensures "auth-token" !in p.store && "auth-user" !in p.store
  {
    p.Logout();
    p.RestoreSession(parse);
  }

  /**
   * A successful sign-in survives a reload: a fresh provider over the saved
   * store restores the same user when parsing inverts serialising.
   */
  method SignInSurvivesReload(p: AuthProvider, directory: UserDirectory, credentials: LoginRequest, now: string, stamp: string,
                              serialize: Option<User> -> string, parse: string -> Option<User>)
      returns (response: LoginResponse, reloaded: AuthProvider)
    requires directory != p as object
    requires forall u :: serialize(Some(u)) != "" && parse(serialize(Some(u))) == Some(u)
    modifies p, directory
    ensures response.success ==> reloaded.user == p.user && p.user.Some?
  {
    response := p.Login(directory, credentials, now, stamp, serialize);
    reloaded := new AuthProvider(p.store);
    if response.success {
      var u := response.user.value;
      LoginEffect(old(directory.users), credentials, now, stamp);
      assert response.token != "" by {
        assert response.token == "mock-jwt-token-" + u.id + "-" + stamp;
        assert |response.token| > 0;
      }
    }
    reloaded.RestoreSession(parse);
  }
}
