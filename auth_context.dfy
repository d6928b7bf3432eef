/**
 * The session state of src/context/AuthContext.jsx: the signed-in `user`
 * (the login reply's body, or null), the `isLoading` and `splashLoading`
 * flags, and the `user` key of the secure store. Each asynchronous
 * operation is split into the call, which sends the request, and its
 * settlement, which applies the reply.
 */
module AuthContext {
  import opened Wrappers
  import Json
  import SecureStore

  /** The secure-store key holding the serialised session. */
  const UserKey: string := "user"

  /** The error body of a failed login: `e.response.data`. */
  datatype ErrorBody = ErrorBody(error: string)

  /**
   * How the login POST settles. It goes through plain axios, not the shared
   * instance: any 2xx reply resolves, anything else rejects, and a
   * rejection carries a response only when the server answered.
   */
  datatype LoginReply = Succeeded(data: Json.Object) | Failed(response: Option<ErrorBody>)

  /** What the login `.catch` handler leaves behind. */
  datatype CatchOutcome = CatchOutcome(toastShown: bool, detail: Option<string>, isLoading: bool, threw: bool)

  /**
   * The handler as written: it reads `e.response.data.error` while building
   * the toast. With no response (a network failure) that read throws, so
   * neither the toast nor `setIsLoading(false)` runs.
   */
  function LoginCatchAsWritten(response: Option<ErrorBody>): (c: CatchOutcome)
    ensures response.Some? ==> c == CatchOutcome(true, Some(response.value.error), false, false)
  {
    match response
    case None => CatchOutcome(false, None, true, true)
    case Some(b) => CatchOutcome(true, Some(b.error), false, false)
  }

  /** A login that fails without a response leaves the spinner on for good. */
  lemma NetworkFailureLeavesSpinnerOn()
    ensures LoginCatchAsWritten(None).isLoading && LoginCatchAsWritten(None).threw
    ensures !LoginCatchAsWritten(None).toastShown
  {
  }

  /** The handler as intended: the toast shows, with the server's message when there is one, and the spinner stops. */
  function LoginCatch(response: Option<ErrorBody>): (c: CatchOutcome)
    ensures c.toastShown && !c.isLoading && !c.threw
    ensures c.detail == if response.Some? then Some(response.value.error) else None
    ensures response.Some? ==> c == LoginCatchAsWritten(response)
  {
    match response
    case None => CatchOutcome(true, None, false, false)
    case Some(b) => CatchOutcome(true, Some(b.error), false, false)
  }

  /** The session phases the navigator distinguishes. */
  datatype Phase = Restoring | Authenticated | Unauthenticated

  class AuthProvider {
    var user: Option<Json.Object>
    var isLoading: bool
    var splashLoading: bool
    /** `expo-secure-store` is one store for the whole app, shared with other screens. */
    const store: SecureStore.Store

    /** The provider's initial state: no user, neither flag set. */
    constructor (store: SecureStore.Store)
      ensures user == None && !isLoading && !splashLoading
      ensures this.store == store
    {
      user := None;
      isLoading := false;
      splashLoading := false;
      this.store := store;
    }

    function PhaseOf(): Phase
      reads this
    {
      if splashLoading then Restoring else if user.Some? then Authenticated else Unauthenticated
    }

    /** `login(username, password)`: shows the spinner and posts the credentials. */
    method Login(username: string, password: string) returns (body: Json.Object)
      modifies this`isLoading
      ensures isLoading
      ensures body == [("username", username), ("password", password)]
    {
      isLoading := true;
      body := [("username", username), ("password", password)];
    }

    /**
     * The login request settles. Any resolved reply becomes the session and
     * is persisted, with no check of its content; a failure changes neither
     * the session nor the store and only shows a toast.
     */
    method LoginSettled(reply: LoginReply) returns (toast: Option<CatchOutcome>)
      modifies this`user, this`isLoading, store
      ensures !isLoading
      ensures reply.Succeeded? ==> user == Some(reply.data) && toast.None?
      ensures reply.Succeeded? ==> store.items == old(store.items)[UserKey := Json.Stringify(reply.data)]
      ensures reply.Failed? ==> user == old(user) && store.items == old(store.items)
      ensures reply.Failed? ==> toast == Some(LoginCatch(reply.response))
    {
      match reply {
        case Succeeded(data) =>
          user := Some(data);
          store.SetItem(UserKey, Json.Stringify(data));
          isLoading := false;
          toast := None;
        case Failed(response) =>
          var c := LoginCatch(response);
          toast := Some(c);
          isLoading := c.isLoading;
      }
    }

    /**
     * `logout()`: shows the spinner and posts with the session's bearer token.
     * It reads `user.access_token`, so it needs a session.
     */
    method Logout() returns (authorization: string)
      requires user.Some?
      modifies this`isLoading
      ensures isLoading
      ensures authorization == "Bearer " + Json.Get(user.value, "access_token").GetOr("undefined")
    {
      isLoading := true;
      authorization := "Bearer " + Json.Get(user.value, "access_token").GetOr("undefined");
    }

    /**
     * The logout request settles. Whether the server accepted it or not,
     * the stored session is deleted and the in-memory one cleared.
     */
    method LogoutSettled(serverAccepted: bool)
      modifies this`user, this`isLoading, store
      ensures !isLoading && user.None?
      ensures store.items == old(store.items) - {UserKey}
      ensures PhaseOf() == if splashLoading then Restoring else Unauthenticated
    {
      isLoading := false;
      store.DeleteItem(UserKey);
      user := None;
    }

    /** `isLoggedIn()` at start-up: shows the splash screen and reads the store. */
    method IsLoggedIn()
      modifies this`splashLoading
      ensures splashLoading && PhaseOf() == Restoring
    {
      splashLoading := true;
    }

    /**
     * The store read settles. A stored, non-empty value becomes the session
     * when it parses; an absent value, or one `JSON.parse` rejects (the catch
     * path), leaves the session as it was. The splash screen goes away on
     * every path.
     */
    method RestoreSettled()
      modifies this`user, this`splashLoading
      ensures !splashLoading
      ensures user == if UserKey in store.items && store.items[UserKey] != "" && Json.Parse(store.items[UserKey]).Some?
                      then Json.Parse(store.items[UserKey])
                      else old(user)
    {
      var stored := store.GetItem(UserKey);
      if stored.Some? && stored.value != "" {
        var parsed := Json.Parse(stored.value);
        if parsed.Some? {
          user := parsed;
        }
      }
      splashLoading := false;
    }
  }

  /** A session survives a restart: after a successful login, a new provider restores the same user. */
  method RestartAfterLogin(store: SecureStore.Store, username: string, password: string, data: Json.Object)
    returns (restored: Option<Json.Object>)
    modifies store
    ensures restored == Some(data)
    ensures store.items == old(store.items)[UserKey := Json.Stringify(data)]
  {
    var app := new AuthProvider(store);
    var _ := app.Login(username, password);
    var _ := app.LoginSettled(Succeeded(data));
    var restarted := new AuthProvider(store);
    restarted.IsLoggedIn();
    Json.ParseStringify(data);
    Json.StringifyNonEmpty(data);
    restarted.RestoreSettled();
    restored := restarted.user;
  }

  /** After a logout, a restart comes up signed out. */
  method RestartAfterLogout(app: AuthProvider) returns (restored: Option<Json.Object>)
    requires app.user.Some?
    modifies app, app.store
    ensures restored.None?
    ensures UserKey !in app.store.items
  {
    var _ := app.Logout();
    app.LogoutSettled(false);
    var restarted := new AuthProvider(app.store);
    restarted.IsLoggedIn();
    restarted.RestoreSettled();
    restored := restarted.user;
  }
}
