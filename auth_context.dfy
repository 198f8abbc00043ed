/**
 * `src/contexts/AuthContext.tsx`: the authentication provider's state
 * `{userId, isAuthenticated, isLoading}` together with the `userId` key of
 * `localStorage`, driven by `login`, `logout` and `checkSession`.
 *
 * `checkSession` is asynchronous: `BeginCheckSession` is what runs before
 * the `fetch` is awaited, `CompleteCheckSession` what runs once its outcome is
 * known. The outcome of `GET /session_user?user_id=<id>` is an input.
 */
module AuthContext {
  import opened Wrappers
  import opened Env

  const BackendUrl := "https://moodtunes-backend.onrender.com"
  const LoginUrl := BackendUrl + "/spotify/login"
  const UserIdKey := "userId"

  /** Outcome of the `/session_user` request: ok, a non-ok status, or a thrown error. */
  datatype SessionUserResponse = SessionUserOk | SessionUserNotOk(status: int) | SessionUserFailed

  /** The provider's state and the parts of the browser it writes. */
  datatype AuthState = AuthState(
    userId: Option<string>,
    isAuthenticated: bool,
    isLoading: bool,
    local: map<string, string>,
    route: string,
    toasts: seq<Toast>)

  /** Being authenticated implies a user identifier is held. */
  predicate Inv(s: AuthState) {
    s.isAuthenticated ==> s.userId.Some?
  }

  function StoredUserId(local: map<string, string>): Option<string> {
    if UserIdKey in local then Some(local[UserIdKey]) else None
  }

  /** The state right after mounting, from whatever `localStorage` holds. */
  function Initial(local: map<string, string>, route: string, toasts: seq<Toast>): AuthState {
    var stored := StoredUserId(local);
    AuthState(stored, Truthy(stored), false, local, route, toasts)
  }

  function AfterLogout(s: AuthState): AuthState {
    s.(userId := None, isAuthenticated := false, local := s.local - {UserIdKey}, route := "/")
  }

  function AfterCheckStart(s: AuthState): AuthState {
    s.(isLoading := true)
  }

  /** The state after `checkSession(id)` settles, and the value it resolves to. */
  function AfterCheckComplete(s: AuthState, id: string, resp: SessionUserResponse): (AuthState, bool) {
    match resp
    case SessionUserOk =>
      (s.(userId := Some(id), isAuthenticated := true, local := s.local[UserIdKey := id], isLoading := false), true)
    case SessionUserNotOk(_) =>
      (AfterLogout(s.(toasts := s.toasts + [ErrorToast("error.sessionExpired")])).(isLoading := false), false)
    case SessionUserFailed =>
      (s.(toasts := s.toasts + [ErrorToast("error.connectionFailed")], isLoading := false), false)
  }

  // ---------------------------------------------------------------------------
  // Properties of the transitions

  /** Initially `isAuthenticated` is the truthiness of the stored identifier, and the invariant holds. */
  lemma InitialState(local: map<string, string>, route: string, toasts: seq<Toast>)
    ensures Inv(Initial(local, route, toasts))
    ensures Initial(local, route, toasts).isAuthenticated <==> UserIdKey in local && local[UserIdKey] != ""
    ensures Initial(local, route, toasts).userId == StoredUserId(local)
  {
  }

  /** Logging out twice is logging out once; only the `userId` key leaves storage. */
  lemma LogoutIdempotent(s: AuthState)
    ensures AfterLogout(AfterLogout(s)) == AfterLogout(s)
    ensures forall k :: k in s.local && k != UserIdKey ==> k in AfterLogout(s).local && AfterLogout(s).local[k] == s.local[k]
    ensures UserIdKey !in AfterLogout(s).local
    ensures AfterLogout(s).isLoading == s.isLoading
  {
  }

  /** Every transition keeps the invariant. */
  lemma TransitionsKeepInv(s: AuthState, id: string, resp: SessionUserResponse)
    requires Inv(s)
    ensures Inv(AfterLogout(s)) && Inv(AfterCheckStart(s)) && Inv(AfterCheckComplete(s, id, resp).0)
  {
  }

  /**
   * The three outcomes of `checkSession`: ok stores and adopts `id` and resolves
   * true; a non-ok status is a logout plus a session-expired toast; a thrown
   * error adds a connection toast and touches neither the user nor storage.
   * Loading is over in every case.
   */
  lemma CheckSessionOutcomes(s: AuthState, id: string, resp: SessionUserResponse)
    ensures !AfterCheckComplete(s, id, resp).0.isLoading
    ensures AfterCheckComplete(s, id, resp).1 <==> resp.SessionUserOk?
    ensures resp.SessionUserOk? ==> var t := AfterCheckComplete(s, id, resp).0;
      t.userId == Some(id) && t.isAuthenticated && StoredUserId(t.local) == Some(id) && t.toasts == s.toasts
    ensures resp.SessionUserNotOk? ==> var t := AfterCheckComplete(s, id, resp).0;
      t.userId.None? && !t.isAuthenticated && t.local == s.local - {UserIdKey} && t.route == "/"
      && t.toasts == s.toasts + [ErrorToast("error.sessionExpired")]
    ensures resp.SessionUserFailed? ==> var t := AfterCheckComplete(s, id, resp).0;
      t.userId == s.userId && t.isAuthenticated == s.isAuthenticated && t.local == s.local
      && t.route == s.route && t.toasts == s.toasts + [ErrorToast("error.connectionFailed")]
  {
  }

  class AuthProvider {
    const env: Browser
    var userId: Option<string>
    var isAuthenticated: bool
    var isLoading: bool

    ghost function State(): AuthState
      reads this, env
    {
      AuthState(userId, isAuthenticated, isLoading, env.local, env.route, env.toasts)
    }

    ghost predicate Valid()
      reads this, env
    {
      Inv(State())
    }

    /** Mounting the provider: state is initialised from `localStorage`. */
    constructor (env: Browser)
      ensures this.env == env
      ensures State() == Initial(env.local, env.route, env.toasts)
      ensures Valid()
    {
      this.env := env;
      var stored := env.GetLocal(UserIdKey);
      userId := stored;
      isAuthenticated := Truthy(stored);
      isLoading := false;
    }

    /** `login()`: a full-page redirect to the back end's Spotify login. */
    method Login()
      modifies env
      ensures env.href == LoginUrl
      ensures State() == old(State())
      ensures env.session == old(env.session) && env.alerts == old(env.alerts)
      ensures env.listeners == old(env.listeners) && env.nextListener == old(env.nextListener)
    {
      env.Assign(LoginUrl);
    }

    /** `logout()`. */
    method Logout()
      modifies this, env
      ensures State() == AfterLogout(old(State()))
      ensures Valid()
      ensures env.session == old(env.session) && env.href == old(env.href) && env.alerts == old(env.alerts)
      ensures env.listeners == old(env.listeners) && env.nextListener == old(env.nextListener)
    {
      env.RemoveLocal(UserIdKey);
      userId := None;
      isAuthenticated := false;
      env.Navigate("/");
    }

    /** `checkSession(id)` up to the awaited `fetch`. */
    method BeginCheckSession()
      modifies this
      ensures State() == AfterCheckStart(old(State()))
      ensures old(Valid()) ==> Valid()
    {
      isLoading := true;
    }

    /** `checkSession(id)` from the settled `fetch` through its `finally`. */
    method CompleteCheckSession(id: string, resp: SessionUserResponse) returns (ok: bool)
      modifies this, env
      ensures (State(), ok) == AfterCheckComplete(old(State()), id, resp)
      ensures old(Valid()) ==> Valid()
      ensures env.session == old(env.session) && env.href == old(env.href) && env.alerts == old(env.alerts)
      ensures env.listeners == old(env.listeners) && env.nextListener == old(env.nextListener)
    {
      match resp {
        case SessionUserOk =>
          env.SetLocal(UserIdKey, id);
          userId := Some(id);
          isAuthenticated := true;
          ok := true;
        case SessionUserNotOk(_) =>
          env.ShowToast(ErrorToast("error.sessionExpired"));
          Logout();
          ok := false;
        case SessionUserFailed =>
          env.ShowToast(ErrorToast("error.connectionFailed"));
          ok := false;
      }
      isLoading := false;
    }
  }
}
