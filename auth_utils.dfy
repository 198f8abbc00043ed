/**
 * `src/utils/authUtils.ts`: the 24-hour session-timestamp check, the mapping
 * of a `/session-info` response to a verification result, opening the login
 * popup, the cross-window `message` listener and clearing stored credentials.
 * Network responses are inputs: a parsed body, a non-ok status, or a thrown
 * error (transport failure or unparsable body).
 */
module AuthUtils {
  import opened Wrappers
  import opened Strings
  import opened Env

  const ApiBaseUrl := "https://moodtunes-end.onrender.com"

  /** 24 hours in milliseconds. */
  const SessionTimeout: int := 24 * 60 * 60 * 1000

  const UserIdKey := "userId"
  const SessionTimestampKey := "sessionTimestamp"
  const AuthInProgressKey := "authInProgress"

  /**
   * `isSessionValid(timestamp)` at clock reading `now` (`new Date().getTime()`).
   * `parseInt` yielding `NaN` makes the comparison false.
   */
  function IsSessionValid(timestamp: Option<string>, now: int): (r: bool)
    ensures r ==> Truthy(timestamp) && ParseInt(timestamp.value).Some?
  {
    if !Truthy(timestamp) then false
    else
      match ParseInt(timestamp.value)
      case None => false
      case Some(sessionTime) => now - sessionTime < SessionTimeout
  }

  /** A stored decimal timestamp `t` is valid exactly while less than 24 hours have passed. */
  lemma SessionValidWindow(t: nat, now: int)
    ensures IsSessionValid(Some(Decimal(t)), now) <==> now - t < SessionTimeout
  {
    ParseDecimal(t);
  }

  /** The comparison is strict: a session exactly 24 hours old is no longer valid. */
  lemma SessionExpiresAtExactlyOneDay(t: nat)
    ensures !IsSessionValid(Some(Decimal(t)), t + SessionTimeout)
    ensures IsSessionValid(Some(Decimal(t)), t + SessionTimeout - 1)
  {
    SessionValidWindow(t, t + SessionTimeout);
    SessionValidWindow(t, t + SessionTimeout - 1);
  }

  /** A timestamp with no digits after optional white space and sign parses to `NaN` and is invalid. */
  lemma NonNumericTimestampInvalid(ts: string, now: int)
    requires DigitPrefix(DropSign(TrimStart(ts))) == ""
    ensures !IsSessionValid(Some(ts), now)
  {
  }

  /** The `/session-info` call as seen by `verifySession`. */
  datatype SessionInfoResponse =
    | SessionInfo(authenticated: bool, userId: Option<string>)
    | SessionInfoNotOk(status: int)
    | SessionInfoFailed

  datatype VerifyResult = VerifyResult(authenticated: bool, userId: Option<string>)

  /** The value `verifySession()` resolves to. */
  function VerifySession(resp: SessionInfoResponse): (r: VerifyResult)
    ensures r.userId.Some? ==> r.authenticated
    ensures !resp.SessionInfo? ==> r == VerifyResult(false, None)
    ensures resp.SessionInfo? ==> r.authenticated == resp.authenticated
    ensures resp.SessionInfo? && resp.authenticated ==> r.userId == resp.userId
  {
    match resp
    case SessionInfo(authenticated, userId) =>
      VerifyResult(authenticated, if authenticated then userId else None)
    case SessionInfoNotOk(_) => VerifyResult(false, None)
    case SessionInfoFailed => VerifyResult(false, None)
  }

  /**
   * `openAuthPopup(authUrl)` given the window `window.open` handed back
   * (`null` when the browser blocked it): `null` unless a window that is not
   * already closed came back. The popup's size and centring are not modelled.
   */
  function OpenAuthPopup(win: Popup?): (r: Popup?)
    reads win
    ensures r != null ==> r == win && !r.closed
    ensures r == null <==> win == null || win.closed
  {
    if win == null || win.closed then null else win
  }

  /** `event.data` of a `message` event: absent/falsy, or an object with an optional `user_id`. */
  datatype MessageData = NoData | Payload(userId: Option<string>)

  /** What `handleAuthMessage` passes to the callback: `Some(id)` for a call `callback(id)`, `None` for no call. */
  function AuthMessageUserId(data: MessageData): (r: Option<string>)
    ensures r.Some? <==> data.Payload? && Truthy(data.userId)
    ensures r.Some? ==> r == data.userId
  {
    if data.Payload? && Truthy(data.userId) then data.userId else None
  }

  /** `setupAuthMessageListener(callback)`: the returned handle is what the clean-up function removes. */
  method SetupAuthMessageListener(env: Browser) returns (cleanup: nat)
    requires env.Valid()
    modifies env
    ensures env.Valid()
    ensures cleanup !in old(env.listeners) && env.listeners == old(env.listeners) + [cleanup]
    ensures env.Snapshot() == old(env.Snapshot()).(listeners := env.listeners, nextListener := env.nextListener)
  {
    cleanup := env.AddListener();
  }

  /** Calling the clean-up function returned by `setupAuthMessageListener`. */
  method CleanupAuthMessageListener(env: Browser, cleanup: nat)
    requires env.Valid()
    modifies env
    ensures env.Valid()
    ensures env.listeners == Without(old(env.listeners), cleanup)
    ensures env.Snapshot() == old(env.Snapshot()).(listeners := env.listeners)
  {
    env.RemoveListener(cleanup);
  }

  /** Set-up followed by its clean-up leaves the listener registry as it was. */
  method SetupThenCleanup(env: Browser)
    requires env.Valid()
    modifies env
    ensures env.Valid()
    ensures env.Snapshot() == old(env.Snapshot()).(nextListener := env.nextListener)
  {
    var cleanup := SetupAuthMessageListener(env);
    CleanupAuthMessageListener(env, cleanup);
    WithoutAdded(old(env.listeners), cleanup);
  }

  /** The stored keys `clearAuthData` removes from each storage area. */
  const LocalAuthKeys: set<string> := {UserIdKey, SessionTimestampKey}
  const SessionAuthKeys: set<string> := {AuthInProgressKey}

  /** `clearAuthData()`. */
  method ClearAuthData(env: Browser)
    modifies env
    ensures env.local == old(env.local) - LocalAuthKeys
    ensures env.session == old(env.session) - SessionAuthKeys
    ensures env.Snapshot() == old(env.Snapshot()).(local := env.local, session := env.session)
  {
    env.RemoveLocal(UserIdKey);
    env.RemoveLocal(SessionTimestampKey);
    env.RemoveSession(AuthInProgressKey);
    assert env.local == old(env.local) - {UserIdKey} - {SessionTimestampKey};
  }

  /** Calling `clearAuthData()` a second time changes nothing: the browser ends as after one call. */
  method ClearAuthDataTwice(env: Browser)
    modifies env
    ensures env.local == old(env.local) - LocalAuthKeys
    ensures env.session == old(env.session) - SessionAuthKeys
    ensures env.Snapshot() == old(env.Snapshot()).(local := env.local, session := env.session)
  {
    ClearAuthData(env);
    ghost var once := env.Snapshot();
    ClearAuthData(env);
    assert env.local == once.local - LocalAuthKeys == once.local;
    assert env.session == once.session - SessionAuthKeys == once.session;
  }
}
