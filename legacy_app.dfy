/**
 * `src/App.js`: the older single-component front end. It keeps `{message,
 * chat, playlist, showPreview, isAuthenticated}` in component state, a user
 * identifier in `localStorage`, and talks to `REACT_APP_API_URL` (the
 * parameter `apiUrl`).
 *
 * `checkAuth` and `sendMessage` are asynchronous and split at their `await`.
 * `Date.now()` is the parameter `now`. The five-minute `checkAuth` interval
 * is a repetition of `CompleteCheckAuth` and is not otherwise modelled.
 */
module LegacyApp {
  import opened Wrappers
  import opened Strings
  import opened Env

  datatype Role = UserRole | BotRole

  /** A chat entry `{role, text}`. */
  datatype Entry = Entry(role: Role, text: string)

  /** Outcome of `GET /check`: the reported flag, or a thrown error. */
  datatype CheckResponse = CheckOk(isAuthenticated: bool) | CheckFailed

  /**
   * Outcome of `POST /chat`: the body's `action` with its payload, an error
   * response with its status, or an error without a response.
   */
  datatype ChatResponse =
    | ContinueChat(response: string)
    | PlaylistCreated(playlist: Option<string>)
    | OtherAction
    | ErrorStatus(status: int)
    | NoResponse

  const UserIdKey := "userId"
  const SessionExpiredAlert := "Sua sessão expirou. Por favor, faça login novamente."
  const LoggedOutAlert := "Você foi desconectado."

  /** The identifier computed on each render: the stored one if truthy, else `user_<now>`. */
  function EffectiveUserId(stored: Option<string>, now: nat): (r: string)
    ensures r != ""
    ensures Truthy(stored) ==> r == stored.value
    ensures !Truthy(stored) ==> r == "user_" + Decimal(now)
  {
    if Truthy(stored) then stored.value else "user_" + Decimal(now)
  }

  /** Once stored by the mount effect, the identifier no longer depends on the clock. */
  lemma UserIdStable(stored: Option<string>, now1: nat, now2: nat)
    ensures EffectiveUserId(Some(EffectiveUserId(stored, now1)), now2) == EffectiveUserId(stored, now1)
  {
  }

  class App {
    const env: Browser
    const apiUrl: string
    var message: string
    var chat: seq<Entry>
    /** The playlist object last received; its fields are not modelled. */
    var playlist: Option<string>
    var showPreview: bool
    var isAuthenticated: bool

    constructor (env: Browser, apiUrl: string)
      ensures this.env == env && this.apiUrl == apiUrl
      ensures message == "" && chat == [] && playlist.None? && !showPreview && !isAuthenticated
    {
      this.env, this.apiUrl := env, apiUrl;
      message, chat, playlist, showPreview, isAuthenticated := "", [], None, false, false;
    }

    /** The mount effect after `checkAuth()` has been started: the identifier is stored. */
    method Mount(now: nat)
      modifies env
      ensures env.local == old(env.local)[UserIdKey := EffectiveUserId(old(env.GetLocal(UserIdKey)), now)]
      ensures env.Snapshot() == old(env.Snapshot()).(local := env.local)
    {
      var userId := EffectiveUserId(env.GetLocal(UserIdKey), now);
      env.SetLocal(UserIdKey, userId);
    }

    /** `checkAuth()` once `GET /check` has settled. */
    method CompleteCheckAuth(resp: CheckResponse)
      modifies this
      ensures isAuthenticated <==> resp.CheckOk? && resp.isAuthenticated
      ensures message == old(message) && chat == old(chat) && playlist == old(playlist) && showPreview == old(showPreview)
    {
      isAuthenticated := resp.CheckOk? && resp.isAuthenticated;
    }

    /**
     * `sendMessage()` up to the `await`: with a non-blank message the user's
     * entry is shown at once; `pending` is the list the handler keeps.
     */
    method BeginSend() returns (pending: Option<seq<Entry>>)
      modifies this
      ensures Trim(old(message)) == "" <==> pending.None?
      ensures pending.None? ==> chat == old(chat)
      ensures pending.Some? ==> pending.value == old(chat) + [Entry(UserRole, old(message))] && chat == pending.value
      ensures message == old(message) && playlist == old(playlist) && showPreview == old(showPreview)
      ensures isAuthenticated == old(isAuthenticated)
    {
      if Trim(message) == "" {
        return None;
      }
      var newChat := chat + [Entry(UserRole, message)];
      chat := newChat;
      pending := Some(newChat);
    }

    /**
     * `sendMessage()` once `POST /chat` has settled. The reply is appended to
     * the handler's own `pending` list, not to the current `chat`.
     */
    method CompleteSend(pending: seq<Entry>, resp: ChatResponse)
      modifies this, env
      ensures resp.ContinueChat? ==> chat == pending + [Entry(BotRole, resp.response)]
      ensures !resp.ContinueChat? ==> chat == old(chat)
      ensures resp.PlaylistCreated? ==> playlist == resp.playlist && showPreview
      ensures !resp.PlaylistCreated? ==> playlist == old(playlist) && showPreview == old(showPreview)
      ensures resp.ContinueChat? || resp.PlaylistCreated? || resp.OtherAction? ==> message == ""
      ensures resp.ErrorStatus? || resp.NoResponse? ==> message == old(message)
      ensures resp == ErrorStatus(401) ==>
        !isAuthenticated && env.alerts == old(env.alerts) + [SessionExpiredAlert] && env.href == apiUrl + "/auth"
      ensures resp != ErrorStatus(401) ==>
        isAuthenticated == old(isAuthenticated) && env.alerts == old(env.alerts) && env.href == old(env.href)
      ensures env.Snapshot() == old(env.Snapshot()).(href := env.href, alerts := env.alerts)
    {
      match resp {
        case ContinueChat(response) =>
          chat := pending + [Entry(BotRole, response)];
          message := "";
        case PlaylistCreated(p) =>
          playlist := p;
          showPreview := true;
          message := "";
        case OtherAction =>
          message := "";
        case ErrorStatus(status) =>
          if status == 401 {
            isAuthenticated := false;
            env.Alert(SessionExpiredAlert);
            LoginWithSpotify();
          }
        case NoResponse =>
      }
    }

    /** `loginWithSpotify()`. */
    method LoginWithSpotify()
      modifies env
      ensures env.href == apiUrl + "/auth"
      ensures env.Snapshot() == old(env.Snapshot()).(href := env.href)
    {
      env.Assign(apiUrl + "/auth");
    }

    /** `logout()`. */
    method Logout()
      modifies this, env
      ensures env.local == old(env.local) - {UserIdKey}
      ensures !isAuthenticated && chat == [] && playlist.None? && !showPreview && message == old(message)
      ensures env.alerts == old(env.alerts) + [LoggedOutAlert]
      ensures env.Snapshot() == old(env.Snapshot()).(local := env.local, alerts := env.alerts)
    {
      env.RemoveLocal(UserIdKey);
      isAuthenticated := false;
      chat := [];
      playlist := None;
      showPreview := false;
      env.Alert(LoggedOutAlert);
    }

    /**
     * A reply that arrives after a logout brings the conversation back: the
     * handler writes its `pending` list over the emptied `chat`.
     */
    method LogoutDuringSend(reply: string) returns (pending: Option<seq<Entry>>)
      requires Trim(message) != ""
      modifies this, env
      ensures pending.Some? && chat == pending.value + [Entry(BotRole, reply)] && |chat| == |old(chat)| + 2
      ensures env.Snapshot() == old(env.Snapshot()).(local := env.local, href := env.href, alerts := env.alerts)
    {
      pending := BeginSend();
      Logout();
      CompleteSend(pending.value, ContinueChat(reply));
    }
  }
}
