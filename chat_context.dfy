/**
 * `src/contexts/ChatContext.tsx`: the chat provider's state `{messages,
 * isLoading, isFinished, mood, playlistUrl}` and its three operations.
 *
 * `sendMessage` and `loadMoodResult` are asynchronous; each is split into
 * the part that runs before the `fetch` is awaited (`BeginSend`, `BeginLoad`)
 * and the part that runs once its outcome is known (`CompleteSend`,
 * `CompleteLoad`). A non-ok status and a thrown error both end in the same
 * `catch`. The outcomes of `POST /moodtalk` and `GET /moodresult` are inputs.
 */
module ChatContext {
  import opened Wrappers
  import opened Env

  datatype Role = User | Assistant

  datatype Message = Message(role: Role, content: string)

  /** Outcome of `POST /moodtalk`: the parsed body, a non-ok status, or a thrown error. */
  datatype MoodTalkResponse =
    | MoodTalkOk(resposta: string, playlistUrl: Option<string>, mood: Option<string>)
    | MoodTalkNotOk(status: int)
    | MoodTalkFailed

  /** Outcome of `GET /moodresult`. */
  datatype MoodResultResponse =
    | MoodResultOk(mood: Option<string>, playlistUrl: Option<string>)
    | MoodResultNotOk(status: int)
    | MoodResultFailed

  datatype ChatState = ChatState(
    messages: seq<Message>,
    isLoading: bool,
    isFinished: bool,
    mood: Option<string>,
    playlistUrl: Option<string>)

  const InitialChat := ChatState([], false, false, None, None)

  function AfterSendStart(s: ChatState, content: string): ChatState {
    s.(messages := s.messages + [Message(User, content)], isLoading := true)
  }

  function AfterSendComplete(s: ChatState, resp: MoodTalkResponse): ChatState {
    match resp
    case MoodTalkOk(resposta, url, mood) =>
      var t := s.(messages := s.messages + [Message(Assistant, resposta)]);
      (if Truthy(url) then t.(isFinished := true, mood := if Truthy(mood) then mood else None, playlistUrl := url)
       else t).(isLoading := false)
    case _ => s.(isLoading := false)
  }

  function AfterLoadStart(s: ChatState): ChatState {
    s.(isLoading := true)
  }

  function AfterLoadComplete(s: ChatState, resp: MoodResultResponse): ChatState {
    match resp
    case MoodResultOk(mood, url) => s.(mood := mood, playlistUrl := url, isLoading := false)
    case _ => s.(isLoading := false)
  }

  function AfterReset(s: ChatState): ChatState {
    s.(messages := [], isFinished := false, mood := None, playlistUrl := None)
  }

  // ---------------------------------------------------------------------------
  // Properties of the transitions

  /** A send that completes normally adds the user's message and then the assistant's reply, nothing else. */
  lemma SendAppendsUserThenAssistant(s: ChatState, content: string, resposta: string, url: Option<string>, mood: Option<string>)
    ensures AfterSendComplete(AfterSendStart(s, content), MoodTalkOk(resposta, url, mood)).messages
            == s.messages + [Message(User, content), Message(Assistant, resposta)]
  {
  }

  /** A failed send keeps the user's message, adds no reply and leaves the result fields alone. */
  lemma FailedSendKeepsUserMessage(s: ChatState, content: string, resp: MoodTalkResponse)
    requires !resp.MoodTalkOk?
    ensures var t := AfterSendComplete(AfterSendStart(s, content), resp);
      t.messages == s.messages + [Message(User, content)]
      && t.isFinished == s.isFinished && t.mood == s.mood && t.playlistUrl == s.playlistUrl
  {
  }

  /**
   * A reply carrying a truthy playlist URL finishes the chat with that URL and
   * the mood when it is truthy (`null` otherwise); without one the result
   * fields are unchanged.
   */
  lemma ReplyFinishesOnPlaylist(s: ChatState, resposta: string, url: Option<string>, mood: Option<string>)
    ensures var t := AfterSendComplete(s, MoodTalkOk(resposta, url, mood));
      (Truthy(url) ==> t.isFinished && t.playlistUrl == url && t.mood == (if Truthy(mood) then mood else None))
      && (!Truthy(url) ==> t.isFinished == s.isFinished && t.mood == s.mood && t.playlistUrl == s.playlistUrl)
  {
  }

  /** Loading is over after every completion, and started by every begin. */
  lemma LoadingSettles(s: ChatState, content: string, talk: MoodTalkResponse, result: MoodResultResponse)
    ensures AfterSendStart(s, content).isLoading && AfterLoadStart(s).isLoading
    ensures !AfterSendComplete(s, talk).isLoading && !AfterLoadComplete(s, result).isLoading
  {
  }

  /** `loadMoodResult` writes only `mood` and `playlistUrl` (and `isLoading`). */
  lemma LoadTouchesOnlyResult(s: ChatState, resp: MoodResultResponse)
    ensures AfterLoadComplete(s, resp).messages == s.messages
    ensures AfterLoadComplete(s, resp).isFinished == s.isFinished
    ensures resp.MoodResultOk? ==> AfterLoadComplete(s, resp).mood == resp.mood
                                   && AfterLoadComplete(s, resp).playlistUrl == resp.playlistUrl
    ensures !resp.MoodResultOk? ==> AfterLoadComplete(s, resp) == s.(isLoading := false)
  {
  }

  /** Resetting gives the empty, unfinished chat, leaves `isLoading` alone and is idempotent. */
  lemma ResetIdempotent(s: ChatState)
    ensures AfterReset(AfterReset(s)) == AfterReset(s)
    ensures AfterReset(s) == InitialChat.(isLoading := s.isLoading)
  {
  }

  /** Every operation but reset only appends to the message list. */
  lemma MessagesAppendOnly(s: ChatState, content: string, talk: MoodTalkResponse, result: MoodResultResponse)
    ensures s.messages <= AfterSendStart(s, content).messages
    ensures s.messages <= AfterSendComplete(s, talk).messages
    ensures s.messages == AfterLoadStart(s).messages == AfterLoadComplete(s, result).messages
  {
  }

  /** A finished chat holding a playlist URL: kept by sending and by resetting. */
  predicate FinishedHasPlaylist(s: ChatState) {
    s.isFinished ==> Truthy(s.playlistUrl)
  }

  lemma SendKeepsFinishedHasPlaylist(s: ChatState, content: string, resp: MoodTalkResponse)
    requires FinishedHasPlaylist(s)
    ensures FinishedHasPlaylist(AfterSendStart(s, content))
    ensures FinishedHasPlaylist(AfterSendComplete(s, resp))
    ensures FinishedHasPlaylist(AfterReset(s))
  {
  }

  /** A finished chat need not have a mood: a reply with a playlist URL and no mood finishes it with `mood == null`. */
  lemma FinishedWithoutMood()
    ensures var t := AfterSendComplete(InitialChat, MoodTalkOk("", Some("u"), None));
      t.isFinished && t.mood.None?
  {
  }

  /** `loadMoodResult` can break the property: a result without a playlist URL leaves a finished chat without one. */
  lemma LoadBreaksFinishedHasPlaylist()
    ensures var s := ChatState([], false, true, Some("happy"), Some("u"));
      FinishedHasPlaylist(s) && !FinishedHasPlaylist(AfterLoadComplete(s, MoodResultOk(Some("happy"), None)))
  {
  }

  class ChatProvider {
    const env: Browser
    var messages: seq<Message>
    var isLoading: bool
    var isFinished: bool
    var mood: Option<string>
    var playlistUrl: Option<string>

    ghost function State(): ChatState
      reads this
    {
      ChatState(messages, isLoading, isFinished, mood, playlistUrl)
    }

    constructor (env: Browser)
      ensures this.env == env && State() == InitialChat
    {
      this.env := env;
      messages, isLoading, isFinished, mood, playlistUrl := [], false, false, None, None;
    }

    /**
     * `sendMessage(content)` up to the awaited `fetch`, with `userId` taken from
     * the authentication context. Without a user there is only a toast.
     */
    method BeginSend(content: string, userId: Option<string>) returns (started: bool)
      modifies this, env
      ensures started <==> Truthy(userId)
      ensures started ==> State() == AfterSendStart(old(State()), content) && env.toasts == old(env.toasts)
      ensures !started ==> State() == old(State()) && env.toasts == old(env.toasts) + [ErrorToast("error.sessionExpired")]
      ensures env.Snapshot() == old(env.Snapshot()).(toasts := env.toasts)
    {
      if !Truthy(userId) {
        env.ShowToast(ErrorToast("error.sessionExpired"));
        return false;
      }
      messages := messages + [Message(User, content)];
      isLoading := true;
      started := true;
    }

    /** `sendMessage` from the settled request through its `finally`. */
    method CompleteSend(resp: MoodTalkResponse)
      modifies this, env
      ensures State() == AfterSendComplete(old(State()), resp)
      ensures resp.MoodTalkOk? ==> env.toasts == old(env.toasts)
      ensures !resp.MoodTalkOk? ==> env.toasts == old(env.toasts) + [ErrorToast("error.connectionFailed")]
      ensures env.Snapshot() == old(env.Snapshot()).(toasts := env.toasts)
    {
      match resp {
        case MoodTalkOk(resposta, url, m) =>
          messages := messages + [Message(Assistant, resposta)];
          if Truthy(url) {
            isFinished := true;
            mood := if Truthy(m) then m else None;
            playlistUrl := url;
          }
        case _ =>
          env.ShowToast(ErrorToast("error.connectionFailed"));
      }
      isLoading := false;
    }

    /** `loadMoodResult(userId)` up to the awaited `fetch`. */
    method BeginLoad()
      modifies this
      ensures State() == AfterLoadStart(old(State()))
    {
      isLoading := true;
    }

    method CompleteLoad(resp: MoodResultResponse)
      modifies this, env
      ensures State() == AfterLoadComplete(old(State()), resp)
      ensures resp.MoodResultOk? ==> env.toasts == old(env.toasts)
      ensures !resp.MoodResultOk? ==> env.toasts == old(env.toasts) + [ErrorToast("error.connectionFailed")]
      ensures env.Snapshot() == old(env.Snapshot()).(toasts := env.toasts)
    {
      match resp {
        case MoodResultOk(m, url) =>
          mood := m;
          playlistUrl := url;
        case _ =>
          env.ShowToast(ErrorToast("error.connectionFailed"));
      }
      isLoading := false;
    }

    /** `resetChat()`. */
    method ResetChat()
      modifies this
      ensures State() == AfterReset(old(State()))
    {
      messages := [];
      isFinished := false;
      mood := None;
      playlistUrl := None;
    }
  }
}
