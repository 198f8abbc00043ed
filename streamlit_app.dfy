/**
 * `app.py`: the Streamlit front end's session state and its handling of one
 * user message, including the playlist trigger after five user messages.
 *
 * The Spotify client object is only recorded as present. Creating the
 * playlist is an input: the URL `create_playlist` returned, or the message of
 * the exception raised on the way (by `analyze_mood`, which the shown
 * `GroqClient` does not define, or by the Spotify call).
 */
module StreamlitApp {
  import opened Wrappers
  import G = GroqClient

  datatype MessageRole = UserMessage | AssistantMessage

  /** An entry of `st.session_state.messages`. */
  datatype ChatMessage = ChatMessage(role: MessageRole, content: string)

  /** Outcome of the `try` block of `create_playlist`. */
  datatype PlaylistOutcome = Returned(url: Option<string>) | Failed(error: string)

  /** The user messages after which a playlist is created. */
  const PlaylistThreshold := 5

  const ErrorPrefix := "Erro ao criar playlist: "

  /** The assistant message announcing the playlist, around its URL. */
  const LinkHtmlBefore := "\n                    <div style=\"text-align: center;\">\n                        <h3 style=\"color: var(--verde-spotify);\">\U{1F389} Playlist criada com sucesso!</h3>\n                        <a href=\""
  const LinkHtmlAfter := "\" target=\"_blank\" class=\"botao-primario\" style=\"display: inline-block; margin-top: 10px;\">\n                            Ouvir no Spotify\n                        </a>\n                    </div>\n                    "

  function PlaylistLinkMessage(url: string): (m: ChatMessage)
    ensures m.role == AssistantMessage
    ensures |m.content| == |LinkHtmlBefore| + |url| + |LinkHtmlAfter|
    ensures m.content[..|LinkHtmlBefore|] == LinkHtmlBefore
    ensures m.content[|LinkHtmlBefore|..|m.content| - |LinkHtmlAfter|] == url
  {
    var c := LinkHtmlBefore + url + LinkHtmlAfter;
    assert c[..|LinkHtmlBefore|] == LinkHtmlBefore;
    assert c[|LinkHtmlBefore|..|c| - |LinkHtmlAfter|] == url;
    ChatMessage(AssistantMessage, c)
  }

  /** The two chat entries one message adds: the user's text, then the model's reply or the error text. */
  function Exchange(userInput: string, completion: G.Completion): (r: seq<ChatMessage>)
    ensures |r| == 2 && r[0] == ChatMessage(UserMessage, userInput) && r[1].role == AssistantMessage
    ensures completion.Completed? ==> r[1].content == completion.text
    ensures completion.Raised? ==> r[1].content == G.ErrorPrefix + completion.error
  {
    [ChatMessage(UserMessage, userInput), ChatMessage(AssistantMessage, G.ReplyText(completion))]
  }

  class SessionState {
    var groq: G.Client?
    var hasSpotify: bool
    /** `st.session_state.messages`, `None` before it is first set. */
    var messages: Option<seq<ChatMessage>>
    /** Texts shown with `st.error`. */
    var errors: seq<string>

    /** A fresh browser session: nothing is set yet. */
    constructor ()
      ensures groq == null && !hasSpotify && messages.None? && errors == []
    {
      groq, hasSpotify, messages, errors := null, false, None, [];
    }

    /** `init_session()`: each entry is created only when it is absent. */
    method InitSession()
      modifies this
      ensures old(groq) == null ==> groq != null && fresh(groq) && groq.conversation == [G.SystemTurn] && groq.Valid()
      ensures old(groq) != null ==> groq == old(groq)
      ensures hasSpotify
      ensures old(messages).None? ==> messages == Some([])
      ensures old(messages).Some? ==> messages == old(messages)
      ensures errors == old(errors)
    {
      if groq == null {
        groq := new G.Client();
      }
      hasSpotify := true;
      if messages.None? {
        messages := Some([]);
      }
    }

    /** `create_playlist()`. */
    method CreatePlaylist(outcome: PlaylistOutcome)
      requires groq != null && messages.Some?
      modifies this, groq
      ensures groq == old(groq) && messages.Some?
      ensures outcome.Returned? && Truthy(outcome.url) ==>
        messages.value == old(messages.value) + [PlaylistLinkMessage(outcome.url.value)]
        && groq.conversation == [G.SystemTurn] && errors == old(errors)
      ensures outcome.Returned? && !Truthy(outcome.url) ==>
        messages == old(messages) && groq.conversation == old(groq.conversation) && errors == old(errors)
      ensures outcome.Failed? ==>
        messages == old(messages) && groq.conversation == old(groq.conversation)
        && errors == old(errors) + [ErrorPrefix + outcome.error]
      ensures old(groq.Valid()) ==> groq.Valid()
    {
      match outcome {
        case Returned(url) =>
          if Truthy(url) {
            messages := Some(messages.value + [PlaylistLinkMessage(url.value)]);
            groq.ResetConversation();
          }
        case Failed(e) =>
          errors := errors + [ErrorPrefix + e];
      }
    }

    /**
     * `process_user_message(user_input)`: the user's message, then the reply
     * from the model, then the playlist step when the model has now seen at
     * least five user messages.
     */
    method ProcessUserMessage(userInput: string, completion: G.Completion, outcome: PlaylistOutcome)
      returns (created: bool)
      requires groq != null && messages.Some?
      modifies this, groq
      ensures groq == old(groq) && messages.Some?
      ensures created <==> old(groq.UserMessageCount()) + 1 >= PlaylistThreshold
      ensures var exchanged := old(messages.value) + Exchange(userInput, completion);
        (created && outcome.Returned? && Truthy(outcome.url) ==>
          messages.value == exchanged + [PlaylistLinkMessage(outcome.url.value)] && groq.conversation == [G.SystemTurn])
        && (!(created && outcome.Returned? && Truthy(outcome.url)) ==>
          messages.value == exchanged && groq.UserMessageCount() == old(groq.UserMessageCount()) + 1)
      ensures created && outcome.Failed? ==> errors == old(errors) + [ErrorPrefix + outcome.error]
      ensures !(created && outcome.Failed?) ==> errors == old(errors)
      ensures old(groq.Valid()) ==> groq.Valid()
    {
      ghost var count0 := groq.UserMessageCount();
      ghost var exchanged := messages.value + Exchange(userInput, completion);
      messages := Some(messages.value + [ChatMessage(UserMessage, userInput)]);
      var botResponse := groq.GenerateResponse(userInput, completion);
      messages := Some(messages.value + [ChatMessage(AssistantMessage, botResponse)]);
      assert messages.value == exchanged;
      created := groq.UserMessageCount() >= PlaylistThreshold;
      assert created <==> count0 + 1 >= PlaylistThreshold;
      if created {
        CreatePlaylist(outcome);
      }
    }
  }
}
