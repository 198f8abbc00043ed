/**
 * `src/pages/Chat.tsx`: the chat page's input field, its submit handler, the
 * disabled state of the form controls, and the effect that moves to the
 * result page once the chat is finished.
 */
module ChatPage {
  import opened Wrappers
  import opened Strings
  import opened Env
  import ChatContext

  /** The submit gate: something other than white space typed, and no request in flight. */
  predicate CanSubmit(input: string, isLoading: bool) {
    Trim(input) != "" && !isLoading
  }

  datatype FormControls = FormControls(inputDisabled: bool, submitDisabled: bool)

  /** The `disabled` attributes of the input field and of the submit button. */
  function Controls(input: string, isLoading: bool): (r: FormControls)
    ensures r.inputDisabled <==> isLoading
    ensures r.submitDisabled <==> !CanSubmit(input, isLoading)
    ensures r.submitDisabled <==> isLoading || forall i :: 0 <= i < |input| ==> IsJsSpace(input[i])
  {
    FormControls(isLoading, Trim(input) == "" || isLoading)
  }

  class ChatPageState {
    const chat: ChatContext.ChatProvider
    var input: string

    constructor (chat: ChatContext.ChatProvider)
      ensures this.chat == chat && input == ""
    {
      this.chat := chat;
      input := "";
    }

    /** `onChange` of the input field. */
    method SetInput(value: string)
      modifies this
      ensures input == value
    {
      input := value;
    }

    /**
     * `handleSubmit`: when the gate is open the untrimmed input is sent and the
     * field cleared; otherwise nothing happens. `userId` comes from the
     * authentication context and is checked by `sendMessage` itself.
     */
    method HandleSubmit(userId: Option<string>) returns (sent: bool)
      modifies this, chat, chat.env
      ensures sent <==> CanSubmit(old(input), old(chat.isLoading))
      ensures sent ==> input == ""
      ensures sent && Truthy(userId) ==> chat.State() == ChatContext.AfterSendStart(old(chat.State()), old(input))
      ensures sent && Truthy(userId) ==> chat.env.toasts == old(chat.env.toasts)
      ensures sent && !Truthy(userId) ==> chat.State() == old(chat.State())
      ensures sent && !Truthy(userId) ==> chat.env.toasts == old(chat.env.toasts) + [ErrorToast("error.sessionExpired")]
      ensures !sent ==> input == old(input) && chat.State() == old(chat.State()) && chat.env.toasts == old(chat.env.toasts)
      ensures chat.env.Snapshot() == old(chat.env.Snapshot()).(toasts := chat.env.toasts)
    {
      sent := CanSubmit(input, chat.isLoading);
      if sent {
        var started := chat.BeginSend(input, userId);
        input := "";
      }
    }

    /**
     * Sends are one at a time: once a submission has started a request, a
     * second submission does nothing until that request completes.
     */
    method SubmitTwice(userId: Option<string>, second: string) returns (first: bool, again: bool)
      requires Truthy(userId)
      modifies this, chat, chat.env
      ensures first ==> !again
      ensures first ==> chat.messages == old(chat.messages) + [ChatContext.Message(ChatContext.User, old(input))]
      ensures chat.env.Snapshot() == old(chat.env.Snapshot()).(toasts := chat.env.toasts)
    {
      first := HandleSubmit(userId);
      SetInput(second);
      again := HandleSubmit(userId);
    }

    /** The effect on `isFinished`: navigate to the result page. */
    method FinishedEffect()
      modifies chat.env
      ensures chat.isFinished ==> chat.env.route == "/result"
      ensures !chat.isFinished ==> chat.env.route == old(chat.env.route)
      ensures chat.env.Snapshot() == old(chat.env.Snapshot()).(route := chat.env.route)
    {
      if chat.isFinished {
        chat.env.Navigate("/result");
      }
    }
  }
}
