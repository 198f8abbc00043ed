/**
 * `groq_client.py`: the conversation the back end keeps with the language
 * model. The completion call is an input: the text it returned, or the
 * message of the exception it raised.
 */
module GroqClient {

  datatype Role = System | User | Assistant

  /** An entry `{"role": ..., "content": ...}` of `self.conversation`. */
  datatype Turn = Turn(role: Role, content: string)

  const Model := "llama3-70b-8192"

  const SystemPrompt :=
    "Voc\U{00EA} \U{00E9} o MoodTunes, um assistente musical especializado em criar playlists no Spotify. "
    + "Regras importantes:\n"
    + "1. Seja natural, amig\U{00E1}vel e use emojis musicais (\U{1F3B5}, \U{1F3B6}, \U{1F3A7})\n"
    + "2. Mantenha respostas curtas (1-2 frases)\n"
    + "3. Fa\U{00E7}a perguntas para entender o humor e prefer\U{00EA}ncias\n"
    + "4. Na 5a intera\U{00E7}\U{00E3}o, sugira criar a playlist"

  const SystemTurn := Turn(System, SystemPrompt)

  /** Prefix of the reply returned when the completion call raises. */
  const ErrorPrefix := "\U{1F3B5} Ops! Tive um problema: "

  /** What `client.chat.completions.create(...)` did. */
  datatype Completion = Completed(text: string) | Raised(error: string)

  /** What `generate_response` returns for the completion's outcome. */
  function ReplyText(completion: Completion): string {
    match completion
    case Completed(text) => text
    case Raised(e) => ErrorPrefix + e
  }

  /** `len([m for m in conversation if m["role"] == "user"])`. */
  function UserCount(turns: seq<Turn>): (r: nat)
    ensures r <= |turns|
  {
    if |turns| == 0 then 0
    else UserCount(turns[..|turns| - 1]) + (if turns[|turns| - 1].role == User then 1 else 0)
  }

  /** The positions holding a user turn: an independent statement of what is counted. */
  function UserPositions(turns: seq<Turn>): set<nat> {
    set i: nat | i < |turns| && turns[i].role == User
  }

  lemma {:induction false} UserCountIsPositions(turns: seq<Turn>)
    ensures UserCount(turns) == |UserPositions(turns)|
  {
    if |turns| > 0 {
      var n := |turns| - 1;
      var init := turns[..n];
      UserCountIsPositions(init);
      assert forall i: nat :: i < n ==> init[i] == turns[i];
      if turns[n].role == User {
        assert UserPositions(turns) == UserPositions(init) + {n};
      } else {
        assert UserPositions(turns) == UserPositions(init);
      }
    }
  }

  lemma {:induction false} UserCountAppend(a: seq<Turn>, b: seq<Turn>)
    ensures UserCount(a + b) == UserCount(a) + UserCount(b)
    decreases |b|
  {
    if |b| == 0 {
      assert a + b == a;
    } else {
      var n := |b| - 1;
      assert (a + b)[..|a + b| - 1] == a + b[..n];
      UserCountAppend(a, b[..n]);
    }
  }

  /** The system prompt comes first and never again. */
  predicate StartsWithSystem(conversation: seq<Turn>) {
    |conversation| >= 1 && conversation[0] == SystemTurn
    && forall i :: 1 <= i < |conversation| ==> conversation[i].role != System
  }

  /** The system prompt is never counted. */
  lemma SystemNotCounted(conversation: seq<Turn>)
    requires |conversation| >= 1 && conversation[0].role == System
    ensures UserCount(conversation) == UserCount(conversation[1..])
    ensures UserCount(conversation) <= |conversation| - 1
  {
    assert conversation == [conversation[0]] + conversation[1..];
    UserCountAppend([conversation[0]], conversation[1..]);
    assert UserCount([conversation[0]]) == 0 by {
      assert [conversation[0]][..0] == [];
    }
  }

  class Client {
    var conversation: seq<Turn>

    ghost predicate Valid()
      reads this
    {
      StartsWithSystem(conversation)
    }

    /** `GroqClient()`: the constructor resets the conversation. */
    constructor ()
      ensures conversation == [SystemTurn] && Valid()
      ensures UserMessageCount() == 0
    {
      conversation := [SystemTurn];
    }

    /** `reset_conversation()`. */
    method ResetConversation()
      modifies this
      ensures conversation == [SystemTurn] && Valid()
      ensures UserMessageCount() == 0
    {
      conversation := [SystemTurn];
    }

    /** `generate_response(user_message)`: the user turn is kept whether or not the call succeeds. */
    method GenerateResponse(userMessage: string, completion: Completion) returns (reply: string)
      modifies this
      ensures completion.Completed? ==>
        conversation == old(conversation) + [Turn(User, userMessage), Turn(Assistant, completion.text)]
        && reply == completion.text
      ensures completion.Raised? ==>
        conversation == old(conversation) + [Turn(User, userMessage)] && reply == ErrorPrefix + completion.error
      ensures reply == ReplyText(completion)
      ensures UserMessageCount() == old(UserMessageCount()) + 1
      ensures old(Valid()) ==> Valid()
    {
      conversation := conversation + [Turn(User, userMessage)];
      UserCountAppend(old(conversation), [Turn(User, userMessage)]);
      match completion {
        case Completed(text) =>
          UserCountAppend(conversation, [Turn(Assistant, text)]);
          conversation := conversation + [Turn(Assistant, text)];
          reply := text;
        case Raised(e) =>
          reply := ErrorPrefix + e;
      }
    }

    /** `get_user_message_count()`. */
    function UserMessageCount(): (r: nat)
      reads this
      ensures r == |UserPositions(conversation)|
    {
      UserCountIsPositions(conversation);
      UserCount(conversation)
    }
  }
}
