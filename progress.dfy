/**
 * `src/components/ChatProgressIndicator.tsx`: the progress line shown during
 * the chat, from the number of messages the user has sent. The five-message
 * target is the component's own constant.
 */
module Progress {
  import opened Wrappers
  import Language

  const Target := 5

  /** The translation key `getProgressText` looks up, and the count passed with it. */
  datatype ProgressText = CreatingPlaylist | OneMoreMessage | MessagesRemaining(count: int)

  function Key(p: ProgressText): string {
    match p
    case CreatingPlaylist => "chat.creatingPlaylist"
    case OneMoreMessage => "chat.oneMoreMessage"
    case MessagesRemaining(_) => "chat.messagesRemaining"
  }

  /** `getProgressText()` for `userMessageCount`. */
  function GetProgressText(userMessageCount: int): (r: ProgressText)
    ensures r == CreatingPlaylist <==> Target - userMessageCount <= 0
    ensures r == OneMoreMessage <==> Target - userMessageCount == 1
    ensures r.MessagesRemaining? ==> r.count == Target - userMessageCount && r.count >= 2
  {
    var remaining := Target - userMessageCount;
    if remaining <= 0 then CreatingPlaylist
    else if remaining == 1 then OneMoreMessage
    else MessagesRemaining(remaining)
  }

  /** The fill of the five bars: bar `i` is lit when `i < userMessageCount`. */
  function Bars(userMessageCount: int): (r: seq<bool>)
    ensures |r| == Target
    ensures forall i :: 0 <= i < Target ==> (r[i] <==> i < userMessageCount)
  {
    seq(Target, i => i < userMessageCount)
  }

  /** The number of lit bars is the message count, clamped to 0..5. */
  function Lit(bars: seq<bool>): nat {
    if |bars| == 0 then 0 else (if bars[|bars| - 1] then 1 else 0) + Lit(bars[..|bars| - 1])
  }

  lemma {:induction false} LitPrefix(n: nat, c: int)
    requires n <= Target
    ensures Lit(Bars(c)[..n]) == if c <= 0 then 0 else if c >= n then n else c
  {
    if n > 0 {
      assert Bars(c)[..n][..n - 1] == Bars(c)[..n - 1];
      LitPrefix(n - 1, c);
    }
  }

  lemma LitBars(c: int)
    ensures Lit(Bars(c)) == if c <= 0 then 0 else if c >= Target then Target else c
  {
    LitPrefix(Target, c);
    assert Bars(c)[..Target] == Bars(c);
  }

  /**
   * None of the three keys is in the translation table, so in every language
   * the indicator shows the key itself; the count is never interpolated.
   */
  lemma ShownTextIsKey(l: Language.Lang, userMessageCount: int)
    ensures Language.T(Language.Code(l), Key(GetProgressText(userMessageCount))) == Some(Key(GetProgressText(userMessageCount)))
  {
    Language.ProgressKeysAbsent();
    Language.MissingKeyIsItself(l, Key(GetProgressText(userMessageCount)));
  }
}
