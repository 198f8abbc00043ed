/**
 * `src/utils/moodHelper.ts`: `getMoodEmoji(mood)` picks an emoji by looking
 * for keywords in the lower-cased mood, category by category, in a fixed order.
 * Lower-casing is the Basic Latin and Latin-1 part of `toLowerCase`.
 */
module MoodHelper {
  import opened Strings

  /** One branch of the `if`/`else if` chain: any of its keywords selects its emoji. */
  datatype Category = Category(keywords: seq<string>, emoji: string)

  const Happy := "\U{1F60A}"
  const Sad := "\U{1F614}"
  const Calm := "\U{1F60C}"
  const Energetic := "\U{26A1}"
  const Relaxed := "\U{1F486}"
  const Angry := "\U{1F620}"
  const Anxious := "\U{1F630}"
  const Excited := "\U{1F929}"
  const Nostalgic := "\U{1F979}"
  const Romantic := "\U{2764}\U{FE0F}"
  const Focused := "\U{1F9E0}"
  const Party := "\U{1F389}"
  const Tired := "\U{1F634}"
  const Motivated := "\U{1F4AA}"
  /** Returned when no keyword matches. */
  const DefaultEmoji := "\U{1F3B5}"

  const Categories: seq<Category> := [
    Category(["happy", "feliz", "alegre"], Happy),
    Category(["sad", "triste"], Sad),
    Category(["calm", "calmo", "tranquilo"], Calm),
    Category(["energetic", "energ\U{00E9}tico", "energico"], Energetic),
    Category(["relax", "relaxado"], Relaxed),
    Category(["angry", "irritado", "enojado", "raivoso"], Angry),
    Category(["anxious", "ansioso"], Anxious),
    Category(["excited", "empolgado", "emocionado", "animado"], Excited),
    Category(["nostalgic", "nost\U{00E1}lgico"], Nostalgic),
    Category(["romantic", "rom\U{00E2}ntico", "romantico"], Romantic),
    Category(["focus", "focado", "concentrado"], Focused),
    Category(["party", "festa", "fiesta"], Party),
    Category(["tired", "cansado"], Tired),
    Category(["motivado", "motivated"], Motivated)
  ]

  /** The fifteen possible results. */
  const AllEmoji: set<string> := {Happy, Sad, Calm, Energetic, Relaxed, Angry, Anxious, Excited,
                                   Nostalgic, Romantic, Focused, Party, Tired, Motivated, DefaultEmoji}

  /** One `||` of `includes` tests. */
  function AnyContains(s: string, keywords: seq<string>): (r: bool)
    ensures r <==> exists k :: 0 <= k < |keywords| && Contains(s, keywords[k])
  {
    if |keywords| == 0 then false
    else if Contains(s, keywords[0]) then true
    else
      var r := AnyContains(s, keywords[1..]);
      assert forall k :: 1 <= k < |keywords| ==> keywords[k] == keywords[1..][k - 1];
      r
  }

  /** The chain of branches over `cats`, falling through to the default. */
  function FirstMatch(cats: seq<Category>, lowered: string): (r: string)
    ensures r == DefaultEmoji || exists i :: 0 <= i < |cats| && cats[i].emoji == r
  {
    if |cats| == 0 then DefaultEmoji
    else if AnyContains(lowered, cats[0].keywords) then cats[0].emoji
    else
      var r := FirstMatch(cats[1..], lowered);
      assert forall i :: 1 <= i < |cats| ==> cats[i] == cats[1..][i - 1];
      r
  }

  /** `getMoodEmoji(mood)`. */
  function GetMoodEmoji(mood: string): (r: string)
    ensures r in AllEmoji
  {
    FirstMatch(Categories, Lower(mood))
  }

  // ---------------------------------------------------------------------------
  // Properties

  /** The branch taken is the first whose keywords occur: earlier categories win over later ones. */
  lemma {:induction false} FirstMatchWins(cats: seq<Category>, lowered: string, i: nat)
    requires i < |cats| && AnyContains(lowered, cats[i].keywords)
    requires forall j :: 0 <= j < i ==> !AnyContains(lowered, cats[j].keywords)
    ensures FirstMatch(cats, lowered) == cats[i].emoji
  {
    if i > 0 {
      assert !AnyContains(lowered, cats[0].keywords);
      forall j | 0 <= j < i - 1
        ensures !AnyContains(lowered, cats[1..][j].keywords)
      {
        assert cats[1..][j] == cats[j + 1];
      }
      FirstMatchWins(cats[1..], lowered, i - 1);
    }
  }

  /** When no keyword of any category occurs, the result is the default. */
  lemma {:induction false} NoMatchIsDefault(cats: seq<Category>, lowered: string)
    requires forall i :: 0 <= i < |cats| ==> !AnyContains(lowered, cats[i].keywords)
    ensures FirstMatch(cats, lowered) == DefaultEmoji
  {
    if |cats| > 0 {
      assert !AnyContains(lowered, cats[0].keywords);
      forall j | 0 <= j < |cats| - 1
        ensures !AnyContains(lowered, cats[1..][j].keywords)
      {
        assert cats[1..][j] == cats[j + 1];
      }
      NoMatchIsDefault(cats[1..], lowered);
    }
  }

  /** Only the lower-cased mood matters. */
  lemma CaseInsensitive(a: string, b: string)
    requires Lower(a) == Lower(b)
    ensures GetMoodEmoji(a) == GetMoodEmoji(b)
  {
  }

  /** A mood mentioning happiness in any of the three languages gets the smiling face, whatever else it says. */
  lemma HappyFirst(mood: string)
    requires Contains(Lower(mood), "happy") || Contains(Lower(mood), "feliz") || Contains(Lower(mood), "alegre")
    ensures GetMoodEmoji(mood) == Happy
  {
    assert Categories[0].keywords == ["happy", "feliz", "alegre"];
    assert AnyContains(Lower(mood), Categories[0].keywords);
  }

  /** A mood containing no keyword of any category falls through to the default. */
  lemma NoKeywordIsDefault(mood: string)
    requires forall i, k :: 0 <= i < |Categories| && 0 <= k < |Categories[i].keywords| ==> !Contains(Lower(mood), Categories[i].keywords[k])
    ensures GetMoodEmoji(mood) == DefaultEmoji
  {
    NoMatchIsDefault(Categories, Lower(mood));
  }

  lemma EmptyMoodIsDefault()
    ensures GetMoodEmoji("") == DefaultEmoji
  {
    assert Lower("") == "";
    forall i, k | 0 <= i < |Categories| && 0 <= k < |Categories[i].keywords|
      ensures !Contains("", Categories[i].keywords[k])
    {
      assert |Categories[i].keywords[k]| > 0;
    }
    NoKeywordIsDefault("");
  }

  /**
   * Keywords are found anywhere, not as words: "unhappy" contains "happy" and
   * gets the smiling face.
   */
  lemma UnhappyIsHappy()
    ensures GetMoodEmoji("unhappy") == Happy
  {
    var s := Lower("unhappy");
    assert s == "unhappy";
    assert OccursAt(s, "happy", 2);
    HappyFirst("unhappy");
  }
}
