/**
 * `src/pages/Result.tsx`: the result page's own playlist-identifier parser,
 * the effect that requests the mood result, the choice between the loading,
 * error and result views, and the start-over handler.
 *
 * As in `SpotifyUtils`, `pathnameOf(u)` stands for `new URL(u).pathname`,
 * `None` when the constructor throws.
 */
module ResultPage {
  import opened Wrappers
  import opened Strings
  import opened Env
  import SpotifyUtils
  import MoodHelper
  import ChatContext

  /** The literal the page splits on. */
  const UrlMarker := "spotify.com/playlist/"

  /**
   * The page's `getPlaylistId()` on the chat's `playlistUrl`. `None` is both
   * `null` and `undefined` (an index past the end of the path segments).
   */
  function InlinePlaylistId(playlistUrl: Option<string>, pathnameOf: string -> Option<string>): (r: Option<string>)
    ensures !Truthy(playlistUrl) ==> r.None?
  {
    if !Truthy(playlistUrl) then None
    else
      var u := playlistUrl.value;
      if Contains(u, UrlMarker) && |Split(u, UrlMarker)| > 1 then
        Some(Split(Split(Split(u, UrlMarker)[1], "?")[0], "/")[0])
      else if Utf16Length(u) > 10 && !Contains(u, "/") then Some(u)
      else
        match pathnameOf(u)
        case Some(path) =>
          var parts := Split(path, "/");
          var k := IndexOf(parts, "playlist");
          if k + 1 < |parts| then Some(parts[k + 1]) else None
        case None =>
          if IsPlaylistIdShape(u) then Some(u) else None
  }

  // ---------------------------------------------------------------------------
  // The URL-form branch

  /** What the URL-form branch keeps of the text after the marker. */
  function CutId(rest: string): string {
    Split(Split(Split(rest, UrlMarker)[0], "?")[0], "/")[0]
  }

  /** With the marker present, the branch returns the cut of the text after its first occurrence. */
  lemma UrlFormValue(u: string, pathnameOf: string -> Option<string>)
    requires Contains(u, UrlMarker)
    ensures FindFrom(u, UrlMarker, 0).Some?
    ensures InlinePlaylistId(Some(u), pathnameOf) == Some(CutId(u[FindFrom(u, UrlMarker, 0).value + |UrlMarker|..]))
  {
    SplitSecond(u, UrlMarker);
  }

  /** The cut is the longest prefix holding no `?`, no `/` and no start of a further marker. */
  lemma CutIdIsPrefix(rest: string)
    ensures var r := CutId(rest);
      |r| <= |rest| && r == rest[..|r|]
      && (forall i :: 0 <= i < |r| ==> rest[i] != '?' && rest[i] != '/' && !OccursAt(rest, UrlMarker, i))
      && (|r| == |rest| || rest[|r|] == '?' || rest[|r|] == '/' || OccursAt(rest, UrlMarker, |r|))
  {
    var p1 := Split(rest, UrlMarker)[0];
    var p2 := Split(p1, "?")[0];
    var r := Split(p2, "/")[0];
    SplitHead(rest, UrlMarker);
    SplitCharHead(p1, '?');
    SplitCharHead(p2, '/');
    assert forall i :: 0 <= i < |p1| ==> rest[i] == p1[i];
    assert forall i :: 0 <= i < |p2| ==> p1[i] == p2[i];
  }

  /**
   * With the marker present, the identifier is cut from the text after its
   * first occurrence: the longest prefix of that text holding no `?`, no `/`
   * and no start of a second occurrence. It can be empty.
   */
  lemma UrlFormCut(u: string, pathnameOf: string -> Option<string>)
    requires Contains(u, UrlMarker)
    ensures FindFrom(u, UrlMarker, 0).Some?
    ensures var rest := u[FindFrom(u, UrlMarker, 0).value + |UrlMarker|..];
      var r := InlinePlaylistId(Some(u), pathnameOf);
      r.Some? && |r.value| <= |rest| && r.value == rest[..|r.value|]
      && (forall i :: 0 <= i < |r.value| ==> rest[i] != '?' && rest[i] != '/' && !OccursAt(rest, UrlMarker, i))
      && (|r.value| == |rest| || rest[|r.value|] == '?' || rest[|r.value|] == '/' || OccursAt(rest, UrlMarker, |r.value|))
  {
    UrlFormValue(u, pathnameOf);
    CutIdIsPrefix(u[FindFrom(u, UrlMarker, 0).value + |UrlMarker|..]);
  }

  /** The identifier the URL-form branch returns never holds `?` or `/`. */
  lemma UrlFormIdHasNoSeparator(u: string, pathnameOf: string -> Option<string>)
    requires Contains(u, UrlMarker)
    ensures InlinePlaylistId(Some(u), pathnameOf).Some?
    ensures '?' !in InlinePlaylistId(Some(u), pathnameOf).value
    ensures '/' !in InlinePlaylistId(Some(u), pathnameOf).value
  {
    UrlFormCut(u, pathnameOf);
    var rest := u[FindFrom(u, UrlMarker, 0).value + |UrlMarker|..];
    var r := InlinePlaylistId(Some(u), pathnameOf).value;
    forall i | 0 <= i < |r|
      ensures r[i] != '?' && r[i] != '/'
    {
      assert r[i] == rest[i];
    }
  }

  /** A share link whose marker is followed by `?` yields the empty identifier, so no player is shown. */
  lemma EmptyIdentifierCase(pathnameOf: string -> Option<string>)
    ensures InlinePlaylistId(Some("spotify.com/playlist/?si=1"), pathnameOf) == Some("")
  {
    var u := "spotify.com/playlist/?si=1";
    assert OccursAt(u, UrlMarker, 0);
    UrlFormCut(u, pathnameOf);
    FindFromIs(u, UrlMarker, 0, 0);
    assert u[21] == '?';
  }

  /** A window of the marker cannot start inside a 22-character identifier that ends the text or is followed by `?`. */
  lemma NoMarkerInId(rest: string, j: nat)
    requires |rest| >= 22 && IsAlnumString(rest[..22]) && (|rest| == 22 || rest[22] == '?')
    requires j < 22
    ensures !OccursAt(rest, UrlMarker, j)
  {
    if j + |UrlMarker| <= |rest| {
      var w := rest[j..j + |UrlMarker|];
      if j + 11 < 22 {
        assert w[11] == rest[j + 11] == rest[..22][j + 11];
        assert UrlMarker[11] == '/';
      } else {
        assert w[22 - j] == rest[22];
        assert forall i :: 0 <= i < |UrlMarker| ==> UrlMarker[i] != '?';
      }
    }
  }

  const ShareUrlPrefix := "https://open.spotify.com/playlist/"

  /** The marker starts with an `s` and has no other `s` among its next thirteen characters. */
  lemma MarkerLetters()
    ensures UrlMarker[0] == 's'
    ensures forall i :: 1 <= i < 14 ==> UrlMarker[i] != 's'
  {
  }

  /** In a share link the first marker starts right after `https://open.`. */
  lemma ShareUrlMarkerAt(id: string, query: string)
    ensures FindFrom(ShareUrlPrefix + id + query, UrlMarker, 0) == Some(13)
  {
    var u := ShareUrlPrefix + id + query;
    assert u[..|ShareUrlPrefix|] == ShareUrlPrefix;
    assert u[13..13 + |UrlMarker|] == ShareUrlPrefix[13..] == UrlMarker;
    // An earlier occurrence would put one of the marker's characters 1..13 on
    // the `s` at position 13, and none of them is an `s`.
    MarkerLetters();
    assert u[13] == u[13..13 + |UrlMarker|][0];
    forall j | 0 <= j < 13
      ensures !OccursAt(u, UrlMarker, j)
    {
      assert u[j..j + |UrlMarker|][13 - j] == u[13];
    }
    FindFromIs(u, UrlMarker, 0, 13);
  }

  /** An identifier followed by nothing or by a query is cut out whole. */
  lemma CutIdOfId(id: string, query: string)
    requires IsPlaylistIdShape(id)
    requires query == "" || query[0] == '?'
    ensures CutId(id + query) == id
  {
    var rest := id + query;
    CutIdIsPrefix(rest);
    assert rest[..22] == id;
    var r := CutId(rest);
    if |r| < 22 {
      assert IsAsciiAlnum(rest[|r|]) by { assert rest[|r|] == id[|r|]; }
      NoMarkerInId(rest, |r|);
    }
    assert |rest| > 22 ==> rest[22] == '?';
    assert |r| <= 22;
  }

  /** A share link `https://open.spotify.com/playlist/<id>`, optionally followed by a query, yields `<id>`. */
  lemma ShareUrlRoundTrip(id: string, query: string, pathnameOf: string -> Option<string>)
    requires IsPlaylistIdShape(id)
    requires query == "" || query[0] == '?'
    ensures InlinePlaylistId(Some(ShareUrlPrefix + id + query), pathnameOf) == Some(id)
  {
    var u := ShareUrlPrefix + id + query;
    ShareUrlMarkerAt(id, query);
    UrlFormValue(u, pathnameOf);
    assert u[13 + |UrlMarker|..] == id + query;
    CutIdOfId(id, query);
  }

  // ---------------------------------------------------------------------------
  // The direct branch and the fall-backs

  /** A string longer than ten code units with no `/` is taken as the identifier itself. */
  lemma DirectIdPassthrough(u: string, pathnameOf: string -> Option<string>)
    requires Utf16Length(u) > 10 && '/' !in u
    ensures InlinePlaylistId(Some(u), pathnameOf) == Some(u)
  {
    NoOccurrenceWithout(u, "/");
    MarkerNeedsSlash(u);
  }

  /**
   * `length` counts UTF-16 code units, so six characters outside the Basic
   * Multilingual Plane (twelve units) already pass the direct branch's test.
   */
  lemma AstralTextIsDirectId(pathnameOf: string -> Option<string>)
    ensures var u := "\U{1F600}\U{1F600}\U{1F600}\U{1F600}\U{1F600}\U{1F600}";
      |u| == 6 && InlinePlaylistId(Some(u), pathnameOf) == Some(u)
  {
    var u := "\U{1F600}\U{1F600}\U{1F600}\U{1F600}\U{1F600}\U{1F600}";
    assert Utf16Length(u[5..]) == 2;
    assert Utf16Length(u[4..]) == 4;
    assert Utf16Length(u[3..]) == 6;
    assert Utf16Length(u[2..]) == 8;
    assert Utf16Length(u[1..]) == 10;
    assert Utf16Length(u) == 12;
    assert '/' !in u;
    DirectIdPassthrough(u, pathnameOf);
  }

  /** The marker holds a `/`, so text without `/` never contains it. */
  lemma MarkerNeedsSlash(u: string)
    ensures '/' !in u ==> !Contains(u, UrlMarker)
  {
    forall i: nat | OccursAt(u, UrlMarker, i)
      ensures '/' in u
    {
      assert u[i..i + |UrlMarker|][11] == '/';
    }
  }

  /** Twenty-two alphanumerics hold no `/`. */
  lemma IdShapeHasNoSlash(u: string)
    ensures IsPlaylistIdShape(u) ==> !Contains(u, "/")
  {
    if IsPlaylistIdShape(u) {
      assert '/' !in u by {
        forall i | 0 <= i < |u|
          ensures u[i] != '/'
        {
          assert IsAsciiAlnum(u[i]);
        }
      }
      NoOccurrenceWithout(u, "/");
    }
  }

  /**
   * The `catch` branch's own test for a bare identifier can never succeed: a
   * string reaching it is not 22 alphanumerics, because those are returned by
   * the direct branch first. So a URL that does not parse always gives `null`.
   */
  lemma CatchBranchIsNull(u: string, pathnameOf: string -> Option<string>)
    requires u != "" && !Contains(u, UrlMarker) && !(Utf16Length(u) > 10 && !Contains(u, "/"))
    requires pathnameOf(u).None?
    ensures !IsPlaylistIdShape(u)
    ensures InlinePlaylistId(Some(u), pathnameOf) == None
  {
    IdShapeHasNoSlash(u);
  }

  /**
   * A parsed URL with no `playlist` segment does not give `null`: `indexOf`
   * is -1, so the first path segment is returned.
   */
  lemma NoPlaylistSegmentGivesFirst(u: string, pathnameOf: string -> Option<string>)
    requires u != "" && !Contains(u, UrlMarker) && !(Utf16Length(u) > 10 && !Contains(u, "/"))
    requires pathnameOf(u).Some? && IndexOf(Split(pathnameOf(u).value, "/"), "playlist") == -1
    ensures InlinePlaylistId(Some(u), pathnameOf) == Some(Split(pathnameOf(u).value, "/")[0])
  {
  }

  /** With a `playlist` segment, the next segment is returned when there is one. */
  lemma PlaylistSegmentFollower(u: string, pathnameOf: string -> Option<string>)
    requires u != "" && !Contains(u, UrlMarker) && !(Utf16Length(u) > 10 && !Contains(u, "/"))
    requires pathnameOf(u).Some?
    ensures var parts := Split(pathnameOf(u).value, "/");
      var k := IndexOf(parts, "playlist");
      k >= 0 ==> InlinePlaylistId(Some(u), pathnameOf) == (if k + 1 < |parts| then Some(parts[k + 1]) else None)
  {
  }

  // ---------------------------------------------------------------------------
  // Effect, view and handler

  /** The load effect's condition. */
  function ShouldLoadMoodResult(userId: Option<string>, mood: Option<string>, isLoading: bool): (r: bool)
    ensures r ==> Truthy(userId) && !isLoading
    ensures Truthy(mood) ==> !r
    ensures Truthy(userId) && !Truthy(mood) && !isLoading ==> r
  {
    Truthy(userId) && !Truthy(mood) && !isLoading
  }

  /** The effect re-runs when `mood` or `isLoading` change; when it finds the condition true it starts a load. */
  method LoadEffect(chat: ChatContext.ChatProvider, userId: Option<string>) returns (fired: bool)
    modifies chat
    ensures fired <==> ShouldLoadMoodResult(userId, old(chat.mood), old(chat.isLoading))
    ensures fired ==> chat.State() == ChatContext.AfterLoadStart(old(chat.State()))
    ensures !fired ==> chat.State() == old(chat.State())
  {
    fired := ShouldLoadMoodResult(userId, chat.mood, chat.isLoading);
    if fired {
      chat.BeginLoad();
    }
  }

  /**
   * A load that ends without a truthy mood (a failure, or a result without a
   * mood) makes the condition true again once loading is over, so the page
   * requests the result again; nothing bounds the number of attempts.
   */
  lemma FailedLoadRetriggers(s: ChatContext.ChatState, userId: Option<string>, resp: ChatContext.MoodResultResponse)
    requires ShouldLoadMoodResult(userId, s.mood, s.isLoading)
    requires !resp.MoodResultOk? || !Truthy(resp.mood)
    ensures var t := ChatContext.AfterLoadComplete(ChatContext.AfterLoadStart(s), resp);
      ShouldLoadMoodResult(userId, t.mood, t.isLoading)
  {
  }

  /** A load that delivers a truthy mood stops the effect, and none starts while one is in flight. */
  lemma LoadSettlesOnMood(s: ChatContext.ChatState, userId: Option<string>, resp: ChatContext.MoodResultResponse)
    requires resp.MoodResultOk? && Truthy(resp.mood)
    ensures !ShouldLoadMoodResult(userId, ChatContext.AfterLoadStart(s).mood, ChatContext.AfterLoadStart(s).isLoading)
    ensures var t := ChatContext.AfterLoadComplete(ChatContext.AfterLoadStart(s), resp);
      !ShouldLoadMoodResult(userId, t.mood, t.isLoading)
  {
  }

  datatype View =
    | LoadingView
    | ErrorView
    /** The mood with its emoji, and the player's `src` when an identifier was found. */
    | PlaylistView(mood: string, emoji: string, embedSrc: Option<string>)

  /** The page body for the chat's state. */
  function Display(isLoading: bool, mood: Option<string>, playlistUrl: Option<string>,
                   pathnameOf: string -> Option<string>): (v: View)
    ensures v.LoadingView? <==> isLoading
    ensures v.ErrorView? <==> !isLoading && (!Truthy(mood) || !Truthy(playlistUrl))
    ensures v.PlaylistView? ==> v.mood == mood.value && v.emoji == MoodHelper.GetMoodEmoji(mood.value)
    ensures v.PlaylistView? ==> v.embedSrc == SpotifyUtils.GetPlaylistEmbedUrl(InlinePlaylistId(playlistUrl, pathnameOf))
  {
    if isLoading then LoadingView
    else if !Truthy(mood) || !Truthy(playlistUrl) then ErrorView
    else
      var id := InlinePlaylistId(playlistUrl, pathnameOf);
      var src := if Truthy(id) then Some("https://open.spotify.com/embed/playlist/" + id.value + "?utm_source=generator&theme=0") else None;
      PlaylistView(mood.value, MoodHelper.GetMoodEmoji(mood.value), src)
  }

  /** `handleStartOver()`: reset the chat, then go back to the chat page. */
  method HandleStartOver(chat: ChatContext.ChatProvider, env: Browser)
    modifies chat, env
    ensures chat.State() == ChatContext.AfterReset(old(chat.State()))
    ensures env.route == "/chat"
    ensures env.Snapshot() == old(env.Snapshot()).(route := env.route)
  {
    chat.ResetChat();
    env.Navigate("/chat");
  }
}
