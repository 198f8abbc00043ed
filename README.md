# MoodTunes in Dafny

MoodTunes lets a listener sign in with Spotify, talk about their day with a
chat back end that guesses their mood, and get a playlist to match. This
project models, in Dafny, the logic of its web clients and of its Python back
end. It covers:

- the session-timestamp check and the session verification in
  `src/utils/authUtils.ts`; opening the login popup; the cross-window
  `message` listener; clearing stored credentials;
- the authentication provider (`src/contexts/AuthContext.tsx`), its login
  popup hook (`src/hooks/useAuthPopup.ts`) and the route guard
  (`src/components/ProtectedRoute.tsx`);
- the chat provider (`src/contexts/ChatContext.tsx`), the chat page
  (`src/pages/Chat.tsx`) and its progress indicator
  (`src/components/ChatProgressIndicator.tsx`);
- the result page (`src/pages/Result.tsx`): its own playlist-identifier
  parser, the effect that fetches the mood result, and the view it chooses;
- the playlist URL helpers (`src/utils/spotifyUtils.ts`), the mood emoji
  chooser (`src/utils/moodHelper.ts`) and the translation table
  (`src/contexts/LanguageContext.tsx`);
- the older single-component client `src/App.js`;
- the back end's conversation keeper (`groq_client.py`), the Streamlit
  session logic and its five-message playlist trigger (`app.py`), and the
  token bookkeeping and response mapping of `spotify_client.py`.

Each source file is one module. State the source changes in place is a
`class`: the providers, the hook, the page state, the Streamlit session and
the conversation keeper. Their methods have `modifies` clauses and
postconditions that state the whole new state. For the browser, one clause
`env.Snapshot() == old(env.Snapshot()).(...)` names the fields a method
changes and keeps every other one. Where a provider's updates form a state
machine (`AuthContext`, `ChatContext`), each step is also a function on a
state datatype (`AfterLogout`, `AfterSendComplete`, ...). Each method is
proved equal to its step, and the lemmas state the properties of the steps.
Pure helpers are functions with contracts, plus lemmas: URL parsing, emoji
choice, translation lookup, progress text and token expiry.

How effects outside the program appear in the model:

- **Asynchronous handlers.** Each one is split at its `await`. A `Begin...`
  method covers what happens before the request; a `Complete...` method takes
  the request's outcome as an input. The outcome is a datatype: a parsed
  body, a non-ok status, or a thrown error.
- **The browser.** `Env.Browser` models `localStorage` and `sessionStorage`
  as maps, plus `location.href`, the router's route, the toasts and alerts
  shown, and the registry of `message` listeners.
- **Inputs.** The window `window.open` hands back, `new URL(u).pathname`
  (`pathnameOf`, `None` when the constructor throws), the clock (`now`) and
  the language model's completion are all parameters.
- **Shared helpers.** `Strings` holds the JavaScript and Python string
  builtins the code relies on: `includes`, `split`, `join`, `trim`,
  `toLowerCase`, `parseInt`, `indexOf`, `String(n)` and `length` in UTF-16
  code units.

Behaviour that follows from the code as written, and that the model states:

- `ChatContext` can finish a chat with `mood == null`, because it stores
  `data.mood || null` (`ChatContext.FinishedWithoutMood`). `loadMoodResult`
  can leave a finished chat without a playlist URL
  (`ChatContext.LoadBreaksFinishedHasPlaylist`). So a finished chat need not
  hold a mood or a playlist URL.
- On the result page, a load that ends without a truthy mood makes the
  effect's condition true again. The page therefore keeps asking the back end
  with no bound on the attempts (`ResultPage.FailedLoadRetriggers`).
- The result page's own parser returns `""` for a share link whose marker is
  followed by `?` (`ResultPage.EmptyIdentifierCase`). For a parsed URL with
  no `playlist` segment it returns the first path segment
  (`ResultPage.NoPlaylistSegmentGivesFirst`). Its `catch`-branch test for a
  bare identifier can never succeed (`ResultPage.CatchBranchIsNull`).
- The result page's direct-identifier test compares `playlistUrl.length`,
  which counts UTF-16 code units, so six emoji already pass it
  (`ResultPage.AstralTextIsDirectId`). The path-segment test of
  `src/utils/spotifyUtils.ts` counts the same way. The model measures both
  with `Strings.Utf16Length`.
- The mood chooser matches substrings, so "unhappy" gets the smiling face
  (`MoodHelper.UnhappyIsHappy`).
- None of the progress indicator's three keys is in the translation table, so
  the key itself is shown in every language (`Progress.ShownTextIsKey`).
- In `src/App.js`, a `/chat` reply that arrives after a logout writes the
  pre-logout conversation back (`LegacyApp.App.LogoutDuringSend`).
- `app.py` imports `SpotifyClient` from `spotify_client.py`, which defines no
  such class. It also calls `GroqClient.analyze_mood`, which `groq_client.py`
  does not define. Reached as written, playlist creation therefore always
  ends in its `except` branch. The model keeps the outcome of that step as an
  input (returned URL or raised message), so both branches are described.

## Model

| member | source | states |
|---|---|---|
| Strings.ParseInt | src/utils/authUtils.ts:16 | `parseInt(s, 10)` is NaN exactly when no digit follows the optional leading white space and sign |
| Strings.TrimStart | src/utils/authUtils.ts:16 | the longest suffix that does not start with JavaScript white space; everything dropped is white space |
| Strings.TrimEnd | src/pages/Chat.tsx:43 | the longest prefix that does not end with JavaScript white space; everything dropped is white space |
| Strings.ParseDecimal | src/utils/authUtils.ts:16 | a printed natural number parses back to itself |
| Strings.Decimal | src/App.js:15 | `String(n)` of a natural number: a non-empty string of decimal digits, which `ParseDecimal` reads back |
| Strings.Trim | src/pages/Chat.tsx:43 | `trim()` is empty exactly when every character is JavaScript white space; otherwise it neither starts nor ends with white space |
| Strings.Lower | src/utils/moodHelper.ts:3 | lower-casing keeps the length and maps each character on its own |
| Strings.LowerChar | src/utils/moodHelper.ts:3 | `toLowerCase` of one character: the result is never an upper-case ASCII or Latin-1 letter |
| Strings.LowerIdempotent | src/utils/moodHelper.ts:3 | lower-casing twice is lower-casing once |
| Strings.FindFrom | src/pages/Result.tsx:43 | the first index at or after `from` where the pattern occurs, or none when it occurs nowhere from there |
| Strings.Contains | src/utils/moodHelper.ts:5 | `includes` holds exactly when the pattern occurs at some index |
| Strings.IndexOf | src/pages/Result.tsx:61 | `indexOf` is the first index holding the element, or -1 when none does |
| Strings.SplitHead | src/pages/Result.tsx:46 | the first piece of a split is the longest prefix in which no separator starts |
| Strings.SplitCharHead | src/pages/Result.tsx:46 | the first piece of a split on one character is the longest prefix without it |
| Strings.Split | src/pages/Result.tsx:44-46 | `split(sep)`: at least one piece, the text between consecutive occurrences of the separator |
| Strings.JoinSplit | src/pages/Result.tsx:44-46 | joining the pieces of a split with the same separator gives back the text |
| Strings.Join | spotify_client.py:89 | `sep.join(parts)`: the parts with the separator between consecutive ones; `SplitJoin` and `JoinSplit` make it the inverse of `Split` |
| Strings.SplitJoin | spotify_client.py:89 | splitting a join on the same separator gives the parts back when no part holds the separator's first character |
| Strings.Utf16Length | src/pages/Result.tsx:53 | `length` lies between the number of characters and twice that |
| Strings.BmpUtf16Length | src/utils/spotifyUtils.ts:35 | for text inside the Basic Multilingual Plane, `length` is the number of characters |
| Strings.AlnumUtf16Length | src/utils/spotifyUtils.ts:35 | an `[a-zA-Z0-9]` string's `length` is its number of characters |
| AuthUtils.IsSessionValid | src/utils/authUtils.ts:11-22 | true only for a truthy timestamp that parses as an integer |
| AuthUtils.SessionValidWindow | src/utils/authUtils.ts:8-17 | a stored timestamp t is valid exactly while now - t is below 24 hours in milliseconds |
| AuthUtils.SessionExpiresAtExactlyOneDay | src/utils/authUtils.ts:17 | a session exactly 24 hours old is invalid, one millisecond younger is valid |
| AuthUtils.NonNumericTimestampInvalid | src/utils/authUtils.ts:16-17 | a timestamp that parses to NaN is invalid at any time |
| AuthUtils.VerifySession | src/utils/authUtils.ts:25-44 | a user id is reported only when authenticated; a non-ok response or a thrown error gives unauthenticated with no id |
| AuthUtils.OpenAuthPopup | src/utils/authUtils.ts:47-71 | returns null exactly when no window came back or it is already closed; otherwise that open window |
| AuthUtils.AuthMessageUserId | src/utils/authUtils.ts:75-83 | the callback is called exactly for an event whose data has a truthy `user_id`, with that value |
| AuthUtils.SetupAuthMessageListener | src/utils/authUtils.ts:74-93 | registers one new listener and returns the handle its clean-up removes; every other browser field unchanged |
| AuthUtils.CleanupAuthMessageListener | src/utils/authUtils.ts:89-92 | removes exactly that listener; every other browser field unchanged |
| AuthUtils.SetupThenCleanup | src/utils/authUtils.ts:85-90 | set-up followed by clean-up leaves the browser as it was, listener registry included |
| AuthUtils.ClearAuthData | src/utils/authUtils.ts:96-101 | removes `userId` and `sessionTimestamp` from local storage and `authInProgress` from session storage; every other browser field unchanged |
| AuthUtils.ClearAuthDataTwice | src/utils/authUtils.ts:96-101 | a second `clearAuthData()` changes nothing: the browser ends as after one call |
| AuthContext.Initial | src/contexts/AuthContext.tsx:26-28 | the state after mounting: user id from `localStorage`, authenticated when it is truthy, not loading |
| AuthContext.AfterLogout | src/contexts/AuthContext.tsx:36-41 | no user, not authenticated, `userId` removed from storage, route `/` |
| AuthContext.AfterCheckStart | src/contexts/AuthContext.tsx:44-47 | loading starts, nothing else changes |
| AuthContext.AfterCheckComplete | src/contexts/AuthContext.tsx:47-66 | the three outcomes of `checkSession` and the value it resolves to; loading ends in each |
| AuthContext.InitialState | src/contexts/AuthContext.tsx:26-28 | initially authenticated exactly when a non-empty `userId` is stored; the invariant holds |
| AuthContext.LogoutIdempotent | src/contexts/AuthContext.tsx:36-41 | logging out twice is logging out once; only the `userId` key leaves storage; loading untouched |
| AuthContext.TransitionsKeepInv | src/contexts/AuthContext.tsx:26-67 | every transition keeps "authenticated implies a user id" |
| AuthContext.CheckSessionOutcomes | src/contexts/AuthContext.tsx:44-67 | ok stores and adopts the id and resolves true; non-ok is a logout with a session-expired toast; a thrown error adds a connection toast only; loading ends in all three |
| AuthContext.AuthProvider.constructor | src/contexts/AuthContext.tsx:26-28 | the state is initialised from local storage |
| AuthContext.AuthProvider.Login | src/contexts/AuthContext.tsx:31-33 | navigates the page to the back end's Spotify login URL, provider state unchanged |
| AuthContext.AuthProvider.Logout | src/contexts/AuthContext.tsx:36-41 | the new state is the logout step; the invariant holds |
| AuthContext.AuthProvider.BeginCheckSession | src/contexts/AuthContext.tsx:44-47 | loading starts, nothing else changes |
| AuthContext.AuthProvider.CompleteCheckSession | src/contexts/AuthContext.tsx:47-66 | new state and result are the check-completion step for the response; the invariant is kept |
| AuthPopup.TimersFor | src/hooks/useAuthPopup.ts:14-43 | at most two timers: none without a popup, otherwise one poll and one timeout, both watching that popup |
| AuthPopup.AuthPopupHook.constructor | src/hooks/useAuthPopup.ts:10-11 | no popup, not loading, no timers, no listener |
| AuthPopup.AuthPopupHook.Mount | src/hooks/useAuthPopup.ts:57 | registers one fresh `message` listener; every other browser field unchanged |
| AuthPopup.AuthPopupHook.Unmount | src/hooks/useAuthPopup.ts:60-63 | clears every timer and removes the hook's listener; every other browser field unchanged |
| AuthPopup.AuthPopupHook.SetAuthPopup | src/hooks/useAuthPopup.ts:14-43 | a changed popup replaces the timers by the pair for the new value; an unchanged one keeps them |
| AuthPopup.AuthPopupHook.LaunchAuthPopup | src/hooks/useAuthPopup.ts:66-84 | an open previous popup is closed; launched exactly when a new, open window came back; a blocked launch shows the popup-blocked toast and ends loading; only the browser's toasts change |
| AuthPopup.AuthPopupHook.PollTick | src/hooks/useAuthPopup.ts:17-24 | a closed popup is dropped, loading ends and no timer remains; an open one changes nothing |
| AuthPopup.AuthPopupHook.TimeoutFires | src/hooks/useAuthPopup.ts:26-36 | the popup ends closed and dropped, loading ends, the timeout toast is shown; only the browser's toasts change |
| AuthPopup.AuthPopupHook.OnMessage | src/hooks/useAuthPopup.ts:47-55 | `onSuccess` is called exactly for a registered listener and a truthy `user_id` |
| AuthPopup.AuthPopupHook.RedirectToAuth | src/hooks/useAuthPopup.ts:87-94 | loading starts, `authInProgress` is stored as "true" and the page goes to the given URL; every other browser field unchanged |
| AuthPopup.AuthPopupHook.SetIsLoading | src/hooks/useAuthPopup.ts:11 | sets loading and nothing else |
| Routing.ProtectedRoute | src/components/ProtectedRoute.tsx:10-29 | loader exactly while loading; otherwise the children exactly when authenticated, else the redirect home |
| Routing.LoaderIgnoresAuthentication | src/components/ProtectedRoute.tsx:13-22 | while loading, authentication does not matter |
| ChatContext.AfterSendStart | src/contexts/ChatContext.tsx:43-52 | the user's message is appended and loading starts |
| ChatContext.AfterSendComplete | src/contexts/ChatContext.tsx:54-87 | a reply appends the assistant's message and, with a truthy playlist URL, finishes the chat; any outcome ends loading |
| ChatContext.AfterLoadStart | src/contexts/ChatContext.tsx:91-92 | loading starts |
| ChatContext.AfterLoadComplete | src/contexts/ChatContext.tsx:93-108 | a result sets mood and playlist URL; any outcome ends loading |
| ChatContext.AfterReset | src/contexts/ChatContext.tsx:112-117 | no messages, not finished, no mood, no playlist URL |
| ChatContext.SendAppendsUserThenAssistant | src/contexts/ChatContext.tsx:50-74 | a completed send appends the user's message and then the reply, nothing else |
| ChatContext.FailedSendKeepsUserMessage | src/contexts/ChatContext.tsx:43-88 | a failed send keeps the user's message, adds no reply and leaves the result fields alone |
| ChatContext.ReplyFinishesOnPlaylist | src/contexts/ChatContext.tsx:76-80 | a truthy playlist URL finishes the chat with it and the truthy mood or null; otherwise the result fields stay |
| ChatContext.LoadingSettles | src/contexts/ChatContext.tsx:43-109 | both requests set loading when they start and clear it however they end |
| ChatContext.LoadTouchesOnlyResult | src/contexts/ChatContext.tsx:91-109 | loading the result writes only mood and URL, and nothing but `isLoading` when it fails |
| ChatContext.ResetIdempotent | src/contexts/ChatContext.tsx:112-117 | reset gives the empty chat, leaves loading alone and is idempotent |
| ChatContext.MessagesAppendOnly | src/contexts/ChatContext.tsx:43-109 | sending only appends to the messages; loading keeps them |
| ChatContext.SendKeepsFinishedHasPlaylist | src/contexts/ChatContext.tsx:76-80 | "finished implies a playlist URL" is kept by sending and by reset |
| ChatContext.FinishedWithoutMood | src/contexts/ChatContext.tsx:76-79 | a reply with a URL and no mood finishes the chat with mood null |
| ChatContext.LoadBreaksFinishedHasPlaylist | src/contexts/ChatContext.tsx:101-102 | a result without a URL leaves a finished chat without one |
| ChatContext.ChatProvider.constructor | src/contexts/ChatContext.tsx:36-40 | the initial chat state |
| ChatContext.ChatProvider.BeginSend | src/contexts/ChatContext.tsx:43-52 | without a truthy user only a session-expired toast; otherwise the send-start step; only the browser's toasts can change |
| ChatContext.ChatProvider.CompleteSend | src/contexts/ChatContext.tsx:54-87 | the send-completion step; a failure adds the connection toast; only the browser's toasts can change |
| ChatContext.ChatProvider.BeginLoad | src/contexts/ChatContext.tsx:91-92 | the load-start step |
| ChatContext.ChatProvider.CompleteLoad | src/contexts/ChatContext.tsx:93-108 | the load-completion step; a failure adds the connection toast; only the browser's toasts can change |
| ChatContext.ChatProvider.ResetChat | src/contexts/ChatContext.tsx:112-117 | the reset step |
| ChatPage.Controls | src/pages/Chat.tsx:103-108 | the input is disabled exactly while loading; the button also when the input is all white space |
| ChatPage.CanSubmit | src/pages/Chat.tsx:43 | a submission goes ahead exactly when the trimmed input is not empty and no request is in flight |
| ChatPage.ChatPageState.constructor | src/pages/Chat.tsx:20 | the input starts empty |
| ChatPage.ChatPageState.SetInput | src/pages/Chat.tsx:101 | the input takes the typed value |
| ChatPage.ChatPageState.HandleSubmit | src/pages/Chat.tsx:41-47 | sends the untrimmed input and clears it exactly when it is not blank and no request is in flight; only the browser's toasts can change |
| ChatPage.ChatPageState.SubmitTwice | src/pages/Chat.tsx:43 | once a submission has started a request, a second one does nothing; only the browser's toasts can change |
| ChatPage.ChatPageState.FinishedEffect | src/pages/Chat.tsx:26-30 | a finished chat navigates to `/result`, otherwise the route stays; every other browser field unchanged |
| Language.Code | src/contexts/LanguageContext.tsx:5 | each language's code reads back as that language |
| Language.Table | src/contexts/LanguageContext.tsx:15-103 | the translation table of each language; `SameKeys`, `NoEmptyEntry` and `ProgressKeysAbsent` state its properties |
| Language.T | src/contexts/LanguageContext.tsx:129-131 | the lookup throws exactly for a code that is not in the table |
| Language.SameKeys | src/contexts/LanguageContext.tsx:15-103 | the three tables have the same keys |
| Language.NoEmptyEntry | src/contexts/LanguageContext.tsx:15-103 | no entry is empty |
| Language.TranslationFound | src/contexts/LanguageContext.tsx:129-131 | a key in the table translates to its entry in every language |
| Language.MissingKeyIsItself | src/contexts/LanguageContext.tsx:130 | a key without an entry translates to itself |
| Language.ProgressKeysAbsent | src/contexts/LanguageContext.tsx:15-103 | the progress indicator's three keys have no entry |
| Language.TotalOnlyForKnownCodes | src/contexts/LanguageContext.tsx:130 | a lookup succeeds exactly for `pt`, `en` and `es` |
| Language.LanguageProvider.constructor | src/contexts/LanguageContext.tsx:118-120 | the stored language when truthy, else `pt` |
| Language.LanguageProvider.SetLanguage | src/contexts/LanguageContext.tsx:123-126 | state and storage hold the chosen code; every lookup then succeeds; every other browser field unchanged |
| Language.LanguageProvider.Translate | src/contexts/LanguageContext.tsx:129-131 | the context's `t` succeeds exactly for a known code |
| LegacyApp.EffectiveUserId | src/App.js:15 | the stored id when truthy, else `user_` and the clock |
| LegacyApp.UserIdStable | src/App.js:15-19 | once stored, the id no longer depends on the clock |
| LegacyApp.App.constructor | src/App.js:10-14 | the initial component state |
| LegacyApp.App.Mount | src/App.js:17-19 | the mount effect stores the effective id; every other browser field unchanged |
| LegacyApp.App.CompleteCheckAuth | src/App.js:25-33 | authenticated exactly when `/check` answered true |
| LegacyApp.App.BeginSend | src/App.js:35-39 | a blank message does nothing; otherwise the user's entry is appended and kept as the pending list |
| LegacyApp.App.CompleteSend | src/App.js:41-60 | the reply joins the pending list; a created playlist opens the preview; 401 alerts and redirects to login; errors keep the message; only `href` and the alerts of the browser can change |
| LegacyApp.App.LoginWithSpotify | src/App.js:63-65 | the page goes to the API's `/auth`; every other browser field unchanged |
| LegacyApp.App.Logout | src/App.js:67-74 | removes the stored id, clears chat and playlist, alerts; every other browser field unchanged |
| LegacyApp.App.LogoutDuringSend | src/App.js:35-74 | a reply arriving after logout restores the old conversation plus the reply; only local storage, `href` and the alerts of the browser change |
| MoodHelper.AnyContains | src/utils/moodHelper.ts:5 | one `or` of `includes` tests holds exactly when some keyword occurs |
| MoodHelper.FirstMatch | src/utils/moodHelper.ts:5-36 | the result is the default or some category's emoji |
| MoodHelper.GetMoodEmoji | src/utils/moodHelper.ts:2-37 | the result is one of the fifteen emoji |
| MoodHelper.FirstMatchWins | src/utils/moodHelper.ts:5-33 | the first category with an occurring keyword decides |
| MoodHelper.NoMatchIsDefault | src/utils/moodHelper.ts:35-36 | no occurring keyword gives the default |
| MoodHelper.CaseInsensitive | src/utils/moodHelper.ts:3 | moods equal after lower-casing get the same emoji |
| MoodHelper.HappyFirst | src/utils/moodHelper.ts:5-6 | any happiness keyword gives the smiling face, whatever else occurs |
| MoodHelper.NoKeywordIsDefault | src/utils/moodHelper.ts:35-36 | a mood with no keyword gets the default |
| MoodHelper.EmptyMoodIsDefault | src/utils/moodHelper.ts:2-37 | the empty mood gets the default |
| MoodHelper.UnhappyIsHappy | src/utils/moodHelper.ts:5 | keywords match inside words |
| Progress.GetProgressText | src/components/ChatProgressIndicator.tsx:13-24 | creating at five or more messages, one more at four, else the remaining count (two or more) |
| Progress.Bars | src/components/ChatProgressIndicator.tsx:31-35 | five bars; bar i is lit exactly when i is below the count |
| Progress.LitPrefix | src/components/ChatProgressIndicator.tsx:31-35 | the lit bars among the first n are the count clamped to 0..n |
| Progress.LitBars | src/components/ChatProgressIndicator.tsx:31-35 | the number of lit bars is the count clamped to 0..5 |
| Progress.ShownTextIsKey | src/components/ChatProgressIndicator.tsx:17-22 | in every language the shown text is the key itself |
| ResultPage.InlinePlaylistId | src/pages/Result.tsx:33-72 | no identifier for a falsy playlist URL |
| ResultPage.UrlFormValue | src/pages/Result.tsx:43-48 | with the marker present, the result is the cut of the text after its first occurrence |
| ResultPage.CutIdIsPrefix | src/pages/Result.tsx:46 | the cut is the longest prefix without `?`, `/` or a further marker |
| ResultPage.UrlFormCut | src/pages/Result.tsx:43-49 | the URL-form identifier is that longest prefix of the text after the first marker |
| ResultPage.UrlFormIdHasNoSeparator | src/pages/Result.tsx:46 | the URL-form identifier holds no `?` and no `/` |
| ResultPage.EmptyIdentifierCase | src/pages/Result.tsx:43-49 | a marker followed by `?` gives the empty identifier |
| ResultPage.NoMarkerInId | src/pages/Result.tsx:46 | no marker starts inside 22 alphanumerics that end the text or precede `?` |
| ResultPage.ShareUrlMarkerAt | src/pages/Result.tsx:43-44 | in a share link the first marker follows `https://open.` |
| ResultPage.CutIdOfId | src/pages/Result.tsx:46 | an identifier followed by nothing or a query is cut out whole |
| ResultPage.ShareUrlRoundTrip | src/pages/Result.tsx:43-49 | a share link with an optional query gives back its identifier |
| ResultPage.DirectIdPassthrough | src/pages/Result.tsx:53-56 | a text longer than ten UTF-16 code units with no `/` is its own identifier |
| ResultPage.AstralTextIsDirectId | src/pages/Result.tsx:53-56 | six characters outside the Basic Multilingual Plane are twelve code units, so they are returned as an identifier |
| ResultPage.MarkerNeedsSlash | src/pages/Result.tsx:43 | a text without `/` never contains the marker |
| ResultPage.IdShapeHasNoSlash | src/pages/Result.tsx:67 | 22 alphanumerics hold no `/` |
| ResultPage.CatchBranchIsNull | src/pages/Result.tsx:64-70 | the catch branch always gives null |
| ResultPage.NoPlaylistSegmentGivesFirst | src/pages/Result.tsx:59-63 | a parsed URL without a `playlist` segment gives its first segment |
| ResultPage.PlaylistSegmentFollower | src/pages/Result.tsx:59-63 | with a `playlist` segment, the next one if any |
| ResultPage.ShouldLoadMoodResult | src/pages/Result.tsx:21 | a load starts exactly for a truthy user, a falsy mood and no request in flight |
| ResultPage.LoadEffect | src/pages/Result.tsx:20-25 | starts a load exactly when the condition holds |
| ResultPage.FailedLoadRetriggers | src/pages/Result.tsx:20-25 | a load ending without a truthy mood makes the condition true again |
| ResultPage.LoadSettlesOnMood | src/pages/Result.tsx:20-25 | a truthy mood stops the effect, and no load starts while one is in flight |
| ResultPage.Display | src/pages/Result.tsx:85-139 | loading view exactly while loading; error view exactly when mood or URL is falsy; otherwise mood, emoji and the player URL for the identifier |
| ResultPage.HandleStartOver | src/pages/Result.tsx:27-30 | resets the chat and goes to `/chat`; every other browser field unchanged |
| SpotifyUtils.FirstIdAfter | src/utils/spotifyUtils.ts:20 | the leftmost match position of a literal followed by 22 alphanumerics |
| SpotifyUtils.MatchPattern | src/utils/spotifyUtils.ts:5-9 | a captured identifier is 22 alphanumerics; the anchored pattern matches exactly such a whole text |
| SpotifyUtils.TryPatterns | src/utils/spotifyUtils.ts:19-25 | the first matching pattern's capture, or none when none matches |
| SpotifyUtils.PathSegmentId | src/utils/spotifyUtils.ts:29-39 | the segment after `playlist`, exactly when that exists and is 22 UTF-16 code units long |
| SpotifyUtils.GetPlaylistId | src/utils/spotifyUtils.ts:14-50 | the patterns' result when one matches, otherwise the path-segment fallback or null |
| SpotifyUtils.GetPlaylistEmbedUrl | src/utils/spotifyUtils.ts:55-58 | null exactly for a falsy identifier; otherwise the player URL around it |
| SpotifyUtils.PatternIdShape | src/utils/spotifyUtils.ts:6-8 | a pattern's identifier is 22 alphanumerics |
| SpotifyUtils.PatternOrder | src/utils/spotifyUtils.ts:19-25 | URL form, then URI form, then bare identifier |
| SpotifyUtils.BareIdUnchanged | src/utils/spotifyUtils.ts:8 | a bare identifier is returned unchanged |
| SpotifyUtils.UnparsableIsNull | src/utils/spotifyUtils.ts:40-45 | no match and no parse gives null |
| SpotifyUtils.EmbedNonIdWindow | src/utils/spotifyUtils.ts:57 | in the player URL only the identifier is a window of 22 alphanumerics |
| SpotifyUtils.EmbedUrlMatchesNoPattern | src/utils/spotifyUtils.ts:5-9 | no pattern matches a player URL |
| SpotifyUtils.EmbedPathSegments | src/utils/spotifyUtils.ts:30 | the player path splits into empty, `embed`, `playlist` and the identifier |
| SpotifyUtils.EmbedUrlRoundTrip | src/utils/spotifyUtils.ts:14-58 | the identifier is recovered from its player URL |
| GroqClient.ReplyText | groq_client.py:36-42 | the completion's text, or the error prefix followed by the exception's message |
| GroqClient.UserCount | groq_client.py:44-45 | the count is at most the conversation length |
| GroqClient.UserCountIsPositions | groq_client.py:44-45 | the count is the number of positions holding a user turn |
| GroqClient.UserCountAppend | groq_client.py:44-45 | the count of a concatenation is the sum of the counts |
| GroqClient.SystemNotCounted | groq_client.py:15-25 | the leading system prompt is never counted |
| GroqClient.Client.constructor | groq_client.py:8-11 | the conversation is the system prompt alone; count 0 |
| GroqClient.Client.ResetConversation | groq_client.py:13-25 | the conversation is the system prompt alone; count 0 |
| GroqClient.Client.GenerateResponse | groq_client.py:27-42 | appends the user turn and, on success, the reply; on failure returns the error text; the count rises by one; the system prompt stays first |
| GroqClient.Client.UserMessageCount | groq_client.py:44-45 | the number of user turns |
| StreamlitApp.PlaylistLinkMessage | app.py:112-121 | an assistant message whose HTML wraps exactly the playlist URL |
| StreamlitApp.Exchange | app.py:91-95 | the user's message, then the assistant's reply or error text |
| StreamlitApp.SessionState.constructor | app.py:25-32 | nothing is set in a fresh session |
| StreamlitApp.SessionState.InitSession | app.py:16-32 | creates the conversation keeper and the message list only when absent; existing values stay |
| StreamlitApp.SessionState.CreatePlaylist | app.py:101-125 | a truthy URL appends one link message and resets the conversation; a falsy one changes nothing; a raise only adds the error text |
| StreamlitApp.SessionState.ProcessUserMessage | app.py:90-99 | appends the exchange; playlist creation runs exactly when the user count reaches five |
| SpotifyClient.ScopeParam | spotify_client.py:32 | the three scopes joined by single spaces; `ScopeParamRoundTrip` reads them back |
| SpotifyClient.ScopeParamRoundTrip | spotify_client.py:32 | the scope parameter splits on spaces back into the three scopes |
| SpotifyClient.AuthParams | spotify_client.py:27-36 | six distinct parameters, with scope and state in place |
| SpotifyClient.ExpiresIn | spotify_client.py:48 | 3600 when absent; converts exactly when absent or an integer; `null` raises `TypeError`, a string `ValueError` |
| SpotifyClient.Stamped | spotify_client.py:48 | adds `expires_at` = now + lifetime and keeps every other entry |
| SpotifyClient.WithRefreshToken | spotify_client.py:57 | keeps the response's refresh token, else writes the old one |
| SpotifyClient.ExchangeCodeForToken | spotify_client.py:38-49 | an HTTP error raises; otherwise the stamped token |
| SpotifyClient.RefreshAccessToken | spotify_client.py:51-59 | an HTTP error raises; otherwise the stamped token carrying a refresh token, the old one if none came back |
| SpotifyClient.NeedsRefresh | spotify_client.py:64 | raises exactly for a non-numeric `expires_at`; no refresh exactly when it is over 60 s ahead |
| SpotifyClient.MissingExpiryRefreshes | spotify_client.py:64 | a token without `expires_at` is always refreshed |
| SpotifyClient.StampedNotDue | spotify_client.py:48 | a fresh token living over 60 s is not due when stamped |
| SpotifyClient.StampedDueBeforeExpiry | spotify_client.py:64 | a stamped token is due exactly from its stamping time plus its lifetime minus 60 s |
| SpotifyClient.EnsureToken | spotify_client.py:61-66 | an empty token is returned; a due one is refreshed, raising without a refresh token; otherwise unchanged |
| SpotifyClient.Items | spotify_client.py:85 | the items, or none when either level is missing |
| SpotifyClient.SearchTrackFull | spotify_client.py:83-97 | None exactly for no items; otherwise the first track's fields with artist names joined by ", " |
| SpotifyClient.ArtistNamesRecoverable | spotify_client.py:89 | the joined artist names split back when no name holds a comma |
| SpotifyClient.AddTracksToPlaylist | spotify_client.py:105-108 | no request exactly for an empty list; otherwise the playlist's tracks path with the URIs |

## Left out

- Network calls are not modelled: `fetch`, `axios`, `requests`, the Groq completion and the Spotify Web API. Each response is an input of the model. Request bodies, headers, credentials and the `lang` field sent with a chat message are left out.
- Logging (`logInfo`, `logError`, `console`, `src/utils/logUtils.ts`) is left out; it has no effect on state.
- JSX markup, CSS classes, icons, focus and scrolling are left out, and so are the view-only components. The result page keeps only the choice of view and the player URL.
- Timers are events, not clocks: the one-second poll and the two-minute popup timeout are the methods `PollTick` and `TimeoutFires`. The five-minute `checkAuth` interval of `src/App.js` is left out; each tick would be one more `CompleteCheckAuth`.
- The popup's size and position, computed in floating point from the screen size, are left out; so is `popup.focus()`.
- The WHATWG URL parser is the input `pathnameOf`; `urlencode` in `build_auth_url` is left out, so `AuthParams` stops at the parameter list.
- `streamlit_app.py` and `spotify_auth.py` are not part of this model. The Streamlit page layout (`show_header`, `show_chat_messages`, `show_auth_button`, `show_footer`, `main`) and the Spotify OAuth object of `app.py` are left out. `get_current_user`, `create_playlist`, `api_get`, `api_post` and `_basic_auth_header` in `spotify_client.py` are HTTP wrappers and are left out.
- JavaScript `null` and `undefined` are both `None`. Object keys inherited from `Object.prototype` (a language code such as `constructor`) are not modelled as table entries.
- `Strings.Lower`: lower-cases only ASCII and Latin-1 letters, not the whole of Unicode `toLowerCase`; every keyword of the mood chooser lies in that range.
- `SpotifyClient.ExpiresIn`: only an integer or a missing `expires_in` converts. Every string gives `ValueError`, including a numeric string, which Python's `int()` would accept.
- `SpotifyClient.SearchTrackFull`: `uri` and `name` are required fields of the track type, so the `KeyError` a track without them would raise is not modelled; artist names are likewise plain strings.
- `ChatContext.ChatProvider.CompleteSend`: `data.resposta` is assumed to be a string; a body without it would append a message with undefined content.
- `LegacyApp.App.CompleteSend`: the playlist object is an optional string; a `playlist_created` body without `data` would throw inside the `try` and is not modelled.
- The listener callback `onSuccess` of the popup hook is not called from the model; `OnMessage` returns the identifier it would be called with.
- `AuthPopup.TimersFor`: the popup effect also re-runs when the translation function `t` changes, and the listener effect when `onSuccess` changes (`src/hooks/useAuthPopup.ts:43`, `:64`). Each re-run clears and re-creates the timers or re-registers the listener. The model re-runs the effects only on a changed popup and at mount, so it does not capture these re-runs.
- `Strings.ParseInt`: returns the exact integer, not the nearest IEEE double, and never `Infinity`. The timestamps the code stores (`Date.now()`) and the clock lie below 2^53, where the two coincide; a larger stored value is not modelled as rounded.
