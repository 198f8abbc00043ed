/**
 * `spotify_client.py`: the token bookkeeping around Spotify's OAuth endpoints
 * and the mapping of Web API responses. Each HTTP call is an input: the
 * decoded body of a successful response, or the error `raise_for_status`
 * raises. `int(time.time())` is the parameter `now`.
 */
module SpotifyClient {
  import opened Wrappers
  import opened Strings

  /** The JSON values a token field can hold. */
  datatype Json = JInt(i: int) | JStr(s: string) | JNull

  /** A decoded token response, as the `dict` the functions pass around. */
  type TokenDict = map<string, Json>

  /**
   * Why a call raised: `raise_for_status`, a missing key, an operand of the
   * wrong type (`int(None)`, comparing a string with a number), or a string
   * `int()` cannot read.
   */
  datatype ClientError = HttpError | KeyError(key: string) | TypeError | ValueError

  /** What `requests.post(TOKEN_URL, ...)` gave. */
  datatype TokenResponse = TokenOk(body: TokenDict) | TokenHttpError

  const Scopes := ["playlist-modify-public", "playlist-modify-private", "user-read-email"]

  /** How long a token lives when the response does not say. */
  const DefaultExpiresIn := 3600

  /** A token is refreshed this many seconds before it expires. */
  const ExpiryMargin := 60

  const ExpiresAtKey := "expires_at"
  const ExpiresInKey := "expires_in"
  const RefreshTokenKey := "refresh_token"

  // ---------------------------------------------------------------------------
  // Authorisation URL

  /** The `scope` parameter of `build_auth_url`. */
  function ScopeParam(): string {
    Join(Scopes, " ")
  }

  /** The scopes are separated by single spaces and can be read back one by one. */
  lemma ScopeParamRoundTrip()
    ensures Split(ScopeParam(), " ") == Scopes
  {
    forall i | 0 <= i < |Scopes|
      ensures ' ' !in Scopes[i]
    {
    }
    SplitJoin(Scopes, " ");
  }

  /** The query parameters of `build_auth_url(state)`, in order, before URL encoding. */
  function AuthParams(clientId: string, redirectUri: string, state: string): (r: seq<(string, string)>)
    ensures |r| == 6
    ensures r[3] == ("scope", ScopeParam())
    ensures r[4] == ("state", state)
    ensures forall i, j :: 0 <= i < j < |r| ==> r[i].0 != r[j].0
  {
    [("client_id", clientId), ("response_type", "code"), ("redirect_uri", redirectUri),
     ("scope", ScopeParam()), ("state", state), ("show_dialog", "false")]
  }

  // ---------------------------------------------------------------------------
  // Token post-processing

  /**
   * `int(token.get("expires_in", 3600))`; only integer values convert: `null`
   * raises `TypeError`, a string `ValueError`.
   */
  function ExpiresIn(token: TokenDict): (r: Result<int, ClientError>)
    ensures ExpiresInKey !in token ==> r == Ok(DefaultExpiresIn)
    ensures r.Ok? <==> ExpiresInKey !in token || token[ExpiresInKey].JInt?
    ensures ExpiresInKey in token && token[ExpiresInKey].JNull? ==> r == Err(TypeError)
    ensures ExpiresInKey in token && token[ExpiresInKey].JStr? ==> r == Err(ValueError)
  {
    if ExpiresInKey !in token then Ok(DefaultExpiresIn)
    else match token[ExpiresInKey]
      case JInt(i) => Ok(i)
      case JStr(_) => Err(ValueError)
      case JNull => Err(TypeError)
  }

  /** The token with `expires_at` set to `now` plus its lifetime; every other entry unchanged. */
  function Stamped(token: TokenDict, now: nat): (r: Result<TokenDict, ClientError>)
    ensures r.Ok? <==> ExpiresIn(token).Ok?
    ensures r.Ok? ==> r.value.Keys == token.Keys + {ExpiresAtKey}
    ensures r.Ok? ==> r.value[ExpiresAtKey] == JInt(now + ExpiresIn(token).value)
    ensures r.Ok? ==> forall k :: k in token && k != ExpiresAtKey ==> r.value[k] == token[k]
  {
    match ExpiresIn(token)
    case Ok(e) => Ok(token[ExpiresAtKey := JInt(now + e)])
    case Err(err) => Err(err)
  }

  /** `token.get("refresh_token", refresh_token)` written back into the token. */
  function WithRefreshToken(token: TokenDict, refreshToken: Json): (r: TokenDict)
    ensures r.Keys == token.Keys + {RefreshTokenKey}
    ensures RefreshTokenKey in token ==> r == token
    ensures RefreshTokenKey !in token ==> r[RefreshTokenKey] == refreshToken
    ensures forall k :: k in token && k != RefreshTokenKey ==> r[k] == token[k]
  {
    if RefreshTokenKey in token then token else token[RefreshTokenKey := refreshToken]
  }

  /** `exchange_code_for_token(code)` once the token endpoint has answered. */
  method ExchangeCodeForToken(resp: TokenResponse, now: nat) returns (r: Result<TokenDict, ClientError>)
    ensures resp.TokenHttpError? ==> r == Err(HttpError)
    ensures resp.TokenOk? ==> r == Stamped(resp.body, now)
  {
    if resp.TokenHttpError? {
      return Err(HttpError);
    }
    var token := resp.body;
    var expiresIn := ExpiresIn(token);
    if expiresIn.Err? {
      return Err(expiresIn.error);
    }
    token := token[ExpiresAtKey := JInt(now + expiresIn.value)];
    r := Ok(token);
  }

  /** `refresh_access_token(refresh_token)` once the token endpoint has answered. */
  method RefreshAccessToken(refreshToken: Json, resp: TokenResponse, now: nat) returns (r: Result<TokenDict, ClientError>)
    ensures resp.TokenHttpError? ==> r == Err(HttpError)
    ensures resp.TokenOk? ==> r == Stamped(WithRefreshToken(resp.body, refreshToken), now)
    ensures r.Ok? && RefreshTokenKey !in resp.body ==> r.value[RefreshTokenKey] == refreshToken
  {
    if resp.TokenHttpError? {
      return Err(HttpError);
    }
    var token := resp.body;
    if RefreshTokenKey !in token {
      token := token[RefreshTokenKey := refreshToken];
    }
    var expiresIn := ExpiresIn(token);
    if expiresIn.Err? {
      return Err(expiresIn.error);
    }
    token := token[ExpiresAtKey := JInt(now + expiresIn.value)];
    r := Ok(token);
  }

  // ---------------------------------------------------------------------------
  // Expiry

  /** The test of `ensure_token`: `token.get("expires_at", 0) - 60 <= now`, raising on a non-number. */
  function NeedsRefresh(token: TokenDict, now: nat): (r: Result<bool, ClientError>)
    ensures r.Err? <==> ExpiresAtKey in token && !token[ExpiresAtKey].JInt?
    ensures r == Ok(false) <==> ExpiresAtKey in token && token[ExpiresAtKey].JInt? && token[ExpiresAtKey].i > now + ExpiryMargin
  {
    var expiresAt := if ExpiresAtKey in token then token[ExpiresAtKey] else JInt(0);
    match expiresAt
    case JInt(at) => Ok(at - ExpiryMargin <= now)
    case _ => Err(TypeError)
  }

  /** A token that does not say when it expires is always refreshed. */
  lemma MissingExpiryRefreshes(token: TokenDict, now: nat)
    requires ExpiresAtKey !in token
    ensures NeedsRefresh(token, now) == Ok(true)
  {
  }

  /** A freshly stamped token that lives longer than the margin is not due at the moment it was stamped. */
  lemma StampedNotDue(token: TokenDict, now: nat)
    requires ExpiresIn(token).Ok? && ExpiresIn(token).value > ExpiryMargin
    ensures Stamped(token, now).Ok? && NeedsRefresh(Stamped(token, now).value, now) == Ok(false)
  {
  }

  /**
   * ... but it becomes due `ExpiresIn - 60` seconds later: the margin moves the
   * refresh ahead of the real expiry.
   */
  lemma StampedDueBeforeExpiry(token: TokenDict, stampedAt: nat, now: nat)
    requires ExpiresIn(token).Ok?
    ensures NeedsRefresh(Stamped(token, stampedAt).value, now) == Ok(true)
      <==> now >= stampedAt + ExpiresIn(token).value - ExpiryMargin
  {
  }

  /**
   * `ensure_token(token)`: an empty token is returned as it is; a token due
   * for refresh is replaced by the refreshed one; any other is kept.
   * `refreshResp` is what the token endpoint answers if it is asked.
   */
  method EnsureToken(token: TokenDict, now: nat, refreshResp: TokenResponse) returns (r: Result<TokenDict, ClientError>)
    ensures |token| == 0 ==> r == Ok(token)
    ensures |token| > 0 && NeedsRefresh(token, now).Err? ==> r == Err(TypeError)
    ensures |token| > 0 && NeedsRefresh(token, now) == Ok(false) ==> r == Ok(token)
    ensures |token| > 0 && NeedsRefresh(token, now) == Ok(true) && RefreshTokenKey !in token ==>
      r == Err(KeyError(RefreshTokenKey))
    ensures |token| > 0 && NeedsRefresh(token, now) == Ok(true) && RefreshTokenKey in token ==>
      (refreshResp.TokenHttpError? ==> r == Err(HttpError))
      && (refreshResp.TokenOk? ==> r == Stamped(WithRefreshToken(refreshResp.body, token[RefreshTokenKey]), now))
  {
    if |token| == 0 {
      return Ok(token);
    }
    var due := NeedsRefresh(token, now);
    if due.Err? {
      return Err(due.error);
    }
    r := Ok(token);
    if due.value {
      if RefreshTokenKey !in token {
        return Err(KeyError(RefreshTokenKey));
      }
      r := RefreshAccessToken(token[RefreshTokenKey], refreshResp, now);
    }
  }

  // ---------------------------------------------------------------------------
  // Search results and track lists

  /** A track object of the search result; the keys `t[...]` reads are required, the others optional. */
  datatype TrackItem = TrackItem(
    uri: string,
    name: string,
    artists: Option<seq<string>>,
    previewUrl: Option<string>,
    externalUrls: Option<map<string, string>>,
    id: Option<string>)

  /** The body of `GET /search`: `tracks` and its `items` may each be absent. */
  datatype SearchData = SearchData(tracks: Option<Option<seq<TrackItem>>>)

  /** The dictionary `search_track_full` returns. */
  datatype TrackSummary = TrackSummary(
    uri: string,
    name: string,
    artist: string,
    previewUrl: Option<string>,
    externalUrl: Option<string>,
    id: Option<string>)

  const ArtistSeparator := ", "

  /** `data.get("tracks", {}).get("items", [])`. */
  function Items(data: SearchData): (r: seq<TrackItem>)
    ensures data.tracks.None? || data.tracks.value.None? ==> r == []
    ensures data.tracks.Some? && data.tracks.value.Some? ==> r == data.tracks.value.value
  {
    data.tracks.GetOr(None).GetOr([])
  }

  /** The artist names of a track, `[]` when it lists none. */
  function ArtistNames(t: TrackItem): seq<string> {
    t.artists.GetOr([])
  }

  /** `search_track_full(access_token, query)` on the search response; `None` for no hit. */
  function SearchTrackFull(resp: Result<SearchData, ClientError>): (r: Result<Option<TrackSummary>, ClientError>)
    ensures resp.Err? ==> r == Err(resp.error)
    ensures resp.Ok? ==> r.Ok? && (r.value.None? <==> |Items(resp.value)| == 0)
    ensures resp.Ok? && r.value.Some? ==>
      var t := Items(resp.value)[0];
      var s := r.value.value;
      s.uri == t.uri && s.name == t.name && s.previewUrl == t.previewUrl && s.id == t.id
      && s.artist == Join(ArtistNames(t), ArtistSeparator)
      && (t.externalUrls.Some? && "spotify" in t.externalUrls.value ==> s.externalUrl == Some(t.externalUrls.value["spotify"]))
      && (t.externalUrls.None? || "spotify" !in t.externalUrls.value ==> s.externalUrl.None?)
  {
    match resp
    case Err(e) => Err(e)
    case Ok(data) =>
      var items := Items(data);
      if |items| == 0 then Ok(None)
      else
        var t := items[0];
        var urls := t.externalUrls.GetOr(map[]);
        var external := if "spotify" in urls then Some(urls["spotify"]) else None;
        Ok(Some(TrackSummary(t.uri, t.name, Join(ArtistNames(t), ArtistSeparator), t.previewUrl, external, t.id)))
  }

  /** The joined `artist` field gives back the names, as long as no name holds a comma. */
  lemma ArtistNamesRecoverable(data: SearchData)
    requires |Items(data)| > 0
    requires |ArtistNames(Items(data)[0])| > 0
    requires forall i :: 0 <= i < |ArtistNames(Items(data)[0])| ==> ',' !in ArtistNames(Items(data)[0])[i]
    ensures SearchTrackFull(Ok(data)).Ok? && SearchTrackFull(Ok(data)).value.Some?
    ensures Split(SearchTrackFull(Ok(data)).value.value.artist, ArtistSeparator) == ArtistNames(Items(data)[0])
  {
    SplitJoin(ArtistNames(Items(data)[0]), ArtistSeparator);
  }

  /** The request `add_tracks_to_playlist` sends: `POST /playlists/<id>/tracks` with `{"uris": uris}`. */
  datatype AddTracksRequest = AddTracksRequest(path: string, uris: seq<string>)

  /** `add_tracks_to_playlist(access_token, playlist_id, uris)`: no request at all for an empty list. */
  function AddTracksToPlaylist(playlistId: string, uris: seq<string>): (r: Option<AddTracksRequest>)
    ensures r.None? <==> |uris| == 0
    ensures r.Some? ==> r.value.uris == uris && r.value.path == "/playlists/" + playlistId + "/tracks"
  {
    if |uris| == 0 then None
    else Some(AddTracksRequest("/playlists/" + playlistId + "/tracks", uris))
  }
}
